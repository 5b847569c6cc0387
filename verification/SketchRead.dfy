/** ow_read's element-by-element loop and the single read it replaced. */
module SketchRead {
  import opened Bytes
  import opened Verbs
  import opened Rendezvous
  import opened Preservation

  /** What one turn of the loop posts: address and key as known, put into the work request. */
  function ElementRequest(known: Known, i: nat): WorkRequest {
    Request(known, Target(ElementAddress(known.sketchInfo.addr, i), known.sketchInfo.rkey), OwRead(true), i)
  }

  /** The requests of the loop's first `n` iterations, one after the other. */
  function ElementReads(known: Known, n: nat, l: LocalMemory, m: ServerMemory): Option<LocalMemory> {
    if n == 0 then Some(l)
    else match ElementReads(known, n - 1, l, m)
      case None => None
      case Some(l') =>
        var r := ElementRequest(known, n - 1);
        ReadInto(l', m, r.raddr, r.rkey, r.scatter)
  }

  /** The request that read data_size * sizeof(int) bytes at once. */
  function BulkRead(known: Known, n: nat, l: LocalMemory, m: ServerMemory): Option<LocalMemory> {
    ReadInto(l, m, known.sketchInfo.addr, known.sketchInfo.rkey, [Sge(SketchBuf, 0, 4 * n)])
  }

  /** The client knows the sketch region's address and key, and no other region has that key. */
  ghost predicate Knows(known: Known, m: ServerMemory) {
    && known.sketchInfo.addr == m.sketch.base && known.sketchInfo.rkey == m.sketch.rkey
    && m.start.rkey != m.sketch.rkey && m.cls.rkey != m.sketch.rkey
    && Addressable(m.sketch)
  }

  /** Either way the first 4n bytes arrive if both regions have them, and nothing otherwise. */
  function Outcome(n: nat, l: LocalMemory, m: ServerMemory): Option<LocalMemory> {
    if 4 * n <= |m.sketch.bytes| && 4 * n <= |l.sketch|
    then Some(l.(sketch := Put(l.sketch, 0, m.sketch.bytes[..4 * n])))
    else None
  }

  lemma BulkOutcome(known: Known, n: nat, l: LocalMemory, m: ServerMemory)
    requires Knows(known, m)
    ensures BulkRead(known, n, l, m) == Outcome(n, l, m)
  {
    var g := Sge(SketchBuf, 0, 4 * n);
    assert TotalLength([g]) == g.len + TotalLength([]);
    if 4 * n <= |m.sketch.bytes| && 4 * n <= |l.sketch| {
      ReadOne(l, m, m.sketch.base, m.sketch.rkey, g);
    }
  }

  /** One element more: the request's addresses, with the sum taken modulo 2^64. */
  lemma ElementOutcome(known: Known, i: nat, l: LocalMemory, m: ServerMemory)
    requires Knows(known, m) && i < TWO_32 && 4 * i <= |m.sketch.bytes|
    ensures var r := ElementRequest(known, i);
            ReadInto(l, m, r.raddr, r.rkey, r.scatter)
            == if 4 * (i + 1) <= |m.sketch.bytes| && 4 * (i + 1) <= |l.sketch|
               then Some(l.(sketch := Put(l.sketch, 4 * i, m.sketch.bytes[4 * i..4 * i + 4])))
               else None
  {
    var r := ElementRequest(known, i);
    var g := r.scatter[0];
    assert TotalLength([g]) == g.len + TotalLength([]);
    if 4 * (i + 1) <= |m.sketch.bytes| {
      assert r.raddr == m.sketch.base + 4 * i;
      if 4 * (i + 1) <= |l.sketch| { ReadOne(l, m, r.raddr, r.rkey, g); }
    }
  }

  lemma {:induction false} LoopOutcome(known: Known, n: nat, l: LocalMemory, m: ServerMemory)
    requires Knows(known, m) && n <= TWO_32
    ensures ElementReads(known, n, l, m) == Outcome(n, l, m)
  {
    hide ReadInto, ElementRequest;
    if n == 0 {
      assert Put(l.sketch, 0, m.sketch.bytes[..0]) == l.sketch;
    } else {
      LoopOutcome(known, n - 1, l, m);
      var before := Outcome(n - 1, l, m);
      if before.Some? {
        ElementOutcome(known, n - 1, before.value, m);
        if 4 * n <= |m.sketch.bytes| && 4 * n <= |l.sketch| {
          PutTwice(l.sketch, m.sketch.bytes, 4 * (n - 1), 4 * n);
        }
      }
    }
  }

  lemma PutTwice(s: seq<Byte>, b: seq<Byte>, i: nat, j: nat)
    requires i <= j <= |s| && j <= |b|
    ensures Put(Put(s, 0, b[..i]), i, b[i..j]) == Put(s, 0, b[..j])
  {
    assert b[..j] == b[..i] + b[i..j];
  }

  /** The loop refines the bulk read: on stable server memory both leave the same buffer, and
      both are refused when and only when some range is not registered. */
  lemma LoopRefinesBulk(known: Known, n: nat, l: LocalMemory, m: ServerMemory)
    requires Knows(known, m) && n <= TWO_32
    ensures ElementReads(known, n, l, m) == BulkRead(known, n, l, m)
    ensures BulkRead(known, n, l, m).Some? <==> 4 * n <= |m.sketch.bytes| && 4 * n <= |l.sketch|
  {
    LoopOutcome(known, n, l, m);
    BulkOutcome(known, n, l, m);
  }
}
