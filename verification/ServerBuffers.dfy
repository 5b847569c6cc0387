/** The server's two in-place buffer routines, on arrays: the fill loop of init_sketch_rdma
    and the two copies of init_class_recv. */
module ServerBuffers {
  import opened Bytes
  import opened ClassTransfer
  import opened Rendezvous

  /** A store of consecutive bytes. */
  method StoreBytes(buf: array<Byte>, off: nat, d: seq<Byte>)
    requires off + |d| <= buf.Length
    modifies buf
    ensures buf[..] == Put(old(buf[..]), off, d)
  {
    forall k | 0 <= k < |d| { buf[off + k] := d[k]; }
  }

  /** data[i] = i for each 32-bit element. */
  method FillSketch(data: array<Byte>, n: nat)
    requires data.Length == 4 * n
    modifies data
    ensures data[..] == SketchBytes(n)
    ensures n <= TWO_32 ==> data[..] == Words(Iota(n))
  {
    hide Le;
    var i := 0;
    while i < n
      invariant 0 <= i <= n
      invariant data[..][..4 * i] == SketchBytes(i)
    {
      ghost var before := data[..];
      StoreBytes(data, 4 * i, Le(4, i));
      PutExtends(before, 4 * i, Le(4, i));
      i := i + 1;
    }
    assert data[..][..4 * n] == data[..];
    if n <= TWO_32 { SketchIsIota(n); }
  }

  lemma PutExtends(b: seq<Byte>, off: nat, d: seq<Byte>)
    requires off + |d| <= |b|
    ensures Put(b, off, d)[..off + |d|] == b[..off] + d
  {
  }

  /** The filled sketch is the array 0, 1, 2, ... of words. */
  lemma {:induction false} SketchIsIota(n: nat)
    requires n <= TWO_32
    ensures SketchBytes(n) == Words(Iota(n))
  {
    if n == 0 {
    } else {
      SketchIsIota(n - 1);
      assert Iota(n)[..n - 1] == Iota(n - 1);
    }
  }

  /** memcpy of the object, then of its array right behind it. */
  method CopyClass(obj: RdmaTest, rest: seq<Byte>, buf: array<Byte>)
    requires WellFormed(obj.Value(rest)) && HEADER_SIZE + 4 * obj.size <= buf.Length
    requires buf as object != obj.dataBuf as object
    modifies buf
    ensures obj.Value(rest) == old(obj.Value(rest))
    ensures buf[..] == Serialized(obj.Value(rest), old(buf[..]))
  {
    var h := Header(obj.Value(rest));
    StoreBytes(buf, 0, h);
    StoreBytes(buf, HEADER_SIZE, Words(obj.dataBuf[..]));
  }

  /** An object's whole way: constructed, copied, read in two pieces into any receive buffers,
      and looked at by the client, who sees all of it exactly when the data buffer already had
      the elements beyond the first 100. */
  method Transfer(size: U32, a: U32, b: U32, rest: seq<Byte>, buf: array<Byte>, header: seq<Byte>, data: seq<Byte>)
    returns (r: Received)
    requires |rest| == HEADER_SIZE - 12 && buf.Length == HEADER_SIZE + 4 * SEND_WORDS && size <= SEND_WORDS
    requires |header| == CLASS_RECV_DATA_SIZE && |data| == CLASS_RECV_BUF_SIZE
    modifies buf
    ensures r.size == size && r.a == a && r.b == b
    ensures var v := RdmaTestValue(size, a, b, rest, Iota(size)); Agrees(r, v) <==> TailHolds(data, v)
  {
    var obj := new RdmaTest(size, a, b);
    CopyClass(obj, rest, buf);
    r := AfterRead(header, data, buf[..]);
    RoundTrip(obj.Value(rest), old(buf[..]), header, data);
  }
}
