/** The RdmaTest object, its serialised form, and its reconstruction on the client
    from a header buffer and a data buffer. */
module ClassTransfer {
  import opened Bytes

  const HEADER_SIZE: nat := 32          // sizeof(RdmaTest): three words, padding, two pointers
  const HEADER_WORDS: nat := HEADER_SIZE / 4
  const SEND_WORDS: nat := 5000         // words reserved behind the header in class_send_buf
  const RECV_WORDS: nat := 100          // words the client asks for
  const CLASS_RECV_DATA_SIZE: nat := 1000
  const CLASS_RECV_BUF_SIZE: nat := 4000

  /** A RdmaTest in memory. `data` is what `data_buf` points to; `rest` is the object
      representation after the three words: padding and the two pointers. */
  datatype RdmaTestValue = RdmaTestValue(size: U32, a: U32, b: U32, rest: seq<Byte>, data: seq<U32>)

  predicate WellFormed(v: RdmaTestValue) {
    |v.rest| == HEADER_SIZE - 12 && |v.data| == v.size
  }

  /** data_buf[i] = i, the array every constructor call builds. */
  function Iota(n: nat): (s: seq<U32>)
    requires n <= TWO_32
    ensures |s| == n && forall i :: 0 <= i < n ==> s[i] == i
  {
    seq(n, i requires 0 <= i < n => i)
  }

  /** A heap object with the fields and constructor of RdmaTest (pointers aside). */
  class RdmaTest {
    var size: U32
    var a: U32
    var b: U32
    var dataBuf: array<U32>

    constructor (size: U32, a: U32, b: U32)
      ensures this.size == size && this.a == a && this.b == b
      ensures fresh(dataBuf) && dataBuf[..] == Iota(size)
    {
      this.size, this.a, this.b := size, a, b;
      var data := new U32[size];
      var i := 0;
      while i < size
        invariant 0 <= i <= size
        invariant forall j :: 0 <= j < i ==> data[j] == j
      {
        data[i] := i;
        i := i + 1;
      }
      dataBuf := data;
    }

    /** The object as a value; `rest` is its representation after the three words. */
    function Value(rest: seq<Byte>): RdmaTestValue
      reads this, dataBuf
    {
      RdmaTestValue(size, a, b, rest, dataBuf[..])
    }
  }

  /** The bytes of the object itself: what memcpy of sizeof(RdmaTest) copies. */
  function Header(v: RdmaTestValue): (h: seq<Byte>)
    requires WellFormed(v)
    ensures |h| == HEADER_SIZE
  {
    Le(4, v.size) + Le(4, v.a) + Le(4, v.b) + v.rest
  }

  // ------------------------------------------------------------------------- the two copies

  /** class_send_buf after both copies of init_class_recv; `stale` is what was there before. */
  function Serialized(v: RdmaTestValue, stale: seq<Byte>): (b: seq<Byte>)
    requires WellFormed(v) && HEADER_SIZE + 4 * v.size <= |stale|
    ensures |b| == |stale|
  {
    Put(Put(stale, 0, Header(v)), HEADER_SIZE, Words(v.data))
  }

  /** The words the two copies write, one after the other. */
  function CopiedWords(v: RdmaTestValue): nat { HEADER_WORDS + |v.data| }

  function CopiedWord(v: RdmaTestValue, j: nat): (w: seq<Byte>)
    requires WellFormed(v) && j < CopiedWords(v)
    ensures |w| == 4
  {
    if j < HEADER_WORDS then Header(v)[4 * j..4 * j + 4] else Le(4, v.data[j - HEADER_WORDS])
  }

  /** class_send_buf after the first `j` of those words. */
  function Partly(v: RdmaTestValue, stale: seq<Byte>, j: nat): (b: seq<Byte>)
    requires WellFormed(v) && HEADER_SIZE + 4 * v.size <= |stale| && j <= CopiedWords(v)
    ensures |b| == |stale|
  {
    Serialized(v, stale)[..4 * j] + stale[4 * j..]
  }

  lemma CopiedWordIs(v: RdmaTestValue, stale: seq<Byte>, j: nat)
    requires WellFormed(v) && HEADER_SIZE + 4 * v.size <= |stale| && j < CopiedWords(v)
    ensures Serialized(v, stale)[4 * j..4 * j + 4] == CopiedWord(v, j)
  {
    hide WordAt, Words, Le;
    var s, w := Serialized(v, stale), Words(v.data);
    if j < HEADER_WORDS {
      assert s[..HEADER_SIZE] == Put(stale, 0, Header(v))[..HEADER_SIZE] == Header(v);
      assert s[0..HEADER_SIZE] == s[..HEADER_SIZE];
      WordWithin(s, 0, HEADER_SIZE, 4 * j);
    } else {
      var k := j - HEADER_WORDS;
      assert s[HEADER_SIZE..HEADER_SIZE + |w|] == w;
      WordWithin(s, HEADER_SIZE, HEADER_SIZE + |w|, 4 * k);
      WordBytes(v.data, k);
    }
  }

  /** The copies start from what was there, write a word at a time, and end with the
      serialised object. */
  lemma CopyAdvances(v: RdmaTestValue, stale: seq<Byte>, j: nat)
    requires WellFormed(v) && HEADER_SIZE + 4 * v.size <= |stale| && j <= CopiedWords(v)
    ensures j == 0 ==> Partly(v, stale, j) == stale
    ensures j < CopiedWords(v) ==> Partly(v, stale, j + 1) == Put(Partly(v, stale, j), 4 * j, CopiedWord(v, j))
    ensures j == CopiedWords(v) ==> Partly(v, stale, j) == Serialized(v, stale)
  {
    hide Serialized;
    var s := Serialized(v, stale);
    if j < CopiedWords(v) {
      CopiedWordIs(v, stale, j);
      assert s[..4 * j + 4] == s[..4 * j] + s[4 * j..4 * j + 4];
    } else {
      SerializedTail(v, stale);
    }
  }

  lemma SerializedTail(v: RdmaTestValue, stale: seq<Byte>)
    requires WellFormed(v) && HEADER_SIZE + 4 * v.size <= |stale|
    ensures Serialized(v, stale)[4 * CopiedWords(v)..] == stale[4 * CopiedWords(v)..]
    ensures Serialized(v, stale)[..4 * CopiedWords(v)] + stale[4 * CopiedWords(v)..] == Serialized(v, stale)
  {
    var half, w := Put(stale, 0, Header(v)), Words(v.data);
    var from := HEADER_SIZE + |w|;
    assert half[from..] == half[HEADER_SIZE..][|w|..] == stale[HEADER_SIZE..][|w|..] == stale[from..];
    assert Put(half, HEADER_SIZE, w)[from..] == half[from..];
  }

  /** Each word of a partial copy is the new one or the old one, never a mixture. */
  lemma PartlyWord(v: RdmaTestValue, stale: seq<Byte>, j: nat, k: nat)
    requires WellFormed(v) && HEADER_SIZE + 4 * v.size <= |stale| && j <= CopiedWords(v)
    requires 4 * k + 4 <= |stale|
    ensures WordAt(Partly(v, stale, j), 4 * k)
            == if k < j then WordAt(Serialized(v, stale), 4 * k) else WordAt(stale, 4 * k)
  {
    hide Serialized;
    var s, p := Serialized(v, stale), Partly(v, stale, j);
    hide WordAt;
    if k < j {
      assert p[0..4 * j] == s[0..4 * j];
      WordWithin(p, 0, 4 * j, 4 * k);
      WordWithin(s, 0, 4 * j, 4 * k);
    } else {
      assert p[4 * j..|p|] == stale[4 * j..|stale|];
      WordWithin(p, 4 * j, |p|, 4 * k - 4 * j);
      WordWithin(stale, 4 * j, |stale|, 4 * k - 4 * j);
    }
  }

  // ---------------------------------------------------------------------- what the client sees

  /** What the client's caller sees: the three words of the header buffer, and the data buffer. */
  datatype Received = Received(size: U32, a: U32, b: U32, dataBuf: seq<Byte>)

  function Reconstruct(header: seq<Byte>, dataBuf: seq<Byte>): Received
    requires |header| >= HEADER_SIZE
  {
    Received(WordAt(header, 0), WordAt(header, 4), WordAt(header, 8), dataBuf)
  }

  /** The received object has the original's words, in full. */
  ghost predicate Agrees(r: Received, v: RdmaTestValue) {
    && r.size == v.size && r.a == v.a && r.b == v.b
    && |v.data| == v.size && 4 * v.size <= |r.dataBuf|
    && forall k :: 0 <= k < v.size ==> WordAt(r.dataBuf, 4 * k) == v.data[k]
  }

  /** `b` starts with a serialised object whose words, as far as a read covers them, are `v`'s. */
  ghost predicate Holds(b: seq<Byte>, v: RdmaTestValue) {
    && |b| >= HEADER_SIZE + 4 * RECV_WORDS && |v.data| == v.size
    && WordAt(b, 0) == v.size && WordAt(b, 4) == v.a && WordAt(b, 8) == v.b
    && forall k :: 0 <= k < v.size && k < RECV_WORDS ==> WordAt(b, HEADER_SIZE + 4 * k) == v.data[k]
  }

  /** The data buffer has the elements that no read covers. */
  ghost predicate TailHolds(dataBuf: seq<Byte>, v: RdmaTestValue) {
    && |v.data| == v.size
    && (v.size > RECV_WORDS ==> 4 * v.size <= |dataBuf|)
    && forall k :: RECV_WORDS <= k < v.size ==> WordAt(dataBuf, 4 * k) == v.data[k]
  }

  /** A client that has read the start of `b` sees the object exactly when `b` holds it and the
      data buffer already had what lies beyond the 100 words it asks for. */
  lemma AgreesIffHolds(h: seq<Byte>, d: seq<Byte>, b: seq<Byte>, v: RdmaTestValue)
    requires |h| == CLASS_RECV_DATA_SIZE && |d| == CLASS_RECV_BUF_SIZE && |b| >= HEADER_SIZE + 4 * RECV_WORDS
    requires WellFormed(v)
    requires h[..HEADER_SIZE] == b[..HEADER_SIZE]
    requires d[..4 * RECV_WORDS] == b[HEADER_SIZE..HEADER_SIZE + 4 * RECV_WORDS]
    ensures Agrees(Reconstruct(h, d), v) <==> Holds(b, v) && TailHolds(d, v)
  {
    hide WordAt;
    assert h[0..HEADER_SIZE] == h[..HEADER_SIZE] == b[0..HEADER_SIZE];
    assert d[0..4 * RECV_WORDS] == d[..4 * RECV_WORDS];
    forall off | off == 0 || off == 4 || off == 8 ensures WordAt(h, off) == WordAt(b, off) {
      WordWithin(h, 0, HEADER_SIZE, off);
      WordWithin(b, 0, HEADER_SIZE, off);
    }
    forall k | 0 <= k < RECV_WORDS ensures WordAt(d, 4 * k) == WordAt(b, HEADER_SIZE + 4 * k) {
      WordWithin(d, 0, 4 * RECV_WORDS, 4 * k);
      WordWithin(b, HEADER_SIZE, HEADER_SIZE + 4 * RECV_WORDS, 4 * k);
    }
  }

  lemma HeaderWords(v: RdmaTestValue)
    requires WellFormed(v)
    ensures WordAt(Header(v), 0) == v.size && WordAt(Header(v), 4) == v.a && WordAt(Header(v), 8) == v.b
  {
    var h := Header(v);
    WordWidths();
    LeRoundTrip(4, v.size); LeRoundTrip(4, v.a); LeRoundTrip(4, v.b);
    assert h[0..4] == Le(4, v.size) && h[4..8] == Le(4, v.a) && h[8..12] == Le(4, v.b);
  }

  lemma HeaderRest(v: RdmaTestValue, stale: seq<Byte>)
    requires WellFormed(v) && HEADER_SIZE + 4 * v.size <= |stale|
    ensures Serialized(v, stale)[12..HEADER_SIZE] == v.rest
  {
    var s := Serialized(v, stale);
    assert s[..HEADER_SIZE] == Put(stale, 0, Header(v))[..HEADER_SIZE] == Header(v);
    assert s[12..HEADER_SIZE] == s[..HEADER_SIZE][12..] == Header(v)[12..];
  }

  /** The serialised object: three words, the rest of the object up to byte 32, then the array;
      and behind that what was there before. */
  lemma SerializedWords(v: RdmaTestValue, stale: seq<Byte>)
    requires WellFormed(v) && HEADER_SIZE + 4 * v.size <= |stale|
    ensures var s := Serialized(v, stale);
            && WordAt(s, 0) == v.size && WordAt(s, 4) == v.a && WordAt(s, 8) == v.b
            && s[12..32] == v.rest
            && (forall k :: 0 <= k < v.size ==> WordAt(s, 32 + 4 * k) == v.data[k])
            && s[32 + 4 * v.size..] == stale[32 + 4 * v.size..]
  {
    hide Serialized, Header;
    HeaderWords(v);
    HeaderRest(v, stale);
    SerializedTail(v, stale);
    CopiedWordIs(v, stale, 0); CopiedWordIs(v, stale, 1); CopiedWordIs(v, stale, 2);
    forall k | 0 <= k < v.size ensures WordAt(Serialized(v, stale), HEADER_SIZE + 4 * k) == v.data[k] {
      CopiedWordIs(v, stale, HEADER_WORDS + k);
      WordWidths();
      LeRoundTrip(4, v.data[k]);
    }
  }

  /** The copies end with the object held, and no word of them damages one already there. */
  lemma CopiesHold(v: RdmaTestValue, stale: seq<Byte>, j: nat)
    requires WellFormed(v) && v.size <= SEND_WORDS && |stale| == HEADER_SIZE + 4 * SEND_WORDS && j <= CopiedWords(v)
    ensures Holds(Serialized(v, stale), v)
    ensures Holds(stale, v) ==> Holds(Partly(v, stale, j), v)
  {
    hide Serialized, Partly;
    SerializedWords(v, stale);
    var p := Partly(v, stale, j);
    if Holds(stale, v) {
      PartlyWord(v, stale, j, 0); PartlyWord(v, stale, j, 1); PartlyWord(v, stale, j, 2);
      forall k | 0 <= k < v.size && k < RECV_WORDS ensures WordAt(p, HEADER_SIZE + 4 * k) == v.data[k] {
        PartlyWord(v, stale, j, HEADER_WORDS + k);
      }
    }
  }

  /** What Reconstruct sees after the read of `remote` landed in the two buffers. */
  function AfterRead(header: seq<Byte>, data: seq<Byte>, remote: seq<Byte>): Received
    requires |header| == CLASS_RECV_DATA_SIZE && |data| == CLASS_RECV_BUF_SIZE
    requires |remote| >= HEADER_SIZE + 4 * RECV_WORDS
  {
    Reconstruct(Put(header, 0, remote[..HEADER_SIZE]),
                Put(data, 0, remote[HEADER_SIZE..HEADER_SIZE + 4 * RECV_WORDS]))
  }

  /** The scatter read of the serialised object gives back its three words, and gives all of it
      back exactly when the data buffer had the elements beyond the first 100. */
  lemma RoundTrip(v: RdmaTestValue, stale: seq<Byte>, h: seq<Byte>, d: seq<Byte>)
    requires WellFormed(v) && v.size <= SEND_WORDS && |stale| == HEADER_SIZE + 4 * SEND_WORDS
    requires |h| == CLASS_RECV_DATA_SIZE && |d| == CLASS_RECV_BUF_SIZE
    ensures var r := AfterRead(h, d, Serialized(v, stale));
            && r.size == v.size && r.a == v.a && r.b == v.b
            && (Agrees(r, v) <==> TailHolds(d, v))
  {
    hide Serialized;
    var s := Serialized(v, stale);
    var d' := Put(d, 0, s[HEADER_SIZE..HEADER_SIZE + 4 * RECV_WORDS]);
    SerializedWords(v, stale);
    CopiesHold(v, stale, 0);
    HeaderSurvives(h, s);
    AgreesIffHolds(Put(h, 0, s[..HEADER_SIZE]), d', s, v);
    SameTail(d, d', v);
  }

  lemma HeaderSurvives(h: seq<Byte>, s: seq<Byte>)
    requires |h| >= HEADER_SIZE && |s| >= HEADER_SIZE
    ensures var h' := Put(h, 0, s[..HEADER_SIZE]);
            WordAt(h', 0) == WordAt(s, 0) && WordAt(h', 4) == WordAt(s, 4) && WordAt(h', 8) == WordAt(s, 8)
  {
    hide WordAt;
    var h' := Put(h, 0, s[..HEADER_SIZE]);
    assert h'[0..HEADER_SIZE] == s[0..HEADER_SIZE];
    forall off | off == 0 || off == 4 || off == 8 ensures WordAt(h', off) == WordAt(s, off) {
      WordWithin(h', 0, HEADER_SIZE, off);
      WordWithin(s, 0, HEADER_SIZE, off);
    }
  }

  /** Buffers that agree beyond what a read covers have the same tail. */
  lemma SameTail(d: seq<Byte>, d': seq<Byte>, v: RdmaTestValue)
    requires |d| == |d'| >= 4 * RECV_WORDS && d[4 * RECV_WORDS..] == d'[4 * RECV_WORDS..]
    ensures TailHolds(d, v) <==> TailHolds(d', v)
  {
    hide WordAt;
    var at := 4 * RECV_WORDS;
    assert d[at..|d|] == d[at..] == d'[at..|d'|];
    forall k | RECV_WORDS <= k && 4 * k + 4 <= |d| ensures WordAt(d, 4 * k) == WordAt(d', 4 * k) {
      WordWithin(d, at, |d|, 4 * k - at);
      WordWithin(d', at, |d'|, 4 * k - at);
    }
  }

  /** Receive buffers whose word 100 differs from `w`. */
  function StaleBuffers(w: U32): (b: (seq<Byte>, seq<Byte>))
    ensures |b.0| == CLASS_RECV_DATA_SIZE && |b.1| == CLASS_RECV_BUF_SIZE
    ensures WordAt(b.1, 4 * RECV_WORDS) != w
  {
    var x: U32 := if w == 0 then 1 else 0;
    WordWidths();
    LeRoundTrip(4, x);
    var d: seq<Byte> := Put(seq(CLASS_RECV_BUF_SIZE, _ => 0), 4 * RECV_WORDS, Le(4, x));
    assert d[4 * RECV_WORDS..4 * RECV_WORDS + 4] == Le(4, x);
    (seq(CLASS_RECV_DATA_SIZE, _ => 0), d)
  }

  /** Round trip: the scatter read gives the object back whatever the receive buffers held
      before, if and only if it has at most 100 elements. */
  lemma RoundTripIff(v: RdmaTestValue, stale: seq<Byte>)
    requires WellFormed(v) && v.size <= SEND_WORDS && |stale| == HEADER_SIZE + 4 * SEND_WORDS
    ensures v.size <= 100 <==>
            forall h: seq<Byte>, d: seq<Byte> | |h| == CLASS_RECV_DATA_SIZE && |d| == CLASS_RECV_BUF_SIZE ::
              Agrees(AfterRead(h, d, Serialized(v, stale)), v)
  {
    hide Serialized, AfterRead, Agrees;
    forall h: seq<Byte>, d: seq<Byte>
      | |h| == CLASS_RECV_DATA_SIZE && |d| == CLASS_RECV_BUF_SIZE && v.size <= RECV_WORDS
      ensures Agrees(AfterRead(h, d, Serialized(v, stale)), v)
    {
      RoundTrip(v, stale, h, d);
    }
    if v.size > RECV_WORDS {
      var (h, d) := StaleBuffers(v.data[RECV_WORDS]);
      RoundTrip(v, stale, h, d);
      assert WordAt(d, 4 * RECV_WORDS) != v.data[RECV_WORDS];
    }
  }
}
