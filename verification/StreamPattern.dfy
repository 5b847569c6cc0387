/** The running byte pattern of format_buf and verify_buf. */
module StreamPattern {
  import opened Bytes

  /** The byte `i` places after counter value `data`. */
  function PatternByte(data: nat, i: nat): Byte { (data + i) % 256 }

  /** The `n` bytes format_buf writes when its static counter is `data`. */
  function Formatted(data: nat, n: nat): (s: seq<Byte>)
    ensures |s| == n
    ensures forall i :: 0 <= i < n ==> s[i] == PatternByte(data, i)
  {
    seq(n, i requires 0 <= i < n => PatternByte(data, i))
  }

  /** The first `j` bytes of `s` count up from `data`, modulo 256. */
  predicate CountsUpTo(data: nat, s: seq<Byte>, j: nat) {
    j <= |s| && forall i :: 0 <= i < j ==> s[i] == (data + i) % 256
  }

  /** The first place from `j` on where `s` leaves the pattern starting at `data`, or |s|. */
  function MismatchFrom(data: nat, s: seq<Byte>, j: nat): (r: nat)
    requires j <= |s|
    ensures j <= r <= |s|
    ensures forall i :: j <= i < r ==> s[i] == PatternByte(data, i)
    ensures r < |s| ==> s[r] != PatternByte(data, r)
    decreases |s| - j
  {
    if j == |s| || s[j] != PatternByte(data, j) then j else MismatchFrom(data, s, j + 1)
  }

  function Mismatch(data: nat, s: seq<Byte>): (r: nat)
    ensures r <= |s|
    ensures forall i :: 0 <= i < r ==> s[i] == PatternByte(data, i)
    ensures r < |s| ==> s[r] != PatternByte(data, r)
  {
    MismatchFrom(data, s, 0)
  }

  /** verify_buf's static counters: the expected byte and the bytes accepted. */
  datatype Verifier = Verifier(data: Byte, totalBytes: nat)

  /** One call on the bytes `s`: a mismatch consumes a pattern byte without counting it. */
  function Verified(v: Verifier, s: seq<Byte>): (Verifier, bool) {
    var j := Mismatch(v.data, s);
    if j == |s| then (Verifier(PatternByte(v.data, |s|), v.totalBytes + |s|), true)
    else (Verifier(PatternByte(v.data, j + 1), v.totalBytes + j), false)
  }

  /** format_buf's static counter after one call of `n` bytes, and the bytes it wrote. */
  function FormatCall(data: Byte, n: nat): (Byte, seq<Byte>) {
    ((data + n) % 256, Formatted(data, n))
  }

  /** The two functions with their static variables. */
  class Stream {
    var formatData: Byte
    var verifyData: Byte
    var totalBytes: nat

    constructor ()
      ensures formatData == 0 && Expected() == Verifier(0, 0)
    {
      formatData, verifyData, totalBytes := 0, 0, 0;
    }

    function Expected(): Verifier
      reads this
    {
      Verifier(verifyData, totalBytes)
    }

    method FormatBuf(buf: array<Byte>, size: int)
      requires size <= buf.Length
      modifies this`formatData, buf
      ensures var n := if size < 0 then 0 else size;
              && (formatData, buf[..n]) == FormatCall(old(formatData), n)
              && (forall i :: 0 <= i < n ==> buf[i] == (old(formatData) + i) % 256)
              && formatData == (old(formatData) + n) % 256
              && buf[n..] == old(buf[n..])
    {
      hide PatternByte, Formatted;
      ghost var from := formatData;
      PatternStarts(from);
      var i := 0;
      while i < size
        invariant 0 <= i && (i <= size || i == 0)
        invariant formatData == PatternByte(from, i)
        invariant forall j :: 0 <= j < i ==> buf[j] == PatternByte(from, j)
        invariant forall j :: i <= j < buf.Length ==> buf[j] == old(buf[j])
      {
        NextByte(from, i);
        buf[i] := formatData;
        formatData := (formatData + 1) % 256;
        i := i + 1;
      }
      FormattedIs(from, buf[..i]);
    }

    method VerifyBuf(buf: array<Byte>, size: int) returns (ret: int)
      requires size <= buf.Length
      modifies this`verifyData, this`totalBytes
      ensures var s := buf[..if size < 0 then 0 else size];
              && Expected() == Verified(old(Expected()), s).0
              && ret == (if Verified(old(Expected()), s).1 then 0 else -1)
              && (ret == 0 <==> s == Formatted(old(verifyData), |s|))
      ensures var s := buf[..if size < 0 then 0 else size]; var from := old(verifyData);
              exists j :: 0 <= j <= |s| && CountsUpTo(from, s, j)
                && totalBytes == old(totalBytes) + j
                && (if ret == 0 then j == |s| && verifyData == (from + j) % 256
                    else ret == -1 && j < |s| && s[j] != (from + j) % 256 && verifyData == (from + j + 1) % 256)
    {
      hide PatternByte, CountsUpTo;
      ghost var s := buf[..if size < 0 then 0 else size];
      ghost var v := Expected();
      PatternStarts(v.data);
      var i := 0;
      while i < size
        invariant 0 <= i <= |s|
        invariant forall j :: 0 <= j < i ==> s[j] == PatternByte(v.data, j)
        invariant verifyData == PatternByte(v.data, i) && totalBytes == v.totalBytes + i
      {
        NextByte(v.data, i);
        var expected := verifyData;
        verifyData := (verifyData + 1) % 256;
        if buf[i] != expected {
          assert buf[i] == s[i];
          MismatchAt(v.data, s, i);
          MismatchIffFormatted(v.data, s);
          CountsAre(v.data, s, i);
          return -1;
        }
        totalBytes := totalBytes + 1;
        i := i + 1;
      }
      MismatchAt(v.data, s, |s|);
      MismatchIffFormatted(v.data, s);
      CountsAre(v.data, s, |s|);
      return 0;
    }
  }

  lemma PatternStarts(data: Byte)
    ensures PatternByte(data, 0) == data
  {
  }

  lemma FormattedIs(data: nat, s: seq<Byte>)
    requires forall i :: 0 <= i < |s| ==> s[i] == PatternByte(data, i)
    ensures s == Formatted(data, |s|) && PatternByte(data, |s|) == (data + |s|) % 256
    ensures forall i :: 0 <= i < |s| ==> s[i] == (data + i) % 256
  {
  }

  lemma CountsAre(data: nat, s: seq<Byte>, j: nat)
    requires j <= |s| && forall i :: 0 <= i < j ==> s[i] == PatternByte(data, i)
    ensures CountsUpTo(data, s, j)
    ensures PatternByte(data, j) == (data + j) % 256 && (PatternByte(data, j) + 1) % 256 == (data + j + 1) % 256
  {
  }

  lemma NextByte(data: nat, i: nat)
    ensures (PatternByte(data, i) + 1) % 256 == PatternByte(data, i + 1)
  {
  }

  /** The first departure from the pattern is unique. */
  lemma MismatchAt(data: nat, s: seq<Byte>, j: nat)
    requires j <= |s|
    requires forall i :: 0 <= i < j ==> s[i] == PatternByte(data, i)
    requires j < |s| ==> s[j] != PatternByte(data, j)
    ensures Mismatch(data, s) == j
  {
    hide PatternByte;
  }

  // ------------------------------------------------------------------ sequences of calls

  function Concat(chunks: seq<seq<Byte>>): (s: seq<Byte>) {
    if chunks == [] then [] else Concat(chunks[..|chunks| - 1]) + chunks[|chunks| - 1]
  }

  function Sum(sizes: seq<nat>): nat {
    if sizes == [] then 0 else Sum(sizes[..|sizes| - 1]) + sizes[|sizes| - 1]
  }

  /** The counter after successive format_buf calls of these sizes, each starting where the
      one before stopped, and what each wrote. */
  function FormatCalls(sizes: seq<nat>): (Byte, seq<seq<Byte>>) {
    if sizes == [] then (0, [])
    else
      var (data, chunks) := FormatCalls(sizes[..|sizes| - 1]);
      var (data', chunk) := FormatCall(data, sizes[|sizes| - 1]);
      (data', chunks + [chunk])
  }

  /** verify_buf's counters after successive calls on `chunks`, and how many calls failed. */
  function VerifyCalls(chunks: seq<seq<Byte>>): (r: (Verifier, nat)) {
    if chunks == [] then (Verifier(0, 0), 0)
    else
      var (v, failed) := VerifyCalls(chunks[..|chunks| - 1]);
      var (v', ok) := Verified(v, chunks[|chunks| - 1]);
      (v', if ok then failed else failed + 1)
  }

  /** The static counter is the length written so far, modulo 256. */
  lemma {:induction false} FormatCounter(sizes: seq<nat>)
    ensures FormatCalls(sizes).0 == Sum(sizes) % 256
  {
    if sizes != [] {
      var front, last := sizes[..|sizes| - 1], sizes[|sizes| - 1];
      FormatCounter(front);
      ModShift(Sum(front), last);
    }
  }

  /** The bytes written do not depend on the chunking: byte k of the stream is k mod 256. */
  lemma {:induction false} FormatIsPattern(sizes: seq<nat>)
    ensures Concat(FormatCalls(sizes).1) == Formatted(0, Sum(sizes))
    ensures var s := Concat(FormatCalls(sizes).1); |s| == Sum(sizes) && forall k :: 0 <= k < |s| ==> s[k] == k % 256
  {
    hide PatternByte;
    if sizes != [] {
      var front, last := sizes[..|sizes| - 1], sizes[|sizes| - 1];
      FormatIsPattern(front);
      FormatCounter(front);
      var calls := FormatCalls(sizes).1;
      assert calls[..|calls| - 1] == FormatCalls(front).1;
      FormattedSplit(Sum(front), last);
    }
    FormattedIsModular(Sum(sizes));
  }

  lemma FormattedIsModular(n: nat)
    ensures forall k :: 0 <= k < n ==> Formatted(0, n)[k] == k % 256
  {
  }

  lemma FormattedSplit(m: nat, n: nat)
    ensures Formatted(0, m + n) == Formatted(0, m) + Formatted(m % 256, n)
  {
    hide PatternByte;
    forall i | 0 <= i < n ensures PatternByte(m % 256, i) == PatternByte(0, m + i) { ModShift(m, i); }
  }

  lemma ModShift(m: nat, i: nat)
    ensures PatternByte(m % 256, i) == PatternByte(0, m + i) == (m + i) % 256
  {
  }

  /** One call: it stops at the first byte that breaks the count, having counted those before it
      and gone one further in the pattern; or it takes them all. */
  lemma VerifiedStops(v: Verifier, s: seq<Byte>, j: nat)
    requires CountsUpTo(v.data, s, j) && (j < |s| ==> s[j] != (v.data + j) % 256)
    ensures Verified(v, s) == if j == |s| then (Verifier((v.data + j) % 256, v.totalBytes + j), true)
                              else (Verifier((v.data + j + 1) % 256, v.totalBytes + j), false)
  {
    MismatchAt(v.data, s, j);
  }

  /** After any calls on any buffers the expected byte is total_bytes plus the failed calls, mod 256. */
  lemma {:induction false} FailureAccounting(chunks: seq<seq<Byte>>)
    ensures var (v, failed) := VerifyCalls(chunks);
            v.data == (v.totalBytes + failed) % 256
  {
    if chunks != [] {
      var front, s := chunks[..|chunks| - 1], chunks[|chunks| - 1];
      FailureAccounting(front);
      var (v, failed) := VerifyCalls(front);
      var j := Mismatch(v.data, s);
      ModShift(v.totalBytes + failed, j);
      ModShift(v.totalBytes + failed, j + 1);
    }
  }

  lemma CountsIffFormatted(s: seq<Byte>)
    ensures CountsUpTo(0, s, |s|) <==> s == Formatted(0, |s|)
  {
    FormattedIsModular(|s|);
  }

  /** A stream passes every verify_buf call exactly when it is the pattern, however it is cut
      into calls; total_bytes is then its length. */
  lemma {:induction false} VerifyIffPattern(chunks: seq<seq<Byte>>)
    ensures VerifyCalls(chunks).1 == 0 <==> Concat(chunks) == Formatted(0, |Concat(chunks)|)
    ensures VerifyCalls(chunks).1 == 0 <==> CountsUpTo(0, Concat(chunks), |Concat(chunks)|)
    ensures VerifyCalls(chunks).1 == 0 ==> VerifyCalls(chunks).0.totalBytes == |Concat(chunks)|
  {
    hide PatternByte;
    CountsIffFormatted(Concat(chunks));
    if chunks != [] {
      var front, s := chunks[..|chunks| - 1], chunks[|chunks| - 1];
      VerifyIffPattern(front);
      FailureAccounting(front);
      var (v, failed) := VerifyCalls(front);
      var c := Concat(front);
      FormattedSplit(|c|, |s|);
      assert Concat(chunks)[..|c|] == c && Concat(chunks)[|c|..] == s;
      assert Formatted(0, |c| + |s|)[..|c|] == Formatted(0, |c|);
      if failed == 0 {
        assert v.data == |c| % 256;
        MismatchIffFormatted(v.data, s);
        if s == Formatted(v.data, |s|) {
          assert Concat(chunks) == Formatted(0, |c| + |s|);
        } else {
          assert Formatted(0, |c| + |s|)[|c|..] == Formatted(v.data, |s|);
        }
      }
    }
  }

  lemma MismatchIffFormatted(data: nat, s: seq<Byte>)
    ensures Mismatch(data, s) == |s| <==> s == Formatted(data, |s|)
  {
    hide PatternByte;
  }

  /** Round trip: whatever the calls that wrote it and the calls that check it, a formatted
      stream verifies, and total_bytes counts it. */
  lemma RoundTrip(sizes: seq<nat>, chunks: seq<seq<Byte>>)
    requires Concat(chunks) == Concat(FormatCalls(sizes).1)
    ensures VerifyCalls(chunks) == (Verifier(Sum(sizes) % 256, Sum(sizes)), 0)
  {
    hide Concat, FormatCalls, VerifyCalls, PatternByte;
    FormatIsPattern(sizes);
    VerifyIffPattern(chunks);
    FailureAccounting(chunks);
  }
}
