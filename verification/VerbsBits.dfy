/** Two bit-level helpers of the verbs header: the tag increment of a remote key, and the
    fold of a flow label into a UDP source port. */
module VerbsBits {
  /** ibv_inc_rkey: add one to the low eight bits only. */
  function IncRkey(rkey: bv32): bv32 {
    (rkey & !0xFF) | (((rkey + 1) & 0xFF) as bv8 as bv32)
  }

  /** One increment in numbers: the upper 24 bits as they are, the low byte one more modulo 256. */
  lemma IncInNumbers(rkey: bv32)
    ensures IncRkey(rkey) == (rkey & 0xFFFF_FF00) | ((rkey + 1) & 0x0000_00FF)
    ensures rkey & 0xFF == 0xFF ==> IncRkey(rkey) == rkey - 0xFF
    ensures rkey & 0xFF != 0xFF ==> IncRkey(rkey) == rkey + 1
  {
  }

  function IncTimes(rkey: bv32, k: nat): bv32 {
    if k == 0 then rkey else IncRkey(IncTimes(rkey, k - 1))
  }

  /** The low eight bits, as a number, and the other twenty-four. */
  function TagBits(rkey: bv32): bv8 { (rkey & 0xFF) as bv8 }
  function Tag(rkey: bv32): nat { TagBits(rkey) as nat }
  function Upper(rkey: bv32): bv32 { rkey & 0xFFFF_FF00 }

  lemma IncOnce(rkey: bv32)
    ensures Upper(IncRkey(rkey)) == Upper(rkey)
    ensures IncRkey(rkey) & 0xFF == (rkey + 1) & 0xFF
  {
  }

  lemma IncTag(rkey: bv32)
    ensures Tag(IncRkey(rkey)) == (Tag(rkey) + 1) % 256
  {
    assert TagBits(IncRkey(rkey)) == TagBits(rkey) + 1;
    Successor(TagBits(rkey));
  }

  lemma Successor(t: bv8)
    ensures (t + 1) as nat == (t as nat + 1) % 256
  {
  }

  /** k increments leave the upper 24 bits and add k to the tag modulo 256. */
  lemma {:induction false} IncIterated(rkey: bv32, k: nat)
    ensures Upper(IncTimes(rkey, k)) == Upper(rkey)
    ensures Tag(IncTimes(rkey, k)) == (Tag(rkey) + k) % 256
  {
    hide Tag, TagBits, Upper, IncRkey;
    if k == 0 {
      TagRange(rkey);
    } else {
      IncIterated(rkey, k - 1);
      IncOnce(IncTimes(rkey, k - 1));
      IncTag(IncTimes(rkey, k - 1));
      OneMore(Tag(rkey), k - 1);
    }
  }

  lemma OneMore(t: nat, k: nat)
    ensures ((t + k) % 256 + 1) % 256 == (t + (k + 1)) % 256
  {
  }

  lemma TagRange(rkey: bv32)
    ensures Tag(rkey) < 256
  {
  }

  lemma SameByte(s: bv8, t: bv8)
    requires s as nat == t as nat
    ensures s == t
  {
  }

  lemma KeyFromParts(a: bv32, b: bv32)
    requires Upper(a) == Upper(b) && Tag(a) == Tag(b)
    ensures a == b
  {
    SameByte(TagBits(a), TagBits(b));
    Joined(a, b);
  }

  lemma Joined(a: bv32, b: bv32)
    requires Upper(a) == Upper(b) && TagBits(a) == TagBits(b)
    ensures a == b
  {
    assert a & 0xFF == TagBits(a) as bv32 && b & 0xFF == TagBits(b) as bv32;
  }

  /** The key comes back after k increments exactly when k is a multiple of 256. */
  lemma PeriodIs256(rkey: bv32, k: nat)
    ensures IncTimes(rkey, k) == rkey <==> k % 256 == 0
  {
    hide Tag, Upper, IncTimes;
    IncIterated(rkey, k);
    TagRange(rkey);
    if k % 256 == 0 {
      assert (Tag(rkey) + k) % 256 == Tag(rkey);
      KeyFromParts(IncTimes(rkey, k), rkey);
    }
  }

  /** ibv_flow_label_to_udp_sport. */
  function FlowLabelToPort(fl: bv32): bv16 {
    var low := fl & 0x3FFF;
    var high := fl & 0xFC000;
    ((low ^ (high >> 14)) | 0xC000) as bv16
  }

  lemma FoldOfZero()
    ensures FlowLabelToPort(0) == 0xC000
  {
  }

  lemma LowFlips(fl: bv32, low: bv32)
    requires low < 0x4000
    ensures FlowLabelToPort(fl ^ low) as bv32 == FlowLabelToPort(fl) as bv32 ^ low
  {
  }

  lemma HighFlips(fl: bv32, high: bv32)
    requires high < 64
    ensures FlowLabelToPort(fl ^ (high << 14)) as bv32 == FlowLabelToPort(fl) as bv32 ^ high
  {
  }

  lemma RestIsIgnored(fl: bv32, rest: bv32)
    requires rest & 0xFFFFF == 0
    ensures FlowLabelToPort(fl ^ rest) == FlowLabelToPort(fl)
  {
  }

  /** The fold without its formula: label 0 gives 0xC000; flipping any of the low 14 bits of a
      label flips the same bits of the port; flipping any of the six bits from 14 on flips the
      bits of the port fourteen places lower; and no other bit matters. */
  lemma FoldFlips(fl: bv32, low: bv32, high: bv32, rest: bv32)
    requires low < 0x4000 && high < 64 && rest & 0xFFFFF == 0
    ensures FlowLabelToPort(0) == 0xC000
    ensures FlowLabelToPort(fl ^ low) as bv32 == FlowLabelToPort(fl) as bv32 ^ low
    ensures FlowLabelToPort(fl ^ (high << 14)) as bv32 == FlowLabelToPort(fl) as bv32 ^ high
    ensures FlowLabelToPort(fl ^ rest) == FlowLabelToPort(fl)
  {
    hide FlowLabelToPort;
    FoldOfZero();
    LowFlips(fl, low);
    HighFlips(fl, high);
    RestIsIgnored(fl, rest);
  }

  /** Bits 14 to 19 of a flow label, and the label with those bits `h` that folds to `port`. */
  function HighBits(fl: bv32): bv6 { ((fl & 0xFC000) >> 14) as bv6 }

  function LabelFor(h: bv6, port: bv16): bv32 {
    ((h as bv32) << 14) | ((port & 0x3FFF) as bv32 ^ h as bv32)
  }

  /** Only the 20 bits of a flow label count, and the result is a dynamic port. */
  lemma PortIsDynamic(fl: bv32)
    ensures 0xC000 <= FlowLabelToPort(fl)
    ensures FlowLabelToPort(fl) == FlowLabelToPort(fl & 0xFFFFF)
  {
  }

  /** For fixed high bits the fold is a bijection from the low 14 bits onto 0xC000..0xFFFF:
      LabelFor is its inverse, on both sides. */
  lemma LabelOfPort(h: bv6, port: bv16)
    requires 0xC000 <= port
    ensures LabelFor(h, port) <= 0xFFFFF && HighBits(LabelFor(h, port)) == h
    ensures FlowLabelToPort(LabelFor(h, port)) == port
  {
  }

  lemma PortOfLabel(fl: bv32)
    requires fl <= 0xFFFFF
    ensures LabelFor(HighBits(fl), FlowLabelToPort(fl)) == fl
  {
  }

  /** The labels folding to `port` whose high bits are below `k`. */
  function Labels(port: bv16, k: nat): set<bv32>
    requires k <= 64
  {
    if k == 0 then {} else Labels(port, k - 1) + {LabelFor((k - 1) as bv6, port)}
  }

  lemma OnlyLabel(fl: bv32, h: bv6)
    requires fl <= 0xFFFFF && HighBits(fl) as nat == h as nat
    ensures fl == LabelFor(h, FlowLabelToPort(fl))
  {
    hide FlowLabelToPort, HighBits, LabelFor;
    PortOfLabel(fl);
    SameHighBits(HighBits(fl), h);
  }

  lemma LabelsGrow(port: bv16, k: nat)
    requires 0 < k <= 64
    ensures Labels(port, k) == Labels(port, k - 1) + {LabelFor((k - 1) as bv6, port)}
  {
    hide LabelFor;
  }

  lemma {:induction false} LabelsAre(port: bv16, k: nat)
    requires k <= 64 && 0xC000 <= port
    ensures |Labels(port, k)| == k
    ensures forall fl :: fl in Labels(port, k)
                         <==> fl <= 0xFFFFF && FlowLabelToPort(fl) == port && HighBits(fl) as nat < k
  {
    hide FlowLabelToPort, HighBits, LabelFor;
    if k > 0 {
      LabelsAre(port, k - 1);
      var h := (k - 1) as bv6;
      LabelOfPort(h, port);
      SmallIndex(k - 1);
      hide Labels;
      assert Labels(port, k) == Labels(port, k - 1) + {LabelFor(h, port)} by { LabelsGrow(port, k); }
      forall fl | fl <= 0xFFFFF && FlowLabelToPort(fl) == port && HighBits(fl) as nat == h as nat
        ensures fl == LabelFor(h, port)
      {
        OnlyLabel(fl, h);
      }
    }
  }

  lemma SmallIndex(k: nat)
    requires k < 64
    ensures (k as bv6) as nat == k
  {
  }

  lemma SameHighBits(g: bv6, h: bv6)
    requires g as nat == h as nat
    ensures g == h
  {
  }

  /** Every dynamic port has exactly 64 flow labels. */
  lemma SixtyFourLabels(port: bv16)
    requires 0xC000 <= port
    ensures |Labels(port, 64)| == 64
    ensures forall fl :: fl in Labels(port, 64) <==> fl <= 0xFFFFF && FlowLabelToPort(fl) == port
  {
    hide FlowLabelToPort, HighBits, LabelFor, Labels;
    LabelsAre(port, 64);
    forall fl: bv32 ensures HighBits(fl) as nat < 64 { SixBits(HighBits(fl)); }
  }

  lemma SixBits(h: bv6)
    ensures h as nat < 64
  {
  }
}
