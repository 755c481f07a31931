/** Chat text: the byte scan that accepts a text, and the independent reading of what it
    accepts (UTF-8, RFC 3629 section 3, without control characters). */
module ChatText {

  newtype byte = x: int | 0 <= x < 256

  type Text = seq<byte>

  const TEXT_BYTES_MAX: nat := 512

  predicate Continuation(b: byte) { 0x80 <= b < 0xC0 }

  predicate ScalarValue(p: int) { 0 <= p < 0xD800 || 0xE000 <= p <= 0x10FFFF }

  /** Code points a chat text may carry: scalar values other than C0 controls and DEL. */
  predicate Allowed(p: int) { ScalarValue(p) && p >= 0x20 && p != 0x7F }

  /** Number of continuation bytes announced by a lead byte, or -1. */
  function Extra(first: byte): int {
    if 0xC2 <= first <= 0xDF then 1
    else if 0xE0 <= first <= 0xEF then 2
    else if 0xF0 <= first <= 0xF4 then 3
    else -1
  }

  function LeadPoint(first: byte): nat
    requires Extra(first) > 0
  {
    if first <= 0xDF then first as int % 0x20
    else if first <= 0xEF then first as int % 0x10
    else first as int % 0x08
  }

  function Minimum(first: byte): int
    requires Extra(first) > 0
  {
    if first <= 0xDF then 0x80 else if first <= 0xEF then 0x800 else 0x10000
  }

  /** The code point after reading `tail`, or -1 if some byte is not a continuation byte. */
  function Fold(point: nat, tail: Text): int
    decreases |tail|
  {
    if tail == [] then point
    else if !Continuation(tail[0]) then -1
    else Fold(point * 0x40 + tail[0] as int % 0x40, tail[1..])
  }

  /** The scan, one character a step. */
  predicate Scans(text: Text)
    decreases |text|
  {
    if text == [] then true
    else if text[0] < 0x80 then
      text[0] >= 0x20 && text[0] != 0x7F && Scans(text[1..])
    else if Extra(text[0]) < 0 || |text| - 1 < Extra(text[0]) then false
    else
      var n := Extra(text[0]);
      var point := Fold(LeadPoint(text[0]), text[1..1 + n]);
      && point >= Minimum(text[0]) && point <= 0x10FFFF && !(0xD800 <= point <= 0xDFFF)
      && Scans(text[1 + n..])
  }

  predicate ValidChatText(text: Text) {
    text != [] && |text| <= TEXT_BYTES_MAX && Scans(text)
  }

  /** RFC 3629 section 3: the octets of one scalar value. */
  function Octets(p: int): Text
    requires ScalarValue(p)
  {
    if p < 0x80 then [p as byte]
    else if p < 0x800 then [(0xC0 + p / 0x40) as byte, (0x80 + p % 0x40) as byte]
    else if p < 0x10000 then
      [(0xE0 + p / 0x1000) as byte, (0x80 + p / 0x40 % 0x40) as byte, (0x80 + p % 0x40) as byte]
    else
      [(0xF0 + p / 0x40000) as byte, (0x80 + p / 0x1000 % 0x40) as byte,
       (0x80 + p / 0x40 % 0x40) as byte, (0x80 + p % 0x40) as byte]
  }

  predicate AllAllowed(ps: seq<int>) { forall i :: 0 <= i < |ps| ==> Allowed(ps[i]) }

  function Utf8(ps: seq<int>): Text
    requires AllAllowed(ps)
  {
    if ps == [] then [] else Octets(ps[0]) + Utf8(ps[1..])
  }

  // ---------------------------------------------------------------------------------------
  // The scan accepts exactly UTF-8

  /** Six bits at a time. */
  lemma Sixes(p: nat)
    ensures p == p / 0x40 * 0x40 + p % 0x40
    ensures p / 0x40 == p / 0x1000 * 0x40 + p / 0x40 % 0x40
    ensures p / 0x1000 == p / 0x40000 * 0x40 + p / 0x1000 % 0x40
  {
  }

  /** The payload of a tagged byte. */
  lemma TagBits(bits: nat)
    ensures bits < 0x40 ==> (0x80 + bits) % 0x40 == bits
    ensures bits < 0x20 ==> (0xC0 + bits) % 0x20 == bits
    ensures bits < 0x10 ==> (0xE0 + bits) % 0x10 == bits
    ensures bits < 0x08 ==> (0xF0 + bits) % 0x08 == bits
  {
  }

  predicate Spells(o: Text, p: int) {
    && o != [] && o[0] >= 0x80 && Extra(o[0]) == |o| - 1 && Extra(o[0]) > 0
    && Fold(LeadPoint(o[0]), o[1..]) == p && Minimum(o[0]) <= p
  }

  lemma TwoSpell(p: nat)
    requires 0x80 <= p < 0x800
    ensures Spells(Octets(p), p)
  {
    var o := Octets(p);
    Sixes(p);
    TagBits(p % 0x40);
    TagBits(p / 0x40);
    FoldSteps(p / 0x40, o[1..]);
  }

  lemma ThreeSpell(p: nat)
    requires 0x800 <= p < 0x10000 && ScalarValue(p)
    ensures Spells(Octets(p), p)
  {
    hide Fold;
    var o := Octets(p);
    Sixes(p);
    TagBits(p % 0x40);
    TagBits(p / 0x40 % 0x40);
    TagBits(p / 0x1000);
    FoldSteps(p / 0x1000, o[1..]);
  }

  lemma FourSpell(p: nat)
    requires 0x10000 <= p <= 0x10FFFF
    ensures Spells(Octets(p), p)
  {
    hide Fold;
    var o := Octets(p);
    Sixes(p);
    TagBits(p % 0x40);
    TagBits(p / 0x40 % 0x40);
    TagBits(p / 0x1000 % 0x40);
    TagBits(p / 0x40000);
    FoldSteps(p / 0x40000, o[1..]);
  }

  /** The lead byte and the continuation bytes of a scalar value spell that value. */
  lemma OctetsSpell(p: int)
    requires Allowed(p) && p >= 0x80
    ensures Spells(Octets(p), p)
  {
    hide Spells, Octets;
    if p < 0x800 {
      TwoSpell(p);
    } else if p < 0x10000 {
      ThreeSpell(p);
    } else {
      FourSpell(p);
    }
  }

  /** The fold, step by step. */
  lemma FoldSteps(point: nat, tail: Text)
    requires 1 <= |tail| <= 3 && forall i :: 0 <= i < |tail| ==> Continuation(tail[i])
    ensures |tail| == 1 ==> Fold(point, tail) == point * 0x40 + tail[0] as int % 0x40
    ensures |tail| == 2 ==> Fold(point, tail) == (point * 0x40 + tail[0] as int % 0x40) * 0x40 + tail[1] as int % 0x40
    ensures |tail| == 3 ==>
              Fold(point, tail) == ((point * 0x40 + tail[0] as int % 0x40) * 0x40 + tail[1] as int % 0x40) * 0x40 + tail[2] as int % 0x40
  {
    var a := point * 0x40 + tail[0] as int % 0x40;
    if |tail| > 1 {
      assert tail[1..][0] == tail[1];
      var b := a * 0x40 + tail[1] as int % 0x40;
      if |tail| > 2 {
        assert tail[1..][1..][0] == tail[2];
        assert Fold(b, tail[1..][1..]) == b * 0x40 + tail[2] as int % 0x40;
      } else {
        assert tail[1..][1..] == [];
      }
    } else {
      assert tail[1..] == [];
    }
  }

  lemma {:induction false} FoldContinues(point: nat, tail: Text)
    requires Fold(point, tail) >= 0
    ensures forall i :: 0 <= i < |tail| ==> Continuation(tail[i])
    decreases |tail|
  {
    if tail != [] {
      FoldContinues(point * 0x40 + tail[0] as int % 0x40, tail[1..]);
      assert forall i :: 1 <= i < |tail| ==> tail[i] == tail[1..][i - 1];
    }
  }

  lemma LeadBits(first: byte)
    requires Extra(first) > 0
    ensures Extra(first) <= 3
    ensures Extra(first) == 1 ==> first as int == 0xC0 + LeadPoint(first) && LeadPoint(first) < 0x20 && Minimum(first) == 0x80
    ensures Extra(first) == 2 ==> first as int == 0xE0 + LeadPoint(first) && LeadPoint(first) < 0x10 && Minimum(first) == 0x800
    ensures Extra(first) == 3 ==> first as int == 0xF0 + LeadPoint(first) && LeadPoint(first) < 0x08 && Minimum(first) == 0x10000
  {
  }

  lemma Joined(high: nat, low: nat)
    requires low < 0x40
    ensures (high * 0x40 + low) / 0x40 == high && (high * 0x40 + low) % 0x40 == low
  {
  }

  lemma Chained(p: nat)
    ensures p / 0x40 / 0x40 == p / 0x1000 && p / 0x1000 / 0x40 == p / 0x40000
  {
  }

  lemma TwoOctets(lead: nat, t0: nat)
    requires lead < 0x20 && t0 < 0x40 && 0x80 <= lead * 0x40 + t0
    ensures Octets(lead * 0x40 + t0) == [(0xC0 + lead) as byte, (0x80 + t0) as byte]
  {
    Joined(lead, t0);
  }

  lemma ThreeOctets(lead: nat, t0: nat, t1: nat)
    requires lead < 0x10 && t0 < 0x40 && t1 < 0x40
    requires var p := (lead * 0x40 + t0) * 0x40 + t1; 0x800 <= p && ScalarValue(p)
    ensures Octets((lead * 0x40 + t0) * 0x40 + t1) == [(0xE0 + lead) as byte, (0x80 + t0) as byte, (0x80 + t1) as byte]
  {
    Joined(lead, t0);
    Joined(lead * 0x40 + t0, t1);
    Chained((lead * 0x40 + t0) * 0x40 + t1);
  }

  lemma FourOctets(lead: nat, t0: nat, t1: nat, t2: nat)
    requires lead < 0x08 && t0 < 0x40 && t1 < 0x40 && t2 < 0x40
    requires var p := ((lead * 0x40 + t0) * 0x40 + t1) * 0x40 + t2; 0x10000 <= p <= 0x10FFFF
    ensures Octets(((lead * 0x40 + t0) * 0x40 + t1) * 0x40 + t2)
            == [(0xF0 + lead) as byte, (0x80 + t0) as byte, (0x80 + t1) as byte, (0x80 + t2) as byte]
  {
    var a := lead * 0x40 + t0;
    var b := a * 0x40 + t1;
    Joined(lead, t0);
    Joined(a, t1);
    Joined(b, t2);
    Chained(b * 0x40 + t2);
  }

  lemma TailBits(tail: Text)
    requires forall i :: 0 <= i < |tail| ==> Continuation(tail[i])
    ensures forall i :: 0 <= i < |tail| ==> tail[i] as int == 0x80 + tail[i] as int % 0x40
  {
  }

  /** No other bytes spell it: the scan's range checks leave one spelling per value. */
  lemma OneSpelling(first: byte, tail: Text)
    requires Extra(first) > 0 && |tail| == Extra(first)
    requires var p := Fold(LeadPoint(first), tail); Minimum(first) <= p <= 0x10FFFF && !(0xD800 <= p <= 0xDFFF)
    ensures var p := Fold(LeadPoint(first), tail); Allowed(p) && p >= 0x80 && Octets(p) == [first] + tail
  {
    hide Fold, LeadPoint, Octets, Extra, Minimum;
    var lead := LeadPoint(first);
    LeadBits(first);
    FoldContinues(lead, tail);
    FoldSteps(lead, tail);
    TailBits(tail);
    if |tail| == 1 {
      TwoOctets(lead, tail[0] as int % 0x40);
      assert [first] + tail == [first, tail[0]];
    } else if |tail| == 2 {
      ThreeOctets(lead, tail[0] as int % 0x40, tail[1] as int % 0x40);
      assert [first] + tail == [first, tail[0], tail[1]];
    } else {
      FourOctets(lead, tail[0] as int % 0x40, tail[1] as int % 0x40, tail[2] as int % 0x40);
      assert [first] + tail == [first, tail[0], tail[1], tail[2]];
    }
  }

  lemma {:induction false} Utf8Scans(ps: seq<int>)
    requires AllAllowed(ps)
    ensures Scans(Utf8(ps))
  {
    if ps != [] {
      var o, rest := Octets(ps[0]), Utf8(ps[1..]);
      var text := o + rest;
      Utf8Scans(ps[1..]);
      if ps[0] < 0x80 {
        assert text[1..] == rest;
      } else {
        OctetsSpell(ps[0]);
        assert text[0] == o[0] && text[1..|o|] == o[1..] && text[|o|..] == rest;
      }
    }
  }

  lemma Utf8Front(p: int, ps: seq<int>)
    requires Allowed(p) && AllAllowed(ps)
    ensures AllAllowed([p] + ps) && Utf8([p] + ps) == Octets(p) + Utf8(ps)
  {
    hide Octets;
    assert ([p] + ps)[1..] == ps;
  }

  lemma Regroup(text: Text, n: nat)
    requires 1 + n <= |text|
    ensures text == [text[0]] + text[1..1 + n] + text[1 + n..]
  {
  }

  lemma {:induction false} ScanReads(text: Text) returns (ps: seq<int>)
    requires Scans(text)
    ensures AllAllowed(ps) && Utf8(ps) == text
    decreases |text|
  {
    if text == [] {
      ps := [];
    } else if text[0] < 0x80 {
      var p := text[0] as int;
      assert Octets(p) == [text[0]];
      hide Fold, LeadPoint, Octets, Utf8, AllAllowed;
      var rest := ScanReads(text[1..]);
      Utf8Front(p, rest);
      Regroup(text, 0);
      ps := [p] + rest;
    } else {
      hide Fold, LeadPoint, Octets, Utf8, AllAllowed;
      var n := Extra(text[0]);
      var p := Fold(LeadPoint(text[0]), text[1..1 + n]);
      OneSpelling(text[0], text[1..1 + n]);
      var rest := ScanReads(text[1 + n..]);
      Utf8Front(p, rest);
      Regroup(text, n);
      ps := [p] + rest;
    }
  }

  /** A text is valid if and only if it is one to 512 bytes of UTF-8 (RFC 3629) without C0
      controls and DEL: no overlong form, no surrogate, nothing above U+10FFFF. */
  lemma ValidIsUtf8(text: Text)
    ensures ValidChatText(text) <==>
              text != [] && |text| <= TEXT_BYTES_MAX && exists ps :: AllAllowed(ps) && Utf8(ps) == text
  {
    if ValidChatText(text) {
      var ps := ScanReads(text);
    }
    if exists ps :: AllAllowed(ps) && Utf8(ps) == text {
      var ps :| AllAllowed(ps) && Utf8(ps) == text;
      Utf8Scans(ps);
    }
  }

  /** The scan as the program runs it. */
  method CheckChatText(text: Text) returns (ok: bool)
    ensures ok <==> ValidChatText(text)
  {
    if text == [] || |text| > TEXT_BYTES_MAX {
      return false;
    }
    var i := 0;
    while i < |text|
      invariant i <= |text| && Scans(text) == Scans(text[i..])
      decreases |text| - i
    {
      var first := text[i];
      ghost var at := i;
      i := i + 1;
      if first < 0x80 {
        if first < 0x20 || first == 0x7F {
          return false;
        }
        assert text[at..][1..] == text[i..];
        continue;
      }
      var extra := Extra(first);
      if extra < 0 || |text| - i < extra {
        return false;
      }
      var point: nat := LeadPoint(first);
      ghost var tail := text[at..][1..1 + extra];
      var j := 0;
      while j < extra
        invariant 0 <= j <= extra && i == at + 1 + j && Fold(LeadPoint(first), tail) == Fold(point, tail[j..])
      {
        var next := text[i];
        assert tail[j..][0] == next && tail[j..][1..] == tail[j + 1..];
        i := i + 1;
        if !Continuation(next) {
          return false;
        }
        point := point * 0x40 + next as int % 0x40;
        j := j + 1;
      }
      assert tail[j..] == [] && text[at..][1 + extra..] == text[i..];
      if point < Minimum(first) || point > 0x10FFFF || 0xD800 <= point <= 0xDFFF {
        return false;
      }
    }
    assert text[i..] == [];
    ok := true;
  }
}
