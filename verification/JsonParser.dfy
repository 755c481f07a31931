/** The printer and the cursor parser as the program runs them: a buffer that grows and a
    position that moves, with 64-bit arithmetic that never overflows. */
module JsonParser {
  import opened Basics
  import opened JsonCodec

  newtype uint64 = x: int | 0 <= x < 0x1_0000_0000_0000_0000

  method AppendByte(c: Byte, buffer: Text) returns (out: Text)
    ensures out == buffer + EncodeByte(c)
  {
    var escaped := LetterFor(c);
    if escaped.Some? {
      return buffer + ['\\', escaped.value];
    }
    if c as int < 0x20 {
      return buffer + ['\\', 'u', '0', '0', HexDigit(c as int / 16), HexDigit(c as int % 16)];
    }
    out := buffer + [c];
  }

  method AppendString(value: Text, buffer: Text) returns (out: Text)
    ensures out == buffer + EncodeString(value)
  {
    hide EncodeByte;
    out := buffer + ['"'];
    var i := 0;
    while i < |value|
      invariant i <= |value| && out + EncodeBytes(value[i..]) == buffer + ['"'] + EncodeBytes(value)
    {
      ghost var start := out;
      assert value[i..][0] == value[i] && value[i..][1..] == value[i + 1..];
      out := AppendByte(value[i], out);
      assert out + EncodeBytes(value[i + 1..]) == start + (EncodeByte(value[i]) + EncodeBytes(value[i + 1..]));
      i := i + 1;
    }
    assert out == buffer + ['"'] + EncodeBytes(value);
    out := out + ['"'];
  }

  method AppendValue(value: Value, buffer: Text) returns (out: Text)
    ensures out == buffer + EncodeValue(value)
  {
    match value {
      case Str(text) => out := AppendString(text, buffer);
      case Num(n) => out := buffer + EncodeInt(n);
      case Bool(flag) => out := buffer + (if flag then "true" else "false");
    }
  }

  method EncodeObject(entries: seq<(Text, Value)>) returns (out: Text)
    ensures out == Encode(entries)
  {
    hide EncodeString, EncodeValue;
    out := ['{'];
    var first := true;
    var i := 0;
    while i < |entries|
      invariant i <= |entries| && first == (i == 0)
      invariant out + EncodeMembers(entries, i) == ['{'] + EncodeMembers(entries, 0)
    {
      ghost var start := out;
      if !first {
        out := out + [','];
      }
      first := false;
      out := AppendString(entries[i].0, out);
      out := out + [':'];
      out := AppendValue(entries[i].1, out);
      ghost var added := (if i == 0 then [] else [',']) + MemberText(entries[i].0, entries[i].1);
      assert out == start + added;
      assert start + EncodeMembers(entries, i) == start + (added + EncodeMembers(entries, i + 1));
      i := i + 1;
    }
    out := out + ['}'];
  }

  lemma {:induction false} ValueGrows(digits: Text, i: nat)
    requires i <= |digits| && forall k :: 0 <= k < |digits| ==> IsDigit(digits[k])
    ensures ValueOf(digits[..i]) <= ValueOf(digits)
    decreases |digits| - i
  {
    if i == |digits| {
      assert digits[..i] == digits;
    } else {
      assert digits[..i + 1][..i] == digits[..i];
      ValueGrows(digits, i + 1);
    }
  }

  class Parser {
    const input: Text
    var position: nat

    ghost predicate Valid()
      reads this
    {
      position <= |input|
    }

    constructor (input: Text)
      ensures this.input == input && position == 0 && Valid()
    {
      this.input, position := input, 0;
    }

    method SkipWhitespace()
      requires Valid()
      modifies this
      ensures Valid() && position == SkipSpace(input, old(position))
    {
      while position < |input| && IsSpace(input[position])
        invariant Valid() && SkipSpace(input, position) == SkipSpace(input, old(position))
        decreases |input| - position
      {
        position := position + 1;
      }
    }

    method Consume(expected: Byte) returns (ok: bool)
      requires Valid()
      modifies this
      ensures Valid() && ok == (old(position) < |input| && input[old(position)] == expected)
      ensures position == old(position) + (if ok then 1 else 0)
    {
      if position < |input| && input[position] == expected {
        position := position + 1;
        return true;
      }
      ok := false;
    }

    method ReadUnicodeEscape() returns (bytes: Option<Text>)
      requires Valid() && position > 0 && input[position - 1] == 'u'
      modifies this
      ensures Valid()
      ensures var r := ParseEscape(input, old(position) - 1);
              bytes.Some? == r.Some? && (r.Some? ==> r.value == (bytes.value, position))
    {
      if |input| - position < 4 {
        return None;
      }
      var code: nat := 0;
      var i := 0;
      while i < 4
        invariant i <= 4 && position == old(position)
        invariant AllHex(input, position, i) && code == HexRun(input, position, i)
      {
        var c := input[position + i];
        if !IsHex(c) {
          return None;
        }
        code := code * 16 + HexValue(c);
        i := i + 1;
      }
      HexRunBound(input, position);
      position := position + 4;
      bytes := CodeBytes(code);
    }

    method ReadEscape() returns (bytes: Option<Text>)
      requires Valid()
      modifies this
      ensures Valid()
      ensures var r := ParseEscape(input, old(position));
              bytes.Some? == r.Some? && (r.Some? ==> r.value == (bytes.value, position))
    {
      if position >= |input| {
        return None;
      }
      var c := input[position];
      position := position + 1;
      var control := ControlFor(c);
      if control.Some? {
        return Some([control.value]);
      }
      if c == 'u' {
        bytes := ReadUnicodeEscape();
        return;
      }
      bytes := None;
    }

    method ReadString() returns (s: Option<Text>)
      requires Valid()
      modifies this
      ensures Valid()
      ensures var r := ParseString(input, old(position)); s.Some? == r.Some? && (r.Some? ==> r.value == (s.value, position))
    {
      var quoted := Consume('"');
      if !quoted {
        return None;
      }
      var out: Text := [];
      while position < |input|
        invariant Valid() && ParseString(input, old(position)) == ParseBytes(input, position, out)
        decreases |input| - position
      {
        var c := input[position];
        position := position + 1;
        if c == '"' {
          return Some(out);
        }
        if c == '\\' {
          var e := ReadEscape();
          if e.None? {
            return None;
          }
          out := out + e.value;
        } else {
          if c as int < 0x20 {
            return None;
          }
          out := out + [c];
        }
      }
      s := None;
    }

    /** The magnitude stays within its limit at every step, so no step can overflow. */
    method Magnitude(start: nat, end: nat, limit: uint64) returns (magnitude: Option<uint64>)
      requires start <= end <= |input| && (forall i :: start <= i < end ==> IsDigit(input[i])) && limit >= 9
      ensures magnitude == if ValueOf(input[start..end]) > limit as int then None else Some(ValueOf(input[start..end]) as uint64)
    {
      ghost var digits := input[start..end];
      var m: uint64 := 0;
      var i := start;
      while i < end
        invariant start <= i <= end && m as int == ValueOf(digits[..i - start]) <= limit as int
      {
        var digit: uint64 := DigitValue(input[i]) as uint64;
        assert digits[..i + 1 - start][..i - start] == digits[..i - start] && digits[i - start] == input[i];
        assert ValueOf(digits[..i + 1 - start]) == m as int * 10 + digit as int;
        if m > (limit - digit) / 10 {
          ValueGrows(digits, i + 1 - start);
          return None;
        }
        m := m * 10 + digit;
        i := i + 1;
      }
      assert digits[..i - start] == digits;
      magnitude := Some(m);
    }

    method ReadNumber() returns (v: Option<Value>)
      requires Valid()
      modifies this
      ensures Valid()
      ensures var r := ParseNumber(input, old(position)); v.Some? == r.Some? && (r.Some? ==> r.value == (v.value, position))
    {
      hide ValueOf;
      var start := position;
      var negative := Consume('-');
      if position >= |input| || !IsDigit(input[position]) {
        return None;
      }
      ghost var first := position;
      if input[position] == '0' {
        position := position + 1;
        if position < |input| && IsDigit(input[position]) {
          return None;
        }
      } else {
        while position < |input| && IsDigit(input[position])
          invariant Valid() && first <= position && DigitsEnd(input, position) == DigitsEnd(input, first)
          decreases |input| - position
        {
          position := position + 1;
        }
      }
      assert position == DigitsEnd(input, first);
      assert NumberEnd(input, first) == if position < |input| && RejectedInNumber(input[position]) then None else Some(position);
      hide DigitsEnd, NumberEnd;
      if position < |input| && RejectedInNumber(input[position]) {
        return None;
      }
      var end := position;
      var limit: uint64 := if negative then 0x8000_0000_0000_0000 else 0x7FFF_FFFF_FFFF_FFFF;
      var magnitude := Magnitude(if negative then start + 1 else start, end, limit);
      if magnitude.None? {
        return None;
      }
      v := Some(Num(if negative then -(magnitude.value as int) else magnitude.value as int));
    }

    method ConsumeWord(word: Text) returns (ok: bool)
      requires Valid()
      modifies this
      ensures Valid() && ok == At(input, old(position), word)
      ensures position == old(position) + (if ok then |word| else 0)
    {
      if position + |word| <= |input| && input[position..position + |word|] == word {
        position := position + |word|;
        return true;
      }
      ok := false;
    }

    method ReadValue() returns (v: Option<Value>)
      requires Valid()
      modifies this
      ensures Valid()
      ensures var r := ParseValue(input, old(position)); v.Some? == r.Some? && (r.Some? ==> r.value == (v.value, position))
    {
      if position >= |input| {
        return None;
      }
      var c := input[position];
      if c == '"' {
        var s := ReadString();
        return if s.Some? then Some(Str(s.value)) else None;
      }
      if c == 't' {
        var ok := ConsumeWord("true");
        return if ok then Some(Bool(true)) else None;
      }
      if c == 'f' {
        var ok := ConsumeWord("false");
        return if ok then Some(Bool(false)) else None;
      }
      if c == '-' || IsDigit(c) {
        v := ReadNumber();
        return;
      }
      v := None;
    }

    method ReadMember() returns (m: Option<(Text, Value)>)
      requires Valid()
      modifies this
      ensures Valid()
      ensures var r := ParseMember(input, old(position));
              m.Some? == r.Some? && (r.Some? ==> r.value == (m.value.0, m.value.1, position))
    {
      SkipWhitespace();
      var key := ReadString();
      if key.None? {
        return None;
      }
      SkipWhitespace();
      var colon := Consume(':');
      if !colon {
        return None;
      }
      SkipWhitespace();
      var value := ReadValue();
      if value.None? {
        return None;
      }
      m := Some((key.value, value.value));
    }

    method ReadMembers() returns (members: Option<Object>)
      requires Valid()
      modifies this
      ensures Valid()
      ensures var r := ParseMembers(input, old(position), map[]);
              members.Some? == r.Some? && (r.Some? ==> r.value == (members.value, position))
    {
      hide ParseMember;
      var collected: Object := map[];
      while true
        invariant Valid() && ParseMembers(input, position, collected) == ParseMembers(input, old(position), map[])
        decreases |input| - position
      {
        var member := ReadMember();
        if member.None? || member.value.0 in collected {
          return None;
        }
        collected := collected[member.value.0 := member.value.1];
        SkipWhitespace();
        var comma := Consume(',');
        if comma {
          continue;
        }
        var closed := Consume('}');
        return if closed then Some(collected) else None;
      }
    }
  }

  method DecodeObject(input: Text, maxSize: nat) returns (members: Option<Object>)
    ensures members == Decode(input, maxSize)
  {
    hide ParseMembers, SkipSpace;
    if |input| > maxSize {
      return None;
    }
    var parser := new Parser(input);
    parser.SkipWhitespace();
    var brace := parser.Consume('{');
    if !brace {
      return None;
    }
    ghost var start := parser.position;
    parser.SkipWhitespace();
    var empty := parser.Consume('}');
    if empty {
      parser.SkipWhitespace();
      return if parser.position == |input| then Some(map[]) else None;
    }
    SpaceFirst(input, start);
    members := parser.ReadMembers();
    if members.None? {
      return None;
    }
    parser.SkipWhitespace();
    if parser.position != |input| {
      return None;
    }
  }

  /** Space before the first key may be skipped once or twice. */
  lemma SpaceFirst(input: Text, p: nat)
    requires p <= |input|
    ensures ParseMembers(input, SkipSpace(input, p), map[]) == ParseMembers(input, p, map[])
  {
    hide SkipSpace, ParseMember;
    SameMember(input, p);
  }

  lemma SameMember(input: Text, p: nat)
    requires p <= |input|
    ensures ParseMember(input, SkipSpace(input, p)) == ParseMember(input, p)
  {
    hide SkipSpace, ParseString, ParseValue;
    SpaceOnce(input, p);
  }

  lemma {:induction false} SpaceOnce(input: Text, p: nat)
    requires p <= |input|
    ensures SkipSpace(input, SkipSpace(input, p)) == SkipSpace(input, p)
    decreases |input| - p
  {
    if p < |input| && IsSpace(input[p]) {
      SpaceOnce(input, p + 1);
    }
  }
}
