/** Flat JSON objects: what the printer writes and what the parser reads, as functions on byte
    strings, and the proof that reading undoes writing.  A byte is a character below 256. */
module JsonCodec {
  import opened Basics

  type Byte = c: char | c as int < 256
  type Text = seq<Byte>

  const INT64_MAX: int := 0x7FFF_FFFF_FFFF_FFFF
  const INT64_MIN: int := -0x8000_0000_0000_0000

  datatype Value = Str(text: Text) | Num(value: int) | Bool(flag: bool)
  type Object = map<Text, Value>

  predicate InRange(v: Value) { v.Num? ==> INT64_MIN <= v.value <= INT64_MAX }

  // ---------------------------------------------------------------------------------------
  // Writing

  /** The one table of escapes, read both ways. */
  function LetterFor(c: Byte): Option<Byte> {
    if c == '"' then Some('"') else if c == '\\' then Some('\\') else if c as int == 8 then Some('b')
    else if c as int == 12 then Some('f') else if c == '\n' then Some('n') else if c == '\r' then Some('r')
    else if c == '\t' then Some('t') else None
  }

  function ControlFor(letter: Byte): Option<Byte> {
    if letter == '"' then Some('"') else if letter == '\\' then Some('\\') else if letter == 'b' then Some(8 as char)
    else if letter == 'f' then Some(12 as char) else if letter == 'n' then Some('\n') else if letter == 'r' then Some('\r')
    else if letter == 't' then Some('\t') else None
  }

  function HexDigit(n: nat): Byte
    requires n < 16
  {
    if n < 10 then ('0' as int + n) as char else ('a' as int + n - 10) as char
  }

  function EncodeByte(c: Byte): (r: Text)
    ensures r != []
  {
    if LetterFor(c).Some? then ['\\', LetterFor(c).value]
    else if c as int < 0x20 then ['\\', 'u', '0', '0', HexDigit(c as int / 16), HexDigit(c as int % 16)]
    else [c]
  }

  function EncodeBytes(s: Text): Text { if s == [] then [] else EncodeByte(s[0]) + EncodeBytes(s[1..]) }

  function EncodeString(s: Text): Text { ['"'] + EncodeBytes(s) + ['"'] }

  function Digits(n: nat): (r: Text)
    ensures r != []
  {
    if n < 10 then [('0' as int + n) as char] else Digits(n / 10) + [('0' as int + n % 10) as char]
  }

  function EncodeInt(n: int): Text { if n < 0 then ['-'] + Digits(-n) else Digits(n) }

  function EncodeValue(v: Value): Text {
    match v
    case Str(text) => EncodeString(text)
    case Num(n) => EncodeInt(n)
    case Bool(flag) => if flag then "true" else "false"
  }

  function MemberText(key: Text, v: Value): Text { EncodeString(key) + [':'] + EncodeValue(v) }

  /** The members from `i` on, each preceded by a comma unless it is the first. */
  function EncodeMembers(entries: seq<(Text, Value)>, i: nat): Text
    requires i <= |entries|
    decreases |entries| - i
  {
    if i == |entries| then []
    else (if i == 0 then [] else [',']) + MemberText(entries[i].0, entries[i].1) + EncodeMembers(entries, i + 1)
  }

  /** `entries` are the object's members in the order the map lists them. */
  function Encode(entries: seq<(Text, Value)>): Text { ['{'] + EncodeMembers(entries, 0) + ['}'] }

  // ---------------------------------------------------------------------------------------
  // Reading

  predicate IsDigit(c: Byte) { '0' <= c <= '9' }

  predicate IsHex(c: Byte) { IsDigit(c) || 'a' <= c <= 'f' }

  function HexValue(c: Byte): nat
    requires IsHex(c)
  {
    if IsDigit(c) then c as int - '0' as int else c as int - 'a' as int + 10
  }

  predicate IsSpace(c: Byte) { c == ' ' || c == '\t' || c == '\n' || c == '\r' }

  function SkipSpace(input: Text, p: nat): (q: nat)
    requires p <= |input|
    ensures p <= q <= |input|
    decreases |input| - p
  {
    if p < |input| && IsSpace(input[p]) then SkipSpace(input, p + 1) else p
  }

  /** The bytes a 16-bit code stands for; `None` for a surrogate. */
  function CodeBytes(code: nat): Option<Text>
    requires code < 0x1_0000
  {
    if 0xD800 <= code <= 0xDFFF then None
    else if code < 0x80 then Some([code as char])
    else if code < 0x800 then Some([(0xC0 + code / 0x40) as char, (0x80 + code % 0x40) as char])
    else Some([(0xE0 + code / 0x1000) as char, (0x80 + code / 0x40 % 0x40) as char, (0x80 + code % 0x40) as char])
  }

  predicate AllHex(input: Text, p: nat, n: nat) { p + n <= |input| && forall k :: p <= k < p + n ==> IsHex(input[k]) }

  /** The number that `n` hexadecimal digits spell. */
  function HexRun(input: Text, p: nat, n: nat): nat
    requires AllHex(input, p, n)
  {
    if n == 0 then 0 else HexRun(input, p, n - 1) * 16 + HexValue(input[p + n - 1])
  }

  lemma HexRunBound(input: Text, p: nat)
    requires AllHex(input, p, 4)
    ensures HexRun(input, p, 4) < 0x1_0000
  {
    assert HexRun(input, p, 1) < 16;
    assert HexRun(input, p, 2) < 0x100;
    assert HexRun(input, p, 3) < 0x1000;
  }

  /** After a backslash: the bytes meant and where reading goes on. */
  function ParseEscape(input: Text, p: nat): (r: Option<(Text, nat)>)
    requires p <= |input|
    ensures r.Some? ==> p < r.value.1 <= |input|
  {
    if p == |input| then None
    else if ControlFor(input[p]).Some? then Some(([ControlFor(input[p]).value], p + 1))
    else if input[p] != 'u' || |input| - (p + 1) < 4 then None
    else if !AllHex(input, p + 1, 4) then None
    else
      HexRunBound(input, p + 1);
      var bytes := CodeBytes(HexRun(input, p + 1, 4));
      if bytes.None? then None else Some((bytes.value, p + 5))
  }

  /** The rest of a string after its opening quote, appended to `out`. */
  function ParseBytes(input: Text, p: nat, out: Text): (r: Option<(Text, nat)>)
    requires p <= |input|
    ensures r.Some? ==> p < r.value.1 <= |input|
    decreases |input| - p
  {
    if p == |input| then None
    else if input[p] == '"' then Some((out, p + 1))
    else if input[p] == '\\' then
      var e := ParseEscape(input, p + 1);
      if e.None? then None else ParseBytes(input, e.value.1, out + e.value.0)
    else if input[p] as int < 0x20 then None
    else ParseBytes(input, p + 1, out + [input[p]])
  }

  function ParseString(input: Text, p: nat): (r: Option<(Text, nat)>)
    requires p <= |input|
    ensures r.Some? ==> p < r.value.1 <= |input|
  {
    if p < |input| && input[p] == '"' then ParseBytes(input, p + 1, []) else None
  }

  function DigitsEnd(input: Text, p: nat): (q: nat)
    requires p <= |input|
    ensures p <= q <= |input| && forall i :: p <= i < q ==> IsDigit(input[i])
    ensures q < |input| ==> !IsDigit(input[q])
    decreases |input| - p
  {
    if p < |input| && IsDigit(input[p]) then DigitsEnd(input, p + 1) else p
  }

  function DigitValue(c: Byte): nat
    requires IsDigit(c)
  {
    c as int - '0' as int
  }

  function ValueOf(digits: Text): nat
    requires forall i :: 0 <= i < |digits| ==> IsDigit(digits[i])
  {
    if digits == [] then 0 else ValueOf(digits[..|digits| - 1]) * 10 + DigitValue(digits[|digits| - 1])
  }

  predicate RejectedInNumber(c: Byte) { c == '.' || c == 'e' || c == 'E' }

  /** Where a number's digits end, if its digits are well formed: no leading zero, no fraction or
      exponent. */
  function NumberEnd(input: Text, p: nat): (r: Option<nat>)
    requires p <= |input|
    ensures r.Some? ==> p < r.value <= |input| && forall i :: p <= i < r.value ==> IsDigit(input[i])
  {
    if p == |input| || !IsDigit(input[p]) then None
    else if input[p] == '0' && p + 1 < |input| && IsDigit(input[p + 1]) then None
    else
      var end := DigitsEnd(input, p);
      if end < |input| && RejectedInNumber(input[end]) then None else Some(end)
  }

  function Limit(negative: bool): nat { if negative then -INT64_MIN else INT64_MAX }

  function Signed(negative: bool, magnitude: int): int { if negative then -magnitude else magnitude }

  /** A well-formed number is read exactly when its value fits 64 bits. */
  function ParseNumber(input: Text, p: nat): (r: Option<(Value, nat)>)
    requires p <= |input|
    ensures r.Some? ==> p < r.value.1 <= |input| && InRange(r.value.0)
  {
    var negative := p < |input| && input[p] == '-';
    var start := if negative then p + 1 else p;
    var end := NumberEnd(input, start);
    if end.None? then None
    else
      var magnitude := ValueOf(input[start..end.value]);
      if magnitude > Limit(negative) then None else Some((Num(Signed(negative, magnitude)), end.value))
  }

  predicate At(input: Text, p: nat, word: Text) { p + |word| <= |input| && input[p..p + |word|] == word }

  function ParseValue(input: Text, p: nat): (r: Option<(Value, nat)>)
    requires p <= |input|
    ensures r.Some? ==> p < r.value.1 <= |input| && InRange(r.value.0)
  {
    if p == |input| then None
    else if input[p] == '"' then
      var s := ParseString(input, p);
      if s.None? then None else Some((Str(s.value.0), s.value.1))
    else if input[p] == 't' then if At(input, p, "true") then Some((Bool(true), p + 4)) else None
    else if input[p] == 'f' then if At(input, p, "false") then Some((Bool(false), p + 5)) else None
    else if input[p] == '-' || IsDigit(input[p]) then ParseNumber(input, p)
    else None
  }

  /** One member: key, colon, value. */
  function ParseMember(input: Text, p: nat): (r: Option<(Text, Value, nat)>)
    requires p <= |input|
    ensures r.Some? ==> p < r.value.2 <= |input| && InRange(r.value.1)
  {
    var key := ParseString(input, SkipSpace(input, p));
    if key.None? then None
    else
      var colon := SkipSpace(input, key.value.1);
      if colon == |input| || input[colon] != ':' then None
      else
        var value := ParseValue(input, SkipSpace(input, colon + 1));
        if value.None? then None else Some((key.value.0, value.value.0, value.value.1))
  }

  /** The members from `p` on and the closing brace. */
  function ParseMembers(input: Text, p: nat, members: Object): (r: Option<(Object, nat)>)
    requires p <= |input|
    ensures r.Some? ==> p < r.value.1 <= |input|
    decreases |input| - p
  {
    var member := ParseMember(input, p);
    if member.None? || member.value.0 in members then None
    else
      var members' := members[member.value.0 := member.value.1];
      var q := SkipSpace(input, member.value.2);
      if q == |input| then None
      else if input[q] == ',' then ParseMembers(input, q + 1, members')
      else if input[q] == '}' then Some((members', q + 1))
      else None
  }

  function Decode(input: Text, maxSize: nat): Option<Object> {
    if |input| > maxSize then None
    else
      var open := SkipSpace(input, 0);
      if open == |input| || input[open] != '{' then None
      else
        var p := SkipSpace(input, open + 1);
        var body := if p < |input| && input[p] == '}' then Some((map[], p + 1)) else ParseMembers(input, open + 1, map[]);
        if body.None? || SkipSpace(input, body.value.1) != |input| then None else Some(body.value.0)
  }

  // ---------------------------------------------------------------------------------------
  // Reading undoes writing

  lemma AtParts(input: Text, p: nat, a: Text, b: Text)
    requires At(input, p, a + b)
    ensures At(input, p, a) && At(input, p + |a|, b)
  {
    assert (a + b)[..|a|] == a && (a + b)[|a|..] == b;
    assert input[p..p + |a|] == input[p..p + |a + b|][..|a|];
    assert input[p + |a|..p + |a + b|] == input[p..p + |a + b|][|a|..];
  }

  lemma AtFirst(input: Text, p: nat, a: Text)
    requires At(input, p, a) && a != []
    ensures p < |input| && input[p] == a[0]
  {
  }

  lemma AtIndex(input: Text, p: nat, a: Text, k: nat)
    requires At(input, p, a) && k < |a|
    ensures p + k < |input| && input[p + k] == a[k]
  {
    assert input[p..p + |a|][k] == input[p + k];
  }

  /** The four digits of an escaped control byte spell it. */
  lemma FourDigits(input: Text, p: nat, hi: nat, lo: nat)
    requires p + 4 <= |input| && hi < 16 && lo < 16
    requires input[p] == '0' && input[p + 1] == '0' && input[p + 2] == HexDigit(hi) && input[p + 3] == HexDigit(lo)
    ensures AllHex(input, p, 4) && HexRun(input, p, 4) == hi * 16 + lo
  {
    assert HexRun(input, p, 0) == 0;
    assert HexRun(input, p, 1) == 0;
    assert HexRun(input, p, 2) == 0;
    assert HexRun(input, p, 3) == hi;
  }

  /** One written byte is read back. */
  lemma ByteRead(input: Text, p: nat, c: Byte, out: Text)
    requires At(input, p, EncodeByte(c)) && p + |EncodeByte(c)| <= |input|
    ensures ParseBytes(input, p, out) == ParseBytes(input, p + |EncodeByte(c)|, out + [c])
  {
    hide At;
    var e := EncodeByte(c);
    AtIndex(input, p, e, 0);
    if LetterFor(c).Some? {
      AtIndex(input, p, e, 1);
    } else if c as int < 0x20 {
      var hi, lo := c as int / 16, c as int % 16;
      AtIndex(input, p, e, 1);
      AtIndex(input, p, e, 2);
      AtIndex(input, p, e, 3);
      AtIndex(input, p, e, 4);
      AtIndex(input, p, e, 5);
      FourDigits(input, p + 2, hi, lo);
      assert ParseEscape(input, p + 1) == Some(([c], p + 6));
    }
  }

  lemma QuoteRead(input: Text, p: nat, out: Text)
    requires At(input, p, ['"'])
    ensures ParseBytes(input, p, out) == Some((out, p + 1))
  {
    AtFirst(input, p, ['"']);
  }

  lemma {:induction false} BytesRead(input: Text, p: nat, s: Text, out: Text)
    requires At(input, p, EncodeBytes(s) + ['"'])
    ensures ParseBytes(input, p, out) == Some((out + s, p + |EncodeBytes(s)| + 1))
    decreases |s|
  {
    hide At, ParseBytes, EncodeByte;
    if s == [] {
      assert EncodeBytes(s) + ['"'] == ['"'] && out + s == out;
      QuoteRead(input, p, out);
    } else {
      var rest := EncodeBytes(s[1..]) + ['"'];
      assert EncodeBytes(s) + ['"'] == EncodeByte(s[0]) + rest;
      AtParts(input, p, EncodeByte(s[0]), rest);
      ByteRead(input, p, s[0], out);
      BytesRead(input, p + |EncodeByte(s[0])|, s[1..], out + [s[0]]);
      assert out + [s[0]] + s[1..] == out + s;
    }
  }

  lemma StringRead(input: Text, p: nat, s: Text)
    requires At(input, p, EncodeString(s))
    ensures ParseString(input, p) == Some((s, p + |EncodeString(s)|))
  {
    assert EncodeString(s) == ['"'] + (EncodeBytes(s) + ['"']);
    AtParts(input, p, ['"'], EncodeBytes(s) + ['"']);
    AtFirst(input, p, ['"']);
    BytesRead(input, p + 1, s, []);
    assert [] + s == s;
  }

  /** Decimal digits: all digits, no leading zero, and of the right value. */
  lemma {:induction false} DigitsFacts(n: nat)
    ensures forall i :: 0 <= i < |Digits(n)| ==> IsDigit(Digits(n)[i])
    ensures ValueOf(Digits(n)) == n
    ensures Digits(n)[0] == '0' ==> |Digits(n)| == 1
    decreases n
  {
    if n >= 10 {
      DigitsFacts(n / 10);
      var d := Digits(n / 10);
      var last := ('0' as int + n % 10) as char;
      assert (d + [last])[..|d + [last]| - 1] == d;
      assert n / 10 > 0;
    } else {
      var d := Digits(n);
      assert d[..0] == [];
      assert ValueOf(d[..0]) == 0;
    }
  }

  lemma {:induction false} EndOfDigits(input: Text, p: nat, q: nat)
    requires p <= q <= |input| && (forall i :: p <= i < q ==> IsDigit(input[i])) && (q < |input| ==> !IsDigit(input[q]))
    ensures DigitsEnd(input, p) == q
    decreases q - p
  {
    if p < q {
      EndOfDigits(input, p + 1, q);
    }
  }

  /** What may follow a value inside an object. */
  predicate Closes(input: Text, q: nat) { q < |input| && (input[q] == ',' || input[q] == '}') }

  /** Written digits are read back if and only if their value fits 64 bits. */
  lemma NumberRead(input: Text, p: nat, negative: bool, magnitude: nat)
    requires At(input, p, (if negative then ['-'] else []) + Digits(magnitude))
    requires Closes(input, p + (if negative then 1 else 0) + |Digits(magnitude)|)
    ensures ParseNumber(input, p) ==
              if magnitude > Limit(negative) then None
              else Some((Num(Signed(negative, magnitude)), p + (if negative then 1 else 0) + |Digits(magnitude)|))
    ensures p < |input| && (input[p] == '-' || IsDigit(input[p]))
  {
    hide Digits, ValueOf, DigitsEnd, At;
    var d := Digits(magnitude);
    var start := if negative then p + 1 else p;
    DigitsFacts(magnitude);
    if negative {
      AtParts(input, p, ['-'], d);
      AtFirst(input, p, ['-']);
    } else {
      assert [] + d == d;
    }
    AtFirst(input, start, d);
    var end := start + |d|;
    AtSlice(input, start, d);
    DigitsRead(input, start, d);
    EndOfDigits(input, start, end);
  }

  lemma AtSlice(input: Text, p: nat, a: Text)
    requires At(input, p, a)
    ensures p + |a| <= |input| && input[p..p + |a|] == a
  {
  }

  lemma DigitsRead(input: Text, start: nat, d: Text)
    requires start + |d| <= |input| && input[start..start + |d|] == d && forall i :: 0 <= i < |d| ==> IsDigit(d[i])
    ensures forall i :: start <= i < start + |d| ==> IsDigit(input[i])
    ensures |d| > 1 ==> input[start + 1] == d[1]
  {
    assert forall i :: start <= i < start + |d| ==> input[i] == d[i - start];
  }

  /** A decimal number without leading zeros is read if and only if it fits 64 bits. */
  lemma NumberReadIffItFits(input: Text, p: nat, n: int)
    requires At(input, p, EncodeInt(n)) && Closes(input, p + |EncodeInt(n)|)
    ensures ParseNumber(input, p).Some? <==> INT64_MIN <= n <= INT64_MAX
    ensures INT64_MIN <= n <= INT64_MAX ==> ParseNumber(input, p) == Some((Num(n), p + |EncodeInt(n)|))
    ensures p < |input| && (input[p] == '-' || IsDigit(input[p]))
  {
    hide Digits, ParseNumber, At;
    if n < 0 {
      NumberRead(input, p, true, -n);
    } else {
      assert [] + Digits(n) == Digits(n);
      NumberRead(input, p, false, n);
    }
  }

  lemma ValueRead(input: Text, p: nat, v: Value)
    requires At(input, p, EncodeValue(v)) && InRange(v) && Closes(input, p + |EncodeValue(v)|)
    ensures ParseValue(input, p) == Some((v, p + |EncodeValue(v)|))
    ensures !IsSpace(input[p])
  {
    match v
    case Str(s) =>
      StringRead(input, p, s);
      assert EncodeString(s)[0] == '"';
      AtFirst(input, p, EncodeString(s));
    case Num(n) => NumberReadIffItFits(input, p, n);
    case Bool(flag) => AtFirst(input, p, EncodeValue(v));
  }

  lemma MemberRead(input: Text, p: nat, key: Text, v: Value)
    requires At(input, p, MemberText(key, v)) && InRange(v) && Closes(input, p + |MemberText(key, v)|)
    ensures ParseMember(input, p) == Some((key, v, p + |MemberText(key, v)|))
    ensures input[p] == '"'
  {
    hide At, EncodeValue, ParseString, ParseValue, EncodeBytes;
    assert MemberText(key, v) == EncodeString(key) + ([':'] + EncodeValue(v));
    AtParts(input, p, EncodeString(key), [':'] + EncodeValue(v));
    var colon := p + |EncodeString(key)|;
    AtParts(input, colon, [':'], EncodeValue(v));
    StringRead(input, p, key);
    assert EncodeString(key)[0] == '"';
    AtFirst(input, p, EncodeString(key));
    AtFirst(input, colon, [':']);
    ValueRead(input, colon + 1, v);
  }

  /** The members listed from `i` on. */
  function ObjectFrom(entries: seq<(Text, Value)>, i: nat, members: Object): Object
    requires i <= |entries|
    decreases |entries| - i
  {
    if i == |entries| then members else ObjectFrom(entries, i + 1, members[entries[i].0 := entries[i].1])
  }

  predicate Distinct(entries: seq<(Text, Value)>) {
    && (forall i, j :: 0 <= i < j < |entries| ==> entries[i].0 != entries[j].0)
    && forall i :: 0 <= i < |entries| ==> InRange(entries[i].1)
  }

  /** The text of the members from `i` on, without a comma in front. */
  function MembersText(entries: seq<(Text, Value)>, i: nat): Text
    requires i < |entries|
  {
    MemberText(entries[i].0, entries[i].1) + EncodeMembers(entries, i + 1)
  }

  lemma MembersSplit(input: Text, p: nat, entries: seq<(Text, Value)>, i: nat)
    requires i < |entries| && At(input, p, MembersText(entries, i) + ['}'])
    ensures var member := MemberText(entries[i].0, entries[i].1);
            var q := p + |member|;
            && At(input, p, member) && q < |input|
            && if i + 1 == |entries| then input[q] == '}' && |MembersText(entries, i)| == |member|
               else
                 && input[q] == ',' && At(input, q + 1, MembersText(entries, i + 1) + ['}'])
                 && |MembersText(entries, i)| == |member| + 1 + |MembersText(entries, i + 1)|
  {
    hide At, MemberText;
    var member := MemberText(entries[i].0, entries[i].1);
    var rest := EncodeMembers(entries, i + 1);
    assert MembersText(entries, i) + ['}'] == member + (rest + ['}']);
    AtParts(input, p, member, rest + ['}']);
    var q := p + |member|;
    if i + 1 == |entries| {
      assert rest + ['}'] == ['}'];
      AtFirst(input, q, ['}']);
    } else {
      var next := MembersText(entries, i + 1);
      assert rest == [','] + next;
      assert rest + ['}'] == [','] + (next + ['}']);
      AtParts(input, q, [','], next + ['}']);
      AtFirst(input, q, [',']);
    }
  }

  lemma {:induction false} MembersRead(input: Text, p: nat, entries: seq<(Text, Value)>, i: nat, members: Object)
    requires Distinct(entries) && i < |entries| && forall k :: i <= k < |entries| ==> entries[k].0 !in members
    requires At(input, p, MembersText(entries, i) + ['}'])
    ensures ParseMembers(input, p, members) == Some((ObjectFrom(entries, i, members), p + |MembersText(entries, i)| + 1))
    ensures input[p] == '"'
    decreases |entries| - i
  {
    hide At, MemberText, MembersText, ParseMember;
    MembersSplit(input, p, entries, i);
    MemberRead(input, p, entries[i].0, entries[i].1);
    if i + 1 < |entries| {
      var q := p + |MemberText(entries[i].0, entries[i].1)|;
      MembersRead(input, q + 1, entries, i + 1, members[entries[i].0 := entries[i].1]);
    }
  }

  /** Reading undoes writing, for every flat object whose text is within the size limit. */
  lemma DecodeEncode(entries: seq<(Text, Value)>, maxSize: nat)
    requires Distinct(entries) && |Encode(entries)| <= maxSize
    ensures Decode(Encode(entries), maxSize) == Some(ObjectFrom(entries, 0, map[]))
  {
    hide MemberText, ParseMembers;
    var input := Encode(entries);
    assert input[0] == '{';
    if entries == [] {
      assert input == ['{', '}'];
    } else {
      var body := MembersText(entries, 0);
      assert EncodeMembers(entries, 0) == body;
      assert input == ['{'] + (body + ['}']);
      assert input[0..|input|] == input;
      AtParts(input, 0, ['{'], body + ['}']);
      MembersRead(input, 1, entries, 0, map[]);
    }
  }

  /** The listed entries are exactly the object's members. */
  lemma {:induction false} ObjectOfEntries(entries: seq<(Text, Value)>, i: nat, members: Object)
    requires Distinct(entries) && i <= |entries| && forall k :: i <= k < |entries| ==> entries[k].0 !in members
    ensures var r := ObjectFrom(entries, i, members);
            && r.Keys == members.Keys + (set k | i <= k < |entries| :: entries[k].0)
            && (forall k :: i <= k < |entries| ==> r[entries[k].0] == entries[k].1)
            && forall key :: key in members ==> r[key] == members[key]
    decreases |entries| - i
  {
    if i < |entries| {
      ObjectOfEntries(entries, i + 1, members[entries[i].0 := entries[i].1]);
    }
  }

  /** Bytes compare as unsigned numbers, a prefix before what extends it. */
  predicate Before(a: Text, b: Text) {
    if a == [] then b != [] else b != [] && (a[0] < b[0] || (a[0] == b[0] && Before(a[1..], b[1..])))
  }

  lemma {:induction false} BeforeDiffers(a: Text, b: Text)
    requires Before(a, b)
    ensures a != b
  {
    if a != [] && a[0] == b[0] {
      BeforeDiffers(a[1..], b[1..]);
    }
  }

  /** The entries are the object's members in key order, as an ordered map lists them. */
  predicate Lists(entries: seq<(Text, Value)>, members: Object) {
    && (forall i, j :: 0 <= i < j < |entries| ==> Before(entries[i].0, entries[j].0))
    && (forall i :: 0 <= i < |entries| ==> entries[i].0 in members && members[entries[i].0] == entries[i].1)
    && (forall key :: key in members ==> exists i :: 0 <= i < |entries| && entries[i].0 == key)
  }

  lemma ListedOnce(entries: seq<(Text, Value)>, members: Object)
    requires Lists(entries, members) && forall key :: key in members ==> InRange(members[key])
    ensures Distinct(entries)
  {
    forall i, j | 0 <= i < j < |entries|
      ensures entries[i].0 != entries[j].0
    {
      BeforeDiffers(entries[i].0, entries[j].0);
    }
  }

  lemma {:induction false} BeforeTotal(a: Text, b: Text)
    ensures a == b || Before(a, b) || Before(b, a)
  {
    if a != [] && b != [] && a[0] == b[0] {
      BeforeTotal(a[1..], b[1..]);
      assert a == [a[0]] + a[1..] && b == [b[0]] + b[1..];
    }
  }

  lemma {:induction false} BeforeAfter(a: Text, b: Text, c: Text)
    requires Before(a, b) && Before(b, c)
    ensures Before(a, c)
  {
    if a != [] && a[0] == b[0] == c[0] {
      BeforeAfter(a[1..], b[1..], c[1..]);
    }
  }

  function Insert(entries: seq<(Text, Value)>, entry: (Text, Value)): seq<(Text, Value)> {
    if entries == [] || Before(entry.0, entries[0].0) then [entry] + entries
    else [entries[0]] + Insert(entries[1..], entry)
  }

  lemma ListsRest(entries: seq<(Text, Value)>, members: Object)
    requires Lists(entries, members) && entries != []
    ensures Lists(entries[1..], members - {entries[0].0})
  {
    hide Before;
    forall i | 1 <= i < |entries| ensures entries[i].0 != entries[0].0 { BeforeDiffers(entries[0].0, entries[i].0); }
    forall key | key in members - {entries[0].0}
      ensures exists i :: 0 <= i < |entries[1..]| && entries[1..][i].0 == key
    {
      var i :| 0 <= i < |entries| && entries[i].0 == key;
      assert entries[1..][i - 1].0 == key;
    }
  }

  lemma ListsMore(entry: (Text, Value), rest: seq<(Text, Value)>, members: Object)
    requires Lists(rest, members) && entry.0 !in members && forall i :: 0 <= i < |rest| ==> Before(entry.0, rest[i].0)
    ensures Lists([entry] + rest, members[entry.0 := entry.1])
  {
    hide Before;
    var all, more := [entry] + rest, members[entry.0 := entry.1];
    forall key | key in more
      ensures exists i :: 0 <= i < |all| && all[i].0 == key
    {
      if key == entry.0 {
        assert all[0].0 == key;
      } else {
        var i :| 0 <= i < |rest| && rest[i].0 == key;
        assert all[i + 1].0 == key;
      }
    }
  }

  lemma {:induction false} InsertLists(entries: seq<(Text, Value)>, members: Object, entry: (Text, Value))
    requires Lists(entries, members) && entry.0 !in members
    ensures Lists(Insert(entries, entry), members[entry.0 := entry.1])
  {
    hide Before;
    if entries == [] {
      ListsMore(entry, entries, members);
    } else if Before(entry.0, entries[0].0) {
      forall i | 1 <= i < |entries| ensures Before(entry.0, entries[i].0) { BeforeAfter(entry.0, entries[0].0, entries[i].0); }
      ListsMore(entry, entries, members);
    } else {
      var first, rest := entries[0], members - {entries[0].0};
      BeforeTotal(entry.0, first.0);
      ListsRest(entries, members);
      InsertLists(entries[1..], rest, entry);
      var tail, more := Insert(entries[1..], entry), rest[entry.0 := entry.1];
      forall i | 0 <= i < |tail|
        ensures Before(first.0, tail[i].0)
      {
        if tail[i].0 != entry.0 {
          var j :| 0 <= j < |entries| && entries[j].0 == tail[i].0;
        }
      }
      ListsMore(first, tail, more);
      assert more[first.0 := first.1] == members[entry.0 := entry.1];
    }
  }

  /** Every object has a listing in key order. */
  ghost function Listing(members: Object): (entries: seq<(Text, Value)>)
    ensures Lists(entries, members)
    decreases |members|
  {
    if members == map[] then []
    else
      var key :| key in members;
      InsertLists(Listing(members - {key}), members - {key}, (key, members[key]));
      assert (members - {key})[key := members[key]] == members;
      Insert(Listing(members - {key}), (key, members[key]))
  }

  /** And only one, so that the text of an object is determined. */
  lemma {:induction false} OneListing(a: seq<(Text, Value)>, b: seq<(Text, Value)>, members: Object)
    requires Lists(a, members) && Lists(b, members)
    ensures a == b
  {
    hide Before, Lists;
    NothingListed(a, members);
    NothingListed(b, members);
    if a != [] && b != [] {
      SameFirst(a, b, members);
      ListsRest(a, members);
      ListsRest(b, members);
      OneListing(a[1..], b[1..], members - {a[0].0});
      assert a == [a[0]] + a[1..] && b == [b[0]] + b[1..];
    }
  }

  lemma NothingListed(entries: seq<(Text, Value)>, members: Object)
    requires Lists(entries, members)
    ensures entries == [] <==> members == map[]
  {
    assert entries != [] ==> entries[0].0 in members;
  }

  lemma SameFirst(a: seq<(Text, Value)>, b: seq<(Text, Value)>, members: Object)
    requires Lists(a, members) && Lists(b, members) && a != [] && b != []
    ensures a[0] == b[0]
  {
    hide Before;
    var i :| 0 <= i < |b| && b[i].0 == a[0].0;
    var j :| 0 <= j < |a| && a[j].0 == b[0].0;
    if a[0].0 != b[0].0 {
      BeforeAfter(a[0].0, b[0].0, a[0].0);
      BeforeDiffers(a[0].0, a[0].0);
    }
  }

  /** decode(encode(o)) == o, for every flat object of byte strings, 64-bit integers and
      booleans whose text is within the size limit. */
  lemma RoundTrip(members: Object, maxSize: nat)
    requires (forall key :: key in members ==> InRange(members[key])) && |Encode(Listing(members))| <= maxSize
    ensures Decode(Encode(Listing(members)), maxSize) == Some(members)
  {
    var entries := Listing(members);
    hide Decode, Encode, ObjectFrom, Before, Listing;
    ListedOnce(entries, members);
    DecodeEncode(entries, maxSize);
    ObjectOfEntries(entries, 0, map[]);
    var r := ObjectFrom(entries, 0, map[]);
    assert r.Keys == members.Keys;
    forall key | key in members
      ensures r[key] == members[key]
    {
      var i :| 0 <= i < |entries| && entries[i].0 == key;
    }
    assert r == members;
  }
}
