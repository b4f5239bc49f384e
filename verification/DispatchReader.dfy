/** The JSON reader of the business dispatcher: an object with an input and a moving
    position, which decodes strings to UTF-8, including surrogate pairs, and rejects
    lone surrogates. Functions say what it accepts; the class is its loops. */
module DispatchReader {
  import opened Decimal
  import opened JsonText

  datatype Text = NoText | Text(value: string, end: nat)

  // ---------------------------------------------------------------- UTF-8

  predicate IsScalar(cp: nat) { cp <= 0x10FFFF && !(0xD800 <= cp <= 0xDFFF) }

  /** The octets of a code point. */
  function Utf8(cp: nat): (s: string)
    requires IsScalar(cp)
    ensures s != ""
  {
    if cp <= 0x7F then [cp as char]
    else if cp <= 0x7FF then [(0xC0 + cp / 64) as char, (0x80 + cp % 64) as char]
    else if cp <= 0xFFFF then
      [(0xE0 + cp / 4096) as char, (0x80 + cp / 64 % 64) as char, (0x80 + cp % 64) as char]
    else
      [(0xF0 + cp / 262144) as char, (0x80 + cp / 4096 % 64) as char, (0x80 + cp / 64 % 64) as char,
       (0x80 + cp % 64) as char]
  }

  /** The scalar that a surrogate pair stands for. */
  function Paired(high: nat, low: nat): (cp: nat)
    requires 0xD800 <= high <= 0xDBFF && 0xDC00 <= low <= 0xDFFF
    ensures IsScalar(cp) && cp > 0xFFFF
  {
    0x10000 + (high - 0xD800) * 0x400 + (low - 0xDC00)
  }

  /** What a `\u` escape stands for, given the position after the `u`: the octets and
      the position behind it. */
  function EscapedUnit(t: string, pos: nat): (r: Text)
    ensures r.Text? ==> pos < r.end <= |t| && t[r.end - 1] != '\\'
  {
    if !Hex4At(t, pos) then NoText
    else if 0xD800 <= Hex4(t, pos) <= 0xDBFF then
      if pos + 6 <= |t| && t[pos + 4] == '\\' && t[pos + 5] == 'u' && Hex4At(t, pos + 6) &&
         0xDC00 <= Hex4(t, pos + 6) <= 0xDFFF
      then Text(Utf8(Paired(Hex4(t, pos), Hex4(t, pos + 6))), pos + 10)
      else NoText
    else if !IsScalar(Hex4(t, pos)) then NoText
    else Text(Utf8(Hex4(t, pos)), pos + 4)
  }

  function Joined(value: string, r: Text): Text {
    if r.NoText? then NoText else Text(value + r.value, r.end)
  }

  /** The rest of a string whose opening quote was consumed. */
  function StringRest(t: string, pos: nat): (r: Text)
    requires pos <= |t|
    ensures r.Text? ==> pos < r.end <= |t| && t[r.end - 1] == '"'
    decreases |t| - pos
  {
    if pos >= |t| then NoText
    else if t[pos] == '"' then Text("", pos + 1)
    else if t[pos] as int < 0x20 then NoText
    else if t[pos] != '\\' then Joined([t[pos]], StringRest(t, pos + 1))
    else if pos + 1 >= |t| then NoText
    else if SimpleEscape(t[pos + 1]) then Joined([Unescaped(t[pos + 1])], StringRest(t, pos + 2))
    else if t[pos + 1] != 'u' then NoText
    else
      var u := EscapedUnit(t, pos + 2);
      if u.NoText? then NoText else Joined(u.value, StringRest(t, u.end))
  }

  lemma RestIs(t: string, pos: nat)
    requires pos <= |t|
    ensures StringRest(t, pos) ==
            if pos >= |t| then NoText
            else if t[pos] == '"' then Text("", pos + 1)
            else if t[pos] as int < 0x20 then NoText
            else if t[pos] != '\\' then Joined([t[pos]], StringRest(t, pos + 1))
            else if pos + 1 >= |t| then NoText
            else if SimpleEscape(t[pos + 1]) then Joined([Unescaped(t[pos + 1])], StringRest(t, pos + 2))
            else if t[pos + 1] != 'u' then NoText
            else
              var u := EscapedUnit(t, pos + 2);
              if u.NoText? then NoText else Joined(u.value, StringRest(t, u.end))
  {
  }

  function StringAt(t: string, pos: nat): (r: Text)
    ensures r.Text? ==> pos + 1 < r.end <= |t| && t[r.end - 1] == '"'
  {
    if pos >= |t| || t[pos] != '"' then NoText else StringRest(t, pos + 1)
  }

  function SkipString(t: string, pos: nat): (s: Scan)
    ensures s.End? ==> pos + 1 < s.pos <= |t| && t[s.pos - 1] == '"'
  {
    match StringAt(t, pos) case NoText => Reject case Text(_, e) => End(e)
  }

  function FullString(t: string): Text {
    var r := StringAt(t, SkipWs(t, 0));
    if r.Text? && SkipWs(t, r.end) == |t| then r else NoText
  }

  // ---------------------------------------------------------------- values

  function SkipNumber(t: string, pos: nat): (s: Scan)
    requires pos <= |t|
    ensures s.End? ==> pos < s.pos <= |t| && IsDigit(t[s.pos - 1])
  {
    var p := if pos < |t| && t[pos] == '-' then pos + 1 else pos;
    if p >= |t| || !IsDigit(t[p]) then Reject
    else if t[p] == '0' then
      if p + 1 < |t| && IsDigit(t[p + 1]) then Reject else SkipNumberTail(t, p + 1)
    else
      var e := DigitsEnd(t, p);
      assert t[e - 1] == t[p..e][e - p - 1];
      SkipNumberTail(t, e)
  }

  function SkipScalar(t: string, p: nat): (s: Scan)
    requires p < |t|
    ensures s.End? ==> p < s.pos <= |t| && t[s.pos - 1] != '\\'
  {
    if t[p] == '"' then SkipString(t, p)
    else if t[p] == 't' then SkipLiteral(t, p, "true")
    else if t[p] == 'f' then SkipLiteral(t, p, "false")
    else if t[p] == 'n' then SkipLiteral(t, p, "null")
    else SkipNumber(t, p)
  }

  /** No white space is skipped here: callers did. */
  function SkipValue(t: string, pos: nat, depth: nat): (s: Scan)
    requires pos <= |t|
    ensures s.End? ==> pos < s.pos <= |t| && t[s.pos - 1] != '\\'
    decreases |t| - pos, 2
  {
    if depth > MAX_DEPTH || pos >= |t| then Reject
    else if t[pos] == '{' then SkipObject(t, pos, depth + 1)
    else if t[pos] == '[' then SkipArray(t, pos, depth + 1)
    else SkipScalar(t, pos)
  }

  function SkipArray(t: string, pos: nat, depth: nat): (s: Scan)
    requires pos <= |t|
    ensures s.End? ==> pos < s.pos <= |t| && t[s.pos - 1] == ']'
    decreases |t| - pos, 1
  {
    if pos >= |t| || t[pos] != '[' then Reject else
    var p := SkipWs(t, pos + 1);
    if p < |t| && t[p] == ']' then End(p + 1) else SkipElements(t, p, depth)
  }

  function ElementTurn(t: string, pos: nat, depth: nat): (r: Turn)
    requires pos <= |t|
    ensures r.More? ==> pos < r.pos <= |t|
    ensures r.Stop? && r.result.End? ==> pos < r.result.pos <= |t| && t[r.result.pos - 1] == ']'
    decreases |t| - pos, 3
  {
    var v := SkipValue(t, pos, depth);
    if v.Reject? then Stop(Reject) else AfterElement(t, v.pos, ']')
  }

  function SkipElements(t: string, pos: nat, depth: nat): (s: Scan)
    requires pos <= |t|
    ensures s.End? ==> pos < s.pos <= |t| && t[s.pos - 1] == ']'
    decreases |t| - pos, 4
  {
    match ElementTurn(t, pos, depth)
    case Stop(result) => result
    case More(next) => SkipElements(t, next, depth)
  }

  function SkipObject(t: string, pos: nat, depth: nat): (s: Scan)
    requires pos <= |t|
    ensures s.End? ==> pos < s.pos <= |t| && t[s.pos - 1] == '}'
    decreases |t| - pos, 1
  {
    if pos >= |t| || t[pos] != '{' then Reject else
    var p := SkipWs(t, pos + 1);
    if p < |t| && t[p] == '}' then End(p + 1) else SkipMembers(t, p, depth)
  }

  /** A key, a colon, and the place where the member's value starts. */
  function SkipKey(t: string, pos: nat): (s: Scan)
    requires pos <= |t|
    ensures s.End? ==> pos + 1 < s.pos <= |t|
  {
    var k := SkipString(t, pos);
    if k.Reject? then Reject else
    var c := SkipWs(t, k.pos);
    if c >= |t| || t[c] != ':' then Reject else End(SkipWs(t, c + 1))
  }

  function MemberTurn(t: string, pos: nat, depth: nat): (r: Turn)
    requires pos <= |t|
    ensures r.More? ==> pos < r.pos <= |t|
    ensures r.Stop? && r.result.End? ==> pos < r.result.pos <= |t| && t[r.result.pos - 1] == '}'
    decreases |t| - pos, 3
  {
    var k := SkipKey(t, pos);
    if k.Reject? then Stop(Reject) else
    var v := SkipValue(t, k.pos, depth);
    if v.Reject? then Stop(Reject) else AfterElement(t, v.pos, '}')
  }

  function SkipMembers(t: string, pos: nat, depth: nat): (s: Scan)
    requires pos <= |t|
    ensures s.End? ==> pos < s.pos <= |t| && t[s.pos - 1] == '}'
    decreases |t| - pos, 4
  {
    match MemberTurn(t, pos, depth)
    case Stop(result) => result
    case More(next) => SkipMembers(t, next, depth)
  }

  // ---------------------------------------------------------------- members

  /** A member of the outermost object: its decoded key and the span of its value. */
  datatype Member = Member(key: string, begin: nat, end: nat)

  datatype Members = Malformed | Members(list: seq<Member>, end: nat)

  function More(m: Member, r: Members): Members {
    if r.Malformed? then Malformed else Members([m] + r.list, r.end)
  }

  /** All members from a position on, if the rest of the object is well formed. */
  function MembersFrom(t: string, pos: nat): (r: Members)
    requires pos <= |t|
    ensures r.Members? ==> r.list != [] && r.end <= |t|
    decreases |t| - pos
  {
    var k := SkipKey(t, pos);
    if k.Reject? then Malformed else
    var v := SkipValue(t, k.pos, 0);
    if v.Reject? then Malformed else
    var m := Member(StringAt(t, pos).value, k.pos, v.pos);
    match AfterElement(t, v.pos, '}')
    case Stop(Reject) => Malformed
    case Stop(End(e)) => Members([m], e)
    case More(next) => More(m, MembersFrom(t, next))
  }

  /** The members of an object text with nothing but white space around it. */
  function ObjectMembers(t: string): Members {
    var p := SkipWs(t, 0);
    if p >= |t| || t[p] != '{' then Malformed else
    var q := SkipWs(t, p + 1);
    if q < |t| && t[q] == '}' then
      if SkipWs(t, q + 1) == |t| then Members([], q + 1) else Malformed
    else
      var r := MembersFrom(t, q);
      if r.Members? && SkipWs(t, r.end) == |t| then r else Malformed
  }

  function Named(list: seq<Member>, key: string): (r: seq<Member>)
    ensures |r| <= |list|
    ensures forall m :: m in r <==> m in list && m.key == key
  {
    if list == [] then []
    else (if list[0].key == key then [list[0]] else []) + Named(list[1..], key)
  }

  datatype Span = Absent | Span(begin: nat, end: nat)

  /** The span of the only member with this key in a well-formed object. */
  function UniqueMember(t: string, key: string): Span {
    var all := ObjectMembers(t);
    if all.Malformed? then Absent else
    var hits := Named(all.list, key);
    if |hits| == 1 then Span(hits[0].begin, hits[0].end) else Absent
  }

  ghost function HexPrefix(t: string, pos: nat, n: nat): nat
    requires pos + n <= |t| && forall j :: pos <= j < pos + n ==> IsHex(t[j])
  {
    if n == 0 then 0 else HexPrefix(t, pos, n - 1) * 16 + HexValue(t[pos + n - 1])
  }

  lemma HexPrefixFour(t: string, pos: nat)
    requires pos + 4 <= |t| && forall j :: pos <= j < pos + 4 ==> IsHex(t[j])
    ensures HexPrefix(t, pos, 4) == Hex4(t, pos)
  {
    assert HexPrefix(t, pos, 1) == HexPrefix(t, pos, 0) * 16 + HexValue(t[pos]) && HexPrefix(t, pos, 0) == 0;
    assert HexPrefix(t, pos, 2) == HexPrefix(t, pos, 1) * 16 + HexValue(t[pos + 1]);
    assert HexPrefix(t, pos, 3) == HexPrefix(t, pos, 2) * 16 + HexValue(t[pos + 2]);
    assert HexPrefix(t, pos, 4) == HexPrefix(t, pos, 3) * 16 + HexValue(t[pos + 3]);
  }

  // ---------------------------------------------------------------- the reader

  class JsonReader {
    const input: string
    var pos: nat

    constructor (text: string)
      ensures input == text && pos == 0
    {
      input, pos := text, 0;
    }

    method SkipSpace()
      requires pos <= |input|
      modifies this
      ensures pos == SkipWs(input, old(pos))
    {
      while pos < |input| && IsSpace(input[pos])
        invariant old(pos) <= pos <= |input| && SkipWs(input, old(pos)) == SkipWs(input, pos)
      {
        pos := pos + 1;
      }
    }

    method Consume(expected: char) returns (ok: bool)
      requires pos <= |input|
      modifies this
      ensures ok <==> old(pos) < |input| && input[old(pos)] == expected
      ensures pos == if ok then old(pos) + 1 else old(pos)
    {
      ok := pos < |input| && input[pos] == expected;
      if ok { pos := pos + 1; }
    }

    method SkipDigitRun()
      requires pos <= |input|
      modifies this
      ensures pos == DigitsEnd(input, old(pos))
    {
      while pos < |input| && IsDigit(input[pos])
        invariant old(pos) <= pos <= |input| && DigitsEnd(input, old(pos)) == DigitsEnd(input, pos)
      {
        pos := pos + 1;
      }
    }

    /** Four hex digits become a 16-bit value. */
    method ParseHex4() returns (ok: bool, value: nat)
      requires pos <= |input|
      modifies this
      ensures ok <==> Hex4At(input, old(pos))
      ensures ok ==> value == Hex4(input, old(pos)) && pos == old(pos) + 4
      ensures pos <= |input|
    {
      value := 0;
      if pos + 4 > |input| { return false, 0; }
      ghost var start := pos;
      var i := 0;
      while i < 4
        invariant 0 <= i <= 4 && pos == start + i <= start + 4 <= |input|
        invariant forall j :: start <= j < pos ==> IsHex(input[j])
        invariant value == HexPrefix(input, start, i)
      {
        var c := input[pos];
        pos := pos + 1;
        if !IsHex(c) { return false, 0; }
        value := value * 16 + HexValue(c);
        i := i + 1;
      }
      HexPrefixFour(input, start);
      ok := true;
    }

    /** The part of the string loop behind `\u`. */
    method ParseUnit() returns (ok: bool, octets: string)
      requires pos <= |input|
      modifies this
      ensures ok <==> EscapedUnit(input, old(pos)).Text?
      ensures ok ==> Text(octets, pos) == EscapedUnit(input, old(pos))
    {
      octets := "";
      var first, second;
      ok, first := ParseHex4();
      if !ok { return; }
      if 0xD800 <= first <= 0xDBFF {
        if pos + 2 > |input| || input[pos] != '\\' || input[pos + 1] != 'u' { return false, ""; }
        pos := pos + 2;
        ok, second := ParseHex4();
        if !ok || second < 0xDC00 || second > 0xDFFF { return false, ""; }
        octets := Utf8(Paired(first, second));
      } else {
        if !IsScalar(first) { return false, ""; }
        octets := Utf8(first);
      }
    }

    method ParseString() returns (ok: bool, out: string)
      requires pos <= |input|
      modifies this
      ensures ok <==> StringAt(input, old(pos)).Text?
      ensures ok ==> Text(out, pos) == StringAt(input, old(pos))
    {
      hide StringRest, EscapedUnit;
      out := "";
      ok := Consume('"');
      if !ok { return; }
      ghost var start := pos;
      while pos < |input|
        invariant start <= pos <= |input|
        invariant StringRest(input, start) == Joined(out, StringRest(input, pos))
        decreases |input| - pos
      {
        var c := input[pos];
        RestIs(input, pos);
        JoinEmpty(out, pos + 1);
        if c == '"' { pos := pos + 1; return true, out; }
        if c as int < 0x20 { return false, out; }
        if c != '\\' {
          JoinTwice(out, [c], StringRest(input, pos + 1));
          out, pos := out + [c], pos + 1;
          continue;
        }
        if pos + 1 >= |input| { return false, out; }
        var escaped := input[pos + 1];
        if SimpleEscape(escaped) {
          JoinTwice(out, [Unescaped(escaped)], StringRest(input, pos + 2));
          out, pos := out + [Unescaped(escaped)], pos + 2;
        } else if escaped == 'u' {
          var octets;
          ghost var u := EscapedUnit(input, pos + 2);
          pos := pos + 2;
          ok, octets := ParseUnit();
          if !ok { return false, out; }
          JoinTwice(out, octets, StringRest(input, pos));
          out := out + octets;
        } else {
          return false, out;
        }
      }
      RestIs(input, pos);
      ok := false;
    }

    method SkipOneNumber() returns (ok: bool)
      requires pos <= |input|
      modifies this
      ensures ok <==> SkipNumber(input, old(pos)).End?
      ensures ok ==> End(pos) == SkipNumber(input, old(pos))
    {
      ok := Consume('-');
      if pos >= |input| { return false; }
      if input[pos] == '0' {
        pos := pos + 1;
        if pos < |input| && IsDigit(input[pos]) { return false; }
      } else {
        if !IsDigit(input[pos]) { return false; }
        SkipDigitRun();
      }
      ok := SkipNumberEnd();
    }

    method SkipNumberEnd() returns (ok: bool)
      requires pos <= |input|
      modifies this
      ensures ok <==> SkipNumberTail(input, old(pos)).End?
      ensures ok ==> End(pos) == SkipNumberTail(input, old(pos))
    {
      hide SkipFraction, SkipExponent;
      ok := SkipPoint();
      if ok { ok := SkipPower(); }
    }

    method SkipPoint() returns (ok: bool)
      requires pos <= |input|
      modifies this
      ensures ok <==> SkipFraction(input, old(pos)).End?
      ensures ok ==> End(pos) == SkipFraction(input, old(pos))
    {
      ok := Consume('.');
      if ok {
        if pos >= |input| || !IsDigit(input[pos]) { return false; }
        SkipDigitRun();
      }
      ok := true;
    }

    method SkipPower() returns (ok: bool)
      requires pos <= |input|
      modifies this
      ensures ok <==> SkipExponent(input, old(pos)).End?
      ensures ok ==> End(pos) == SkipExponent(input, old(pos))
    {
      if pos < |input| && (input[pos] == 'e' || input[pos] == 'E') {
        pos := pos + 1;
        if pos < |input| && (input[pos] == '+' || input[pos] == '-') { pos := pos + 1; }
        if pos >= |input| || !IsDigit(input[pos]) { return false; }
        SkipDigitRun();
      }
      ok := true;
    }

    method SkipWord(word: string) returns (ok: bool)
      requires pos <= |input|
      modifies this
      ensures ok <==> SkipLiteral(input, old(pos), word).End?
      ensures ok ==> End(pos) == SkipLiteral(input, old(pos), word)
    {
      if pos + |word| > |input| || input[pos..pos + |word|] != word { return false; }
      pos := pos + |word|;
      ok := true;
    }

    method SkipAny(depth: nat) returns (ok: bool)
      requires pos <= |input|
      modifies this
      ensures ok <==> SkipValue(input, old(pos), depth).End?
      ensures ok ==> End(pos) == SkipValue(input, old(pos), depth)
      decreases |input| - pos, 1
    {
      var ignored;
      if depth > MAX_DEPTH || pos >= |input| { return false; }
      if input[pos] == '{' {
        ok := SkipBraces(depth + 1);
      } else if input[pos] == '[' {
        ok := SkipBrackets(depth + 1);
      } else if input[pos] == '"' {
        ok, ignored := ParseString();
      } else if input[pos] == 't' {
        ok := SkipWord("true");
      } else if input[pos] == 'f' {
        ok := SkipWord("false");
      } else if input[pos] == 'n' {
        ok := SkipWord("null");
      } else {
        ok := SkipOneNumber();
      }
    }

    /** Behind an element: a closing character, or a comma and the next element. */
    method Separator(close: char) returns (turn: Turn)
      requires pos <= |input|
      modifies this
      ensures turn == AfterElement(input, old(pos), close)
      ensures turn.More? ==> pos == turn.pos
      ensures turn.Stop? && turn.result.End? ==> pos == turn.result.pos
    {
      SkipSpace();
      var closed := Consume(close);
      if closed { return Stop(End(pos)); }
      var comma := Consume(',');
      if !comma { return Stop(Reject); }
      SkipSpace();
      turn := JsonText.More(pos);
    }

    method SkipBrackets(depth: nat) returns (ok: bool)
      requires pos <= |input|
      modifies this
      ensures ok <==> SkipArray(input, old(pos), depth).End?
      ensures ok ==> End(pos) == SkipArray(input, old(pos), depth)
      decreases |input| - pos, 0
    {
      ok := Consume('[');
      if !ok { return; }
      SkipSpace();
      ghost var entry := pos;
      ok := Consume(']');
      if ok { return; }
      while true
        invariant old(pos) < pos <= |input|
        invariant SkipArray(input, old(pos), depth) == SkipElements(input, pos, depth)
        decreases |input| - pos
      {
        ghost var p := pos;
        ok := SkipAny(depth);
        if !ok { return; }
        var turn := Separator(']');
        assert turn == ElementTurn(input, p, depth);
        if turn.Stop? { return turn.result.End?; }
      }
    }

    method SkipMemberKey() returns (ok: bool, key: string)
      requires pos <= |input|
      modifies this
      ensures ok <==> SkipKey(input, old(pos)).End?
      ensures ok ==> End(pos) == SkipKey(input, old(pos)) && key == StringAt(input, old(pos)).value
    {
      ok, key := ParseString();
      if !ok { return; }
      SkipSpace();
      ok := Consume(':');
      if !ok { return; }
      SkipSpace();
    }

    method SkipBraces(depth: nat) returns (ok: bool)
      requires pos <= |input|
      modifies this
      ensures ok <==> SkipObject(input, old(pos), depth).End?
      ensures ok ==> End(pos) == SkipObject(input, old(pos), depth)
      decreases |input| - pos, 0
    {
      ok := Consume('{');
      if !ok { return; }
      SkipSpace();
      ok := Consume('}');
      if ok { return; }
      while true
        invariant old(pos) < pos <= |input|
        invariant SkipObject(input, old(pos), depth) == SkipMembers(input, pos, depth)
        decreases |input| - pos
      {
        ghost var p := pos;
        var key;
        ok, key := SkipMemberKey();
        if !ok { return; }
        ok := SkipAny(depth);
        if !ok { return; }
        var turn := Separator('}');
        assert turn == MemberTurn(input, p, depth);
        if turn.Stop? { return turn.result.End?; }
      }
    }

    /** The raw span of a member's value, provided the key occurs exactly once. */
    method FindMember(wanted: string) returns (found: Span)
      requires pos == 0
      modifies this
      ensures found == UniqueMember(input, wanted)
    {
      hide SkipKey, SkipValue, StringAt;
      found := Absent;
      SkipSpace();
      var ok := Consume('{');
      if !ok { return; }
      SkipSpace();
      ok := Consume('}');
      if ok { return; }
      ghost var whole, seen := MembersFrom(input, pos), [];
      assert ObjectMembers(input) == Enclosed(input, whole);
      var done := false;
      while !done
        invariant pos <= |input|
        invariant !done ==> whole == AfterSeen(seen, MembersFrom(input, pos))
        invariant done ==> whole == Members(seen, pos)
        invariant Named(seen, wanted) == [] <==> found == Absent
        invariant found.Span? ==> |Named(seen, wanted)| == 1
        invariant found.Span? ==> found == Span(Named(seen, wanted)[0].begin, Named(seen, wanted)[0].end)
        decreases if done then 0 else |input| - pos + 1
      {
        ghost var p := pos;
        var key;
        ok, key := SkipMemberKey();
        if !ok { return Absent; }
        var begin := pos;
        ok := SkipAny(0);
        if !ok { return Absent; }
        var end := pos;
        ghost var m := Member(key, begin, end);
        NamedAppend(seen, m, wanted);
        var turn := Separator('}');
        StepSeen(input, whole, p, seen, m);
        if key == wanted {
          if found.Span? {
            DuplicateRejected(input, whole, seen + [m], wanted, turn);
            return Absent;
          }
          found := Span(begin, end);
        }
        seen := seen + [m];
        if turn.Stop? {
          if turn.result.Reject? { return Absent; }
          done := true;
        }
      }
      SkipSpace();
      if pos != |input| { return Absent; }
    }

    method ParseFullString() returns (ok: bool, out: string)
      requires pos == 0
      modifies this
      ensures ok <==> FullString(input).Text?
      ensures ok ==> out == FullString(input).value
    {
      SkipSpace();
      ok, out := ParseString();
      if !ok { return; }
      SkipSpace();
      ok := pos == |input|;
    }
  }

  ghost function Enclosed(t: string, r: Members): Members
    requires r.Members? ==> r.end <= |t|
  {
    if r.Members? && SkipWs(t, r.end) == |t| then r else Malformed
  }

  ghost function AfterSeen(seen: seq<Member>, r: Members): Members {
    if r.Malformed? then Malformed else Members(seen + r.list, r.end)
  }

  lemma {:induction false} NamedAppend(list: seq<Member>, m: Member, key: string)
    ensures Named(list + [m], key) == Named(list, key) + (if m.key == key then [m] else [])
  {
    if list == [] {
      assert list + [m] == [m];
    } else {
      assert (list + [m])[1..] == list[1..] + [m];
      NamedAppend(list[1..], m, key);
    }
  }

  lemma {:induction false} NamedPrefix(seen: seq<Member>, rest: seq<Member>, key: string)
    ensures |Named(seen + rest, key)| >= |Named(seen, key)|
    decreases |rest|
  {
    if rest == [] {
      assert seen + rest == seen;
    } else {
      assert seen + rest == (seen + [rest[0]]) + rest[1..];
      NamedPrefix(seen + [rest[0]], rest[1..], key);
      NamedAppend(seen, rest[0], key);
    }
  }

  /** One more member moves from what is left to what was seen. */
  lemma StepSeen(t: string, whole: Members, p: nat, seen: seq<Member>, m: Member)
    requires p <= |t| && whole == AfterSeen(seen, MembersFrom(t, p))
    requires SkipKey(t, p) == End(m.begin) && m.begin <= |t| && SkipValue(t, m.begin, 0) == End(m.end)
    requires StringAt(t, p).value == m.key
    ensures m.end <= |t|
    ensures var turn := AfterElement(t, m.end, '}');
            whole == if turn.More? then AfterSeen(seen + [m], MembersFrom(t, turn.pos))
                     else if turn.result.End? then Members(seen + [m], turn.result.pos) else Malformed
  {
    var turn := AfterElement(t, m.end, '}');
    if turn.More? && MembersFrom(t, turn.pos).Members? {
      assert seen + ([m] + MembersFrom(t, turn.pos).list) == seen + [m] + MembersFrom(t, turn.pos).list;
    }
  }

  lemma DuplicateRejected(t: string, whole: Members, seen: seq<Member>, key: string, turn: Turn)
    requires |Named(seen, key)| >= 2 && (turn.More? ==> turn.pos <= |t|)
    requires whole == if turn.More? then AfterSeen(seen, MembersFrom(t, turn.pos))
                      else if turn.result.End? then Members(seen, turn.result.pos) else Malformed
    ensures whole.Members? ==> |Named(whole.list, key)| >= 2
  {
    if turn.More? && MembersFrom(t, turn.pos).Members? {
      NamedPrefix(seen, MembersFrom(t, turn.pos).list, key);
    }
  }

  lemma JoinTwice(a: string, b: string, r: Text)
    ensures Joined(a, Joined(b, r)) == Joined(a + b, r)
  {
    if r.Text? {
      assert a + (b + r.value) == a + b + r.value;
    }
  }

  lemma JoinEmpty(a: string, e: nat)
    ensures Joined(a, Text("", e)) == Text(a, e)
  {
    assert a + "" == a;
  }
}
