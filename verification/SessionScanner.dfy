/** The scanner of the session layer: positions passed by reference, `\u` escapes kept
    as a question mark, white space skipped at the start of every value. Functions say
    what it accepts; methods are its loops. */
module SessionScanner {
  import opened Decimal
  import opened JsonText

  datatype Text = NoText | Text(value: string, end: nat)

  /** The rest of a string whose opening quote was consumed. */
  function StringRest(t: string, pos: nat): (r: Text)
    requires pos <= |t|
    ensures r.Text? ==> pos < r.end <= |t| && t[r.end - 1] == '"'
    decreases |t| - pos
  {
    if pos >= |t| then NoText
    else if t[pos] == '"' then Text("", pos + 1)
    else if t[pos] as int < 0x20 then NoText
    else if t[pos] != '\\' then Prepend(t[pos], StringRest(t, pos + 1))
    else if pos + 1 >= |t| then NoText
    else if SimpleEscape(t[pos + 1]) then Prepend(Unescaped(t[pos + 1]), StringRest(t, pos + 2))
    else if t[pos + 1] == 'u' && Hex4At(t, pos + 2) then Prepend('?', StringRest(t, pos + 6))
    else NoText
  }

  function Prepend(c: char, r: Text): Text {
    if r.NoText? then NoText else Text([c] + r.value, r.end)
  }

  function StringAt(t: string, pos: nat): (r: Text)
    ensures r.Text? ==> pos + 1 < r.end <= |t| && t[r.end - 1] == '"'
  {
    if pos >= |t| || t[pos] != '"' then NoText else StringRest(t, pos + 1)
  }

  function SkipString(t: string, pos: nat): (s: Scan)
    ensures s.End? ==> pos + 1 < s.pos <= |t| && t[s.pos - 1] == '"'
  {
    match StringAt(t, pos) case NoText => Reject case Text(_, e) => End(e)
  }

  /** A key, a colon, and the place where the member's value starts. */
  function SkipKey(t: string, pos: nat): (s: Scan)
    requires pos <= |t|
    ensures s.End? ==> pos + 1 < s.pos <= |t|
  {
    var k := SkipString(t, pos);
    if k.Reject? then Reject else
    var c := SkipWs(t, k.pos);
    if c >= |t| || t[c] != ':' then Reject else End(SkipWs(t, c + 1))
  }

  function SkipNumber(t: string, pos: nat): (s: Scan)
    requires pos <= |t|
    ensures s.End? ==> pos < s.pos <= |t| && IsDigit(t[s.pos - 1])
  {
    var p := if pos < |t| && t[pos] == '-' then pos + 1 else pos;
    if p >= |t| || !IsDigit(t[p]) then Reject
    else
      var e := if t[p] == '0' then p + 1 else DigitsEnd(t, p);
      assert t[p] == '0' || t[e - 1] == t[p..e][e - p - 1];
      SkipNumberTail(t, e)
  }

  /** Strings, literals and numbers. */
  function SkipScalar(t: string, p: nat): (s: Scan)
    requires p < |t|
    ensures s.End? ==> p < s.pos <= |t| && t[s.pos - 1] != '\\'
  {
    if t[p] == '"' then SkipString(t, p)
    else if t[p] == 't' then SkipLiteral(t, p, "true")
    else if t[p] == 'f' then SkipLiteral(t, p, "false")
    else if t[p] == 'n' then SkipLiteral(t, p, "null")
    else SkipNumber(t, p)
  }

  function SkipValue(t: string, pos: nat, depth: nat): (s: Scan)
    requires pos <= |t|
    ensures s.End? ==> pos < s.pos <= |t| && t[s.pos - 1] != '\\'
    decreases |t| - pos, 2
  {
    if depth > MAX_DEPTH then Reject else
    var p := SkipWs(t, pos);
    if p >= |t| then Reject
    else if t[p] == '{' then SkipObject(t, p, depth)
    else if t[p] == '[' then SkipArray(t, p, depth)
    else SkipScalar(t, p)
  }

  function SkipArray(t: string, pos: nat, depth: nat): (s: Scan)
    requires pos <= |t|
    ensures s.End? ==> pos < s.pos <= |t| && t[s.pos - 1] == ']'
    decreases |t| - pos, 1
  {
    if depth > MAX_DEPTH || pos >= |t| || t[pos] != '[' then Reject else
    var p := SkipWs(t, pos + 1);
    if p < |t| && t[p] == ']' then End(p + 1) else SkipElements(t, p, depth)
  }

  function ElementTurn(t: string, pos: nat, depth: nat): (r: Turn)
    requires pos <= |t|
    ensures r.More? ==> pos < r.pos <= |t|
    ensures r.Stop? && r.result.End? ==> pos < r.result.pos <= |t| && t[r.result.pos - 1] == ']'
    decreases |t| - pos, 3
  {
    var v := SkipValue(t, pos, depth + 1);
    if v.Reject? then Stop(Reject) else AfterElement(t, v.pos, ']')
  }

  /** The array loop, entered where the next element starts. */
  function SkipElements(t: string, pos: nat, depth: nat): (s: Scan)
    requires pos <= |t|
    ensures s.End? ==> pos < s.pos <= |t| && t[s.pos - 1] == ']'
    decreases |t| - pos, 4
  {
    match ElementTurn(t, pos, depth)
    case Stop(result) => result
    case More(next) => SkipElements(t, next, depth)
  }

  function SkipObject(t: string, pos: nat, depth: nat): (s: Scan)
    requires pos <= |t|
    ensures s.End? ==> pos < s.pos <= |t| && t[s.pos - 1] == '}'
    decreases |t| - pos, 1
  {
    if depth > MAX_DEPTH || pos >= |t| || t[pos] != '{' then Reject else
    var p := SkipWs(t, pos + 1);
    if p < |t| && t[p] == '}' then End(p + 1) else SkipMembers(t, p, depth)
  }

  function MemberTurn(t: string, pos: nat, depth: nat): (r: Turn)
    requires pos <= |t|
    ensures r.More? ==> pos < r.pos <= |t|
    ensures r.Stop? && r.result.End? ==> pos < r.result.pos <= |t| && t[r.result.pos - 1] == '}'
    decreases |t| - pos, 3
  {
    var k := SkipKey(t, pos);
    if k.Reject? then Stop(Reject) else
    var v := SkipValue(t, k.pos, depth + 1);
    if v.Reject? then Stop(Reject) else AfterElement(t, v.pos, '}')
  }

  /** The object loop, entered where the next key starts. */
  function SkipMembers(t: string, pos: nat, depth: nat): (s: Scan)
    requires pos <= |t|
    ensures s.End? ==> pos < s.pos <= |t| && t[s.pos - 1] == '}'
    decreases |t| - pos, 4
  {
    match MemberTurn(t, pos, depth)
    case Stop(result) => result
    case More(next) => SkipMembers(t, next, depth)
  }

  // ---------------------------------------------------------------- the loops

  method ScanWs(t: string, start: nat) returns (pos: nat)
    requires start <= |t|
    ensures pos == SkipWs(t, start)
  {
    pos := start;
    while pos < |t| && IsSpace(t[pos])
      invariant start <= pos <= |t| && SkipWs(t, start) == SkipWs(t, pos)
    {
      pos := pos + 1;
    }
  }

  method ScanDigits(t: string, start: nat) returns (pos: nat)
    requires start <= |t|
    ensures pos == DigitsEnd(t, start)
  {
    pos := start;
    while pos < |t| && IsDigit(t[pos])
      invariant start <= pos <= |t| && DigitsEnd(t, start) == DigitsEnd(t, pos)
    {
      pos := pos + 1;
    }
  }

  method ParseString(t: string, start: nat) returns (r: Text)
    requires start <= |t|
    ensures r == StringAt(t, start)
  {
    if start >= |t| || t[start] != '"' { return NoText; }
    var pos, value := start + 1, "";
    while pos < |t|
      invariant start + 1 <= pos <= |t|
      invariant StringRest(t, start + 1) == Joined(value, StringRest(t, pos))
      decreases |t| - pos
    {
      var ch := t[pos];
      JoinOne(value, StringRest(t, pos));
      if ch == '"' { return Text(value, pos + 1); }
      if ch as int < 0x20 { return NoText; }
      if ch != '\\' {
        JoinStep(value, ch, StringRest(t, pos + 1));
        value, pos := value + [ch], pos + 1;
        continue;
      }
      if pos + 1 >= |t| { return NoText; }
      var escaped := t[pos + 1];
      if SimpleEscape(escaped) {
        JoinStep(value, Unescaped(escaped), StringRest(t, pos + 2));
        value, pos := value + [Unescaped(escaped)], pos + 2;
      } else if escaped == 'u' {
        if pos + 6 > |t| { return NoText; }
        var i := 0;
        while i < 4
          invariant 0 <= i <= 4 && forall j :: pos + 2 <= j < pos + 2 + i ==> IsHex(t[j])
        {
          if !IsHex(t[pos + 2 + i]) { return NoText; }
          i := i + 1;
        }
        JoinStep(value, '?', StringRest(t, pos + 6));
        value, pos := value + ['?'], pos + 6;
      } else {
        return NoText;
      }
    }
    return NoText;
  }

  ghost function Joined(value: string, r: Text): Text {
    if r.NoText? then NoText else Text(value + r.value, r.end)
  }

  lemma JoinOne(value: string, r: Text)
    ensures r.Text? && r.value == "" ==> Joined(value, r) == Text(value, r.end)
  {
    assert value + "" == value;
  }

  lemma JoinStep(value: string, c: char, r: Text)
    ensures Joined(value, Prepend(c, r)) == Joined(value + [c], r)
  {
    if r.Text? {
      assert value + ([c] + r.value) == value + [c] + r.value;
    }
  }

  method ScanFraction(t: string, start: nat) returns (s: Scan)
    requires start <= |t|
    ensures s == SkipFraction(t, start)
  {
    if start >= |t| || t[start] != '.' { return End(start); }
    var pos := ScanDigits(t, start + 1);
    if pos == start + 1 { return Reject; }
    return End(pos);
  }

  method ScanExponent(t: string, start: nat) returns (s: Scan)
    requires start <= |t|
    ensures s == SkipExponent(t, start)
  {
    var pos := start;
    if pos >= |t| || (t[pos] != 'e' && t[pos] != 'E') { return End(pos); }
    pos := pos + 1;
    if pos < |t| && (t[pos] == '+' || t[pos] == '-') { pos := pos + 1; }
    var exponent := pos;
    pos := ScanDigits(t, exponent);
    if pos == exponent { return Reject; }
    return End(pos);
  }

  method ScanNumber(t: string, start: nat) returns (s: Scan)
    requires start <= |t|
    ensures s == SkipNumber(t, start)
  {
    var pos := start;
    if pos < |t| && t[pos] == '-' { pos := pos + 1; }
    if pos >= |t| { return Reject; }
    if t[pos] == '0' {
      pos := pos + 1;
    } else {
      if t[pos] < '1' || t[pos] > '9' { return Reject; }
      pos := ScanDigits(t, pos);
    }
    s := ScanFraction(t, pos);
    if s.Reject? { return; }
    s := ScanExponent(t, s.pos);
  }

  method ScanSeparator(t: string, start: nat, close: char) returns (r: Turn)
    requires start <= |t|
    ensures r == AfterElement(t, start, close)
  {
    var pos := ScanWs(t, start);
    if pos >= |t| { return Stop(Reject); }
    if t[pos] == close { return Stop(End(pos + 1)); }
    if t[pos] != ',' { return Stop(Reject); }
    pos := ScanWs(t, pos + 1);
    return More(pos);
  }

  method ScanKey(t: string, start: nat) returns (s: Scan, key: string)
    requires start <= |t|
    ensures s == SkipKey(t, start)
    ensures s.End? ==> key == StringAt(t, start).value
  {
    var k := ParseString(t, start);
    if k.NoText? { return Reject, ""; }
    var pos := ScanWs(t, k.end);
    if pos >= |t| || t[pos] != ':' { return Reject, ""; }
    pos := ScanWs(t, pos + 1);
    return End(pos), k.value;
  }

  method ScanValue(t: string, start: nat, depth: nat) returns (s: Scan)
    requires start <= |t|
    ensures s == SkipValue(t, start, depth)
    decreases |t| - start, 1
  {
    if depth > MAX_DEPTH { return Reject; }
    var pos := ScanWs(t, start);
    if pos >= |t| { return Reject; }
    if t[pos] == '"' {
      var r := ParseString(t, pos);
      return if r.NoText? then Reject else End(r.end);
    }
    if t[pos] == '{' {
      s := ScanObject(t, pos, depth);
    } else if t[pos] == '[' {
      s := ScanArray(t, pos, depth);
    } else if t[pos] == 't' {
      s := SkipLiteral(t, pos, "true");
    } else if t[pos] == 'f' {
      s := SkipLiteral(t, pos, "false");
    } else if t[pos] == 'n' {
      s := SkipLiteral(t, pos, "null");
    } else {
      s := ScanNumber(t, pos);
    }
  }

  method ScanArray(t: string, start: nat, depth: nat) returns (s: Scan)
    requires start <= |t|
    ensures s == SkipArray(t, start, depth)
    decreases |t| - start, 0
  {
    if depth > MAX_DEPTH || start >= |t| || t[start] != '[' { return Reject; }
    var pos := ScanWs(t, start + 1);
    if pos < |t| && t[pos] == ']' { return End(pos + 1); }
    ghost var whole := SkipElements(t, pos, depth);
    while true
      invariant start < pos <= |t| && whole == SkipElements(t, pos, depth)
      decreases |t| - pos
    {
      var v := ScanValue(t, pos, depth + 1);
      if v.Reject? { return Reject; }
      var turn := ScanSeparator(t, v.pos, ']');
      assert turn == ElementTurn(t, pos, depth);
      if turn.Stop? { return turn.result; }
      pos := turn.pos;
    }
  }

  method ScanObject(t: string, start: nat, depth: nat) returns (s: Scan)
    requires start <= |t|
    ensures s == SkipObject(t, start, depth)
    decreases |t| - start, 0
  {
    if depth > MAX_DEPTH || start >= |t| || t[start] != '{' { return Reject; }
    var pos := ScanWs(t, start + 1);
    if pos < |t| && t[pos] == '}' { return End(pos + 1); }
    ghost var whole := SkipMembers(t, pos, depth);
    while true
      invariant start < pos <= |t| && whole == SkipMembers(t, pos, depth)
      decreases |t| - pos
    {
      var k, key := ScanKey(t, pos);
      if k.Reject? { return Reject; }
      var v := ScanValue(t, k.pos, depth + 1);
      if v.Reject? { return Reject; }
      var turn := ScanSeparator(t, v.pos, '}');
      assert turn == MemberTurn(t, pos, depth);
      if turn.Stop? { return turn.result; }
      pos := turn.pos;
    }
  }
}
