/** Characters and small scans that both JSON scanners share. Positions index a text;
    a scan either fails or ends somewhere. */
module JsonText {
  import opened Decimal

  datatype Scan = Reject | End(pos: nat)

  const MAX_DEPTH := 16

  predicate IsSpace(c: char) { c == ' ' || 9 <= c as int <= 13 }
  predicate IsHex(c: char) { IsDigit(c) || 'a' <= c <= 'f' || 'A' <= c <= 'F' }

  function HexValue(c: char): (v: nat)
    requires IsHex(c)
    ensures v < 16
  {
    if IsDigit(c) then c as int - '0' as int
    else if 'a' <= c <= 'f' then c as int - 'a' as int + 10
    else c as int - 'A' as int + 10
  }

  predicate Hex4At(t: string, pos: nat) {
    pos + 4 <= |t| && IsHex(t[pos]) && IsHex(t[pos + 1]) && IsHex(t[pos + 2]) && IsHex(t[pos + 3])
  }

  function Hex4(t: string, pos: nat): (v: nat)
    requires Hex4At(t, pos)
    ensures v < 0x1_0000
  {
    ((HexValue(t[pos]) * 16 + HexValue(t[pos + 1])) * 16 + HexValue(t[pos + 2])) * 16 + HexValue(t[pos + 3])
  }

  function SkipWs(t: string, pos: nat): (e: nat)
    requires pos <= |t|
    ensures pos <= e <= |t| && (e < |t| ==> !IsSpace(t[e]))
    ensures e == pos || IsSpace(t[e - 1])
    decreases |t| - pos
  {
    if pos < |t| && IsSpace(t[pos]) then SkipWs(t, pos + 1) else pos
  }

  lemma {:induction false} SkipWsAll(s: string, pos: nat, e: nat)
    requires pos <= e <= |s| && (forall i :: pos <= i < e ==> IsSpace(s[i])) && (e < |s| ==> !IsSpace(s[e]))
    ensures SkipWs(s, pos) == e
    decreases e - pos
  {
    if pos < e { SkipWsAll(s, pos + 1, e); }
  }

  predicate SimpleEscape(c: char) {
    c == '"' || c == '\\' || c == '/' || c == 'b' || c == 'f' || c == 'n' || c == 'r' || c == 't'
  }

  function Unescaped(c: char): char
    requires SimpleEscape(c)
  {
    if c == 'b' then 8 as char else if c == 'f' then 12 as char else if c == 'n' then '\n'
    else if c == 'r' then '\r' else if c == 't' then '\t' else c
  }

  /** Whether `literal` stands at `pos`. */
  predicate StandsAt(t: string, pos: nat, literal: string) {
    pos + |literal| <= |t| && t[pos..pos + |literal|] == literal
  }

  lemma CharOf(t: string, pos: nat, literal: string, i: nat)
    requires StandsAt(t, pos, literal) && i < |literal|
    ensures t[pos + i] == literal[i]
  {
    assert t[pos..pos + |literal|][i] == t[pos + i];
  }

  lemma StandsSplit(t: string, pos: nat, a: string, b: string)
    requires StandsAt(t, pos, a + b)
    ensures StandsAt(t, pos, a) && StandsAt(t, pos + |a|, b)
  {
    var w := t[pos..pos + |a + b|];
    assert t[pos..pos + |a|] == w[..|a|] && t[pos + |a|..pos + |a| + |b|] == w[|a|..];
  }

  function SkipLiteral(t: string, pos: nat, literal: string): (s: Scan)
    ensures s.End? ==> s.pos == pos + |literal| <= |t|
    ensures s.End? && literal != "" ==> t[s.pos - 1] == literal[|literal| - 1]
  {
    assert StandsAt(t, pos, literal) && literal != "" ==>
      t[pos..pos + |literal|][|literal| - 1] == t[pos + |literal| - 1];
    if StandsAt(t, pos, literal) then End(pos + |literal|) else Reject
  }

  /** Optional fraction and exponent of a number: both scanners treat them alike. */
  function SkipFraction(t: string, pos: nat): (s: Scan)
    requires pos <= |t|
    ensures s.End? ==> pos <= s.pos <= |t| && (s.pos > pos ==> IsDigit(t[s.pos - 1]))
  {
    if pos < |t| && t[pos] == '.' then
      var e := DigitsEnd(t, pos + 1);
      if e == pos + 1 then Reject else (assert t[e - 1] == t[pos + 1..e][e - pos - 2]; End(e))
    else End(pos)
  }

  function SkipExponent(t: string, pos: nat): (s: Scan)
    requires pos <= |t|
    ensures s.End? ==> pos <= s.pos <= |t| && (s.pos > pos ==> IsDigit(t[s.pos - 1]))
  {
    if pos < |t| && (t[pos] == 'e' || t[pos] == 'E') then
      var p := if pos + 1 < |t| && (t[pos + 1] == '+' || t[pos + 1] == '-') then pos + 2 else pos + 1;
      var e := DigitsEnd(t, p);
      if e == p then Reject else (assert t[e - 1] == t[p..e][e - p - 1]; End(e))
    else End(pos)
  }

  function SkipNumberTail(t: string, pos: nat): (s: Scan)
    requires pos <= |t|
    ensures s.End? ==> pos <= s.pos <= |t| && (s.pos > pos ==> IsDigit(t[s.pos - 1]))
  {
    var f := SkipFraction(t, pos);
    if f.Reject? then Reject else SkipExponent(t, f.pos)
  }

  /** What an array or object loop does after an element: stop, or go on at `pos`. */
  datatype Turn = Stop(result: Scan) | More(pos: nat)

  function AfterElement(t: string, pos: nat, close: char): (r: Turn)
    requires pos <= |t|
    ensures r.More? ==> pos < r.pos <= |t|
    ensures r.Stop? && r.result.End? ==> pos < r.result.pos <= |t| && t[r.result.pos - 1] == close
  {
    var p := SkipWs(t, pos);
    if p >= |t| then Stop(Reject)
    else if t[p] == close then Stop(End(p + 1))
    else if t[p] != ',' then Stop(Reject)
    else More(SkipWs(t, p + 1))
  }
}
