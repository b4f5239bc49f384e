/** A scanned object means the same wherever it stands, and the session's parser
    inverts the client's request printer. */
module RequestRoundTrip {
  import opened Decimal
  import opened JsonText
  import opened SessionScanner
  import opened Requests

  // ---------------------------------------------------------------- moving text

  ghost predicate Equal(a: string, b: string, d: int, i: int) {
    0 <= i < |a| && 0 <= i + d < |b| && a[i] == b[i + d]
  }

  /** Positions lo..hi of `a` hold the same characters as lo+d..hi+d of `b`. */
  ghost predicate Same(a: string, b: string, d: int, lo: nat, hi: nat) {
    && lo <= hi <= |a| && 0 <= lo + d && hi + d <= |b|
    && forall i :: lo <= i < hi ==> Equal(a, b, d, i)
  }

  lemma {:induction false} MoveWs(a: string, b: string, d: int, pos: nat, hi: nat)
    requires Same(a, b, d, pos, hi) && SkipWs(a, pos) < hi
    ensures SkipWs(b, pos + d) == SkipWs(a, pos) + d
    decreases |a| - pos
  {
    assert Equal(a, b, d, pos);
    if IsSpace(a[pos]) {
      MoveWs(a, b, d, pos + 1, hi);
    }
  }

  lemma {:induction false} MoveDigits(a: string, b: string, d: int, pos: nat, hi: nat)
    requires Same(a, b, d, pos, hi) && DigitsEnd(a, pos) < hi
    ensures DigitsEnd(b, pos + d) == DigitsEnd(a, pos) + d
    decreases |a| - pos
  {
    assert Equal(a, b, d, pos);
    if IsDigit(a[pos]) {
      MoveDigits(a, b, d, pos + 1, hi);
    }
  }

  lemma {:induction false} MoveStringRest(a: string, b: string, d: int, pos: nat, hi: nat)
    requires Same(a, b, d, pos, hi) && StringRest(a, pos).Text? && StringRest(a, pos).end <= hi
    ensures StringRest(b, pos + d) == Text(StringRest(a, pos).value, StringRest(a, pos).end + d)
    decreases |a| - pos
  {
    assert Equal(a, b, d, pos);
    if a[pos] == '"' {
    } else if a[pos] != '\\' {
      MoveStringRest(a, b, d, pos + 1, hi);
    } else if SimpleEscape(a[pos + 1]) {
      assert Equal(a, b, d, pos + 1);
      MoveStringRest(a, b, d, pos + 2, hi);
    } else {
      assert Equal(a, b, d, pos + 1) && Equal(a, b, d, pos + 2) && Equal(a, b, d, pos + 3);
      assert Equal(a, b, d, pos + 4) && Equal(a, b, d, pos + 5);
      MoveStringRest(a, b, d, pos + 6, hi);
    }
  }

  lemma MoveString(a: string, b: string, d: int, pos: nat, hi: nat)
    requires Same(a, b, d, pos, hi) && StringAt(a, pos).Text? && StringAt(a, pos).end <= hi
    ensures StringAt(b, pos + d) == Text(StringAt(a, pos).value, StringAt(a, pos).end + d)
  {
    assert Equal(a, b, d, pos);
    MoveStringRest(a, b, d, pos + 1, hi);
  }

  lemma MoveLiteral(a: string, b: string, d: int, pos: nat, hi: nat, word: string)
    requires Same(a, b, d, pos, hi) && StandsAt(a, pos, word) && pos + |word| <= hi
    ensures StandsAt(b, pos + d, word)
  {
    forall i | 0 <= i < |word|
      ensures b[pos + d..pos + d + |word|][i] == word[i]
    {
      assert Equal(a, b, d, pos + i);
      CharOf(a, pos, word, i);
    }
  }

  lemma MoveFraction(a: string, b: string, d: int, pos: nat, hi: nat)
    requires Same(a, b, d, pos, hi) && SkipFraction(a, pos).End? && SkipFraction(a, pos).pos < hi
    ensures SkipFraction(b, pos + d) == End(SkipFraction(a, pos).pos + d)
  {
    assert Equal(a, b, d, pos);
    if a[pos] == '.' {
      MoveDigits(a, b, d, pos + 1, hi);
    }
  }

  lemma MoveExponent(a: string, b: string, d: int, pos: nat, hi: nat)
    requires Same(a, b, d, pos, hi) && SkipExponent(a, pos).End? && SkipExponent(a, pos).pos < hi
    ensures SkipExponent(b, pos + d) == End(SkipExponent(a, pos).pos + d)
  {
    assert Equal(a, b, d, pos);
    if a[pos] == 'e' || a[pos] == 'E' {
      var p := if a[pos + 1] == '+' || a[pos + 1] == '-' then pos + 2 else pos + 1;
      assert Equal(a, b, d, pos + 1);
      MoveDigits(a, b, d, p, hi);
    }
  }

  lemma MoveNumberTail(a: string, b: string, d: int, pos: nat, hi: nat)
    requires Same(a, b, d, pos, hi) && SkipNumberTail(a, pos).End? && SkipNumberTail(a, pos).pos < hi
    ensures SkipNumberTail(b, pos + d) == End(SkipNumberTail(a, pos).pos + d)
  {
    MoveFraction(a, b, d, pos, hi);
    MoveExponent(a, b, d, SkipFraction(a, pos).pos, hi);
  }

  /** A number is an optional sign, a run of digits, and the tail both scanners share. */
  lemma NumberIs(t: string, pos: nat, p: nat, e: nat)
    requires pos < |t| && p == (if t[pos] == '-' then pos + 1 else pos) && p < |t| && IsDigit(t[p])
    requires e == if t[p] == '0' then p + 1 else DigitsEnd(t, p)
    ensures e <= |t| && SkipNumber(t, pos) == SkipNumberTail(t, e)
  {
  }

  lemma NumberStarts(t: string, pos: nat)
    requires pos <= |t| && SkipNumber(t, pos).End?
    ensures pos < |t| && var p := if t[pos] == '-' then pos + 1 else pos; p < |t| && IsDigit(t[p])
  {
  }

  lemma MoveNumber(a: string, b: string, d: int, pos: nat, hi: nat)
    requires Same(a, b, d, pos, hi) && SkipNumber(a, pos).End? && SkipNumber(a, pos).pos < hi
    ensures SkipNumber(b, pos + d) == End(SkipNumber(a, pos).pos + d)
  {
    hide SkipNumber, SkipNumberTail, DigitsEnd;
    NumberStarts(a, pos);
    var p := if a[pos] == '-' then pos + 1 else pos;
    var e := if a[p] == '0' then p + 1 else DigitsEnd(a, p);
    NumberIs(a, pos, p, e);
    assert Equal(a, b, d, pos) && Equal(a, b, d, p);
    if a[p] != '0' {
      MoveDigits(a, b, d, p, hi);
    }
    MoveNumberTail(a, b, d, e, hi);
    NumberIs(b, pos + d, p + d, e + d);
  }

  lemma MoveScalar(a: string, b: string, d: int, p: nat, hi: nat)
    requires p < hi && Same(a, b, d, p, hi) && SkipScalar(a, p).End? && SkipScalar(a, p).pos < hi
    ensures SkipScalar(b, p + d) == End(SkipScalar(a, p).pos + d)
  {
    assert Equal(a, b, d, p);
    if a[p] == '"' {
      MoveString(a, b, d, p, hi);
    } else if a[p] == 't' {
      MoveLiteral(a, b, d, p, hi, "true");
    } else if a[p] == 'f' {
      MoveLiteral(a, b, d, p, hi, "false");
    } else if a[p] == 'n' {
      MoveLiteral(a, b, d, p, hi, "null");
    } else {
      MoveNumber(a, b, d, p, hi);
    }
  }

  lemma ValueIs(t: string, pos: nat, depth: nat)
    requires pos <= |t|
    ensures var p := SkipWs(t, pos);
            SkipValue(t, pos, depth) ==
            if depth > MAX_DEPTH || p >= |t| then Reject
            else if t[p] == '{' then SkipObject(t, p, depth)
            else if t[p] == '[' then SkipArray(t, p, depth)
            else SkipScalar(t, p)
  {
  }

  /** Inside a larger text there is a character behind every value, so a value's scan
      never looks outside the window. */
  lemma {:induction false} MoveValue(a: string, b: string, d: int, pos: nat, hi: nat, depth: nat)
    requires Same(a, b, d, pos, hi) && SkipValue(a, pos, depth).End? && SkipValue(a, pos, depth).pos < hi
    ensures SkipValue(b, pos + d, depth) == End(SkipValue(a, pos, depth).pos + d)
    decreases |a| - pos, 2
  {
    hide SkipValue, SkipObject, SkipArray, SkipScalar, SkipWs;
    ValueIs(a, pos, depth);
    ValueIs(b, pos + d, depth);
    MoveWs(a, b, d, pos, hi);
    var p := SkipWs(a, pos);
    assert Equal(a, b, d, p);
    if a[p] == '{' {
      MoveObject(a, b, d, p, depth);
    } else if a[p] == '[' {
      MoveArray(a, b, d, p, depth);
    } else {
      MoveScalar(a, b, d, p, hi);
    }
  }

  lemma MoveAfterElement(a: string, b: string, d: int, pos: nat, hi: nat, close: char)
    requires Same(a, b, d, pos, hi)
    requires Within(AfterElement(a, pos, close), pos, hi)
    ensures AfterElement(b, pos + d, close) == Shifted(AfterElement(a, pos, close), d)
  {
    MoveWs(a, b, d, pos, hi);
    var p := SkipWs(a, pos);
    assert Equal(a, b, d, p);
    if a[p] != close {
      MoveWs(a, b, d, p + 1, hi);
    }
  }

  lemma ArrayIs(t: string, pos: nat, depth: nat)
    requires pos <= |t|
    ensures SkipArray(t, pos, depth) ==
            if depth > MAX_DEPTH || pos >= |t| || t[pos] != '[' then Reject
            else var p := SkipWs(t, pos + 1);
                 if p < |t| && t[p] == ']' then End(p + 1) else SkipElements(t, p, depth)
  {
  }

  lemma {:induction false} MoveArray(a: string, b: string, d: int, pos: nat, depth: nat)
    requires pos <= |a| && SkipArray(a, pos, depth).End? && Same(a, b, d, pos, SkipArray(a, pos, depth).pos)
    ensures SkipArray(b, pos + d, depth) == End(SkipArray(a, pos, depth).pos + d)
    decreases |a| - pos, 1
  {
    hide SkipArray, SkipElements, SkipWs;
    ArrayIs(a, pos, depth);
    ArrayIs(b, pos + d, depth);
    var hi := SkipArray(a, pos, depth).pos;
    var p := SkipWs(a, pos + 1);
    MoveWs(a, b, d, pos + 1, hi);
    assert Equal(a, b, d, pos) && Equal(a, b, d, p);
    if a[p] != ']' {
      MoveElements(a, b, d, p, hi, depth);
    }
  }

  ghost function Shifted(r: Turn, d: int): Turn
    requires if r.More? then r.pos + d >= 0 else r.result.End? && r.result.pos + d >= 0
  {
    if r.More? then More(r.pos + d) else Stop(End(r.result.pos + d))
  }

  ghost predicate Within(r: Turn, lo: nat, hi: nat) {
    if r.More? then lo <= r.pos < hi else r.result.End? && lo <= r.result.pos <= hi
  }

  lemma ElementTurnIs(t: string, pos: nat, depth: nat)
    requires pos <= |t|
    ensures var v := SkipValue(t, pos, depth + 1);
            ElementTurn(t, pos, depth) == if v.Reject? then Stop(Reject) else AfterElement(t, v.pos, ']')
  {
  }

  lemma {:induction false} MoveElementTurn(a: string, b: string, d: int, pos: nat, hi: nat, depth: nat)
    requires Same(a, b, d, pos, hi) && Within(ElementTurn(a, pos, depth), pos, hi)
    ensures ElementTurn(b, pos + d, depth) == Shifted(ElementTurn(a, pos, depth), d)
    decreases |a| - pos, 3
  {
    hide SkipValue, AfterElement, ElementTurn;
    ElementTurnIs(a, pos, depth);
    ElementTurnIs(b, pos + d, depth);
    var v := SkipValue(a, pos, depth + 1).pos;
    AfterElementIn(a, v, ']', hi);
    MoveValue(a, b, d, pos, hi, depth + 1);
    MoveAfterElement(a, b, d, v, hi, ']');
  }

  lemma ElementsIs(t: string, pos: nat, depth: nat)
    requires pos <= |t|
    ensures var turn := ElementTurn(t, pos, depth);
            SkipElements(t, pos, depth) == if turn.More? then SkipElements(t, turn.pos, depth) else turn.result
    ensures SkipElements(t, pos, depth).End? ==>
              Within(ElementTurn(t, pos, depth), pos, SkipElements(t, pos, depth).pos)
  {
  }

  lemma {:induction false} MoveElements(a: string, b: string, d: int, pos: nat, hi: nat, depth: nat)
    requires pos <= |a| && SkipElements(a, pos, depth) == End(hi) && Same(a, b, d, pos, hi)
    ensures SkipElements(b, pos + d, depth) == End(hi + d)
    decreases |a| - pos, 4
  {
    hide SkipElements, ElementTurn;
    ElementsIs(a, pos, depth);
    ElementsIs(b, pos + d, depth);
    MoveElementTurn(a, b, d, pos, hi, depth);
    var turn := ElementTurn(a, pos, depth);
    if turn.More? {
      MoveElements(a, b, d, turn.pos, hi, depth);
    }
  }

  lemma ObjectIs(t: string, pos: nat, depth: nat)
    requires pos <= |t|
    ensures SkipObject(t, pos, depth) ==
            if depth > MAX_DEPTH || pos >= |t| || t[pos] != '{' then Reject
            else var p := SkipWs(t, pos + 1);
                 if p < |t| && t[p] == '}' then End(p + 1) else SkipMembers(t, p, depth)
  {
  }

  lemma {:induction false} MoveObject(a: string, b: string, d: int, pos: nat, depth: nat)
    requires pos <= |a| && SkipObject(a, pos, depth).End? && Same(a, b, d, pos, SkipObject(a, pos, depth).pos)
    ensures SkipObject(b, pos + d, depth) == End(SkipObject(a, pos, depth).pos + d)
    decreases |a| - pos, 1
  {
    hide SkipObject, SkipMembers, SkipWs;
    ObjectIs(a, pos, depth);
    ObjectIs(b, pos + d, depth);
    var hi := SkipObject(a, pos, depth).pos;
    var p := SkipWs(a, pos + 1);
    MoveWs(a, b, d, pos + 1, hi);
    assert Equal(a, b, d, pos) && Equal(a, b, d, p);
    if a[p] != '}' {
      MoveMembers(a, b, d, p, hi, depth);
    }
  }

  /** A member's turn, given where its key and value end. */
  lemma MemberTurnIs(t: string, pos: nat, depth: nat, k: nat, v: nat)
    requires pos <= |t| && SkipKey(t, pos) == End(k) && SkipValue(t, k, depth + 1) == End(v)
    ensures MemberTurn(t, pos, depth) == AfterElement(t, v, '}')
  {
  }

  lemma MemberTurnParts(t: string, pos: nat, depth: nat) returns (k: nat, v: nat)
    requires pos <= |t| && !(MemberTurn(t, pos, depth) == Stop(Reject))
    ensures SkipKey(t, pos) == End(k) && pos < k <= |t| && SkipValue(t, k, depth + 1) == End(v) && k < v <= |t|
    ensures MemberTurn(t, pos, depth) == AfterElement(t, v, '}')
  {
    k := SkipKey(t, pos).pos;
    v := SkipValue(t, k, depth + 1).pos;
  }

  lemma AfterElementIn(t: string, pos: nat, close: char, hi: nat)
    requires pos <= |t| && Within(AfterElement(t, pos, close), 0, hi)
    ensures pos < hi && Within(AfterElement(t, pos, close), pos, hi)
  {
  }

  lemma {:induction false} MoveMemberTurn(a: string, b: string, d: int, pos: nat, hi: nat, depth: nat)
    requires Same(a, b, d, pos, hi) && Within(MemberTurn(a, pos, depth), pos, hi)
    ensures MemberTurn(b, pos + d, depth) == Shifted(MemberTurn(a, pos, depth), d)
    decreases |a| - pos, 3
  {
    hide SkipValue, SkipKey, AfterElement, MemberTurn;
    var k, v := MemberTurnParts(a, pos, depth);
    AfterElementIn(a, v, '}', hi);
    MoveKey(a, b, d, pos, hi);
    MoveValue(a, b, d, k, hi, depth + 1);
    MoveAfterElement(a, b, d, v, hi, '}');
    MemberTurnIs(b, pos + d, depth, k + d, v + d);
  }

  lemma MembersIs(t: string, pos: nat, depth: nat)
    requires pos <= |t|
    ensures var turn := MemberTurn(t, pos, depth);
            SkipMembers(t, pos, depth) == if turn.More? then SkipMembers(t, turn.pos, depth) else turn.result
    ensures SkipMembers(t, pos, depth).End? ==> Within(MemberTurn(t, pos, depth), pos, SkipMembers(t, pos, depth).pos)
  {
  }

  lemma {:induction false} MoveMembers(a: string, b: string, d: int, pos: nat, hi: nat, depth: nat)
    requires pos <= |a| && SkipMembers(a, pos, depth) == End(hi) && Same(a, b, d, pos, hi)
    ensures SkipMembers(b, pos + d, depth) == End(hi + d)
    decreases |a| - pos, 4
  {
    hide SkipMembers, MemberTurn;
    MembersIs(a, pos, depth);
    MembersIs(b, pos + d, depth);
    MoveMemberTurn(a, b, d, pos, hi, depth);
    var turn := MemberTurn(a, pos, depth);
    if turn.More? {
      MoveMembers(a, b, d, turn.pos, hi, depth);
    }
  }

  lemma MoveKey(a: string, b: string, d: int, pos: nat, hi: nat)
    requires Same(a, b, d, pos, hi) && SkipKey(a, pos).End? && SkipKey(a, pos).pos < hi
    ensures SkipKey(b, pos + d) == End(SkipKey(a, pos).pos + d)
  {
    MoveString(a, b, d, pos, hi);
    var e := SkipString(a, pos).pos;
    MoveWs(a, b, d, e, hi);
    assert Equal(a, b, d, SkipWs(a, e));
    MoveWs(a, b, d, SkipWs(a, e) + 1, hi);
  }

  // ---------------------------------------------------------------- parameters

  predicate ParamsText(p: string) { p != "" && p[0] == '{' && SkipValue(p, 0, 1) == End(|p|) }

  /** A parameter object stays acceptable inside any text... */
  lemma ParamsInside(t: string, pos: nat, p: string)
    requires ParamsText(p) && StandsAt(t, pos, p)
    ensures SkipValue(t, pos, 1) == End(pos + |p|)
  {
    assert SkipWs(p, 0) == 0;
    forall i | 0 <= i < |p| ensures Equal(p, t, pos, i) {
      CharOf(t, pos, p, i);
    }
    MoveObject(p, t, pos, 0, 1);
    assert Equal(p, t, pos, 0);
    assert SkipWs(t, pos) == pos;
  }

  /** ...and what the session cuts out of a request is one on its own. */
  lemma ParamsCutOut(t: string, pos: nat)
    requires pos < |t| && t[pos] == '{' && SkipValue(t, pos, 1).End?
    ensures ParamsText(t[pos..SkipValue(t, pos, 1).pos])
  {
    hide SkipValue, SkipObject, SkipArray, SkipScalar;
    var e := SkipValue(t, pos, 1).pos;
    var p := t[pos..e];
    ValueIs(t, pos, 1);
    assert SkipWs(t, pos) == pos;
    var d: int := 0 - pos;
    assert forall i :: pos <= i < e ==> Equal(t, p, d, i);
    MoveObject(t, p, d, pos, 1);
    ValueIs(p, 0, 1);
    assert SkipWs(p, 0) == 0;
  }

  // ---------------------------------------------------------------- the round trip

  lemma {:induction false} PlainReads(t: string, pos: nat, s: string)
    requires PlainText(s) && StandsAt(t, pos, s + "\"")
    ensures StringRest(t, pos) == Text(s, pos + |s| + 1)
    decreases |s|
  {
    if s == "" {
      CharOf(t, pos, s + "\"", 0);
    } else {
      CharOf(t, pos, s + "\"", 0);
      assert s + "\"" == [s[0]] + (s[1..] + "\"");
      StandsSplit(t, pos, [s[0]], s[1..] + "\"");
      PlainReads(t, pos + 1, s[1..]);
      assert [s[0]] + s[1..] == s;
    }
  }

  /** A quoted key with its colon, and a value right behind it. */
  lemma KeyReads(t: string, pos: nat, key: string)
    requires PlainText(key) && StandsAt(t, pos, "\"" + (key + "\"") + ":")
    requires pos + |key| + 3 < |t| && !IsSpace(t[pos + |key| + 3])
    ensures SkipKey(t, pos) == End(pos + |key| + 3) && StringAt(t, pos).value == key
  {
    hide StringRest, StandsAt, PlainText, SkipKey;
    StandsSplit(t, pos, "\"" + (key + "\""), ":");
    StandsSplit(t, pos, "\"", key + "\"");
    CharOf(t, pos, "\"", 0);
    CharOf(t, pos + |key| + 2, ":", 0);
    PlainReads(t, pos + 1, key);
    KeyIs(t, pos, key, pos + |key| + 2);
  }

  /** A key that is followed at once by its colon, and the colon by the value. */
  lemma KeyIs(t: string, pos: nat, key: string, e: nat)
    requires StringAt(t, pos) == Text(key, e) && e + 1 < |t| && t[e] == ':' && !IsSpace(t[e + 1])
    ensures SkipKey(t, pos) == End(e + 1)
  {
    hide StringAt;
  }

  /** One member is consumed and a comma leads to the next. */
  lemma MemberReads(t: string, pos: nat, key: string, r: Request, f: Field)
    requires PlainText(key) && StandsAt(t, pos, "\"" + (key + "\"") + ":")
    requires pos + |key| + 3 < |t| && !IsSpace(t[pos + |key| + 3])
    requires f.GoodField? && ReadField(t, pos + |key| + 3, key, r) == f
    requires f.end + 1 < |t| && t[f.end] == ',' && !IsSpace(t[f.end + 1])
    ensures ParseMembers(t, pos, r) == ParseMembers(t, f.end + 1, f.request)
  {
    hide SkipKey, ReadField, StringAt;
    KeyReads(t, pos, key);
    assert AfterElement(t, f.end, '}') == More(f.end + 1);
  }

  lemma LastMemberReads(t: string, pos: nat, key: string, r: Request, f: Field)
    requires PlainText(key) && StandsAt(t, pos, "\"" + (key + "\"") + ":")
    requires pos + |key| + 3 < |t| && !IsSpace(t[pos + |key| + 3])
    requires f.GoodField? && ReadField(t, pos + |key| + 3, key, r) == f
    requires f.end + 1 == |t| && t[f.end] == '}' && f.request.haveId && f.request.haveMethod
    ensures ParseMembers(t, pos, r) == (Fine, f.request)
  {
    hide SkipKey, ReadField, StringAt;
    KeyReads(t, pos, key);
    assert AfterElement(t, f.end, '}') == Stop(End(|t|));
    assert SkipWs(t, |t|) == |t|;
  }

  lemma IdReads(t: string, id: nat)
    requires 1 <= id <= UINT64_MAX && StandsAt(t, 13, Print(id)) && StandsAt(t, 13 + |Print(id)|, ",")
    ensures ReadField(t, 13, KEY_ID, BLANK) == GoodField(BLANK.(id := id, haveId := true), 13 + |Print(id)|)
  {
    CharOf(t, 13 + |Print(id)|, ",", 0);
    PrintReadsBack(t, 13, id);
  }

  /** The pieces of a printed request and where they stand. */
  lemma RequestPieces(id: nat, m: string, p: string)
    ensures var t, e1 := RequestText(id, m, p), 13 + |Print(id)|;
            var e2 := e1 + 12 + |m|;
            && StandsAt(t, 0, "{") && StandsAt(t, 1, "\"" + (KEY_ID + "\"") + ":") && StandsAt(t, 13, Print(id))
            && StandsAt(t, e1, ",") && StandsAt(t, e1 + 1, "\"" + (KEY_METHOD + "\"") + ":")
            && StandsAt(t, e1 + 10, "\"") && StandsAt(t, e1 + 11, m + "\"")
            && StandsAt(t, e2, ",") && StandsAt(t, e2 + 1, "\"" + (KEY_PARAMS + "\"") + ":")
            && StandsAt(t, e2 + 10, p) && StandsAt(t, e2 + 10 + |p|, "}") && |t| == e2 + 11 + |p|
  {
    hide RequestText, StandsAt, Print;
    var t, e1 := RequestText(id, m, p), 13 + |Print(id)|;
    var e2 := e1 + 12 + |m|;
    var k1, k2, k3 := "\"" + (KEY_ID + "\"") + ":", "\"" + (KEY_METHOD + "\"") + ":", "\"" + (KEY_PARAMS + "\"") + ":";
    assert |k1| == 12 && |k2| == 9 && |k3| == 9;
    var back := "," + (k3 + (p + "}"));
    RequestNests(id, m, p);
    FourPieces(t, 0, "{", k1, Print(id), ",", k2 + ("\"" + ((m + "\"") + back)));
    FourPieces(t, e1 + 1, k2, "\"", m + "\"", ",", k3 + (p + "}"));
    Peel(t, e2 + 1, k3, p + "}");
    Peel(t, e2 + 10, p, "}");
  }

  lemma RequestNests(id: nat, m: string, p: string)
    ensures var k1, k2, k3 := "\"" + (KEY_ID + "\"") + ":", "\"" + (KEY_METHOD + "\"") + ":", "\"" + (KEY_PARAMS + "\"") + ":";
            RequestText(id, m, p)[0..] ==
            "{" + (k1 + (Print(id) + ("," + (k2 + ("\"" + ((m + "\"") + ("," + (k3 + (p + "}")))))))))
  {
    var k1, k2, k3 := "\"" + (KEY_ID + "\"") + ":", "\"" + (KEY_METHOD + "\"") + ":", "\"" + (KEY_PARAMS + "\"") + ":";
    assert HEAD == "{" + k1 && MID == "," + k2 + "\"" && TAIL == "\"" + "," + k3;
    Nest("{", k1, Print(id), ",", k2, "\"", m, ",", k3, p + "}");
    var whole := "{" + (k1 + (Print(id) + ("," + (k2 + ("\"" + ((m + "\"") + ("," + (k3 + (p + "}")))))))));
    assert RequestText(id, m, p) == ("{" + k1) + Print(id) + ("," + k2 + "\"") + m + ("\"" + "," + k3) + (p + "}");
    assert whole[0..] == whole;
  }

  lemma Nest(a: string, k1: string, d: string, c: string, k2: string, q: string, m: string, c': string, k3: string, p: string)
    ensures (a + k1) + d + (c + k2 + q) + m + (q + c' + k3) + p ==
            a + (k1 + (d + (c + (k2 + (q + ((m + q) + (c' + (k3 + p))))))))
  {
    var x := (c' + (k3 + p));
    assert m + (q + c' + k3) + p == (m + q) + x;
    var y := (m + q) + x;
    assert (a + k1) + d + (c + k2 + q) + y == a + (k1 + (d + (c + (k2 + (q + y)))));
    var u := (a + k1) + d + (c + k2 + q);
    assert u + m + (q + c' + k3) + p == u + (m + (q + c' + k3) + p);
  }

  lemma FourPieces(t: string, pos: nat, a: string, b: string, c: string, d: string, rest: string)
    requires pos <= |t| && t[pos..] == a + (b + (c + (d + rest)))
    ensures StandsAt(t, pos, a) && StandsAt(t, pos + |a|, b) && StandsAt(t, pos + |a| + |b|, c)
    ensures StandsAt(t, pos + |a| + |b| + |c|, d)
    ensures pos + |a| + |b| + |c| + |d| + |rest| == |t| && t[pos + |a| + |b| + |c| + |d|..] == rest
  {
    hide StandsAt;
    Peel(t, pos, a, b + (c + (d + rest)));
    Peel(t, pos + |a|, b, c + (d + rest));
    Peel(t, pos + |a| + |b|, c, d + rest);
    Peel(t, pos + |a| + |b| + |c|, d, rest);
  }

  lemma Peel(t: string, pos: nat, a: string, rest: string)
    requires pos <= |t| && t[pos..] == a + rest
    ensures StandsAt(t, pos, a) && t[pos + |a|..] == rest && pos + |a| + |rest| == |t|
    ensures StandsAt(t, pos + |a|, rest)
  {
    assert t[pos..][..|a|] == a && t[pos..][|a|..] == rest;
  }

  lemma FirstMember(id: nat, m: string, p: string)
    requires 1 <= id <= UINT64_MAX
    ensures var t, e1 := RequestText(id, m, p), 13 + |Print(id)|;
            e1 + 1 <= |t| && Parse(t) == ParseMembers(t, e1 + 1, BLANK.(id := id, haveId := true))
  {
    hide RequestText, ParseMembers, ReadField, StandsAt, SkipValue, Parse;
    var t, e1 := RequestText(id, m, p), 13 + |Print(id)|;
    RequestPieces(id, m, p);
    ParseStarts(t);
    CharOf(t, 13, Print(id), 0);
    CharOf(t, e1, ",", 0);
    CharOf(t, e1 + 1, "\"" + (KEY_METHOD + "\"") + ":", 0);
    IdReads(t, id);
    MemberReads(t, 1, KEY_ID, BLANK, GoodField(BLANK.(id := id, haveId := true), e1));
  }

  lemma SecondMember(id: nat, m: string, p: string, r: Request)
    requires m != "" && PlainText(m) && !r.haveMethod
    ensures var t, e1 := RequestText(id, m, p), 13 + |Print(id)|;
            && e1 + 13 + |m| <= |t|
            && ParseMembers(t, e1 + 1, r) == ParseMembers(t, e1 + 13 + |m|, r.(method_ := m, haveMethod := true))
  {
    hide RequestText, ParseMembers, ReadField, StandsAt, SkipValue, PlainText;
    var t, e1 := RequestText(id, m, p), 13 + |Print(id)|;
    var e2 := e1 + 12 + |m|;
    RequestPieces(id, m, p);
    KeysPlain();
    CharOf(t, e1 + 10, "\"", 0);
    MethodReads(t, e1 + 10, m, r);
    CharOf(t, e2, ",", 0);
    CharOf(t, e2 + 1, "\"" + (KEY_PARAMS + "\"") + ":", 0);
    MemberReads(t, e1 + 1, KEY_METHOD, r, GoodField(r.(method_ := m, haveMethod := true), e2));
  }

  lemma KeysPlain()
    ensures PlainText(KEY_METHOD) && PlainText(KEY_PARAMS)
  {
  }

  lemma ThirdMember(id: nat, m: string, p: string, r: Request)
    requires ParamsText(p) && r.haveId && r.haveMethod && !r.haveParams
    ensures var t, e2 := RequestText(id, m, p), 25 + |Print(id)| + |m|;
            e2 + 1 <= |t| && ParseMembers(t, e2 + 1, r) == (Fine, r.(params := p, haveParams := true))
  {
    hide RequestText, ParseMembers, ReadField, StandsAt, SkipValue, ParamsText, PlainText;
    var t, e2 := RequestText(id, m, p), 25 + |Print(id)| + |m|;
    RequestPieces(id, m, p);
    KeysPlain();
    ParamsStart(p);
    CharOf(t, e2 + 10, p, 0);
    ParamsRead(t, e2 + 10, p, r);
    CharOf(t, e2 + 10 + |p|, "}", 0);
    LastMemberReads(t, e2 + 1, KEY_PARAMS, r, GoodField(r.(params := p, haveParams := true), e2 + 10 + |p|));
  }

  /** Parsing a printed request gives back its id, method and parameters. */
  lemma ParseInvertsPrint(id: nat, m: string, p: string)
    requires 1 <= id <= UINT64_MAX && m != "" && PlainText(m) && ParamsText(p)
    ensures Parse(RequestText(id, m, p)) == (Fine, Request(id, m, p, true, true, true))
  {
    hide RequestText, ParseMembers, Parse, ParamsText, PlainText;
    var r := BLANK.(id := id, haveId := true);
    FirstMember(id, m, p);
    SecondMember(id, m, p, r);
    ThirdMember(id, m, p, r.(method_ := m, haveMethod := true));
  }

  lemma ParamsStart(p: string)
    requires ParamsText(p)
    ensures p != "" && p[0] == '{'
  {
  }

  lemma ParseStarts(t: string)
    requires StandsAt(t, 0, "{") && StandsAt(t, 1, "\"" + (KEY_ID + "\"") + ":")
    ensures Parse(t) == ParseMembers(t, 1, BLANK)
  {
    CharOf(t, 0, "{", 0);
    CharOf(t, 1, "\"" + (KEY_ID + "\"") + ":", 0);
    hide ParseMembers;
    assert SkipWs(t, 0) == 0 && SkipWs(t, 1) == 1;
  }

  lemma MethodReads(t: string, pos: nat, m: string, r: Request)
    requires !r.haveMethod && m != "" && PlainText(m) && StandsAt(t, pos, "\"") && StandsAt(t, pos + 1, m + "\"")
    ensures pos <= |t| && ReadField(t, pos, KEY_METHOD, r) ==
            GoodField(r.(method_ := m, haveMethod := true), pos + |m| + 2)
  {
    CharOf(t, pos, "\"", 0);
    PlainReads(t, pos + 1, m);
    hide StringRest;
    assert KEY_METHOD != KEY_ID by { assert |KEY_METHOD| != |KEY_ID|; }
  }

  lemma ParamsRead(t: string, pos: nat, p: string, r: Request)
    requires !r.haveParams && ParamsText(p) && StandsAt(t, pos, p)
    ensures pos <= |t| && ReadField(t, pos, KEY_PARAMS, r) ==
            GoodField(r.(params := p, haveParams := true), pos + |p|)
  {
    CharOf(t, pos, p, 0);
    ParamsInside(t, pos, p);
    hide SkipValue;
    assert KEY_PARAMS != KEY_ID by { assert |KEY_PARAMS| != |KEY_ID|; }
    assert KEY_PARAMS[0] != KEY_METHOD[0];
    assert t[pos..pos + |p|] == p;
  }
}
