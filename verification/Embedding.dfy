/** A JSON value that the dispatcher's reader accepts on its own is accepted with the same
    extent wherever it stands, as long as nothing behind it goes on with a number. */
module Embedding {
  import opened Decimal
  import opened JsonText
  import opened DispatchReader
  import opened JsonValues

  /** `a` stands in `b` at `d`, and whatever follows ends a number. */
  predicate Inside(a: string, b: string, d: nat) { StandsAt(b, d, a) && NumberEnds(b, d + |a|) }

  lemma Copy(a: string, b: string, d: nat, i: nat)
    requires Inside(a, b, d) && i < |a|
    ensures i + d < |b| && b[i + d] == a[i]
  {
    CharOf(b, d, a, i);
  }

  lemma Room(a: string, b: string, d: nat)
    requires Inside(a, b, d)
    ensures |a| + d <= |b|
  {
  }

  lemma {:induction false} InWs(a: string, b: string, d: nat, pos: nat)
    requires Inside(a, b, d) && pos <= |a| && SkipWs(a, pos) < |a|
    ensures pos + d <= |b| && SkipWs(b, pos + d) == SkipWs(a, pos) + d
    decreases |a| - pos
  {
    hide Inside;
    Room(a, b, d);
    Copy(a, b, d, pos);
    if IsSpace(a[pos]) { InWs(a, b, d, pos + 1); }
  }

  lemma {:induction false} InDigits(a: string, b: string, d: nat, pos: nat)
    requires Inside(a, b, d) && pos <= |a|
    ensures pos + d <= |b| && DigitsEnd(b, pos + d) == DigitsEnd(a, pos) + d
    decreases |a| - pos
  {
    hide StandsAt;
    Room(a, b, d);
    if pos < |a| {
      Copy(a, b, d, pos);
      if IsDigit(a[pos]) { InDigits(a, b, d, pos + 1); }
    }
  }

  lemma InHex(a: string, b: string, d: nat, pos: nat)
    requires Inside(a, b, d) && Hex4At(a, pos)
    ensures Hex4At(b, pos + d) && Hex4(b, pos + d) == Hex4(a, pos)
  {
    hide Inside;
    Copy(a, b, d, pos);
    Copy(a, b, d, pos + 1);
    Copy(a, b, d, pos + 2);
    Copy(a, b, d, pos + 3);
  }

  lemma InUnit(a: string, b: string, d: nat, pos: nat)
    requires Inside(a, b, d) && EscapedUnit(a, pos).Text?
    ensures EscapedUnit(b, pos + d) == Text(EscapedUnit(a, pos).value, EscapedUnit(a, pos).end + d)
  {
    hide Inside, Utf8, Paired, Hex4;
    InHex(a, b, d, pos);
    if 0xD800 <= Hex4(a, pos) <= 0xDBFF {
      Copy(a, b, d, pos + 4);
      Copy(a, b, d, pos + 5);
      InHex(a, b, d, pos + 6);
    }
  }

  lemma {:induction false} InStringRest(a: string, b: string, d: nat, pos: nat)
    requires Inside(a, b, d) && pos <= |a| && StringRest(a, pos).Text?
    ensures pos + d <= |b| && StringRest(b, pos + d) == Text(StringRest(a, pos).value, StringRest(a, pos).end + d)
    decreases |a| - pos
  {
    hide Inside, StringRest, EscapedUnit;
    Room(a, b, d);
    RestIs(a, pos);
    RestIs(b, pos + d);
    Copy(a, b, d, pos);
    if a[pos] == '"' {
    } else if a[pos] != '\\' {
      InStringRest(a, b, d, pos + 1);
    } else {
      Copy(a, b, d, pos + 1);
      if SimpleEscape(a[pos + 1]) {
        InStringRest(a, b, d, pos + 2);
      } else {
        InUnit(a, b, d, pos + 2);
        InStringRest(a, b, d, EscapedUnit(a, pos + 2).end);
      }
    }
  }

  lemma InString(a: string, b: string, d: nat, pos: nat)
    requires Inside(a, b, d) && StringAt(a, pos).Text?
    ensures StringAt(b, pos + d) == Text(StringAt(a, pos).value, StringAt(a, pos).end + d)
  {
    hide Inside, StringRest;
    Copy(a, b, d, pos);
    InStringRest(a, b, d, pos + 1);
  }

  lemma InFraction(a: string, b: string, d: nat, pos: nat)
    requires Inside(a, b, d) && pos <= |a| && SkipFraction(a, pos).End?
    ensures pos + d <= |b| && SkipFraction(b, pos + d) == End(SkipFraction(a, pos).pos + d)
  {
    hide StandsAt, DigitsEnd;
    Room(a, b, d);
    if pos < |a| {
      Copy(a, b, d, pos);
      if a[pos] == '.' { InDigits(a, b, d, pos + 1); }
    }
  }

  lemma InExponent(a: string, b: string, d: nat, pos: nat)
    requires Inside(a, b, d) && pos <= |a| && SkipExponent(a, pos).End?
    ensures pos + d <= |b| && SkipExponent(b, pos + d) == End(SkipExponent(a, pos).pos + d)
  {
    hide StandsAt;
    Room(a, b, d);
    if pos < |a| {
      Copy(a, b, d, pos);
      if a[pos] == 'e' || a[pos] == 'E' {
        Copy(a, b, d, pos + 1);
        InDigits(a, b, d, if a[pos + 1] == '+' || a[pos + 1] == '-' then pos + 2 else pos + 1);
      }
    }
  }

  lemma InNumberTail(a: string, b: string, d: nat, pos: nat)
    requires Inside(a, b, d) && pos <= |a| && SkipNumberTail(a, pos).End?
    ensures pos + d <= |b| && SkipNumberTail(b, pos + d) == End(SkipNumberTail(a, pos).pos + d)
  {
    hide Inside, SkipFraction, SkipExponent;
    InFraction(a, b, d, pos);
    InExponent(a, b, d, SkipFraction(a, pos).pos);
  }

  /** A number is a sign, digits without a leading zero, and a tail. */
  lemma NumberIs(t: string, pos: nat, p: nat, e: nat)
    requires pos < |t| && p == (if t[pos] == '-' then pos + 1 else pos) && p < |t| && IsDigit(t[p])
    requires e == (if t[p] == '0' then p + 1 else DigitsEnd(t, p)) && (t[p] == '0' && p + 1 < |t| ==> !IsDigit(t[p + 1]))
    ensures e <= |t| && SkipNumber(t, pos) == SkipNumberTail(t, e)
  {
    hide SkipNumberTail;
  }

  lemma NumberStarts(t: string, pos: nat)
    requires pos <= |t| && SkipNumber(t, pos).End?
    ensures pos < |t| && var p := if t[pos] == '-' then pos + 1 else pos;
            p < |t| && IsDigit(t[p]) && (t[p] == '0' && p + 1 < |t| ==> !IsDigit(t[p + 1]))
  {
    hide SkipNumberTail;
  }

  lemma InNumber(a: string, b: string, d: nat, pos: nat)
    requires Inside(a, b, d) && pos <= |a| && SkipNumber(a, pos).End?
    ensures pos + d <= |b| && SkipNumber(b, pos + d) == End(SkipNumber(a, pos).pos + d)
  {
    hide StandsAt, SkipNumber, SkipNumberTail, DigitsEnd;
    NumberStarts(a, pos);
    var p := if a[pos] == '-' then pos + 1 else pos;
    var e := if a[p] == '0' then p + 1 else DigitsEnd(a, p);
    NumberIs(a, pos, p, e);
    Room(a, b, d);
    Copy(a, b, d, pos);
    Copy(a, b, d, p);
    if p + 1 < |a| { Copy(a, b, d, p + 1); }
    InDigits(a, b, d, p);
    InNumberTail(a, b, d, e);
    NumberIs(b, pos + d, p + d, e + d);
  }

  lemma InLiteral(a: string, b: string, d: nat, pos: nat, word: string)
    requires Inside(a, b, d) && StandsAt(a, pos, word)
    ensures StandsAt(b, pos + d, word)
  {
    forall i | 0 <= i < |word| ensures b[pos + d..pos + d + |word|][i] == word[i] {
      CharOf(a, pos, word, i);
      CharOf(b, d, a, pos + i);
    }
  }

  lemma InScalar(a: string, b: string, d: nat, pos: nat)
    requires Inside(a, b, d) && pos < |a| && SkipScalar(a, pos).End?
    ensures pos + d < |b| && SkipScalar(b, pos + d) == End(SkipScalar(a, pos).pos + d)
  {
    hide Inside, StandsAt, SkipNumber, StringAt;
    Copy(a, b, d, pos);
    if a[pos] == '"' { InString(a, b, d, pos); }
    else if a[pos] == 't' { InLiteral(a, b, d, pos, "true"); }
    else if a[pos] == 'f' { InLiteral(a, b, d, pos, "false"); }
    else if a[pos] == 'n' { InLiteral(a, b, d, pos, "null"); }
    else { InNumber(a, b, d, pos); }
  }

  /** A turn's outcome moved along. */
  ghost function Moved(r: Turn, d: nat): Turn
    requires r.Stop? ==> r.result.End?
  {
    if r.More? then More(r.pos + d) else Stop(End(r.result.pos + d))
  }

  predicate Fine(r: Turn) { r.Stop? ==> r.result.End? }

  lemma InAfter(a: string, b: string, d: nat, pos: nat, close: char)
    requires Inside(a, b, d) && pos <= |a| && Fine(AfterElement(a, pos, close))
    requires AfterElement(a, pos, close).More? ==> AfterElement(a, pos, close).pos < |a|
    ensures pos + d <= |b| && AfterElement(b, pos + d, close) == Moved(AfterElement(a, pos, close), d)
  {
    hide Inside;
    Room(a, b, d);
    InWs(a, b, d, pos);
    var p := SkipWs(a, pos);
    Copy(a, b, d, p);
    if a[p] != close { InWs(a, b, d, p + 1); }
  }

  lemma InKey(a: string, b: string, d: nat, pos: nat)
    requires Inside(a, b, d) && pos <= |a| && SkipKey(a, pos).End? && SkipKey(a, pos).pos < |a|
    ensures pos + d <= |b| && SkipKey(b, pos + d) == End(SkipKey(a, pos).pos + d)
  {
    hide Inside, StringAt;
    Room(a, b, d);
    InString(a, b, d, pos);
    var e := StringAt(a, pos).end;
    InWs(a, b, d, e);
    Copy(a, b, d, SkipWs(a, e));
    InWs(a, b, d, SkipWs(a, e) + 1);
  }

  lemma ValueIs(t: string, pos: nat, depth: nat)
    requires pos <= |t|
    ensures SkipValue(t, pos, depth) ==
            if depth > MAX_DEPTH || pos >= |t| then Reject
            else if t[pos] == '{' then SkipObject(t, pos, depth + 1)
            else if t[pos] == '[' then SkipArray(t, pos, depth + 1)
            else SkipScalar(t, pos)
  {
  }

  lemma ArrayIs(t: string, pos: nat, depth: nat)
    requires pos < |t| && t[pos] == '['
    ensures var p := SkipWs(t, pos + 1);
            SkipArray(t, pos, depth) == if p < |t| && t[p] == ']' then End(p + 1) else SkipElements(t, p, depth)
  {
  }

  lemma ObjectIs(t: string, pos: nat, depth: nat)
    requires pos < |t| && t[pos] == '{'
    ensures var p := SkipWs(t, pos + 1);
            SkipObject(t, pos, depth) == if p < |t| && t[p] == '}' then End(p + 1) else SkipMembers(t, p, depth)
  {
  }

  lemma ElementsIs(t: string, pos: nat, depth: nat)
    requires pos <= |t| && SkipValue(t, pos, depth).End?
    ensures var turn := AfterElement(t, SkipValue(t, pos, depth).pos, ']');
            SkipElements(t, pos, depth) == if turn.More? then SkipElements(t, turn.pos, depth) else turn.result
  {
    hide SkipValue, AfterElement;
  }

  lemma NothingAtEnd(t: string, pos: nat, depth: nat)
    requires pos <= |t| && SkipElements(t, pos, depth).End?
    ensures pos < |t|
  {
    hide AfterElement;
    assert SkipValue(t, pos, depth) == Reject || pos < |t|;
  }

  lemma ElementsParts(t: string, pos: nat, depth: nat)
    requires pos <= |t| && SkipElements(t, pos, depth).End?
    ensures pos < |t| && SkipValue(t, pos, depth).End?
    ensures var turn := AfterElement(t, SkipValue(t, pos, depth).pos, ']');
            Fine(turn) && (turn.More? ==> turn.pos < |t| && SkipElements(t, turn.pos, depth).End?)
  {
    hide AfterElement;
    var v := SkipValue(t, pos, depth);
    if v.End? && AfterElement(t, v.pos, ']').More? {
      NothingAtEnd(t, AfterElement(t, v.pos, ']').pos, depth);
    }
  }

  lemma MembersIs(t: string, pos: nat, depth: nat)
    requires pos <= |t| && SkipKey(t, pos).End? && SkipValue(t, SkipKey(t, pos).pos, depth).End?
    ensures var turn := AfterElement(t, SkipValue(t, SkipKey(t, pos).pos, depth).pos, '}');
            SkipMembers(t, pos, depth) == if turn.More? then SkipMembers(t, turn.pos, depth) else turn.result
  {
    hide SkipValue, SkipKey, AfterElement;
  }

  lemma MembersParts(t: string, pos: nat, depth: nat)
    requires pos <= |t| && SkipMembers(t, pos, depth).End?
    ensures pos < |t| && SkipKey(t, pos).End? && SkipKey(t, pos).pos < |t| && SkipValue(t, SkipKey(t, pos).pos, depth).End?
    ensures var turn := AfterElement(t, SkipValue(t, SkipKey(t, pos).pos, depth).pos, '}');
            Fine(turn) && (turn.More? ==> turn.pos < |t| && SkipMembers(t, turn.pos, depth).End?)
  {
    hide AfterElement;
    var k := SkipKey(t, pos);
    var v := SkipValue(t, k.pos, depth);
    if AfterElement(t, v.pos, '}').More? {
      var next := AfterElement(t, v.pos, '}').pos;
      assert SkipMembers(t, next, depth).End?;
      assert SkipKey(t, next).End?;
    }
  }

  lemma {:induction false} InValue(a: string, b: string, d: nat, pos: nat, depth: nat)
    requires Inside(a, b, d) && pos <= |a| && SkipValue(a, pos, depth).End?
    ensures pos + d <= |b| && SkipValue(b, pos + d, depth) == End(SkipValue(a, pos, depth).pos + d)
    decreases |a| - pos, 2
  {
    hide Inside, SkipValue, SkipObject, SkipArray, SkipScalar, SkipElements, SkipMembers;
    Room(a, b, d);
    ValueIs(a, pos, depth);
    ValueIs(b, pos + d, depth);
    Copy(a, b, d, pos);
    if a[pos] == '{' {
      InObject(a, b, d, pos, depth + 1);
    } else if a[pos] == '[' {
      InArray(a, b, d, pos, depth + 1);
    } else {
      InScalar(a, b, d, pos);
    }
  }

  lemma {:induction false} InObject(a: string, b: string, d: nat, pos: nat, depth: nat)
    requires Inside(a, b, d) && pos < |a| && a[pos] == '{' && SkipObject(a, pos, depth).End?
    ensures pos + d < |b| && SkipObject(b, pos + d, depth) == End(SkipObject(a, pos, depth).pos + d)
    decreases |a| - pos, 1
  {
    hide Inside, SkipObject, SkipMembers, SkipWs;
    Room(a, b, d);
    Copy(a, b, d, pos);
    var p := SkipWs(a, pos + 1);
    ObjectIs(a, pos, depth);
    ObjectIs(b, pos + d, depth);
    if !(p < |a| && a[p] == '}') { MembersParts(a, p, depth); }
    InWs(a, b, d, pos + 1);
    Copy(a, b, d, p);
    if a[p] != '}' { InMembers(a, b, d, p, depth); }
  }

  lemma {:induction false} InArray(a: string, b: string, d: nat, pos: nat, depth: nat)
    requires Inside(a, b, d) && pos < |a| && a[pos] == '[' && SkipArray(a, pos, depth).End?
    ensures pos + d < |b| && SkipArray(b, pos + d, depth) == End(SkipArray(a, pos, depth).pos + d)
    decreases |a| - pos, 1
  {
    hide Inside, SkipArray, SkipElements, SkipWs;
    Room(a, b, d);
    Copy(a, b, d, pos);
    var p := SkipWs(a, pos + 1);
    ArrayIs(a, pos, depth);
    ArrayIs(b, pos + d, depth);
    if !(p < |a| && a[p] == ']') { ElementsParts(a, p, depth); }
    InWs(a, b, d, pos + 1);
    Copy(a, b, d, p);
    if a[p] != ']' { InElements(a, b, d, p, depth); }
  }

  lemma {:induction false} InElements(a: string, b: string, d: nat, pos: nat, depth: nat)
    requires Inside(a, b, d) && pos <= |a| && SkipElements(a, pos, depth).End?
    ensures pos + d <= |b| && SkipElements(b, pos + d, depth) == End(SkipElements(a, pos, depth).pos + d)
    decreases |a| - pos, 4
  {
    hide Inside, SkipValue, SkipElements, AfterElement;
    ElementsParts(a, pos, depth);
    ElementsIs(a, pos, depth);
    InValue(a, b, d, pos, depth);
    var v := SkipValue(a, pos, depth).pos;
    InAfter(a, b, d, v, ']');
    ElementsIs(b, pos + d, depth);
    var turn := AfterElement(a, v, ']');
    if turn.More? { InElements(a, b, d, turn.pos, depth); }
  }

  lemma {:induction false} InMembers(a: string, b: string, d: nat, pos: nat, depth: nat)
    requires Inside(a, b, d) && pos <= |a| && SkipMembers(a, pos, depth).End?
    ensures pos + d <= |b| && SkipMembers(b, pos + d, depth) == End(SkipMembers(a, pos, depth).pos + d)
    decreases |a| - pos, 4
  {
    hide Inside, SkipValue, SkipKey, SkipMembers, AfterElement;
    MembersParts(a, pos, depth);
    MembersIs(a, pos, depth);
    InKey(a, b, d, pos);
    var k := SkipKey(a, pos).pos;
    InValue(a, b, d, k, depth);
    var v := SkipValue(a, k, depth).pos;
    InAfter(a, b, d, v, '}');
    MembersIs(b, pos + d, depth);
    var turn := AfterElement(a, v, '}');
    if turn.More? { InMembers(a, b, d, turn.pos, depth); }
  }

  /** A text that is one value, at this depth. */
  predicate Whole(v: string, depth: nat) { v != "" && SkipValue(v, 0, depth) == End(|v|) }

  /** A whole value keeps its extent wherever it stands. */
  lemma WholeStands(t: string, pos: nat, v: string, depth: nat)
    requires Whole(v, depth) && StandsAt(t, pos, v) && NumberEnds(t, pos + |v|)
    ensures pos <= |t| && SkipValue(t, pos, depth) == End(pos + |v|)
  {
    hide SkipValue;
    InValue(v, t, pos, 0, depth);
  }
}
