/** The two scanners against each other: on text without surrogate escapes they accept
    the same arrays and objects, and what is accepted deep down is accepted higher up,
    so the dispatcher can read every parameter object that the session lets through. */
module JsonAgreement {
  import opened Decimal
  import opened JsonText
  import opened Requests
  import opened RequestRoundTrip
  import S = SessionScanner
  import D = DispatchReader

  // ---------------------------------------------------------------- escapes

  /** A backslash that starts an escape: one not itself escaped. */
  predicate IsEscape(t: string, i: nat)
    requires i < |t|
  {
    t[i] == '\\' && (i == 0 || !IsEscape(t, i - 1))
  }

  /** A place where a token may start: not inside an escape. */
  predicate Boundary(t: string, pos: nat)
    requires pos <= |t|
  {
    pos == 0 || !IsEscape(t, pos - 1)
  }

  predicate SurrogateAt(t: string, i: nat) {
    Hex4At(t, i) && 0xD800 <= Hex4(t, i) <= 0xDFFF
  }

  /** No `\u` escape in the text names a surrogate. */
  ghost predicate SurrogateFree(t: string) {
    forall i :: 0 <= i && i + 1 < |t| && IsEscape(t, i) && t[i + 1] == 'u' ==> !SurrogateAt(t, i + 2)
  }

  // ---------------------------------------------------------------- scalars

  lemma {:induction false} StringRestAgrees(t: string, pos: nat)
    requires SurrogateFree(t) && pos <= |t| && Boundary(t, pos)
    ensures S.StringRest(t, pos).Text? <==> D.StringRest(t, pos).Text?
    ensures S.StringRest(t, pos).Text? ==> S.StringRest(t, pos).end == D.StringRest(t, pos).end
    decreases |t| - pos
  {
    if pos < |t| && t[pos] != '"' && t[pos] as int >= 0x20 {
      if t[pos] != '\\' {
        StringRestAgrees(t, pos + 1);
      } else if pos + 1 < |t| {
        assert IsEscape(t, pos);
        if SimpleEscape(t[pos + 1]) {
          assert !IsEscape(t, pos + 1);
          StringRestAgrees(t, pos + 2);
        } else if t[pos + 1] == 'u' && Hex4At(t, pos + 2) {
          assert !SurrogateAt(t, pos + 2);
          StringRestAgrees(t, pos + 6);
        }
      }
    }
  }

  lemma SkipStringAgrees(t: string, pos: nat)
    requires SurrogateFree(t) && pos <= |t|
    ensures S.SkipString(t, pos) == D.SkipString(t, pos)
  {
    if pos < |t| && t[pos] == '"' {
      StringRestAgrees(t, pos + 1);
    }
  }

  /** Numbers differ only on a zero with a digit behind it, where one scanner stops
      and the other rejects. */
  lemma SkipScalarAgrees(t: string, p: nat)
    requires SurrogateFree(t) && p < |t|
    ensures D.SkipScalar(t, p).End? ==> S.SkipScalar(t, p) == D.SkipScalar(t, p)
    ensures S.SkipScalar(t, p).End? ==>
              || D.SkipScalar(t, p) == S.SkipScalar(t, p)
              || (S.SkipScalar(t, p).pos < |t| && IsDigit(t[S.SkipScalar(t, p).pos]))
  {
    SkipStringAgrees(t, p);
  }

  lemma SkipKeyAgrees(t: string, pos: nat)
    requires SurrogateFree(t) && pos <= |t|
    ensures S.SkipKey(t, pos) == D.SkipKey(t, pos)
  {
    SkipStringAgrees(t, pos);
  }

  // ---------------------------------------------------------------- containers

  predicate AtToken(t: string, pos: nat) { pos < |t| ==> !IsSpace(t[pos]) }

  lemma {:induction false} SkipValueAgrees(t: string, pos: nat, depth: nat)
    requires SurrogateFree(t) && pos <= |t| && AtToken(t, pos)
    ensures D.SkipValue(t, pos, depth).End? ==> S.SkipValue(t, pos, depth) == D.SkipValue(t, pos, depth)
    ensures S.SkipValue(t, pos, depth).End? ==>
              || D.SkipValue(t, pos, depth) == S.SkipValue(t, pos, depth)
              || (S.SkipValue(t, pos, depth).pos < |t| && IsDigit(t[S.SkipValue(t, pos, depth).pos]))
    decreases |t| - pos, 2
  {
    if pos < |t| && depth <= MAX_DEPTH {
      if t[pos] == '{' {
        SkipObjectAgrees(t, pos, depth);
      } else if t[pos] == '[' {
        SkipArrayAgrees(t, pos, depth);
      } else {
        SkipScalarAgrees(t, pos);
      }
    }
  }

  lemma {:induction false} SkipArrayAgrees(t: string, pos: nat, depth: nat)
    requires SurrogateFree(t) && pos <= |t| && depth <= MAX_DEPTH
    ensures S.SkipArray(t, pos, depth) == D.SkipArray(t, pos, depth + 1)
    decreases |t| - pos, 1
  {
    if pos < |t| && t[pos] == '[' {
      SkipElementsAgrees(t, SkipWs(t, pos + 1), depth);
    }
  }

  lemma {:induction false} SkipElementsAgrees(t: string, pos: nat, depth: nat)
    requires SurrogateFree(t) && pos <= |t| && AtToken(t, pos)
    ensures S.SkipElements(t, pos, depth) == D.SkipElements(t, pos, depth + 1)
    decreases |t| - pos, 4
  {
    SkipValueAgrees(t, pos, depth + 1);
    assert S.ElementTurn(t, pos, depth) == D.ElementTurn(t, pos, depth + 1);
    var turn := S.ElementTurn(t, pos, depth);
    if turn.More? {
      SkipElementsAgrees(t, turn.pos, depth);
    }
  }

  lemma {:induction false} SkipObjectAgrees(t: string, pos: nat, depth: nat)
    requires SurrogateFree(t) && pos <= |t| && depth <= MAX_DEPTH
    ensures S.SkipObject(t, pos, depth) == D.SkipObject(t, pos, depth + 1)
    decreases |t| - pos, 1
  {
    if pos < |t| && t[pos] == '{' {
      SkipMembersAgrees(t, SkipWs(t, pos + 1), depth);
    }
  }

  lemma {:induction false} SkipMembersAgrees(t: string, pos: nat, depth: nat)
    requires SurrogateFree(t) && pos <= |t| && AtToken(t, pos)
    ensures S.SkipMembers(t, pos, depth) == D.SkipMembers(t, pos, depth + 1)
    decreases |t| - pos, 4
  {
    SkipKeyAgrees(t, pos);
    var k := S.SkipKey(t, pos);
    if k.End? {
      SkipValueAgrees(t, k.pos, depth + 1);
    }
    assert S.MemberTurn(t, pos, depth) == D.MemberTurn(t, pos, depth + 1);
    var turn := S.MemberTurn(t, pos, depth);
    if turn.More? {
      SkipMembersAgrees(t, turn.pos, depth);
    }
  }

  // ---------------------------------------------------------------- where they differ

  /** A number whose only leading digit is a zero with another digit behind it. */
  predicate LeadingZero(t: string, pos: nat) {
    var p := if pos < |t| && t[pos] == '-' then pos + 1 else pos;
    p + 1 < |t| && t[p] == '0' && IsDigit(t[p + 1])
  }

  lemma ScalarsDifferExactly(t: string, p: nat)
    requires SurrogateFree(t) && p < |t|
    ensures D.SkipScalar(t, p) != S.SkipScalar(t, p) <==> LeadingZero(t, p)
  {
    SkipStringAgrees(t, p);
    hide S.StringRest, D.StringRest, SurrogateFree;
    if LeadingZero(t, p) {
      assert D.SkipScalar(t, p) == Reject;
      var q := if t[p] == '-' then p + 1 else p;
      assert S.SkipScalar(t, p) == SkipNumberTail(t, q + 1);
      assert SkipFraction(t, q + 1) == End(q + 1) && SkipExponent(t, q + 1) == End(q + 1);
    }
  }

  /** At equal depth the scanners differ on a value exactly when it is a number with a
      leading zero: one stops behind the zero, the other refuses. */
  lemma ValuesDifferExactly(t: string, pos: nat, depth: nat)
    requires SurrogateFree(t) && pos <= |t| && AtToken(t, pos)
    ensures D.SkipValue(t, pos, depth) != S.SkipValue(t, pos, depth) <==> depth <= MAX_DEPTH && LeadingZero(t, pos)
  {
    hide SurrogateFree, S.SkipScalar, D.SkipScalar, S.SkipObject, S.SkipArray, D.SkipObject, D.SkipArray;
    if pos < |t| && depth <= MAX_DEPTH {
      if t[pos] == '{' {
        SkipObjectAgrees(t, pos, depth);
      } else if t[pos] == '[' {
        SkipArrayAgrees(t, pos, depth);
      } else {
        ScalarsDifferExactly(t, pos);
      }
    }
  }

  /** Such a text. */
  lemma ZeroOneDiffers()
    ensures S.SkipValue("01", 0, 0) == End(1) && D.SkipValue("01", 0, 0) == Reject
  {
    assert !IsSpace("01"[0]) && SkipWs("01", 0) == 0;
    assert SkipFraction("01", 1) == End(1) && SkipExponent("01", 1) == End(1);
  }

  // ---------------------------------------------------------------- depth

  /** Less depth used up never turns acceptance into rejection or moves an end. */
  lemma {:induction false} DepthMonotone(t: string, pos: nat, depth: nat)
    requires pos <= |t| && D.SkipValue(t, pos, depth + 1).End?
    ensures D.SkipValue(t, pos, depth) == D.SkipValue(t, pos, depth + 1)
    decreases |t| - pos, 2
  {
    if t[pos] == '{' {
      var p := SkipWs(t, pos + 1);
      if !(p < |t| && t[p] == '}') {
        MembersDepthMonotone(t, p, depth + 1);
      }
    } else if t[pos] == '[' {
      var p := SkipWs(t, pos + 1);
      if !(p < |t| && t[p] == ']') {
        ElementsDepthMonotone(t, p, depth + 1);
      }
    }
  }

  lemma {:induction false} ElementsDepthMonotone(t: string, pos: nat, depth: nat)
    requires pos <= |t| && D.SkipElements(t, pos, depth + 1).End?
    ensures D.SkipElements(t, pos, depth) == D.SkipElements(t, pos, depth + 1)
    decreases |t| - pos, 4
  {
    DepthMonotone(t, pos, depth);
    var turn := D.ElementTurn(t, pos, depth + 1);
    assert D.ElementTurn(t, pos, depth) == turn;
    if turn.More? {
      ElementsDepthMonotone(t, turn.pos, depth);
    }
  }

  lemma {:induction false} MembersDepthMonotone(t: string, pos: nat, depth: nat)
    requires pos <= |t| && D.SkipMembers(t, pos, depth + 1).End?
    ensures D.SkipMembers(t, pos, depth) == D.SkipMembers(t, pos, depth + 1)
    decreases |t| - pos, 4
  {
    var k := D.SkipKey(t, pos);
    DepthMonotone(t, k.pos, depth);
    var turn := D.MemberTurn(t, pos, depth + 1);
    assert D.MemberTurn(t, pos, depth) == turn;
    if turn.More? {
      MembersDepthMonotone(t, turn.pos, depth);
    }
  }

  /** The same for the session's scanner, on any text. */
  lemma {:induction false} SessionDepthMonotone(t: string, pos: nat, depth: nat)
    requires pos <= |t| && S.SkipValue(t, pos, depth + 1).End?
    ensures S.SkipValue(t, pos, depth) == S.SkipValue(t, pos, depth + 1)
    decreases |t| - pos, 2
  {
    var p := SkipWs(t, pos);
    if t[p] == '{' {
      var q := SkipWs(t, p + 1);
      if !(q < |t| && t[q] == '}') {
        SessionMembersMonotone(t, q, depth);
      }
    } else if t[p] == '[' {
      var q := SkipWs(t, p + 1);
      if !(q < |t| && t[q] == ']') {
        SessionElementsMonotone(t, q, depth);
      }
    }
  }

  lemma {:induction false} SessionElementsMonotone(t: string, pos: nat, depth: nat)
    requires pos <= |t| && S.SkipElements(t, pos, depth + 1).End?
    ensures S.SkipElements(t, pos, depth) == S.SkipElements(t, pos, depth + 1)
    decreases |t| - pos, 4
  {
    SessionDepthMonotone(t, pos, depth + 1);
    var turn := S.ElementTurn(t, pos, depth + 1);
    assert S.ElementTurn(t, pos, depth) == turn;
    if turn.More? {
      SessionElementsMonotone(t, turn.pos, depth);
    }
  }

  lemma {:induction false} SessionMembersMonotone(t: string, pos: nat, depth: nat)
    requires pos <= |t| && S.SkipMembers(t, pos, depth + 1).End?
    ensures S.SkipMembers(t, pos, depth) == S.SkipMembers(t, pos, depth + 1)
    decreases |t| - pos, 4
  {
    var k := S.SkipKey(t, pos);
    SessionDepthMonotone(t, k.pos, depth + 1);
    var turn := S.MemberTurn(t, pos, depth + 1);
    assert S.MemberTurn(t, pos, depth) == turn;
    if turn.More? {
      SessionMembersMonotone(t, turn.pos, depth);
    }
  }

  // ---------------------------------------------------------------- parameters

  lemma {:induction false} SessionMembersReadable(t: string, pos: nat)
    requires SurrogateFree(t) && pos <= |t| && AtToken(t, pos) && S.SkipMembers(t, pos, 1).End?
    ensures D.MembersFrom(t, pos).Members? && D.MembersFrom(t, pos).end == S.SkipMembers(t, pos, 1).pos
    decreases |t| - pos
  {
    SkipKeyAgrees(t, pos);
    var k := S.SkipKey(t, pos);
    SkipValueAgrees(t, k.pos, 2);
    var v := S.SkipValue(t, k.pos, 2);
    assert D.SkipValue(t, k.pos, 2) == v;
    DepthMonotone(t, k.pos, 1);
    DepthMonotone(t, k.pos, 0);
    var turn := S.MemberTurn(t, pos, 1);
    if turn.More? {
      SessionMembersReadable(t, turn.pos);
    }
  }

  /** Every parameter object the session accepts is read completely by the dispatcher;
      a lookup fails only when the key is missing or occurs more than once. */
  lemma ParametersReadable(t: string, key: string)
    requires SurrogateFree(t) && t != "" && t[0] == '{' && S.SkipValue(t, 0, 1) == End(|t|)
    ensures D.ObjectMembers(t).Members?
    ensures D.UniqueMember(t, key).Absent? <==> |D.Named(D.ObjectMembers(t).list, key)| != 1
  {
    assert SkipWs(t, 0) == 0;
    var q := SkipWs(t, 1);
    if !(q < |t| && t[q] == '}') {
      SessionMembersReadable(t, q);
    }
    assert SkipWs(t, |t|) == |t|;
  }

  // ---------------------------------------------------------------- the hand-over

  /** The parameters a request holds are acceptable on their own. */
  lemma {:induction false} MembersHoldParams(t: string, pos: nat, r: Request)
    requires pos <= |t| && ParamsText(r.params)
    ensures ParamsText(ParseMembers(t, pos, r).1.params)
    decreases |t| - pos
  {
    hide S.SkipValue, ParamsText, Uint64At, AfterElement;
    var k := S.SkipKey(t, pos);
    if k.End? {
      var key := S.StringAt(t, pos).value;
      FieldHoldsParams(t, k.pos, key, r);
      hide ReadField;
      var f := ReadField(t, k.pos, key, r);
      if f.GoodField? && AfterElement(t, f.end, '}').More? {
        MembersHoldParams(t, AfterElement(t, f.end, '}').pos, f.request);
      }
    }
  }

  lemma FieldHoldsParams(t: string, pos: nat, key: string, r: Request)
    requires pos <= |t| && ParamsText(r.params)
    ensures var f := ReadField(t, pos, key, r); f.GoodField? ==> ParamsText(f.request.params)
  {
    hide S.SkipValue, ParamsText, Uint64At, S.StringAt;
    if pos < |t| && t[pos] == '{' && S.SkipValue(t, pos, 1).End? {
      ParamsCutOut(t, pos);
    }
  }

  lemma EmptyParams()
    ensures ParamsText(BLANK.params)
  {
    var p := "{}";
    assert SkipWs(p, 0) == 0 && SkipWs(p, 1) == 1;
    assert S.SkipObject(p, 0, 1) == End(2);
  }

  /** Whatever a request says, its parameters can be read by the dispatcher: a lookup
      fails only when the key is missing or occurs more than once. */
  lemma HandedOverReadable(t: string, key: string)
    requires Parse(t).0 == Fine && SurrogateFree(Parse(t).1.params)
    ensures var p := Parse(t).1.params;
            && D.ObjectMembers(p).Members?
            && (D.UniqueMember(p, key).Absent? <==> |D.Named(D.ObjectMembers(p).list, key)| != 1)
  {
    hide ParseMembers, SurrogateFree, D.ObjectMembers;
    EmptyParams();
    var p := SkipWs(t, 0);
    if p < |t| && t[p] == '{' {
      MembersHoldParams(t, SkipWs(t, p + 1), BLANK);
    }
    ParametersReadable(Parse(t).1.params, key);
  }
}
