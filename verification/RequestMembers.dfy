/** The session's request parser on every JSON object, in any layout: it is a fold over the
    object's members, with one rule per key. */
module RequestMembers {
  import opened Decimal
  import opened JsonText
  import opened JsonStrings
  import opened JsonValues
  import opened SessionScanner
  import opened Requests

  /** What the session keeps of a string: a `\u` escape is a question mark, and those are
      printed for control characters that have no letter of their own. */
  function Masked(s: string): (m: string)
    ensures |m| == |s|
  {
    if s == "" then "" else [if |EscapeChar(s[0])| == 6 then '?' else s[0]] + Masked(s[1..])
  }

  lemma {:induction false} PlainUnmasked(s: string)
    requires PlainText(s)
    ensures Masked(s) == s
  {
    if s != "" {
      PlainUnmasked(s[1..]);
      assert [s[0]] + s[1..] == s;
    }
  }

  lemma CharReads(t: string, pos: nat, c: char)
    requires StandsAt(t, pos, EscapeChar(c))
    ensures pos + |EscapeChar(c)| <= |t|
    ensures StringRest(t, pos) ==
            Prepend(if |EscapeChar(c)| == 6 then '?' else c, StringRest(t, pos + |EscapeChar(c)|))
  {
    var e := EscapeChar(c);
    CharOf(t, pos, e, 0);
    if |e| == 6 {
      CharOf(t, pos, e, 1); CharOf(t, pos, e, 2); CharOf(t, pos, e, 3); CharOf(t, pos, e, 4); CharOf(t, pos, e, 5);
      assert Hex4At(t, pos + 2);
    } else if |e| == 2 {
      CharOf(t, pos, e, 1);
    }
  }

  lemma {:induction false} EscapedReads(t: string, pos: nat, s: string)
    requires StandsAt(t, pos, Escape(s) + ['"'])
    ensures pos <= |t| && StringRest(t, pos) == Text(Masked(s), pos + |Escape(s)| + 1)
    decreases |s|
  {
    hide StringRest, StandsAt, EscapeChar;
    StandsInside(t, pos, Escape(s) + ['"']);
    if s == "" {
      StandsSplit(t, pos, Escape(s), ['"']);
      CharOf(t, pos, ['"'], 0);
      SessionQuoteEnds(t, pos);
    } else {
      var c, tail := EscapeChar(s[0]), Escape(s[1..]) + ['"'];
      assert Escape(s) + ['"'] == c + tail;
      StandsSplit(t, pos, c, tail);
      CharReads(t, pos, s[0]);
      EscapedReads(t, pos + |c|, s[1..]);
    }
  }

  lemma QuotedReads(t: string, pos: nat, s: string)
    requires StandsAt(t, pos, Quoted(s))
    ensures StringAt(t, pos) == Text(Masked(s), pos + |Quoted(s)|)
  {
    assert Quoted(s) == ['"'] + (Escape(s) + ['"']);
    StandsSplit(t, pos, ['"'], Escape(s) + ['"']);
    CharOf(t, pos, ['"'], 0);
    EscapedReads(t, pos + 1, s);
    hide Escape, StringRest;
  }

  // ---------------------------------------------------------------- the reference

  datatype Outcome = Refused(error: ParseError) | Kept(request: Request)

  /** What one member does to a request. */
  function Absorb(r: Request, m: Pair, gap: string): Outcome {
    var key := Masked(m.key);
    if key == "requestId" then
      if r.haveId then Refused(DuplicateRequestId)
      else if m.value.Int? && 1 <= m.value.n <= 0xFFFF_FFFF_FFFF_FFFF then Kept(r.(id := m.value.n, haveId := true))
      else Refused(InvalidRequestId)
    else if key == "method" then
      if r.haveMethod then Refused(DuplicateMethod)
      else if m.value.Str? && m.value.s != "" then Kept(r.(method_ := Masked(m.value.s), haveMethod := true))
      else Refused(InvalidMethod)
    else if key == "params" then
      if r.haveParams then Refused(DuplicateParams)
      else if m.value.Obj? && Height(m.value) <= 15 then Kept(r.(params := Render(m.value, gap), haveParams := true))
      else Refused(InvalidParams)
    else if Height(m.value) <= 15 then Kept(r) else Refused(InvalidJson)
  }

  function Missing(r: Request): ParseError {
    if !r.haveId then MissingRequestId else if !r.haveMethod then MissingMethod else Fine
  }

  /** All members in order; the first that is refused decides. */
  function FoldFrom(ms: seq<Pair>, i: nat, r: Request, gap: string): (ParseError, Request)
    requires i <= |ms|
    decreases |ms| - i
  {
    if i == |ms| then (Missing(r), r)
    else match Absorb(r, ms[i], gap)
    case Refused(error) => (error, r)
    case Kept(next) => FoldFrom(ms, i + 1, next, gap)
  }

  // ---------------------------------------------------------------- one member

  lemma NumberReads(t: string, pos: nat, v: Json, gap: string)
    requires StandsAt(t, pos, Render(v, gap)) && NumberEnds(t, pos + |Render(v, gap)|)
    ensures pos <= |t| && Uint64At(t, pos) ==
            if v.Int? && 0 <= v.n <= UINT64_MAX then Number(v.n, pos + |Render(v, gap)|) else NotNumber
  {
    var x := Render(v, gap);
    CharOf(t, pos, x, 0);
    StandsInside(t, pos, x);
    if v.Int? && v.n >= 0 {
      assert t[pos..pos + |x|] == Print(v.n);
      RunEnds(t, pos, pos + |x|);
      ValueOfPrint(v.n);
    } else {
      NotADigit(v, gap);
    }
  }

  lemma NotADigit(v: Json, gap: string)
    requires !(v.Int? && v.n >= 0)
    ensures !IsDigit(Render(v, gap)[0])
  {
  }

  lemma FirstChar(v: Json, gap: string)
    ensures Render(v, gap)[0] == '"' <==> v.Str?
    ensures Render(v, gap)[0] == '{' <==> v.Obj?
  {
    if v.Int? { assert v.n >= 0 ==> IsDigit(Render(v, gap)[0]); }
  }

  lemma FieldAbsorbed(t: string, pos: nat, m: Pair, gap: string, r: Request)
    requires Blank(gap) && StandsAt(t, pos, Render(m.value, gap)) && NumberEnds(t, pos + |Render(m.value, gap)|)
    ensures var o := Absorb(r, m, gap);
            pos <= |t| && ReadField(t, pos, Masked(m.key), r) ==
            if o.Refused? then BadField(o.error) else GoodField(o.request, pos + |Render(m.value, gap)|)
  {
    hide StandsAt, Render, SkipValue, Uint64At, StringAt, Height, Blank;
    var v, x := m.value, Render(m.value, gap);
    StandsInside(t, pos, x);
    CharOf(t, pos, x, 0);
    FirstChar(v, gap);
    NumberReads(t, pos, v, gap);
    ValueScans(t, pos, v, gap, 1);
    StandsSlice(t, pos, x);
    if v.Str? {
      RenderStr(v, gap);
      QuotedReads(t, pos, v.s);
    } else {
      NoString(t, pos);
    }
  }

  lemma RenderStr(v: Json, gap: string)
    requires v.Str?
    ensures Render(v, gap) == Quoted(v.s)
  {
  }

  lemma NoString(t: string, pos: nat)
    requires pos < |t| && t[pos] != '"'
    ensures StringAt(t, pos) == NoText
  {
  }

  lemma StandsSlice(t: string, pos: nat, x: string)
    requires StandsAt(t, pos, x)
    ensures pos + |x| <= |t| && t[pos..pos + |x|] == x
  {
  }

  // ---------------------------------------------------------------- all members

  lemma KeyValue(t: string, pos: nat, v: Json, i: nat, gap: string)
    requires v.Obj? && i < |v.members| && StandsAt(t, pos, RenderFrom(v, i, gap))
    ensures StringAt(t, pos).Text? && StringAt(t, pos).value == Masked(v.members[i].key)
  {
    var q := Quoted(v.members[i].key);
    var rest := gap + (":" + gap);
    ElementNests(v, i, gap);
    hide RenderFrom, Render, StandsAt, StringAt, Quoted;
    var more := Render(Child(v, i), gap) + RestFrom(v, i, gap);
    assert q + rest + more == q + (rest + more);
    StandsSplit(t, pos, q, rest + more);
    QuotedReads(t, pos, v.members[i].key);
  }

  lemma MembersStep(t: string, pos: nat, r: Request, k: nat, key: string)
    requires pos <= |t| && SkipKey(t, pos) == End(k) && k <= |t| && StringAt(t, pos).Text? && StringAt(t, pos).value == key
    ensures var f := ReadField(t, k, key, r);
            ParseMembers(t, pos, r) ==
            if f.BadField? then (f.error, r)
            else var turn := AfterElement(t, f.end, '}');
                 if turn.More? then ParseMembers(t, turn.pos, f.request)
                 else if turn.result.Reject? then (InvalidJson, f.request)
                 else (Finish(t, turn.result.pos, f.request), f.request)
  {
    hide SkipKey, ReadField, AfterElement, StringAt, Finish;
  }

  lemma FinishAtEnd(t: string, r: Request)
    ensures Finish(t, |t|, r) == Missing(r)
  {
    assert SkipWs(t, |t|) == |t|;
  }

  lemma MemberAbsorbed(t: string, pos: nat, v: Json, i: nat, gap: string, r: Request)
    requires v.Obj? && i < |v.members| && Blank(gap) && StandsAt(t, pos, RenderFrom(v, i, gap))
    ensures var e := pos + |KeyText(v, i, gap)| + |Render(v.members[i].value, gap)|;
            var o := Absorb(r, v.members[i], gap);
            && e <= |t| && pos <= |t|
            && ParseMembers(t, pos, r) ==
               if o.Refused? then (o.error, r)
               else var turn := AfterElement(t, e, '}');
                    if turn.More? then ParseMembers(t, turn.pos, o.request)
                    else if turn.result.Reject? then (InvalidJson, o.request)
                    else (Finish(t, turn.result.pos, o.request), o.request)
  {
    hide StandsAt, RenderFrom, Render, KeyText, SkipKey, ReadField, AfterElement, StringAt, ParseMembers, Finish, Absorb, Blank,
         NumberEnds;
    var m := v.members[i];
    var k := pos + |KeyText(v, i, gap)|;
    MemberStands(t, pos, v, i, gap);
    KeyValue(t, pos, v, i, gap);
    FieldAbsorbed(t, k, m, gap, r);
    MembersStep(t, pos, r, k, Masked(m.key));
  }

  lemma {:induction false} MembersFold(t: string, pos: nat, v: Json, i: nat, gap: string, r: Request)
    requires v.Obj? && i < |v.members| && Blank(gap) && StandsAt(t, pos, RenderFrom(v, i, gap))
    requires pos + |RenderFrom(v, i, gap)| == |t|
    ensures pos <= |t| && ParseMembers(t, pos, r) == FoldFrom(v.members, i, r, gap)
    decreases |v.members| - i
  {
    hide StandsAt, RenderFrom, Render, KeyText, SkipKey, ReadField, AfterElement, StringAt, ParseMembers, Finish, Absorb, Blank,
         NumberEnds, Missing;
    var e := pos + |KeyText(v, i, gap)| + |Render(v.members[i].value, gap)|;
    MemberStands(t, pos, v, i, gap);
    MemberAbsorbed(t, pos, v, i, gap, r);
    var o := Absorb(r, v.members[i], gap);
    if o.Kept? {
      if i + 1 == |v.members| {
        FinishAtEnd(t, o.request);
      } else {
        MembersFold(t, e + |gap| + 1 + |gap|, v, i + 1, gap, o.request);
      }
    }
  }

  lemma ParseEnters(t: string, p: nat)
    requires |t| > 0 && t[0] == '{' && SkipWs(t, 1) == p && p < |t|
    ensures Parse(t) == if t[p] == '}' then (MissingRequestId, BLANK) else ParseMembers(t, p, BLANK)
  {
    hide ParseMembers;
    assert SkipWs(t, 0) == 0;
  }

  /** On every JSON object, whatever its members and wherever its white space, the parser's
      verdict and what it read are those of the fold. */
  lemma ParseIsFold(ms: seq<Pair>, gap: string)
    requires Blank(gap)
    ensures Parse(Render(Obj(ms), gap)) == FoldFrom(ms, 0, BLANK, gap)
  {
    hide StandsAt, Render, RenderFrom, ParseMembers, Parse, Blank, SkipWs, Absorb;
    var v := Obj(ms);
    var t := Render(v, gap);
    WholeStandsThere(t);
    ContainerStands(t, 0, v, gap);
    ParseEnters(t, 1 + |gap|);
    if ms != [] { MembersFold(t, 1 + |gap|, v, 0, gap, BLANK); }
  }

  lemma WholeStandsThere(t: string)
    ensures StandsAt(t, 0, t)
  {
    assert t[0..0 + |t|] == t;
  }
}
