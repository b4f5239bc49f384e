/** The HELLO parser on every JSON object, in any layout: a fold over its members. */
module HelloMembers {
  import opened Decimal
  import opened JsonText
  import opened JsonStrings
  import opened JsonValues
  import opened SessionScanner
  import opened RequestMembers
  import opened Sessions

  datatype Heard = Unheard | Heard(versions: Versions)

  /** What one member does to the range: each bound once, as a 64-bit number. */
  function Hear(v: Versions, m: Pair): Heard {
    var key := Masked(m.key);
    var fits := m.value.Int? && 0 <= m.value.n <= 0xFFFF_FFFF_FFFF_FFFF;
    if key == "minVersion" then
      if fits && !v.haveMin then Heard(v.(min := m.value.n, haveMin := true)) else Unheard
    else if key == "maxVersion" then
      if fits && !v.haveMax then Heard(v.(max := m.value.n, haveMax := true)) else Unheard
    else if Height(m.value) <= 15 then Heard(v) else Unheard
  }

  function HearFrom(ms: seq<Pair>, i: nat, v: Versions): Hello
    requires i <= |ms|
    decreases |ms| - i
  {
    if i == |ms| then
      if v.haveMin && v.haveMax && v.min <= v.max then Hello(v.min, v.max) else NoHello
    else match Hear(v, ms[i]) case Unheard => NoHello case Heard(next) => HearFrom(ms, i + 1, next)
  }

  lemma VersionHeard(t: string, pos: nat, m: Pair, gap: string, v: Versions)
    requires Blank(gap) && StandsAt(t, pos, Render(m.value, gap)) && NumberEnds(t, pos + |Render(m.value, gap)|)
    ensures var o := Hear(v, m);
            pos <= |t| && ReadVersion(t, pos, Masked(m.key), v) ==
            if o.Unheard? then BadHello else GoodHello(o.versions, pos + |Render(m.value, gap)|)
  {
    hide StandsAt, Render, SkipValue, Uint64At, Height, Blank;
    StandsInside(t, pos, Render(m.value, gap));
    NumberReads(t, pos, m.value, gap);
    ValueScans(t, pos, m.value, gap, 1);
    assert "minVersion"[1] != "maxVersion"[1];
  }

  lemma HelloStep(t: string, pos: nat, v: Versions, k: nat, key: string)
    requires pos <= |t| && SkipKey(t, pos) == End(k) && k <= |t| && StringAt(t, pos).Text? && StringAt(t, pos).value == key
    ensures var f := ReadVersion(t, k, key, v);
            HelloMembers(t, pos, v) ==
            if f.BadHello? then NoHello
            else var turn := AfterElement(t, f.end, '}');
                 if turn.More? then HelloMembers(t, turn.pos, f.versions)
                 else if turn.result.Reject? then NoHello
                 else FinishHello(t, turn.result.pos, f.versions)
  {
    hide SkipKey, ReadVersion, AfterElement, StringAt, FinishHello;
  }

  lemma FinishAtEnd(t: string, v: Versions)
    ensures FinishHello(t, |t|, v) == HearFrom([], 0, v)
  {
    assert SkipWs(t, |t|) == |t|;
  }

  lemma NoMore(ms: seq<Pair>, v: Versions)
    ensures HearFrom(ms, |ms|, v) == HearFrom([], 0, v)
  {
  }

  lemma MemberHeard(t: string, pos: nat, o: Json, i: nat, gap: string, v: Versions)
    requires o.Obj? && i < |o.members| && Blank(gap) && StandsAt(t, pos, RenderFrom(o, i, gap))
    ensures var e := pos + |KeyText(o, i, gap)| + |Render(o.members[i].value, gap)|;
            var h := Hear(v, o.members[i]);
            && e <= |t| && pos <= |t|
            && HelloMembers(t, pos, v) ==
               if h.Unheard? then NoHello
               else var turn := AfterElement(t, e, '}');
                    if turn.More? then HelloMembers(t, turn.pos, h.versions)
                    else if turn.result.Reject? then NoHello
                    else FinishHello(t, turn.result.pos, h.versions)
  {
    hide StandsAt, RenderFrom, Render, KeyText, SkipKey, ReadVersion, AfterElement, StringAt, HelloMembers, FinishHello, Hear,
         Blank, NumberEnds;
    var m := o.members[i];
    var k := pos + |KeyText(o, i, gap)|;
    MemberStands(t, pos, o, i, gap);
    KeyValue(t, pos, o, i, gap);
    VersionHeard(t, k, m, gap, v);
    HelloStep(t, pos, v, k, Masked(m.key));
  }

  lemma {:induction false} MembersHeard(t: string, pos: nat, o: Json, i: nat, gap: string, v: Versions)
    requires o.Obj? && i < |o.members| && Blank(gap) && StandsAt(t, pos, RenderFrom(o, i, gap))
    requires pos + |RenderFrom(o, i, gap)| == |t|
    ensures pos <= |t| && HelloMembers(t, pos, v) == HearFrom(o.members, i, v)
    decreases |o.members| - i
  {
    hide StandsAt, RenderFrom, Render, KeyText, SkipKey, ReadVersion, AfterElement, StringAt, HelloMembers, FinishHello, Hear,
         Blank, NumberEnds;
    var e := pos + |KeyText(o, i, gap)| + |Render(o.members[i].value, gap)|;
    MemberStands(t, pos, o, i, gap);
    MemberHeard(t, pos, o, i, gap, v);
    var h := Hear(v, o.members[i]);
    if h.Heard? {
      if i + 1 == |o.members| {
        FinishAtEnd(t, h.versions);
        NoMore(o.members, h.versions);
      } else {
        MembersHeard(t, e + |gap| + 1 + |gap|, o, i + 1, gap, h.versions);
      }
    }
  }

  lemma HelloEnters(t: string, p: nat)
    requires |t| > 0 && t[0] == '{' && SkipWs(t, 1) == p && p < |t|
    ensures HelloOf(t) == if t[p] == '}' then NoHello else HelloMembers(t, p, NO_VERSIONS)
  {
    hide HelloMembers;
    assert SkipWs(t, 0) == 0;
  }

  /** On every JSON object the parsed range is that of the fold. */
  lemma HelloIsFold(ms: seq<Pair>, gap: string)
    requires Blank(gap)
    ensures HelloOf(Render(Obj(ms), gap)) == HearFrom(ms, 0, NO_VERSIONS)
  {
    hide StandsAt, Render, RenderFrom, HelloMembers, HelloOf, Blank, SkipWs, Hear;
    var o := Obj(ms);
    var t := Render(o, gap);
    WholeStandsThere(t);
    ContainerStands(t, 0, o, gap);
    HelloEnters(t, 1 + |gap|);
    if ms != [] { MembersHeard(t, 1 + |gap|, o, 0, gap, NO_VERSIONS); }
  }
}
