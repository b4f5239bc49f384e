/** Which JSON texts are accepted: every value, printed with any white space between its
    tokens, is scanned to exactly its end by both scanners, as long as it is not nested
    too deeply, and refused otherwise. */
module JsonValues {
  import opened Decimal
  import opened JsonText
  import opened JsonStrings
  import S = SessionScanner
  import D = DispatchReader

  datatype Json =
    | Null
    | Bool(b: bool)
    | Int(n: int)
    | Str(s: string)
    | Arr(items: seq<Json>)
    | Obj(members: seq<Pair>)

  datatype Pair = Pair(key: string, value: Json)

  function Count(v: Json): nat {
    match v case Arr(items) => |items| case Obj(members) => |members| case _ => 0
  }

  function Child(v: Json, i: nat): (c: Json)
    requires i < Count(v)
    ensures c < v
  {
    match v case Arr(items) => items[i] case Obj(members) => members[i].value
  }

  /** How many containers are nested in a value around something. */
  function Height(v: Json): nat
    decreases v, Count(v) + 1
  {
    if Count(v) == 0 then 0 else 1 + HeightFrom(v, 0)
  }

  function HeightFrom(v: Json, i: nat): nat
    requires i <= Count(v)
    decreases v, Count(v) - i
  {
    if i == Count(v) then 0
    else if Height(Child(v, i)) >= HeightFrom(v, i + 1) then Height(Child(v, i)) else HeightFrom(v, i + 1)
  }

  // ---------------------------------------------------------------- printing

  predicate Blank(gap: string) { forall i :: 0 <= i < |gap| ==> IsSpace(gap[i]) }

  /** A value with `gap` between any two tokens inside it. */
  function Render(v: Json, gap: string): (s: string)
    ensures s != ""
    decreases v, Count(v) + 1
  {
    match v
    case Null => "null"
    case Bool(b) => if b then "true" else "false"
    case Int(n) => PrintInt(n)
    case Str(s) => Quoted(s)
    case Arr(items) => "[" + (gap + if items == [] then "]" else RenderFrom(v, 0, gap))
    case Obj(members) => "{" + (gap + if members == [] then "}" else RenderFrom(v, 0, gap))
  }

  function Close(v: Json): string { if v.Arr? then "]" else "}" }

  /** The elements or members from the `i`-th on, and the closing bracket. */
  function RenderFrom(v: Json, i: nat, gap: string): (s: string)
    requires i < Count(v)
    ensures s != ""
    decreases v, Count(v) - i
  {
    KeyText(v, i, gap) + (Render(Child(v, i), gap) + (gap +
      if i + 1 == Count(v) then Close(v) else "," + (gap + RenderFrom(v, i + 1, gap))))
  }

  function KeyText(v: Json, i: nat, gap: string): string
    requires i < Count(v)
  {
    if v.Obj? then Quoted(v.members[i].key) + (gap + (":" + gap)) else ""
  }

  // ---------------------------------------------------------------- tokens

  /** A text may be followed by anything that does not go on with a number. */
  predicate NumberEnds(t: string, e: nat) {
    e < |t| ==> !IsDigit(t[e]) && t[e] != '.' && t[e] != 'e' && t[e] != 'E'
  }

  lemma Starts(v: Json, gap: string)
    ensures var c := Render(v, gap)[0]; !IsSpace(c) && c != ']' && c != '}' && c != ','
    ensures !v.Arr? && !v.Obj? ==> Render(v, gap)[0] != '[' && Render(v, gap)[0] != '{'
  {
    if v.Int? { assert IsDigit(Print(if v.n < 0 then -v.n else v.n)[0]); }
  }

  lemma GapSkipped(t: string, pos: nat, gap: string)
    requires Blank(gap) && StandsAt(t, pos, gap) && pos + |gap| < |t| && !IsSpace(t[pos + |gap|])
    ensures SkipWs(t, pos) == pos + |gap|
  {
    forall i | pos <= i < pos + |gap| ensures IsSpace(t[i]) { CharOf(t, pos, gap, i - pos); }
    SkipWsAll(t, pos, pos + |gap|);
  }

  /** White space and a token's first character behind it. */
  lemma TokenAhead(t: string, pos: nat, gap: string, rest: string)
    requires Blank(gap) && rest != "" && !IsSpace(rest[0]) && StandsAt(t, pos, gap + rest)
    ensures pos <= |t| && SkipWs(t, pos) == pos + |gap| && StandsAt(t, pos + |gap|, rest) && t[pos + |gap|] == rest[0]
  {
    StandsSplit(t, pos, gap, rest);
    CharOf(t, pos + |gap|, rest, 0);
    GapSkipped(t, pos, gap);
  }

  lemma IntScans(t: string, pos: nat, n: int)
    requires StandsAt(t, pos, PrintInt(n)) && NumberEnds(t, pos + |PrintInt(n)|)
    ensures D.SkipNumber(t, pos) == End(pos + |PrintInt(n)|) && S.SkipNumber(t, pos) == End(pos + |PrintInt(n)|)
  {
    var m: nat := if n < 0 then -n else n;
    var p, e := if n < 0 then pos + 1 else pos, pos + |PrintInt(n)|;
    if n < 0 {
      StandsSplit(t, pos, "-", Print(m));
      CharOf(t, pos, "-", 0);
    }
    CharOf(t, p, Print(m), 0);
    PrintFirst(m);
    assert t[p..e] == Print(m);
    RunEnds(t, p, e);
    TailEnds(t, e);
    if m == 0 { assert Print(m) == ['0']; }
    hide SkipNumberTail;
  }

  lemma TailEnds(t: string, e: nat)
    requires e <= |t| && NumberEnds(t, e)
    ensures SkipNumberTail(t, e) == End(e)
  {
  }

  /** A quoted string ends at its closing quote, for the session too. */
  lemma {:induction false} SessionEscapeEnds(t: string, pos: nat, s: string)
    requires StandsAt(t, pos, Escape(s) + ['"'])
    ensures pos <= |t| && S.StringRest(t, pos).Text? && S.StringRest(t, pos).end == pos + |Escape(s)| + 1
    decreases |s|
  {
    hide S.StringRest, StandsAt, EscapeChar;
    StandsInside(t, pos, Escape(s) + ['"']);
    if s == "" {
      StandsSplit(t, pos, Escape(s), ['"']);
      CharOf(t, pos, ['"'], 0);
      SessionQuoteEnds(t, pos);
    } else {
      var c, tail := EscapeChar(s[0]), Escape(s[1..]) + ['"'];
      assert Escape(s) + ['"'] == c + tail;
      StandsSplit(t, pos, c, tail);
      SessionEscapeEnds(t, pos + |c|, s[1..]);
      SessionCharPasses(t, pos, s[0]);
    }
  }

  lemma SessionQuoteEnds(t: string, pos: nat)
    requires pos < |t| && t[pos] == '"'
    ensures S.StringRest(t, pos) == S.Text("", pos + 1)
  {
  }

  lemma SessionCharPasses(t: string, pos: nat, c: char)
    requires StandsAt(t, pos, EscapeChar(c)) && S.StringRest(t, pos + |EscapeChar(c)|).Text?
    ensures S.StringRest(t, pos).Text? && S.StringRest(t, pos).end == S.StringRest(t, pos + |EscapeChar(c)|).end
  {
    var e := EscapeChar(c);
    CharOf(t, pos, e, 0);
    if |e| == 6 {
      CharOf(t, pos, e, 1); CharOf(t, pos, e, 2); CharOf(t, pos, e, 3); CharOf(t, pos, e, 4); CharOf(t, pos, e, 5);
      assert Hex4At(t, pos + 2);
    } else if |e| == 2 {
      CharOf(t, pos, e, 1);
    }
  }

  lemma QuotedScans(t: string, pos: nat, s: string)
    requires StandsAt(t, pos, Quoted(s))
    ensures D.StringAt(t, pos) == D.Text(s, pos + |Quoted(s)|)
    ensures S.StringAt(t, pos).Text? && S.StringAt(t, pos).end == pos + |Quoted(s)|
  {
    assert Quoted(s) == ['"'] + (Escape(s) + ['"']);
    StandsSplit(t, pos, ['"'], Escape(s) + ['"']);
    CharOf(t, pos, ['"'], 0);
    EscapeReads(t, pos + 1, s);
    SessionEscapeEnds(t, pos + 1, s);
    hide Escape, D.StringRest, S.StringRest;
  }

  lemma ScalarScans(t: string, pos: nat, v: Json, gap: string)
    requires !v.Arr? && !v.Obj? && StandsAt(t, pos, Render(v, gap)) && NumberEnds(t, pos + |Render(v, gap)|)
    ensures pos < |t| && D.SkipScalar(t, pos) == End(pos + |Render(v, gap)|)
    ensures S.SkipScalar(t, pos) == End(pos + |Render(v, gap)|)
  {
    hide S.StringRest, D.StringRest, D.SkipNumber, S.SkipNumber, Escape;
    CharOf(t, pos, Render(v, gap), 0);
    match v
    case Int(n) => IntScans(t, pos, n);
    case Str(s) => QuotedScans(t, pos, s); CharOf(t, pos, Quoted(s), 0);
    case _ =>
  }

  // ---------------------------------------------------------------- containers

  /** A value may be nested 16 deep. */
  function Verdict(depth: nat, e: nat): Scan { if depth <= 16 then End(e) else Reject }

  lemma BlankEndsNumber(t: string, e: nat, gap: string, rest: string)
    requires Blank(gap) && rest != "" && (rest[0] == ',' || rest[0] == ']' || rest[0] == '}') && StandsAt(t, e, gap + rest)
    ensures NumberEnds(t, e)
  {
    CharOf(t, e, gap + rest, 0);
  }

  lemma RenderFromStarts(v: Json, i: nat, gap: string)
    requires i < Count(v)
    ensures !IsSpace(RenderFrom(v, i, gap)[0]) && RenderFrom(v, i, gap)[0] != ']' && RenderFrom(v, i, gap)[0] != '}'
  {
    hide Height, HeightFrom;
    Starts(Child(v, i), gap);
    if v.Obj? { assert KeyText(v, i, gap)[0] == '"'; }
  }

  lemma BehindLast(t: string, e: nat, gap: string, close: string)
    requires Blank(gap) && (close == "]" || close == "}") && StandsAt(t, e, gap + close)
    ensures e <= |t| && NumberEnds(t, e) && AfterElement(t, e, close[0]) == Stop(End(e + |gap| + 1))
  {
    hide StandsAt, Blank, SkipWs;
    BlankEndsNumber(t, e, gap, close);
    TokenAhead(t, e, gap, close);
    StandsInside(t, e + |gap|, close);
  }

  lemma BehindMore(t: string, e: nat, gap: string, close: char, rest: string)
    requires Blank(gap) && (close == ']' || close == '}') && rest != "" && !IsSpace(rest[0])
    requires StandsAt(t, e, gap + ("," + (gap + rest)))
    ensures var next := e + |gap| + 1 + |gap|;
            && e <= |t| && NumberEnds(t, e) && AfterElement(t, e, close) == More(next) && StandsAt(t, next, rest)
  {
    hide StandsAt, Blank, SkipWs;
    var more := gap + rest;
    BlankEndsNumber(t, e, gap, "," + more);
    TokenAhead(t, e, gap, "," + more);
    CommaSplits(t, e + |gap|, more);
    TokenAhead(t, e + |gap| + 1, gap, rest);
  }

  lemma CommaSplits(t: string, pos: nat, rest: string)
    requires StandsAt(t, pos, "," + rest)
    ensures pos < |t| && StandsAt(t, pos + 1, rest)
  {
    StandsSplit(t, pos, ",", rest);
  }

  /** What follows an element: the closing bracket, or a comma and the next one. */
  lemma Behind(t: string, e: nat, v: Json, i: nat, gap: string)
    requires i < Count(v) && Blank(gap) && StandsAt(t, e, RestFrom(v, i, gap))
    ensures e <= |t| && NumberEnds(t, e)
    ensures i + 1 == Count(v) ==> AfterElement(t, e, Close(v)[0]) == Stop(End(e + |gap| + 1))
    ensures i + 1 < Count(v) ==>
              var next := e + |gap| + 1 + |gap|;
              AfterElement(t, e, Close(v)[0]) == More(next) && StandsAt(t, next, RenderFrom(v, i + 1, gap))
  {
    hide Height, HeightFrom, StandsAt, RenderFrom, AfterElement, NumberEnds, Blank, IsSpace;
    if i + 1 == Count(v) {
      BehindLast(t, e, gap, Close(v));
    } else {
      RenderFromStarts(v, i + 1, gap);
      BehindMore(t, e, gap, Close(v)[0], RenderFrom(v, i + 1, gap));
    }
  }

  /** Where a key, its colon and the value behind it stand. */
  lemma KeyEnds(t: string, pos: nat, e: nat, c: nat, k: nat)
    requires pos <= |t| && D.StringAt(t, pos).Text? && D.StringAt(t, pos).end == e
    requires S.StringAt(t, pos).Text? && S.StringAt(t, pos).end == e
    requires SkipWs(t, e) == c && c < |t| && t[c] == ':' && SkipWs(t, c + 1) == k
    ensures D.SkipKey(t, pos) == End(k) && S.SkipKey(t, pos) == End(k)
  {
    hide D.StringAt, S.StringAt, SkipWs;
  }

  lemma ColonStands(t: string, e: nat, gap: string, rest: string)
    requires Blank(gap) && rest != "" && !IsSpace(rest[0]) && StandsAt(t, e, gap + (":" + (gap + rest)))
    ensures var c := e + |gap|;
            && e <= |t| && c < |t| && SkipWs(t, e) == c && t[c] == ':'
            && SkipWs(t, c + 1) == c + 1 + |gap| && StandsAt(t, c + 1 + |gap|, rest)
  {
    hide StandsAt, Blank, SkipWs;
    var more := gap + rest;
    TokenAhead(t, e, gap, ":" + more);
    ColonSplits(t, e + |gap|, more);
    TokenAhead(t, e + |gap| + 1, gap, rest);
  }

  lemma ColonSplits(t: string, pos: nat, rest: string)
    requires StandsAt(t, pos, ":" + rest)
    ensures pos < |t| && StandsAt(t, pos + 1, rest)
  {
    StandsSplit(t, pos, ":", rest);
  }

  lemma KeyScans(t: string, pos: nat, v: Json, i: nat, gap: string, rest: string)
    requires v.Obj? && i < Count(v) && Blank(gap) && rest != "" && !IsSpace(rest[0])
    requires StandsAt(t, pos, KeyText(v, i, gap) + rest)
    ensures var k := pos + |KeyText(v, i, gap)|;
            && pos <= |t| && D.SkipKey(t, pos) == End(k) && S.SkipKey(t, pos) == End(k) && StandsAt(t, k, rest)
            && D.StringAt(t, pos) == D.Text(v.members[i].key, pos + |Quoted(v.members[i].key)|)
  {
    hide StandsAt, S.StringAt, D.StringAt, D.SkipKey, S.SkipKey, SkipWs, Quoted, Blank, IsSpace;
    var q := Quoted(v.members[i].key);
    var e := pos + |q|;
    KeyNests(q, gap, rest);
    StandsSplit(t, pos, q, gap + (":" + (gap + rest)));
    QuotedScans(t, pos, v.members[i].key);
    ColonStands(t, e, gap, rest);
    StandsInside(t, pos, q);
    KeyEnds(t, pos, e, e + |gap|, e + |gap| + 1 + |gap|);
  }

  lemma KeyNests(q: string, gap: string, rest: string)
    ensures q + (gap + (":" + gap)) + rest == q + (gap + (":" + (gap + rest)))
  {
  }

  /** Both scanners enter a container at its first token. */
  lemma Enters(t: string, pos: nat, p: nat, depth: nat)
    requires pos < |t| && depth <= MAX_DEPTH && SkipWs(t, pos + 1) == p && p < |t|
    ensures t[pos] == '[' ==>
              && D.SkipValue(t, pos, depth) == (if t[p] == ']' then End(p + 1) else D.SkipElements(t, p, depth + 1))
              && S.SkipValue(t, pos, depth) == (if t[p] == ']' then End(p + 1) else S.SkipElements(t, p, depth))
    ensures t[pos] == '{' ==>
              && D.SkipValue(t, pos, depth) == (if t[p] == '}' then End(p + 1) else D.SkipMembers(t, p, depth + 1))
              && S.SkipValue(t, pos, depth) == (if t[p] == '}' then End(p + 1) else S.SkipMembers(t, p, depth))
  {
    hide S.SkipScalar, D.SkipScalar, S.SkipElements, D.SkipElements, S.SkipMembers, D.SkipMembers;
  }

  lemma TooDeep(t: string, pos: nat, depth: nat)
    requires pos <= |t| && depth > 16
    ensures D.SkipValue(t, pos, depth) == Reject && S.SkipValue(t, pos, depth) == Reject
  {
  }

  lemma ScalarValue(t: string, pos: nat, depth: nat)
    requires pos < |t| && depth <= MAX_DEPTH && t[pos] != '[' && t[pos] != '{' && !IsSpace(t[pos])
    ensures D.SkipValue(t, pos, depth) == D.SkipScalar(t, pos) && S.SkipValue(t, pos, depth) == S.SkipScalar(t, pos)
  {
    hide S.SkipScalar, D.SkipScalar;
  }

  /** Every printed value is scanned to exactly its end by both scanners if it fits the
      depth limit where it stands, and refused by both if it does not. */
  lemma {:induction false} ValueScans(t: string, pos: nat, v: Json, gap: string, depth: nat)
    requires Blank(gap) && StandsAt(t, pos, Render(v, gap)) && NumberEnds(t, pos + |Render(v, gap)|)
    ensures pos <= |t| && D.SkipValue(t, pos, depth) == Verdict(depth + Height(v), pos + |Render(v, gap)|)
    ensures S.SkipValue(t, pos, depth) == Verdict(depth + Height(v), pos + |Render(v, gap)|)
    decreases v, Count(v) + 2
  {
    hide StandsAt, S.SkipValue, D.SkipValue, S.SkipScalar, D.SkipScalar, Render, HeightFrom, Blank, NumberEnds, IsSpace;
    Starts(v, gap);
    StandsInside(t, pos, Render(v, gap));
    CharOf(t, pos, Render(v, gap), 0);
    if depth > 16 {
      TooDeep(t, pos, depth);
    } else if !v.Arr? && !v.Obj? {
      ScalarScans(t, pos, v, gap);
      ScalarValue(t, pos, depth);
    } else {
      ContainerScans(t, pos, v, gap, depth);
    }
  }

  /** A container's text: bracket, white space, and what it holds. */
  lemma ContainerNests(v: Json, gap: string)
    requires v.Arr? || v.Obj?
    ensures Render(v, gap) == (if v.Arr? then "[" else "{") + (gap + if Count(v) == 0 then Close(v) else RenderFrom(v, 0, gap))
  {
  }

  function Inner(v: Json, gap: string): (s: string)
    ensures s != ""
  {
    if Count(v) == 0 then Close(v) else RenderFrom(v, 0, gap)
  }

  lemma ContainerStands(t: string, pos: nat, v: Json, gap: string)
    requires (v.Arr? || v.Obj?) && Blank(gap) && StandsAt(t, pos, Render(v, gap))
    ensures var p := pos + 1 + |gap|;
            && p < |t| && t[pos] == (if v.Arr? then '[' else '{') && SkipWs(t, pos + 1) == p
            && StandsAt(t, p, Inner(v, gap)) && (t[p] == Close(v)[0] <==> Count(v) == 0)
            && |Render(v, gap)| == 1 + |gap| + |Inner(v, gap)|
  {
    hide StandsAt, Render, RenderFrom, Blank, SkipWs;
    var bracket := if v.Arr? then "[" else "{";
    ContainerNests(v, gap);
    StandsSplit(t, pos, bracket, gap + Inner(v, gap));
    CharOf(t, pos, bracket, 0);
    if Count(v) > 0 { RenderFromStarts(v, 0, gap); }
    TokenAhead(t, pos + 1, gap, Inner(v, gap));
    StandsInside(t, pos + 1 + |gap|, Inner(v, gap));
  }

  lemma {:induction false} ContainerScans(t: string, pos: nat, v: Json, gap: string, depth: nat)
    requires (v.Arr? || v.Obj?) && depth <= 16 && Blank(gap) && StandsAt(t, pos, Render(v, gap))
    ensures pos <= |t| && D.SkipValue(t, pos, depth) == Verdict(depth + Height(v), pos + |Render(v, gap)|)
    ensures S.SkipValue(t, pos, depth) == Verdict(depth + Height(v), pos + |Render(v, gap)|)
    decreases v, Count(v) + 1
  {
    hide StandsAt, S.SkipValue, D.SkipValue, S.SkipElements, D.SkipElements, S.SkipMembers, D.SkipMembers, Render, RenderFrom,
         HeightFrom, Blank, SkipWs;
    var p := pos + 1 + |gap|;
    ContainerStands(t, pos, v, gap);
    Enters(t, pos, p, depth);
    if Count(v) > 0 {
      if v.Arr? { ElementsScan(t, p, v, 0, gap, depth); } else { MembersScan(t, p, v, 0, gap, depth); }
    }
  }

  /** One turn of the array loops. */
  lemma ElementTurns(t: string, pos: nat, depth: nat, value: Scan)
    requires pos <= |t| && D.SkipValue(t, pos, depth + 1) == value && S.SkipValue(t, pos, depth + 1) == value
    ensures value.Reject? ==> D.SkipElements(t, pos, depth + 1) == Reject && S.SkipElements(t, pos, depth) == Reject
    ensures value.End? ==>
              var turn := AfterElement(t, value.pos, ']');
              && D.SkipElements(t, pos, depth + 1) ==
                   (if turn.More? then D.SkipElements(t, turn.pos, depth + 1) else turn.result)
              && S.SkipElements(t, pos, depth) == (if turn.More? then S.SkipElements(t, turn.pos, depth) else turn.result)
  {
    hide S.SkipValue, D.SkipValue, AfterElement;
  }

  lemma {:induction false} ElementsScan(t: string, pos: nat, v: Json, i: nat, gap: string, depth: nat)
    requires v.Arr? && i < Count(v) && Blank(gap) && StandsAt(t, pos, RenderFrom(v, i, gap))
    ensures pos <= |t| && D.SkipElements(t, pos, depth + 1) ==
              Verdict(depth + 1 + HeightFrom(v, i), pos + |RenderFrom(v, i, gap)|)
    ensures S.SkipElements(t, pos, depth) == Verdict(depth + 1 + HeightFrom(v, i), pos + |RenderFrom(v, i, gap)|)
    decreases v, Count(v) - i
  {
    hide StandsAt, S.SkipValue, D.SkipValue, S.SkipElements, D.SkipElements, AfterElement, Render, RenderFrom, Height, Blank,
         NumberEnds;
    var x, rest := Render(Child(v, i), gap), RestFrom(v, i, gap);
    ElementNests(v, i, gap);
    StandsSplit(t, pos, x, rest);
    StandsInside(t, pos, x);
    Behind(t, pos + |x|, v, i, gap);
    ValueScans(t, pos, Child(v, i), gap, depth + 1);
    ElementTurns(t, pos, depth, D.SkipValue(t, pos, depth + 1));
    if i + 1 < Count(v) {
      ElementsScan(t, pos + |x| + |gap| + 1 + |gap|, v, i + 1, gap, depth);
    }
  }

  /** What stands behind the `i`-th element. */
  function RestFrom(v: Json, i: nat, gap: string): string
    requires i < Count(v)
  {
    gap + if i + 1 == Count(v) then Close(v) else "," + (gap + RenderFrom(v, i + 1, gap))
  }

  lemma ElementNests(v: Json, i: nat, gap: string)
    requires i < Count(v)
    ensures RenderFrom(v, i, gap) == KeyText(v, i, gap) + (Render(Child(v, i), gap) + RestFrom(v, i, gap))
    ensures v.Arr? ==> RenderFrom(v, i, gap) == Render(Child(v, i), gap) + RestFrom(v, i, gap)
  {
    hide Render;
    var x := Render(Child(v, i), gap) + RestFrom(v, i, gap);
    assert "" + x == x;
  }

  /** One turn of the object loops. */
  lemma MemberTurns(t: string, pos: nat, depth: nat, k: nat, value: Scan)
    requires pos <= |t| && D.SkipKey(t, pos) == End(k) && S.SkipKey(t, pos) == End(k) && k <= |t|
    requires D.SkipValue(t, k, depth + 1) == value && S.SkipValue(t, k, depth + 1) == value
    ensures value.Reject? ==> D.SkipMembers(t, pos, depth + 1) == Reject && S.SkipMembers(t, pos, depth) == Reject
    ensures value.End? ==>
              var turn := AfterElement(t, value.pos, '}');
              && D.SkipMembers(t, pos, depth + 1) ==
                   (if turn.More? then D.SkipMembers(t, turn.pos, depth + 1) else turn.result)
              && S.SkipMembers(t, pos, depth) == (if turn.More? then S.SkipMembers(t, turn.pos, depth) else turn.result)
  {
    hide S.SkipValue, D.SkipValue, S.SkipKey, D.SkipKey, AfterElement;
  }

  lemma {:induction false} MembersScan(t: string, pos: nat, v: Json, i: nat, gap: string, depth: nat)
    requires v.Obj? && i < Count(v) && Blank(gap) && StandsAt(t, pos, RenderFrom(v, i, gap))
    ensures pos <= |t| && D.SkipMembers(t, pos, depth + 1) ==
              Verdict(depth + 1 + HeightFrom(v, i), pos + |RenderFrom(v, i, gap)|)
    ensures S.SkipMembers(t, pos, depth) == Verdict(depth + 1 + HeightFrom(v, i), pos + |RenderFrom(v, i, gap)|)
    decreases v, Count(v) - i
  {
    hide StandsAt, S.SkipValue, D.SkipValue, S.SkipKey, D.SkipKey, S.SkipMembers, D.SkipMembers, AfterElement, Render,
         RenderFrom, Height, KeyText, Blank, NumberEnds, D.StringAt, IsSpace;
    var key, x := KeyText(v, i, gap), Render(Child(v, i), gap);
    var k := pos + |key|;
    MemberStands(t, pos, v, i, gap);
    ValueScans(t, k, Child(v, i), gap, depth + 1);
    MemberTurns(t, pos, depth, k, D.SkipValue(t, k, depth + 1));
    if i + 1 < Count(v) {
      MembersScan(t, k + |x| + |gap| + 1 + |gap|, v, i + 1, gap, depth);
    }
  }

  /** Where the parts of a member stand. */
  lemma MemberStands(t: string, pos: nat, v: Json, i: nat, gap: string)
    requires v.Obj? && i < Count(v) && Blank(gap) && StandsAt(t, pos, RenderFrom(v, i, gap))
    ensures var key, x := KeyText(v, i, gap), Render(Child(v, i), gap);
            var k := pos + |key|;
            && k + |x| <= |t| && D.SkipKey(t, pos) == End(k) && S.SkipKey(t, pos) == End(k)
            && StandsAt(t, k, x) && NumberEnds(t, k + |x|)
            && |RenderFrom(v, i, gap)| == |key| + |x| + |RestFrom(v, i, gap)|
            && (i + 1 == Count(v) ==> AfterElement(t, k + |x|, '}') == Stop(End(k + |x| + |gap| + 1))
                                      && |RestFrom(v, i, gap)| == |gap| + 1)
            && (i + 1 < Count(v) ==>
                  var next := k + |x| + |gap| + 1 + |gap|;
                  && AfterElement(t, k + |x|, '}') == More(next) && StandsAt(t, next, RenderFrom(v, i + 1, gap))
                  && |RestFrom(v, i, gap)| == |gap| + 1 + |gap| + |RenderFrom(v, i + 1, gap)|)
  {
    hide StandsAt, S.SkipKey, D.SkipKey, AfterElement, Render, RenderFrom, KeyText, Blank, NumberEnds, D.StringAt, IsSpace;
    var key, x, rest := KeyText(v, i, gap), Render(Child(v, i), gap), RestFrom(v, i, gap);
    ElementNests(v, i, gap);
    Starts(Child(v, i), gap);
    assert (x + rest)[0] == x[0];
    KeyScans(t, pos, v, i, gap, x + rest);
    StandsSplit(t, pos + |key|, x, rest);
    StandsInside(t, pos + |key|, x);
    Behind(t, pos + |key| + |x|, v, i, gap);
  }

  /** On its own. */
  lemma PrintedScans(v: Json, gap: string, depth: nat)
    requires Blank(gap)
    ensures D.SkipValue(Render(v, gap), 0, depth) == Verdict(depth + Height(v), |Render(v, gap)|)
    ensures S.SkipValue(Render(v, gap), 0, depth) == Verdict(depth + Height(v), |Render(v, gap)|)
  {
    hide S.SkipValue, D.SkipValue, Render, Height;
    var t := Render(v, gap);
    assert t[0..0 + |t|] == t;
    ValueScans(t, 0, v, gap, depth);
  }
}
