/** A client's HELLO reads back as the version range it offers, and decides readiness. */
module Handshake {
  import opened Codec
  import opened Decimal
  import opened JsonText
  import opened SessionScanner
  import opened Requests
  import opened RequestRoundTrip
  import opened Sessions

  /** A version range as a client prints it. */
  function HelloText(min: nat, max: nat): string {
    "{" + (Quoted(KEY_MIN) + (Print(min) + ("," + (Quoted(KEY_MAX) + (Print(max) + "}")))))
  }

  function Quoted(key: string): string { "\"" + (key + "\"") + ":" }

  lemma VersionMember(t: string, pos: nat, key: string, n: nat, v: Versions, v': Versions)
    requires key == KEY_MIN || key == KEY_MAX
    requires n <= UINT64_MAX && StandsAt(t, pos, Quoted(key)) && StandsAt(t, pos + 13, Print(n))
    requires pos + 13 + |Print(n)| < |t| && !IsDigit(t[pos + 13 + |Print(n)|])
    requires v' == if key == KEY_MIN then v.(min := n, haveMin := true) else v.(max := n, haveMax := true)
    requires if key == KEY_MIN then !v.haveMin else !v.haveMax
    ensures SkipKey(t, pos) == End(pos + 13) && StringAt(t, pos).value == key
    ensures ReadVersion(t, pos + 13, key, v) == GoodHello(v', pos + 13 + |Print(n)|)
  {
    assert |key| == 10 && PlainText(key);
    CharOf(t, pos + 13, Print(n), 0);
    KeyReads(t, pos, key);
    PrintReadsBack(t, pos + 13, n);
    assert KEY_MIN[1] != KEY_MAX[1];
  }

  lemma HelloPieces(min: nat, max: nat)
    ensures var t, e := HelloText(min, max), 14 + |Print(min)|;
            && StandsAt(t, 0, "{") && StandsAt(t, 1, Quoted(KEY_MIN)) && StandsAt(t, 14, Print(min))
            && StandsAt(t, e, ",") && StandsAt(t, e + 1, Quoted(KEY_MAX)) && StandsAt(t, e + 14, Print(max))
            && StandsAt(t, e + 14 + |Print(max)|, "}") && |t| == e + 15 + |Print(max)|
  {
    var t, e := HelloText(min, max), 14 + |Print(min)|;
    assert |Quoted(KEY_MIN)| == 13 && |Quoted(KEY_MAX)| == 13;
    assert t[0..] == t;
    hide StandsAt, Quoted, Print;
    FourPieces(t, 0, "{", Quoted(KEY_MIN), Print(min), ",", Quoted(KEY_MAX) + (Print(max) + "}"));
    Peel(t, e + 1, Quoted(KEY_MAX), Print(max) + "}");
    Peel(t, e + 14, Print(max), "}");
  }

  /** The parsed range is the printed one, unless it is upside down. */
  lemma HelloReadsBack(min: nat, max: nat)
    requires min <= UINT64_MAX && max <= UINT64_MAX
    ensures HelloOf(HelloText(min, max)) == if min <= max then Hello(min, max) else NoHello
  {
    var t, e := HelloText(min, max), 14 + |Print(min)|;
    HelloPieces(min, max);
    var one := NO_VERSIONS.(min := min, haveMin := true);
    var two := one.(max := max, haveMax := true);
    hide StandsAt, HelloText, Print, SkipKey, ReadVersion, StringAt;
    CharOf(t, 0, "{", 0);
    CharOf(t, 1, Quoted(KEY_MIN), 0);
    CharOf(t, e, ",", 0);
    CharOf(t, e + 1, Quoted(KEY_MAX), 0);
    CharOf(t, e + 14 + |Print(max)|, "}", 0);
    VersionMember(t, 1, KEY_MIN, min, NO_VERSIONS, one);
    VersionMember(t, e + 1, KEY_MAX, max, one, two);
    assert SkipWs(t, 0) == 0 && SkipWs(t, 1) == 1;
    assert AfterElement(t, e, '}') == More(e + 1);
    assert AfterElement(t, e + 14 + |Print(max)|, '}') == Stop(End(|t|));
    assert HelloMembers(t, 1, NO_VERSIONS) == HelloMembers(t, e + 1, one);
    assert HelloMembers(t, e + 1, one) == FinishHello(t, |t|, two);
  }

  /** A fresh session becomes ready exactly for a range that contains the one version
      the service speaks. */
  lemma HelloNegotiates(s: Session, min: nat, max: nat)
    requires s.state == AwaitHello && min <= UINT64_MAX && max <= UINT64_MAX
    ensures HandleFrame(s, Frame(HELLO, HelloText(min, max))).0.state ==
            if min <= PROTOCOL_VERSION <= max then Ready else Closed
  {
    HelloReadsBack(min, max);
    hide HelloOf, HelloText;
  }
}
