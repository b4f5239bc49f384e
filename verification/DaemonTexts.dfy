/** What the daemon has to say, as text: the outcome of an operation, a snapshot, and a set
    of changes; and that a client reads exactly that. */
module DaemonTexts {
  import opened Decimal
  import opened JsonText
  import opened JsonStrings
  import opened JsonValues
  import opened Embedding
  import opened JsonObjects
  import opened Requests
  import opened Sessions
  import opened ReplyTexts
  import opened Events
  import JA = JsonAgreement

  // ---------------------------------------------------------------- operations

  datatype Outcome = Done(status: nat, result: string) | Failed(status: nat, code: string, message: string)

  /** The text behind the request's id; messages are escaped, codes are constants. */
  function TailOf(o: Outcome): (s: string)
    ensures s != "" && s[0] == ','
  {
    match o
    case Done(status, result) => "," + Entries([Entry("status", Print(status)), Entry("result", result)])
    case Failed(status, code, message) =>
      "," + Entries([Entry("status", Print(status)), Entry("error", ObjectText(Complaint(code, message)))])
  }

  /** Status and result, or status, code and message, read back from the response. */
  lemma OutcomeReads(id: nat, o: Outcome)
    requires o.Done? ==> Whole(o.result, 0)
    ensures var t := ResponseText(id, TailOf(o));
            && MemberText(t, "requestId") == Found(Print(id)) && MemberText(t, "status") == Found(Print(o.status))
            && (o.Done? ==> MemberText(t, "result") == Found(o.result))
            && (o.Failed? ==> && MemberText(t, "error").Found?
                              && ReadString(MemberText(t, "error").text, "code").Text?
                              && ReadString(MemberText(t, "error").text, "code").value == o.code
                              && ReadString(MemberText(t, "error").text, "message").Text?
                              && ReadString(MemberText(t, "error").text, "message").value == o.message)
  {
    hide Print, Entries, Whole, MemberText, ReadString, ResponseText, ObjectText, Complaint;
    if o.Done? {
      ResponseReads(id, o.status, "result", o.result);
    } else {
      ComplaintReads(o.code, o.message, 0);
      ResponseReads(id, o.status, "error", ObjectText(Complaint(o.code, o.message)));
    }
  }

  // ---------------------------------------------------------------- snapshots

  /** The snapshot inside a response, as a client digs it out. */
  function SnapshotText(t: string): Found {
    match MemberText(t, "result") case NotFound => NotFound case Found(inner) => MemberText(inner, "snapshot")
  }

  lemma ResultKeys()
    ensures PlainText(GENERATION_FIELD) && PlainText(WATERMARK_FIELD) && PlainText("snapshot")
    ensures |GENERATION_FIELD| == 10 && |WATERMARK_FIELD| == 11 && |"snapshot"| == 8
  {
  }

  lemma ResultGood(es: seq<Entry>, depth: nat)
    requires |es| == 3 && GoodEntry(es[0], depth) && GoodEntry(es[1], depth) && GoodEntry(es[2], depth)
    requires |es[0].key| == 10 && |es[1].key| == 11 && |es[2].key| == 8
    ensures GoodEntries(es, depth) && Distinct(es)
  {
    hide GoodEntry;
  }

  /** From a snapshot response a client reads the request's id, the generation, the
      watermark, and exactly the snapshot that was printed. */
  lemma SnapshotMembersRead(id: nat, generation: nat, watermark: nat, snapshot: string)
    requires Whole(snapshot, 1)
    ensures var t := ResponseText(id, SnapshotTail(generation, watermark, snapshot));
            && MemberText(t, "requestId") == Found(Print(id)) && MemberText(t, "status") == Found("200")
            && MemberText(t, "result").Found?
            && MemberText(MemberText(t, "result").text, "generation") == Found(Print(generation))
            && MemberText(MemberText(t, "result").text, "snapshotSeq") == Found(Print(watermark))
            && SnapshotText(t) == Found(snapshot)
  {
    hide Print, Entries, Whole, MemberText, ResponseText, ObjectText, PlainText, SnapshotTail;
    var es := ResultEntries(generation, watermark, snapshot);
    ResultKeys();
    NumberWhole(generation, 1);
    NumberWhole(watermark, 1);
    NumberWhole(generation, 0);
    NumberWhole(watermark, 0);
    WholeHigher(snapshot);
    ResultGood(es, 1);
    ResultGood(es, 0);
    ObjectWhole(es, 0);
    SnapshotIsObject(generation, watermark, snapshot);
    PrintHundreds();
    ResponseReads(id, 200, "result", ObjectText(es));
    EntryFound(es, 0);
    EntryFound(es, 1);
    EntryFound(es, 2);
  }

  lemma WholeHigher(v: string)
    requires Whole(v, 1)
    ensures Whole(v, 0)
  {
    JA.DepthMonotone(v, 0, 0);
  }

  // ---------------------------------------------------------------- changes

  /** Which parts of the network state changed. */
  datatype Changes = Changes(eth: bool, wifi: bool, route: bool, dns: bool)

  predicate Any(c: Changes) { c.eth || c.wifi || c.route || c.dns }

  function ChangedNames(c: Changes): (names: seq<string>)
    ensures "eth" in names <==> c.eth
    ensures "wifi" in names <==> c.wifi
    ensures "route" in names <==> c.route
    ensures "dns" in names <==> c.dns
  {
    assert |"eth"| == 3 && |"wifi"| == 4 && |"route"| == 5 && |"dns"| == 3 && "eth"[0] != "dns"[0];
    (if c.eth then ["eth"] else []) + (if c.wifi then ["wifi"] else []) + (if c.route then ["route"] else []) +
    (if c.dns then ["dns"] else [])
  }

  function Strings(names: seq<string>): (items: seq<Json>)
    ensures |items| == |names| && forall i :: 0 <= i < |items| ==> items[i] == Str(names[i])
  {
    seq(|names|, i requires 0 <= i < |names| => Str(names[i]))
  }

  function ChangesText(c: Changes): string {
    Render(Obj([Pair("changed", Arr(Strings(ChangedNames(c))))]), "")
  }

  lemma {:induction false} FlatHeight(v: Json, i: nat)
    requires v.Arr? && i <= |v.items| && forall k :: 0 <= k < |v.items| ==> v.items[k].Str?
    ensures HeightFrom(v, i) == 0
    decreases |v.items| - i
  {
    if i < |v.items| { FlatHeight(v, i + 1); }
  }

  /** The printed changes are a whole value. */
  lemma ChangesWhole(c: Changes)
    ensures Whole(ChangesText(c), 0)
  {
    hide Render, ChangedNames;
    var inner := Arr(Strings(ChangedNames(c)));
    var v := Obj([Pair("changed", inner)]);
    FlatHeight(inner, 0);
    assert HeightFrom(v, 1) == 0;
    assert HeightFrom(v, 0) == Height(inner);
    PrintedScans(v, "", 0);
  }

  lemma EmptyWhole()
    ensures Whole("{}", 0)
  {
    PrintedScans(Obj([]), "", 0);
    assert Render(Obj([]), "") == "{}";
  }
}
