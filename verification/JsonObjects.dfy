/** Objects printed member by member, with any whole values: the dispatcher's lookup finds
    under each key exactly the text that was printed for it. */
module JsonObjects {
  import opened Decimal
  import opened JsonText
  import opened DispatchReader
  import opened JsonStrings
  import opened JsonValues
  import opened Embedding
  import Requests

  /** A member name as it stands in front of its value. */
  function Label(key: string): string { "\"" + key + "\":" }

  datatype Entry = Entry(key: string, text: string)

  /** Members from the first on, and the closing brace. */
  function Entries(es: seq<Entry>): (s: string)
    requires es != []
    ensures s != ""
  {
    Label(es[0].key) + (es[0].text + if |es| == 1 then "}" else "," + Entries(es[1..]))
  }

  function ObjectText(es: seq<Entry>): string
    requires es != []
  {
    "{" + Entries(es)
  }

  function InQuotes(s: string): string { "\"" + s + "\"" }

  function EntriesSize(es: seq<Entry>): nat {
    if es == [] then 0 else |es[0].key| + |es[0].text| + 4 + EntriesSize(es[1..])
  }

  lemma {:induction false} EntriesLength(es: seq<Entry>)
    requires es != []
    ensures |Entries(es)| == EntriesSize(es)
  {
    if |es| > 1 { EntriesLength(es[1..]); }
  }

  lemma SizeStep(es: seq<Entry>)
    requires es != []
    ensures EntriesSize(es) == |es[0].key| + |es[0].text| + 4 + EntriesSize(es[1..])
  {
  }

  lemma SizeTwo(es: seq<Entry>)
    requires |es| == 2
    ensures EntriesSize(es) == |es[0].key| + |es[0].text| + |es[1].key| + |es[1].text| + 8
  {
    SizeStep(es);
    SizeStep(es[1..]);
    assert es[1..][1..] == [];
  }

  predicate GoodEntry(e: Entry, depth: nat) { Requests.PlainText(e.key) && Whole(e.text, depth) }

  predicate GoodEntries(es: seq<Entry>, depth: nat) { forall i :: 0 <= i < |es| ==> GoodEntry(es[i], depth) }

  // ---------------------------------------------------------------- tokens

  lemma {:induction false} PlainEscape(s: string)
    requires Requests.PlainText(s)
    ensures Escape(s) == s
  {
    if s != "" {
      PlainEscape(s[1..]);
      assert [s[0]] + s[1..] == s;
    }
  }

  lemma WholeStarts(v: string, depth: nat)
    requires Whole(v, depth)
    ensures !IsSpace(v[0])
  {
    hide SkipObject, SkipArray, StringRest, SkipNumberTail;
  }

  lemma LabelReads(t: string, pos: nat, key: string, rest: string)
    requires Requests.PlainText(key) && rest != "" && !IsSpace(rest[0]) && StandsAt(t, pos, Label(key) + rest)
    ensures var k := pos + |Label(key)|;
            && pos <= |t| && SkipKey(t, pos) == End(k) && StandsAt(t, k, rest)
            && StringAt(t, pos).Text? && StringAt(t, pos).value == key
  {
    hide StandsAt, SkipKey, StringAt, KeyText, Label;
    LabelIsKey(key);
    KeyScans(t, pos, Obj([Pair(key, Null)]), 0, "", rest);
  }

  lemma LabelIsKey(key: string)
    requires Requests.PlainText(key)
    ensures KeyText(Obj([Pair(key, Null)]), 0, "") == Label(key)
  {
    PlainEscape(key);
  }

  // ---------------------------------------------------------------- reading members

  /** Where the members of a printed object stand. */
  function Listed(es: seq<Entry>, pos: nat): (l: seq<Member>)
    ensures |l| == |es| && forall i :: 0 <= i < |l| ==> l[i].key == es[i].key
  {
    if es == [] then []
    else
      var b := pos + |Label(es[0].key)|;
      [Member(es[0].key, b, b + |es[0].text|)] + Listed(es[1..], b + |es[0].text| + 1)
  }

  function Behind1(es: seq<Entry>): (s: string)
    requires es != []
    ensures s != ""
  {
    if |es| == 1 then "}" else "," + Entries(es[1..])
  }

  lemma EntriesStart(es: seq<Entry>)
    requires es != []
    ensures Entries(es)[0] == '"' && Entries(es) == Label(es[0].key) + (es[0].text + Behind1(es))
  {
  }

  /** One member: its key, its value and what follows. */
  lemma EntryStands(t: string, pos: nat, es: seq<Entry>, depth: nat)
    requires es != [] && GoodEntry(es[0], depth) && StandsAt(t, pos, Entries(es))
    ensures var k := pos + |Label(es[0].key)|;
            var e := k + |es[0].text|;
            && pos <= |t| && SkipKey(t, pos) == End(k) && StringAt(t, pos).Text? && StringAt(t, pos).value == es[0].key
            && e < |t| && SkipValue(t, k, depth) == End(e) && t[k..e] == es[0].text
            && (|es| == 1 ==> AfterElement(t, e, '}') == Stop(End(e + 1)) && pos + |Entries(es)| == e + 1)
            && (|es| > 1 ==> AfterElement(t, e, '}') == JsonText.More(e + 1) && StandsAt(t, e + 1, Entries(es[1..]))
                             && |Entries(es)| == e + 1 - pos + |Entries(es[1..])|)
  {
    hide SkipKey, StringAt, SkipValue, AfterElement, Whole, Entries, NumberEnds, IsSpace, Requests.PlainText;
    var x, rest := es[0].text, Behind1(es);
    var k := pos + |Label(es[0].key)|;
    EntriesStart(es);
    WholeStarts(x, depth);
    WholeIsSomething(x, depth);
    assert (x + rest)[0] == x[0];
    LabelReads(t, pos, es[0].key, x + rest);
    StandsSplit(t, k, x, rest);
    FollowsEntry(t, k + |x|, es);
    WholeStands(t, k, x, depth);
  }

  lemma WholeIsSomething(v: string, depth: nat)
    requires Whole(v, depth)
    ensures v != ""
  {
  }

  lemma FollowsEntry(t: string, e: nat, es: seq<Entry>)
    requires es != [] && StandsAt(t, e, Behind1(es))
    ensures e < |t| && NumberEnds(t, e)
    ensures |es| == 1 ==> AfterElement(t, e, '}') == Stop(End(e + 1))
    ensures |es| > 1 ==> AfterElement(t, e, '}') == JsonText.More(e + 1) && StandsAt(t, e + 1, Entries(es[1..]))
  {
    CharOf(t, e, Behind1(es), 0);
    if |es| > 1 {
      EntriesStart(es[1..]);
      hide Entries;
      StandsSplit(t, e, ",", Entries(es[1..]));
      CharOf(t, e + 1, Entries(es[1..]), 0);
    }
  }

  lemma FromIs(t: string, pos: nat, k: nat, v: nat, key: string)
    requires pos <= |t| && SkipKey(t, pos) == End(k) && k <= |t| && SkipValue(t, k, 0) == End(v)
    requires StringAt(t, pos).Text? && StringAt(t, pos).value == key
    ensures AfterElement(t, v, '}').More? ==>
              var r := MembersFrom(t, AfterElement(t, v, '}').pos);
              MembersFrom(t, pos) ==
              (if r.Malformed? then Malformed else Members([Member(key, k, v)] + r.list, r.end))
    ensures AfterElement(t, v, '}').Stop? && AfterElement(t, v, '}').result.End? ==>
              MembersFrom(t, pos) == Members([Member(key, k, v)], AfterElement(t, v, '}').result.pos)
  {
    hide SkipKey, SkipValue, StringAt, AfterElement;
  }

  lemma {:induction false} EntriesRead(t: string, pos: nat, es: seq<Entry>)
    requires es != [] && GoodEntries(es, 0) && StandsAt(t, pos, Entries(es))
    ensures pos <= |t| && MembersFrom(t, pos) == Members(Listed(es, pos), pos + |Entries(es)|)
    decreases |es|
  {
    hide SkipKey, StringAt, SkipValue, AfterElement, GoodEntry, Entries, MembersFrom, StandsAt;
    var k := pos + |Label(es[0].key)|;
    var e := k + |es[0].text|;
    assert GoodEntry(es[0], 0);
    EntryStands(t, pos, es, 0);
    FromIs(t, pos, k, e, es[0].key);
    if |es| > 1 {
      assert GoodEntries(es[1..], 0);
      EntriesRead(t, e + 1, es[1..]);
    } else {
      assert es[1..] == [];
    }
  }

  lemma ObjectStands(es: seq<Entry>)
    requires es != []
    ensures var t := ObjectText(es);
            |t| == 1 + |Entries(es)| && t[0] == '{' && t[1] == '"' && StandsAt(t, 1, Entries(es))
  {
    var t := ObjectText(es);
    EntriesStart(es);
    hide Entries;
    assert t[1..1 + |Entries(es)|] == Entries(es) && t[1] == Entries(es)[0];
  }

  lemma OuterIs(t: string)
    requires |t| > 1 && t[0] == '{' && t[1] == '"'
    requires MembersFrom(t, 1).Members? && MembersFrom(t, 1).end == |t|
    ensures ObjectMembers(t) == MembersFrom(t, 1)
  {
    hide MembersFrom;
    assert SkipWs(t, 0) == 0 && SkipWs(t, 1) == 1 && SkipWs(t, |t|) == |t|;
  }

  lemma ObjectReads(es: seq<Entry>)
    requires es != [] && GoodEntries(es, 0)
    ensures ObjectMembers(ObjectText(es)) == Members(Listed(es, 1), |ObjectText(es)|)
  {
    hide GoodEntries, MembersFrom, Entries, ObjectMembers, ObjectText, StandsAt, Listed;
    ObjectStands(es);
    EntriesRead(ObjectText(es), 1, es);
    OuterIs(ObjectText(es));
  }

  predicate Distinct(es: seq<Entry>) { forall i, j :: 0 <= i < j < |es| ==> es[i].key != es[j].key }

  lemma {:induction false} NamedNone(list: seq<Member>, key: string)
    requires forall i :: 0 <= i < |list| ==> list[i].key != key
    ensures Named(list, key) == []
  {
    if list != [] { NamedNone(list[1..], key); }
  }

  lemma {:induction false} NamedOne(list: seq<Member>, i: nat)
    requires i < |list| && forall a, b :: 0 <= a < b < |list| ==> list[a].key != list[b].key
    ensures Named(list, list[i].key) == [list[i]]
  {
    if i == 0 {
      NamedNone(list[1..], list[0].key);
    } else {
      NamedOne(list[1..], i - 1);
      assert list[0].key != list[i].key;
    }
  }

  lemma {:induction false} ListedSpan(t: string, pos: nat, es: seq<Entry>, i: nat)
    requires es != [] && i < |es| && StandsAt(t, pos, Entries(es))
    ensures var m := Listed(es, pos)[i]; m.begin <= m.end <= |t| && t[m.begin..m.end] == es[i].text
    decreases |es|
  {
    hide Entries, StandsAt, Label, Behind1;
    var l, x, rest := Label(es[0].key), es[0].text, Behind1(es);
    EntriesStart(es);
    StandsSplit(t, pos, l, x + rest);
    StandsSplit(t, pos + |l|, x, rest);
    StandsText(t, pos + |l|, x);
    if i > 0 {
      FollowsEntry(t, pos + |l| + |x|, es);
      ListedSpan(t, pos + |l| + |x| + 1, es[1..], i - 1);
    }
  }

  lemma StandsText(t: string, pos: nat, x: string)
    requires StandsAt(t, pos, x)
    ensures pos + |x| <= |t| && t[pos..pos + |x|] == x
  {
  }

  datatype Found = NotFound | Found(text: string)

  /** The dispatcher's lookup, with the text it hands on. */
  function MemberText(t: string, key: string): Found {
    match UniqueMember(t, key)
    case Absent => NotFound
    case Span(b, e) => if b <= e <= |t| then Found(t[b..e]) else NotFound
  }

  function ReadString(t: string, key: string): Text {
    match MemberText(t, key) case NotFound => NoText case Found(raw) => FullString(raw)
  }

  /** Under each key of a printed object its own text is found, and under any other key
      nothing. */
  lemma EntryFound(es: seq<Entry>, i: nat)
    requires i < |es| && GoodEntries(es, 0) && Distinct(es)
    ensures MemberText(ObjectText(es), es[i].key) == Found(es[i].text)
  {
    hide ObjectText, Entries, GoodEntries, ObjectMembers, Named, Listed, StandsAt;
    ObjectReads(es);
    ObjectStands(es);
    ListedSpan(ObjectText(es), 1, es, i);
    NamedOne(Listed(es, 1), i);
  }

  lemma OtherNotFound(es: seq<Entry>, key: string)
    requires es != [] && GoodEntries(es, 0) && forall i :: 0 <= i < |es| ==> es[i].key != key
    ensures MemberText(ObjectText(es), key) == NotFound
  {
    ObjectReads(es);
    hide ObjectText, GoodEntries, ObjectMembers, Named, Listed;
    NamedNone(Listed(es, 1), key);
  }

  // ---------------------------------------------------------------- whole objects

  lemma {:induction false} EntriesSkip(t: string, pos: nat, es: seq<Entry>, depth: nat)
    requires es != [] && GoodEntries(es, depth) && StandsAt(t, pos, Entries(es))
    ensures pos <= |t| && SkipMembers(t, pos, depth) == End(pos + |Entries(es)|)
    decreases |es|
  {
    hide SkipKey, StringAt, SkipValue, AfterElement, GoodEntry, Entries, SkipMembers, StandsAt;
    assert GoodEntry(es[0], depth);
    EntryStands(t, pos, es, depth);
    MembersIs(t, pos, depth);
    if |es| > 1 {
      assert GoodEntries(es[1..], depth);
      EntriesSkip(t, pos + |Label(es[0].key)| + |es[0].text| + 1, es[1..], depth);
    }
  }

  /** A printed object is a whole value, one level above its members. */
  lemma ObjectWhole(es: seq<Entry>, depth: nat)
    requires es != [] && GoodEntries(es, depth + 1) && depth <= 16
    ensures Whole(ObjectText(es), depth)
  {
    hide GoodEntries, SkipMembers, Entries, ObjectText, StandsAt, SkipObject;
    var t := ObjectText(es);
    ObjectStands(es);
    EntriesSkip(t, 1, es, depth + 1);
    assert SkipWs(t, 1) == 1;
    ObjectIs(t, 0, depth + 1);
  }

  lemma QuotedWhole(s: string, depth: nat)
    requires depth <= 16
    ensures Whole(Quoted(s), depth)
  {
    PrintedScans(Str(s), "", depth);
    hide SkipValue, Quoted;
  }

  lemma NumberWhole(n: nat, depth: nat)
    requires depth <= 16
    ensures Whole(Print(n), depth)
  {
    PrintedScans(Int(n), "", depth);
    hide SkipValue, Print;
  }

  /** A quoted string under a key is read as the string. */
  lemma StringFound(es: seq<Entry>, i: nat, s: string)
    requires i < |es| && GoodEntries(es, 0) && Distinct(es) && es[i].text == Quoted(s)
    ensures ReadString(ObjectText(es), es[i].key).Text? && ReadString(ObjectText(es), es[i].key).value == s
  {
    hide MemberText, ObjectText, FullString, Quoted, GoodEntries;
    EntryFound(es, i);
    EscapeRoundTrip(s);
  }
}
