/** Sequenced events and snapshot watermarks: the server's sequencer, the client's
    rebase tracker, and the texts in which generations and sequences travel. */
module Events {
  import opened Codec
  import opened Decimal
  import opened JsonText
  import opened Requests
  import opened Sessions
  import opened JsonStrings
  import opened JsonValues
  import opened Embedding
  import opened JsonObjects

  // ---------------------------------------------------------------- the sequencer

  /** `next` is 0 once every 64-bit sequence was given out. */
  datatype Sequencer = Sequencer(generation: nat, next: nat)

  function LastSequence(s: Sequencer): (last: nat) {
    if s.next == 0 then UINT64_MAX else s.next - 1
  }

  function EscapeNameChar(c: char): string {
    if c == '\\' then "\\\\" else if c == '"' then "\\\"" else if c == '\n' then "\\n"
    else if c == '\r' then "\\r" else if c == '\t' then "\\t"
    else if c as int == 8 then "\\b" else if c as int == 12 then "\\f"
    else if c as int < 0x20 then "?" else [c]
  }

  function EscapeName(s: string): string {
    if s == "" then "" else EscapeNameChar(s[0]) + EscapeName(s[1..])
  }

  const EVENT_FIELD := "event"
  const GENERATION_FIELD := "generation"
  const SEQ_FIELD := "seq"
  const WATERMARK_FIELD := "snapshotSeq"

  function NamePart(name: string): string { "{" + Label(EVENT_FIELD) + "\"" + EscapeName(name) + "\"," }

  function PayloadPart(payload: string): (s: string)
    ensures s != "" && s[0] == ','
  {
    "," + (Label("payload") + payload + "}")
  }

  function EventText(name: string, generation: nat, sequence: nat, payload: string): string {
    NamePart(name) + (Label(GENERATION_FIELD) + (Print(generation) + ("," +
      (Label(SEQ_FIELD) + (Print(sequence) + PayloadPart(payload))))))
  }

  /** A refused event leaves the sequence where it was. */
  function EncodeEvent(s: Sequencer, name: string, payload: string): (e: (Reply, Sequencer))
    ensures e.0.Answer? ==> Encodable(e.0.frame)
  {
    if name == "" || payload == "" || s.next == 0 then (Silent, s) else
    var r := EncodeJson(EVENT, EventText(name, s.generation, s.next, payload));
    if r.Silent? then (Silent, s) else (r, s.(next := if s.next == UINT64_MAX then 0 else s.next + 1))
  }

  class EventSequencer {
    const generation: nat
    var next: nat

    function View(): Sequencer
      reads this
    {
      Sequencer(generation, next)
    }

    constructor (g: nat)
      ensures View() == Sequencer(if g == 0 then 1 else g, 1)
    {
      generation, next := if g == 0 then 1 else g, 1;
    }

    method Last() returns (last: nat)
      ensures last == LastSequence(View())
    {
      if next == 0 { return UINT64_MAX; }
      return next - 1;
    }

    method Encode(name: string, payload: string) returns (r: Reply)
      modifies this
      ensures (r, View()) == EncodeEvent(old(View()), name, payload)
    {
      if name == "" || payload == "" || next == 0 { return Silent; }
      r := EncodeJson(EVENT, EventText(name, generation, next, payload));
      if r.Silent? { return; }
      if next == UINT64_MAX { next := 0; } else { next := next + 1; }
    }
  }

  // ---------------------------------------------------------------- the tracker

  datatype Tracker = Tracker(hasBaseline: bool, generation: nat, last: nat)
  datatype Decision = Accept | IgnoreStale | RebaseRequired

  const NO_BASELINE := Tracker(false, 0, 0)

  function Rebase(t: Tracker, generation: nat, watermark: nat): (bool, Tracker) {
    if generation == 0 then (false, NO_BASELINE) else (true, Tracker(true, generation, watermark))
  }

  function Observe(t: Tracker, generation: nat, sequence: nat): (Decision, Tracker) {
    if !t.hasBaseline || generation == 0 || sequence == 0 then (RebaseRequired, NO_BASELINE)
    else if generation != t.generation then (RebaseRequired, NO_BASELINE)
    else if sequence <= t.last then (IgnoreStale, t)
    else if t.last != UINT64_MAX && sequence == t.last + 1 then (Accept, t.(last := sequence))
    else (RebaseRequired, NO_BASELINE)
  }

  /** An event is accepted exactly if it continues its generation's baseline, ignored
      exactly if the baseline covers it, and makes a new baseline necessary otherwise. */
  lemma ObserveExactly(t: Tracker, generation: nat, sequence: nat)
    ensures var (d, t') := Observe(t, generation, sequence);
            var known := t.hasBaseline && generation == t.generation && generation != 0 && sequence != 0;
            && (d == Accept <==> known && sequence == t.last + 1 && t.last != UINT64_MAX)
            && (d == IgnoreStale <==> known && sequence <= t.last)
            && (d == Accept ==> t' == t.(last := sequence)) && (d == IgnoreStale ==> t' == t)
            && (d == RebaseRequired ==> !t'.hasBaseline)
  {
  }

  class RebaseTracker {
    var hasBaseline: bool
    var generation: nat
    var last: nat

    function View(): Tracker
      reads this
    {
      Tracker(hasBaseline, generation, last)
    }

    constructor ()
      ensures View() == NO_BASELINE
    {
      hasBaseline, generation, last := false, 0, 0;
    }

    method Invalidate()
      modifies this
      ensures View() == NO_BASELINE
    {
      hasBaseline, generation, last := false, 0, 0;
    }

    method RebaseTo(g: nat, watermark: nat) returns (ok: bool)
      modifies this
      ensures (ok, View()) == Rebase(old(View()), g, watermark)
    {
      if g == 0 { Invalidate(); return false; }
      hasBaseline, generation, last := true, g, watermark;
      return true;
    }

    method ObserveEvent(g: nat, sequence: nat) returns (d: Decision)
      modifies this
      ensures (d, View()) == Observe(old(View()), g, sequence)
    {
      if !hasBaseline || g == 0 || sequence == 0 { Invalidate(); return RebaseRequired; }
      if g != generation { Invalidate(); return RebaseRequired; }
      if sequence <= last { return IgnoreStale; }
      if last != UINT64_MAX && sequence == last + 1 {
        last := sequence;
        return Accept;
      }
      Invalidate();
      return RebaseRequired;
    }
  }

  // ---------------------------------------------------------------- snapshots

  function SnapshotPart(snapshot: string): (s: string)
    ensures s != "" && s[0] == ','
  {
    "," + (Label("snapshot") + snapshot + "}}")
  }

  function ResultPart(generation: nat, watermark: nat, snapshot: string): string {
    Label(GENERATION_FIELD) + (Print(generation) + ("," +
      (Label(WATERMARK_FIELD) + (Print(watermark) + SnapshotPart(snapshot)))))
  }

  function StatusPart(): (s: string)
    ensures s != "" && s[0] == ','
  {
    "," + (Label("status") + "200," + Label("result") + "{")
  }

  function SnapshotTail(generation: nat, watermark: nat, snapshot: string): (s: string)
    ensures s != "" && s[0] == ','
  {
    StatusPart() + ResultPart(generation, watermark, snapshot)
  }

  function EncodeSnapshot(id: nat, generation: nat, watermark: nat, snapshot: string): Reply {
    if id == 0 || generation == 0 || snapshot == "" then Silent
    else Respond(id, SnapshotTail(generation, watermark, snapshot))
  }

  // ---------------------------------------------------------------- reading fields back

  /** A quote at `q` does not close a key that ends in `last`: the character before it
      differs, or no colon follows, and `s` is long enough to tell. */
  ghost predicate ClearAt(s: string, q: nat, last: char)
    requires q < |s|
  {
    s[q] == '"' ==> (q >= 1 && s[q - 1] != last) || (q + 1 < |s| && s[q + 1] != ':')
  }

  ghost predicate Clear(s: string, last: char) { forall q :: 0 <= q < |s| ==> ClearAt(s, q, last) }

  lemma ClearJoin(a: string, b: string, last: char)
    requires Clear(a, last) && Clear(b, last)
    ensures Clear(a + b, last)
  {
    forall q | 0 <= q < |a + b|
      ensures ClearAt(a + b, q, last)
    {
      if q < |a| { assert ClearAt(a, q, last); } else { assert ClearAt(b, q - |a|, last); }
    }
  }

  lemma DigitsClear(g: string, last: char)
    requires AllDigits(g)
    ensures Clear(g, last)
  {
  }

  lemma {:induction false} IndexIs(t: string, needle: string, from: nat, at: nat)
    requires from <= at <= |t| && StandsAt(t, at, needle)
    requires forall i :: from <= i < at ==> !StandsAt(t, i, needle)
    ensures IndexOf(t, needle, from) == at
    decreases at - from
  {
    if from < at {
      IndexIs(t, needle, from + 1, at);
    }
  }

  /** Text in front of a field in which its key cannot stand, nor begin. */
  ghost predicate Front(before: string, key: string) {
    && key != "" && (forall i :: 0 <= i < |key| ==> key[i] != '"')
    && Clear(before, key[|key| - 1]) && before != "" && before[|before| - 1] != key[|key| - 1]
  }

  lemma NoneBefore(before: string, key: string, rest: string)
    requires Front(before, key)
    ensures forall i :: 0 <= i < |before| ==> !StandsAt(before + (Label(key) + rest), i, Label(key))
  {
    hide StandsAt;
    var needle, n := Label(key), |key|;
    var t := before + (needle + rest);
    forall i | 0 <= i < |before| ensures !StandsAt(t, i, needle) {
      var q := i + n + 1;
      assert q < |before| ==> ClearAt(before, q, key[n - 1]);
      assert q > |before| ==> t[q] == key[q - |before| - 1];
      if StandsAt(t, i, needle) {
        CharOf(t, i, needle, n);
        CharOf(t, i, needle, n + 1);
        CharOf(t, i, needle, n + 2);
        assert false;
      }
    }
  }

  lemma FieldStands(before: string, needle: string, digits: string, after: string)
    requires after != ""
    ensures var t, at := before + (needle + (digits + after)), |before|;
            var p := at + |needle|;
            StandsAt(t, at, needle) && StandsAt(t, p, digits) && p + |digits| < |t| && t[p + |digits|] == after[0]
  {
    var t, at := before + (needle + (digits + after)), |before|;
    var p := at + |needle|;
    assert t[at..p] == needle && t[p..p + |digits|] == digits;
  }

  /** A number is found behind the first occurrence of its key. */
  lemma FieldReads(before: string, key: string, n: nat, after: string)
    requires Front(before, key) && n <= UINT64_MAX
    requires after != "" && !IsDigit(after[0])
    ensures var t := before + (Label(key) + (Print(n) + after));
            JsonUint64(t, key).Number? && JsonUint64(t, key).value == n
  {
    hide StandsAt, IndexOf, Uint64At, Front, Print;
    var t := before + (Label(key) + (Print(n) + after));
    FieldStands(before, Label(key), Print(n), after);
    NoneBefore(before, key, Print(n) + after);
    IndexIs(t, Label(key), 0, |before|);
    StandsNumber(t, |before| + |Label(key)|, n);
  }

  lemma StandsNumber(t: string, pos: nat, n: nat)
    requires n <= UINT64_MAX && StandsAt(t, pos, Print(n))
    requires pos + |Print(n)| < |t| ==> !IsDigit(t[pos + |Print(n)|])
    ensures pos <= |t| && Uint64At(t, pos) == Number(n, pos + |Print(n)|)
  {
    PrintReadsBack(t, pos, n);
  }

  lemma Regroup(a: string, k: string, g: string, c: string, rest: string)
    ensures a + (k + (g + (c + rest))) == (a + (k + (g + c))) + rest
  {
  }

  /** Text in front of a generation and of a sequence or watermark behind it. */
  ghost predicate PairFront(before: string) { Front(before, GENERATION_FIELD) && Front(before, SEQ_FIELD) }

  /** Two numbers behind each other: the pair that events and snapshots carry. */
  lemma PairReads(before: string, n: nat, key: string, m: nat, after: string)
    requires key == SEQ_FIELD || key == WATERMARK_FIELD
    requires PairFront(before) && n <= UINT64_MAX && m <= UINT64_MAX
    requires after != "" && !IsDigit(after[0])
    ensures var t := before + (Label(GENERATION_FIELD) + (Print(n) + ("," + (Label(key) + (Print(m) + after)))));
            && JsonUint64(t, GENERATION_FIELD).Number? && JsonUint64(t, GENERATION_FIELD).value == n
            && JsonUint64(t, key).Number? && JsonUint64(t, key).value == m
  {
    var k := Label(GENERATION_FIELD);
    var rest := Label(key) + (Print(m) + after);
    FieldReads(before, GENERATION_FIELD, n, "," + rest);
    Regroup(before, k, Print(n), ",", rest);
    DigitsClear(Print(n), 'q');
    GenerationClear();
    ClearJoin(Print(n), ",", 'q');
    ClearJoin(k, Print(n) + ",", 'q');
    ClearJoin(before, k + (Print(n) + ","), 'q');
    KeysClose(before + (k + (Print(n) + ",")), key);
    hide JsonUint64, Label, Print, Clear, Front;
    FieldReads(before + (k + (Print(n) + ",")), key, m, after);
  }

  lemma KeysClose(before: string, key: string)
    requires (key == SEQ_FIELD || key == WATERMARK_FIELD) && Clear(before, 'q') && before != ""
    requires before[|before| - 1] != 'q'
    ensures Front(before, key)
  {
  }

  lemma GenerationClear()
    ensures Clear(Label(GENERATION_FIELD), 'q') && Clear(",", 'q')
  {
    var k := Label(GENERATION_FIELD);
    assert |k| == 13 && k[1] == 'g' && k[10] == 'n';
    forall i | 0 <= i < |k| ensures ClearAt(k, i, 'q') {
      assert k[i] == '"' ==> i == 0 || i == 11;
    }
  }

  lemma {:induction false} PlainNameUnchanged(name: string)
    requires PlainText(name)
    ensures EscapeName(name) == name
  {
    if name != "" {
      PlainNameUnchanged(name[1..]);
      assert name == [name[0]] + name[1..];
    }
  }

  ghost predicate GuardedAt(s: string, q: nat)
    requires q < |s|
  {
    s[q] == '"' ==> q >= 1 && s[q - 1] == '\\'
  }

  ghost predicate Guarded(s: string) { forall q :: 0 <= q < |s| ==> GuardedAt(s, q) }

  /** Escaping leaves no quote without a backslash in front of it. */
  lemma {:induction false} QuotesEscaped(name: string)
    ensures Guarded(EscapeName(name))
  {
    if name != "" {
      QuotesEscaped(name[1..]);
      var a, b := EscapeNameChar(name[0]), EscapeName(name[1..]);
      assert Guarded(a);
      forall q | 0 <= q < |a + b| ensures GuardedAt(a + b, q) {
        if q < |a| { assert GuardedAt(a, q); } else { assert GuardedAt(b, q - |a|); }
      }
    }
  }

  lemma NameClear(name: string, last: char)
    requires last == 'n' || last == 'q'
    ensures Clear(NamePart(name), last)
  {
    QuotesEscaped(name);
    var k, e := "{" + Label(EVENT_FIELD) + "\"", EscapeName(name);
    var s := NamePart(name);
    assert s == k + e + "\"," && |k| == 10 && k[0] == '{' && k[6] == 't' && k[8] == ':';
    forall i | 0 <= i < |s| ensures ClearAt(s, i, last) {
      if i < 10 {
        assert s[i] == k[i] && s[0] == k[0] && s[6] == k[6] && s[8] == k[8];
        assert k[i] == '"' ==> i == 1 || i == 7 || i == 9;
      } else if i < 10 + |e| {
        assert GuardedAt(e, i - 10) && s[i] == e[i - 10] && (i > 10 ==> s[i - 1] == e[i - 11]);
      } else {
        assert |s| == 12 + |e| && s[11 + |e|] == ',';
      }
    }
  }

  lemma NameFront(name: string)
    ensures PairFront(NamePart(name))
  {
    NameClear(name, 'n');
    NameClear(name, 'q');
    assert NamePart(name)[|NamePart(name)| - 1] == ',';
    hide Clear;
  }

  /** The generation and the sequence of an event read back from its text, whatever its
      name is. */
  lemma EventReadsBack(name: string, generation: nat, sequence: nat, payload: string)
    requires generation <= UINT64_MAX && sequence <= UINT64_MAX
    ensures var t := EventText(name, generation, sequence, payload);
            && JsonUint64(t, GENERATION_FIELD).Number? && JsonUint64(t, GENERATION_FIELD).value == generation
            && JsonUint64(t, SEQ_FIELD).Number? && JsonUint64(t, SEQ_FIELD).value == sequence
  {
    hide JsonUint64, NamePart, PayloadPart, Label, Print, PairFront;
    NameFront(name);
    PairReads(NamePart(name), generation, SEQ_FIELD, sequence, PayloadPart(payload));
  }

  lemma StatusClear(last: char)
    requires last == 'n' || last == 'q'
    ensures Clear(StatusPart(), last) && Clear(HEAD, last) && StatusPart()[|StatusPart()| - 1] == '{'
  {
    var k := StatusPart();
    assert k == ",\"status\":" + "200," + "\"result\":" + "{";
    var a, b := ",\"status\":", "\"result\":";
    assert |a| == 10 && |b| == 9 && |k| == 24 && |HEAD| == 13;
    forall i | 0 <= i < |k| ensures ClearAt(k, i, last) {
      if i < 10 {
        assert k[i] == a[i] && k[0] == a[0] && k[7] == a[7];
        assert a[i] == '"' ==> i == 1 || i == 8;
      } else if i < 14 {
        assert k[i] == "200,"[i - 10];
      } else if i < 23 {
        assert k[i] == b[i - 14] && k[13] == "200,"[3] && k[20] == b[6];
        assert b[i - 14] == '"' ==> i == 14 || i == 21;
      }
    }
    forall i | 0 <= i < |HEAD| ensures ClearAt(HEAD, i, last) {
      assert HEAD[i] == '"' ==> i == 1 || i == 11;
      assert HEAD[0] == '{' && HEAD[10] == 'd';
    }
  }

  lemma StatusFront(id: nat)
    ensures PairFront(HEAD + Print(id) + StatusPart())
  {
    hide StatusPart, Clear, Print;
    StatusLine(id, 'n');
    StatusLine(id, 'q');
  }

  lemma StatusLine(id: nat, last: char)
    requires last == 'n' || last == 'q'
    ensures var s := HEAD + Print(id) + StatusPart(); Clear(s, last) && s != "" && s[|s| - 1] == '{'
  {
    StatusClear(last);
    DigitsClear(Print(id), last);
    hide StatusPart, Clear, Print;
    ClearJoin(HEAD, Print(id), last);
    ClearJoin(HEAD + Print(id), StatusPart(), last);
  }

  /** The generation and the watermark of a snapshot response read back from its text. */
  lemma SnapshotReadsBack(id: nat, generation: nat, watermark: nat, snapshot: string)
    requires generation <= UINT64_MAX && watermark <= UINT64_MAX
    ensures var t := ResponseText(id, SnapshotTail(generation, watermark, snapshot));
            && JsonUint64(t, GENERATION_FIELD).Number? && JsonUint64(t, GENERATION_FIELD).value == generation
            && JsonUint64(t, WATERMARK_FIELD).Number? && JsonUint64(t, WATERMARK_FIELD).value == watermark
  {
    hide JsonUint64, StatusPart, SnapshotPart, Label, Print, PairFront;
    StatusFront(id);
    var front := HEAD + Print(id) + StatusPart();
    var rest := ResultPart(generation, watermark, snapshot);
    assert HEAD + Print(id) + (StatusPart() + rest) == front + rest;
    PairReads(front, generation, WATERMARK_FIELD, watermark, SnapshotPart(snapshot));
  }

  // ---------------------------------------------------------------- events as objects

  /** What is left of a name: control characters without an escape letter become '?'. */
  function Sanitized(name: string): string {
    if name == "" then ""
    else
      var c := name[0] as int;
      [if c < 0x20 && c != 8 && c != 9 && c != 10 && c != 12 && c != 13 then '?' else name[0]] + Sanitized(name[1..])
  }

  lemma {:induction false} SanitizedIsEscaped(name: string)
    ensures EscapeName(name) == Escape(Sanitized(name))
  {
    if name != "" {
      SanitizedIsEscaped(name[1..]);
      var c := Sanitized(name)[0];
      assert Sanitized(name)[1..] == Sanitized(name[1..]);
      assert EscapeNameChar(name[0]) == EscapeChar(c);
    }
  }

  lemma {:induction false} CleanNameKept(name: string)
    requires forall i :: 0 <= i < |name| ==> name[i] as int >= 0x20
    ensures Sanitized(name) == name
  {
    if name != "" {
      CleanNameKept(name[1..]);
      assert [name[0]] + name[1..] == name;
    }
  }

  function EventEntries(name: string, generation: nat, sequence: nat, payload: string): (es: seq<Entry>)
    ensures |es| == 4
  {
    [Entry(EVENT_FIELD, Quoted(Sanitized(name))), Entry(GENERATION_FIELD, Print(generation)),
     Entry(SEQ_FIELD, Print(sequence)), Entry("payload", payload)]
  }

  lemma Unroll4(es: seq<Entry>)
    requires |es| == 4
    ensures ObjectText(es) ==
            "{" + (Label(es[0].key) + (es[0].text + ("," + (Label(es[1].key) + (es[1].text + ("," +
              (Label(es[2].key) + (es[2].text + ("," + (Label(es[3].key) + (es[3].text + "}")))))))))))
  {
    hide Label;
    var a, b, c := es[1..], es[1..][1..], es[1..][1..][1..];
    assert Entries(c) == Label(es[3].key) + (es[3].text + "}");
    assert Entries(b) == Label(es[2].key) + (es[2].text + ("," + Entries(c)));
    assert Entries(a) == Label(es[1].key) + (es[1].text + ("," + Entries(b)));
  }

  lemma EventNests(l: string, q: string, e: string, rest: string, p: string, k: string)
    requires q == "\"" + e + "\""
    ensures "{" + l + "\"" + e + "\"," + rest == "{" + (l + (q + ("," + rest)))
    ensures "," + (k + p + "}") == "," + (k + (p + "}"))
  {
  }

  /** An event's text is the object of its four members. */
  lemma EventIsObject(name: string, generation: nat, sequence: nat, payload: string)
    ensures EventText(name, generation, sequence, payload) == ObjectText(EventEntries(name, generation, sequence, payload))
  {
    hide Print, Label, Escape, EscapeName;
    var es := EventEntries(name, generation, sequence, payload);
    SanitizedIsEscaped(name);
    Unroll4(es);
    var q := Quoted(Sanitized(name));
    assert q == "\"" + EscapeName(name) + "\"";
    var rest := Label(GENERATION_FIELD) + (Print(generation) + ("," +
                  (Label(SEQ_FIELD) + (Print(sequence) + PayloadPart(payload)))));
    EventNests(Label(EVENT_FIELD), q, EscapeName(name), rest, payload, Label("payload"));
  }

  lemma EventKeys()
    ensures PlainText(EVENT_FIELD) && PlainText(GENERATION_FIELD) && PlainText(SEQ_FIELD) && PlainText("payload")
    ensures |EVENT_FIELD| == 5 && |GENERATION_FIELD| == 10 && |SEQ_FIELD| == 3 && |"payload"| == 7
  {
  }

  lemma FourGood(es: seq<Entry>)
    requires |es| == 4 && GoodEntry(es[0], 0) && GoodEntry(es[1], 0) && GoodEntry(es[2], 0) && GoodEntry(es[3], 0)
    requires |es[0].key| == 5 && |es[1].key| == 10 && |es[2].key| == 3 && |es[3].key| == 7
    ensures GoodEntries(es, 0) && Distinct(es)
  {
    hide GoodEntry;
  }

  /** From an event's text a client reads its name, its numbers, and exactly the payload
      that was printed. */
  lemma EventMembersRead(name: string, generation: nat, sequence: nat, payload: string)
    requires Whole(payload, 0)
    ensures var t := EventText(name, generation, sequence, payload);
            && ReadString(t, "event").Text? && ReadString(t, "event").value == Sanitized(name)
            && MemberText(t, "generation") == Found(Print(generation)) && MemberText(t, "seq") == Found(Print(sequence))
            && MemberText(t, "payload") == Found(payload)
  {
    hide Whole, Print, Quoted, MemberText, ReadString, ObjectText, PlainText, EventText;
    var es := EventEntries(name, generation, sequence, payload);
    EventIsObject(name, generation, sequence, payload);
    EventKeys();
    QuotedWhole(Sanitized(name), 0);
    NumberWhole(generation, 0);
    NumberWhole(sequence, 0);
    FourGood(es);
    StringFound(es, 0, Sanitized(name));
    EntryFound(es, 1);
    EntryFound(es, 2);
    EntryFound(es, 3);
  }

  // ---------------------------------------------------------------- snapshots as objects

  function ResultEntries(generation: nat, watermark: nat, snapshot: string): (es: seq<Entry>)
    ensures |es| == 3
  {
    [Entry(GENERATION_FIELD, Print(generation)), Entry(WATERMARK_FIELD, Print(watermark)), Entry("snapshot", snapshot)]
  }

  lemma Unroll3(es: seq<Entry>)
    requires |es| == 3
    ensures Entries(es) ==
            Label(es[0].key) + (es[0].text + ("," + (Label(es[1].key) + (es[1].text + ("," +
              (Label(es[2].key) + (es[2].text + "}")))))))
  {
    hide Label;
    var a, b := es[1..], es[1..][1..];
    assert Entries(b) == Label(es[2].key) + (es[2].text + "}");
    assert Entries(a) == Label(es[1].key) + (es[1].text + ("," + Entries(b)));
  }

  lemma Unroll2(es: seq<Entry>)
    requires |es| == 2
    ensures Entries(es) == Label(es[0].key) + (es[0].text + ("," + (Label(es[1].key) + (es[1].text + "}"))))
  {
    hide Label;
    var a := es[1..];
    assert Entries(a) == Label(es[1].key) + (es[1].text + "}");
  }

  lemma SnapshotNests(s: string, r: string, g: string, x: string, w: string, y: string, k: string, p: string)
    ensures "," + (s + "200," + r + "{") + (g + (x + ("," + (w + (y + ("," + (k + p + "}}")))))))
            == "," + (s + ("200" + ("," + (r + (("{" + (g + (x + ("," + (w + (y + ("," + (k + (p + "}"))))))))) + "}")))))
  {
    var inner := g + (x + ("," + (w + (y + ("," + (k + (p + "}")))))));
    assert "," + (k + p + "}}") == ("," + (k + (p + "}"))) + "}";
    assert g + (x + ("," + (w + (y + (("," + (k + (p + "}"))) + "}"))))) == inner + "}";
    assert s + "200," + r + "{" == s + ("200" + ("," + (r + "{")));
  }

  /** A snapshot response's tail: the status and a result of three members. */
  lemma SnapshotIsObject(generation: nat, watermark: nat, snapshot: string)
    ensures SnapshotTail(generation, watermark, snapshot) ==
            "," + Entries([Entry("status", "200"),
                           Entry("result", ObjectText(ResultEntries(generation, watermark, snapshot)))])
  {
    hide Print, Label;
    var inner := ResultEntries(generation, watermark, snapshot);
    var es := [Entry("status", "200"), Entry("result", ObjectText(inner))];
    Unroll3(inner);
    Unroll2(es);
    SnapshotNests(Label("status"), Label("result"), Label(GENERATION_FIELD), Print(generation), Label(WATERMARK_FIELD),
                  Print(watermark), Label("snapshot"), snapshot);
    hide Entries;
  }
}
