/** DHCP leases in files: the generation marker, the lease file a callback writes, and
    reading both back. */
module LeaseStore {
  import opened Decimal
  import opened JsonText
  import opened KeyValueText

  // ---------------------------------------------------------------- names

  predicate SafeChar(c: char) {
    'a' <= c <= 'z' || 'A' <= c <= 'Z' || '0' <= c <= '9' || c == '_' || c == '-' || c == '.'
  }

  predicate SafeText(s: string) { forall i :: 0 <= i < |s| ==> SafeChar(s[i]) }
  predicate SafeIface(s: string) { 0 < |s| <= 15 && SafeText(s) }
  predicate SafeGeneration(s: string) { 0 < |s| <= 80 && SafeText(s) }

  /** The files involved. Lease files are named by interface and generation joined with
      an underscore, so different pairs may share one; a callback's temporary file adds
      its process id. */
  datatype Path = Marker(iface: string) | Lease(key: string) | Temp(key: string, pid: nat)

  function Key(iface: string, generation: string): string { iface + "_" + generation }

  const PREFIX := "/tmp/network_service_dhcp_"
  const LEASE_SUFFIX := ".lease"
  const MARKER_SUFFIX := ".generation"

  function PathText(p: Path): string {
    match p
    case Marker(iface) => PREFIX + iface + MARKER_SUFFIX
    case Lease(key) => PREFIX + key + LEASE_SUFFIX
    case Temp(key, pid) => PREFIX + key + LEASE_SUFFIX + "." + Print(pid)
  }

  function LastChar(s: string): char
    requires s != ""
  {
    s[|s| - 1]
  }

  lemma PathEnds(p: Path)
    ensures PathText(p) != ""
    ensures p.Marker? ==> LastChar(PathText(p)) == 'n'
    ensures p.Lease? ==> LastChar(PathText(p)) == 'e'
    ensures p.Temp? ==> IsDigit(LastChar(PathText(p)))
  {
  }

  lemma CancelEnds(a: string, x: string, y: string, b: string)
    requires a + x + b == a + y + b
    ensures x == y
  {
    assert (a + x + b)[|a|..|a| + |x|] == x;
    assert (a + y + b)[|a|..|a| + |y|] == y;
  }

  lemma LastSeparator(a: string, x: string, b: string, y: string, c: char)
    requires AllDigits(x) && !IsDigit(c) && a + [c] + x == b + [c] + y
    ensures |b| <= |a|
  {
    var t := a + [c] + x;
    assert (b + [c] + y)[|b|] == c;
    assert forall k :: |a| < k < |t| ==> t[k] == x[k - |a| - 1];
  }

  /** Digits behind a last separator split off in only one way. */
  lemma SplitLast(a: string, x: string, b: string, y: string, c: char)
    requires AllDigits(x) && AllDigits(y) && !IsDigit(c) && a + [c] + x == b + [c] + y
    ensures a == b && x == y
  {
    LastSeparator(a, x, b, y, c);
    LastSeparator(b, y, a, x, c);
    var t, u := a + [c] + x, b + [c] + y;
    assert t[..|a|] == a && u[..|b|] == b && t[|a| + 1..] == x && u[|b| + 1..] == y;
  }

  /** Distinct files have distinct names. */
  lemma PathsDistinct(p: Path, q: Path)
    requires PathText(p) == PathText(q)
    ensures p == q
  {
    PathEnds(p);
    PathEnds(q);
    match p
    case Marker(iface) => CancelEnds(PREFIX, iface, q.iface, MARKER_SUFFIX);
    case Lease(key) => CancelEnds(PREFIX, key, q.key, LEASE_SUFFIX);
    case Temp(key, pid) =>
      SplitLast(PREFIX + key + LEASE_SUFFIX, Print(pid), PREFIX + q.key + LEASE_SUFFIX, Print(q.pid), '.');
      CancelEnds(PREFIX, key, q.key, LEASE_SUFFIX);
      ValueOfPrint(pid);
      ValueOfPrint(q.pid);
  }

  /** Generations of one interface never share a lease file. */
  lemma KeyInjective(iface: string, g: string, h: string)
    requires Key(iface, g) == Key(iface, h)
    ensures g == h
  {
    assert Key(iface, g)[|iface| + 1..] == g && Key(iface, h)[|iface| + 1..] == h;
  }

  /** Interfaces that use the same generation never share a lease file. */
  lemma KeyIface(i: string, j: string, g: string)
    requires Key(i, g) == Key(j, g)
    ensures i == j
  {
    assert |i| == |j|;
    assert Key(i, g)[..|i|] == i && Key(j, g)[..|j|] == j;
  }

  /** A generation as the service names it: process id, clock ticks and a counter. */
  function GenerationName(pid: nat, ticks: nat, sequence: nat): string {
    Print(pid) + "_" + Print(ticks) + "_" + Print(sequence)
  }

  ghost predicate ServiceGeneration(g: string) {
    exists p: nat, t: nat, n: nat :: g == GenerationName(p, t, n)
  }

  /** Lease files of generations that the service named never coincide, whatever the
      interfaces are called. */
  lemma ServiceKeysDistinct(i: string, g: string, j: string, h: string)
    requires ServiceGeneration(g) && ServiceGeneration(h) && Key(i, g) == Key(j, h)
    ensures i == j && g == h
  {
    hide Print;
    var p: nat, t: nat, n: nat :| g == GenerationName(p, t, n);
    var q: nat, u: nat, m: nat :| h == GenerationName(q, u, m);
    var a1, b1 := i + "_" + Print(p), j + "_" + Print(q);
    var a2, b2 := a1 + "_" + Print(t), b1 + "_" + Print(u);
    assert Key(i, g) == a2 + "_" + Print(n) && Key(j, h) == b2 + "_" + Print(m);
    SplitLast(a2, Print(n), b2, Print(m), '_');
    SplitLast(a1, Print(t), b1, Print(u), '_');
    SplitLast(i, Print(p), j, Print(q), '_');
  }

  // ---------------------------------------------------------------- the lease text

  /** What the DHCP client tells its callback. */
  datatype Report = Report(iface: string, generation: string, event: string,
                           ip: string, subnet: string, router: string, dns: string)

  predicate WellFormed(r: Report) {
    && SafeIface(r.iface) && SafeGeneration(r.generation)
    && OneLine(r.event) && OneLine(r.ip) && OneLine(r.subnet) && OneLine(r.router) && OneLine(r.dns)
  }

  function ReportLine(r: Report, k: nat): string {
    if k == 0 then Line("generation", r.generation)
    else if k == 1 then Line("event", r.event)
    else if k == 2 then Line("ip", r.ip)
    else if k == 3 then Line("subnet", r.subnet)
    else if k == 4 then Line("router", r.router)
    else Line("dns", r.dns)
  }

  const LINES := 6

  /** A file in which line `i` stands if `lines[i]`: the shell ignores that a line in the
      middle of the group could not be written. */
  function TextFrom(r: Report, lines: seq<bool>, k: nat): string
    requires k <= |lines|
    decreases |lines| - k
  {
    if k == |lines| then "" else (if lines[k] then ReportLine(r, k) else "") + TextFrom(r, lines, k + 1)
  }

  function FileText(r: Report, lines: seq<bool>): string { TextFrom(r, lines, 0) }

  function AllLines(): seq<bool> { [true, true, true, true, true, true] }

  /** The whole report. */
  function LeaseText(r: Report): string { FileText(r, AllLines()) }

  /** The lines of the whole report, in order. */
  lemma LeaseLayout(r: Report)
    ensures LeaseText(r) ==
            Row("generation=", r.generation) + (Row("event=", r.event) + (Row("ip=", r.ip) + (Row("subnet=", r.subnet) +
              (Row("router=", r.router) + (Row("dns=", r.dns) + "")))))
  {
    hide Line, Row;
    RowIs("generation", "generation=", r.generation);
    RowIs("event", "event=", r.event);
    RowIs("ip", "ip=", r.ip);
    RowIs("subnet", "subnet=", r.subnet);
    RowIs("router", "router=", r.router);
    RowIs("dns", "dns=", r.dns);
    var l := AllLines();
    assert TextFrom(r, l, 5) == ReportLine(r, 5) + TextFrom(r, l, 6);
    assert TextFrom(r, l, 3) == ReportLine(r, 3) + TextFrom(r, l, 4);
    assert TextFrom(r, l, 1) == ReportLine(r, 1) + TextFrom(r, l, 2);
  }

  lemma {:induction false} TextAppend(r: Report, lines: seq<bool>, b: bool, k: nat)
    requires k <= |lines|
    ensures TextFrom(r, lines + [b], k) == TextFrom(r, lines, k) + (if b then ReportLine(r, |lines|) else "")
    decreases |lines| - k
  {
    hide ReportLine;
    if k == |lines| {
      assert TextFrom(r, lines + [b], k + 1) == "";
    } else {
      TextAppend(r, lines, b, k + 1);
    }
  }

  lemma {:induction false} TextLength(r: Report, lines: seq<bool>, full: seq<bool>, k: nat)
    requires |full| == |lines| && k <= |lines| && forall i :: 0 <= i < |full| ==> full[i]
    ensures |TextFrom(r, lines, k)| <= |TextFrom(r, full, k)|
    ensures |TextFrom(r, lines, k)| == |TextFrom(r, full, k)| <==> forall i :: k <= i < |lines| ==> lines[i]
    decreases |lines| - k
  {
    hide ReportLine;
    if k < |lines| {
      LineIsSomething(r, k);
      TextLength(r, lines, full, k + 1);
    }
  }

  lemma LineIsSomething(r: Report, k: nat)
    ensures ReportLine(r, k) != ""
  {
  }

  /** A file is the whole report exactly when no line is missing. */
  lemma WholeExactly(r: Report, lines: seq<bool>)
    requires |lines| == LINES
    ensures FileText(r, lines) == LeaseText(r) <==> lines == AllLines()
  {
    hide TextFrom;
    TextLength(r, lines, AllLines(), 0);
  }

  // ---------------------------------------------------------------- reading

  datatype Fields = Fields(generation: string, event: string, ip: string, subnet: string, gateway: string, dns: string)

  const NO_FIELDS := Fields("", "", "", "", "", "")

  /** The first word of a value. */
  function FirstToken(s: string): string {
    var from := SkipWs(s, 0);
    s[from..TokenEnd(s, from)]
  }

  function TokenEnd(s: string, pos: nat): (e: nat)
    requires pos <= |s|
    ensures pos <= e <= |s|
    decreases |s| - pos
  {
    if pos == |s| || IsSpace(s[pos]) then pos else TokenEnd(s, pos + 1)
  }

  predicate AllSpace(s: string) { forall i :: 0 <= i < |s| ==> IsSpace(s[i]) }
  predicate NoSpace(s: string) { forall i :: 0 <= i < |s| ==> !IsSpace(s[i]) }

  /** `w` is the first word of `s`: what stands between white space, or nothing at all. */
  ghost predicate FirstWord(s: string, w: string) {
    if w == "" then AllSpace(s)
    else NoSpace(w) && exists b: string, rest: string :: Around(s, b, w, rest)
  }

  predicate Around(s: string, b: string, w: string, rest: string) {
    AllSpace(b) && (rest != "" ==> IsSpace(rest[0])) && s == b + w + rest
  }

  lemma {:induction false} TokenEndIs(s: string, pos: nat, e: nat)
    requires pos <= e <= |s| && (forall i :: pos <= i < e ==> !IsSpace(s[i])) && (e < |s| ==> IsSpace(s[e]))
    ensures TokenEnd(s, pos) == e
    decreases e - pos
  {
    if pos < e { TokenEndIs(s, pos + 1, e); }
  }

  /** Leading white space is passed over and the word ends before the next. */
  lemma FirstTokenIs(b: string, word: string, rest: string)
    requires AllSpace(b) && word != "" && NoSpace(word) && (rest != "" ==> IsSpace(rest[0]))
    ensures FirstToken(b + word + rest) == word
  {
    var s, e := b + word + rest, |b| + |word|;
    assert forall i :: 0 <= i < |b| ==> s[i] == b[i];
    assert forall i :: |b| <= i < e ==> s[i] == word[i - |b|];
    assert e < |s| ==> s[e] == rest[0];
    SkipWsAll(s, 0, |b|);
    TokenEndIs(s, |b|, e);
    assert s[|b|..e] == word;
  }

  lemma FirstTokenNone(s: string)
    requires AllSpace(s)
    ensures FirstToken(s) == ""
  {
    SkipWsAll(s, 0, |s|);
  }

  /** The token that is read is exactly the first word. */
  lemma FirstTokenExactly(s: string, w: string)
    ensures FirstToken(s) == w <==> FirstWord(s, w)
  {
    TokenIsWord(s);
    if FirstWord(s, w) {
      if w == "" {
        FirstTokenNone(s);
      } else {
        var b: string, rest: string :| Around(s, b, w, rest);
        FirstTokenIs(b, w, rest);
      }
    }
  }

  lemma {:induction false} SpaceBefore(s: string, pos: nat)
    requires pos <= |s|
    ensures forall i :: pos <= i < SkipWs(s, pos) ==> IsSpace(s[i])
    decreases |s| - pos
  {
    if pos < |s| && IsSpace(s[pos]) { SpaceBefore(s, pos + 1); }
  }

  lemma {:induction false} WordUpTo(s: string, pos: nat)
    requires pos <= |s|
    ensures forall i :: pos <= i < TokenEnd(s, pos) ==> !IsSpace(s[i])
    ensures TokenEnd(s, pos) < |s| ==> IsSpace(s[TokenEnd(s, pos)])
    ensures pos < |s| && !IsSpace(s[pos]) ==> TokenEnd(s, pos) > pos
    decreases |s| - pos
  {
    if pos < |s| && !IsSpace(s[pos]) { WordUpTo(s, pos + 1); }
  }

  lemma TokenIsWord(s: string)
    ensures FirstWord(s, FirstToken(s))
  {
    var from := SkipWs(s, 0);
    var e := TokenEnd(s, from);
    SpaceBefore(s, 0);
    WordUpTo(s, from);
    if e > from {
      assert Around(s, s[..from], s[from..e], s[e..]);
    }
  }

  /** A later line of the same key wins; unknown keys are passed over. */
  function Set(f: Fields, key: string, value: string): Fields {
    if key == "generation" then f.(generation := value)
    else if key == "event" then f.(event := value)
    else if key == "ip" then f.(ip := value)
    else if key == "subnet" then f.(subnet := value)
    else if key == "router" then f.(gateway := FirstToken(value))
    else if key == "dns" then f.(dns := FirstToken(value))
    else f
  }

  function Absorb(f: Fields, line: string): Fields {
    match EntryOf(line) case NoEntry => f case Entry(key, value) => Set(f, key, value)
  }

  function FieldsOf(t: string, f: Fields): Fields
    decreases |t|
  {
    if t == "" then f else FieldsOf(OtherLines(t), Absorb(f, FirstLine(t)))
  }

  /** The reading loop, line by line. */
  method ParseLease(t: string) returns (f: Fields)
    ensures f == FieldsOf(t, NO_FIELDS)
  {
    f := NO_FIELDS;
    var rest := t;
    while rest != ""
      invariant FieldsOf(rest, f) == FieldsOf(t, NO_FIELDS)
      decreases |rest|
    {
      var line := FirstLine(rest);
      f := Absorb(f, line);
      rest := OtherLines(rest);
    }
  }

  function FieldsFrom(r: Report): Fields {
    Fields(r.generation, r.event, r.ip, r.subnet, FirstToken(r.router), FirstToken(r.dns))
  }

  /** What the lines of a file leave of a report; a missing line leaves its field empty. */
  function FieldsLeft(r: Report, lines: seq<bool>): Fields
    requires |lines| == LINES
  {
    var f := FieldsFrom(r);
    Fields(if lines[0] then f.generation else "", if lines[1] then f.event else "", if lines[2] then f.ip else "",
           if lines[3] then f.subnet else "", if lines[4] then f.gateway else "", if lines[5] then f.dns else "")
  }

  function KeyAt(k: nat): string {
    if k == 0 then "generation" else if k == 1 then "event" else if k == 2 then "ip"
    else if k == 3 then "subnet" else if k == 4 then "router" else "dns"
  }

  function ValueAt(r: Report, k: nat): string {
    if k == 0 then r.generation else if k == 1 then r.event else if k == 2 then r.ip
    else if k == 3 then r.subnet else if k == 4 then r.router else r.dns
  }

  lemma LineParts(r: Report, k: nat)
    requires WellFormed(r)
    ensures ReportLine(r, k) == Line(KeyAt(k), ValueAt(r, k)) && PlainKey(KeyAt(k)) && OneLine(ValueAt(r, k))
  {
    SafeIsOneLine(r.generation);
  }

  lemma SafeIsOneLine(s: string)
    requires SafeText(s)
    ensures OneLine(s)
  {
  }

  /** Absorbing a printed line sets its field. */
  lemma LineAbsorbed(f: Fields, key: string, value: string, rest: string)
    requires PlainKey(key) && OneLine(value)
    ensures FieldsOf(Line(key, value) + rest, f) == FieldsOf(rest, Set(f, key, value))
  {
    LineReads(key, value, rest);
  }

  function SetFrom(r: Report, lines: seq<bool>, k: nat, f: Fields): Fields
    requires k <= |lines|
    decreases |lines| - k
  {
    if k == |lines| then f else SetFrom(r, lines, k + 1, if lines[k] then Set(f, KeyAt(k), ValueAt(r, k)) else f)
  }

  lemma {:induction false} FileAbsorbed(r: Report, lines: seq<bool>, k: nat, f: Fields)
    requires WellFormed(r) && k <= |lines|
    ensures FieldsOf(TextFrom(r, lines, k), f) == SetFrom(r, lines, k, f)
    decreases |lines| - k
  {
    hide ReportLine, KeyAt, ValueAt, Set, Line, WellFormed, Absorb;
    if k < |lines| {
      var rest := TextFrom(r, lines, k + 1);
      if lines[k] {
        LineParts(r, k);
        LineAbsorbed(f, KeyAt(k), ValueAt(r, k), rest);
        FileAbsorbed(r, lines, k + 1, Set(f, KeyAt(k), ValueAt(r, k)));
      } else {
        assert "" + rest == rest;
        FileAbsorbed(r, lines, k + 1, f);
      }
    }
  }

  lemma SetInOrder(r: Report, lines: seq<bool>)
    requires |lines| == LINES
    ensures SetFrom(r, lines, 0, NO_FIELDS) == FieldsLeft(r, lines)
  {
    hide FirstToken;
    var f0 := NO_FIELDS;
    var f1 := if lines[0] then f0.(generation := r.generation) else f0;
    assert SetFrom(r, lines, 0, f0) == SetFrom(r, lines, 1, f1);
    var f2 := if lines[1] then f1.(event := r.event) else f1;
    assert SetFrom(r, lines, 1, f1) == SetFrom(r, lines, 2, f2);
    var f3 := if lines[2] then f2.(ip := r.ip) else f2;
    assert SetFrom(r, lines, 2, f2) == SetFrom(r, lines, 3, f3);
    var f4 := if lines[3] then f3.(subnet := r.subnet) else f3;
    assert SetFrom(r, lines, 3, f3) == SetFrom(r, lines, 4, f4);
    var f5 := if lines[4] then f4.(gateway := FirstToken(r.router)) else f4;
    assert SetFrom(r, lines, 4, f4) == SetFrom(r, lines, 5, f5);
    var f6 := if lines[5] then f5.(dns := FirstToken(r.dns)) else f5;
    assert SetFrom(r, lines, 5, f5) == SetFrom(r, lines, 6, f6);
  }

  /** Reading a file gives back, field by field, what its lines say. */
  lemma LeaseReadsBack(r: Report, lines: seq<bool>)
    requires WellFormed(r) && |lines| == LINES
    ensures FieldsOf(FileText(r, lines), NO_FIELDS) == FieldsLeft(r, lines)
  {
    hide TextFrom, FieldsOf, SetFrom, FieldsLeft, WellFormed;
    FileAbsorbed(r, lines, 0, NO_FIELDS);
    SetInOrder(r, lines);
  }

  /** Every field that a missing line held was empty anyway. */
  predicate NothingLost(r: Report, lines: seq<bool>)
    requires |lines| == LINES
  {
    var f := FieldsFrom(r);
    && (lines[0] || f.generation == "") && (lines[1] || f.event == "") && (lines[2] || f.ip == "")
    && (lines[3] || f.subnet == "") && (lines[4] || f.gateway == "") && (lines[5] || f.dns == "")
  }

  // ---------------------------------------------------------------- the store

  type Files = map<Path, string>

  datatype Event = NoEvent | Bound | Renew | Deconfig

  function ParseEvent(s: string): Event {
    if s == "bound" then Bound else if s == "renew" then Renew else if s == "deconfig" then Deconfig else NoEvent
  }

  datatype Fact = Fact(event: Event, iface: string, generation: string,
                       ip: string, subnet: string, gateway: string, dns: string)

  datatype Lookup = NoLease | Found(fact: Fact) | InvalidIface | InvalidMarker | InvalidEvent | MissingAddress

  /** The generation an interface's marker names; an unreadable marker is an error. */
  datatype Active = NoGeneration | Generation(name: string) | BadMarker

  function ActiveGeneration(files: Files, iface: string): Active {
    if Marker(iface) !in files then NoGeneration
    else if SafeGeneration(FirstLine(files[Marker(iface)])) then Generation(FirstLine(files[Marker(iface)]))
    else BadMarker
  }

  function FactOf(iface: string, f: Fields): Fact {
    Fact(ParseEvent(f.event), iface, f.generation, f.ip, f.subnet, f.gateway, f.dns)
  }

  /** Opening and reading the lease of the generation that the marker named. */
  function ReadAs(files: Files, iface: string, active: string): Lookup {
    if Lease(Key(iface, active)) !in files then NoLease else
    var f := FieldsOf(files[Lease(Key(iface, active))], NO_FIELDS);
    var fact := FactOf(iface, f);
    if f.generation != active then NoLease
    else if fact.event == NoEvent then InvalidEvent
    else if fact.event != Deconfig && (fact.ip == "" || fact.subnet == "") then MissingAddress
    else Found(fact)
  }

  function Read(files: Files, iface: string): Lookup {
    if !SafeIface(iface) then InvalidIface else
    match ActiveGeneration(files, iface)
    case NoGeneration => NoLease
    case BadMarker => InvalidMarker
    case Generation(active) => ReadAs(files, iface, active)
  }
}
