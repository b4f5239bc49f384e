/** Callback scripts of any number of DHCP client generations run beside the service:
    every shell command of a script and every file operation of the service is one
    step, and steps interleave freely. */
module LeaseFence {
  import opened JsonText
  import opened KeyValueText
  import opened LeaseStore

  datatype Pc =
    | Begun
    | Current            // saw its own generation active, file not opened yet
    | Writing(lines: seq<bool>)    // lines attempted so far, and which of them succeeded
    | Confirmed(lines: seq<bool>)  // saw its generation active again, about to rename
    | Moved              // renamed, about to look once more
    | Stale              // superseded, about to remove what it renamed
    | Done

  datatype Callback = Callback(report: Report, pc: Pc)

  /** A report whose file was renamed into place, and which of its lines that file has. */
  datatype Publication = Publication(report: Report, lines: seq<bool>)

  datatype World = World(files: Files, callbacks: map<nat, Callback>, published: set<Publication>)

  const BOOT := World(map[], map[], {})

  function Remove(files: Files, p: Path): (r: Files)
    ensures p !in r && forall q :: q != p ==> (q in r <==> q in files) && (q in files ==> r[q] == files[q])
  {
    map q | q in files && q != p :: files[q]
  }

  function KeyOf(r: Report): string { Key(r.iface, r.generation) }

  /** The script's test: a readable marker whose first line is its generation. */
  predicate IsCurrent(files: Files, r: Report) {
    && Marker(r.iface) in files && '\n' in files[Marker(r.iface)]
    && FirstLine(files[Marker(r.iface)]) == r.generation
  }

  predicate Handled(event: string) { event == "bound" || event == "renew" || event == "deconfig" }

  /** One command of the script; `ok` is whether a file operation succeeded. The lines
      are printed in a group whose status is that of its last command: a line before the
      last that fails is simply missing. */
  function Command(files: Files, pid: nat, c: Callback, ok: bool): (Files, Pc) {
    var lease, temp := Lease(KeyOf(c.report)), Temp(KeyOf(c.report), pid);
    match c.pc
    case Begun => (files, if Handled(c.report.event) && IsCurrent(files, c.report) then Current else Done)
    case Current => if ok then (files[temp := ""], Writing([])) else (files, Done)
    case Writing(lines) =>
      if |lines| < LINES then
        if ok && temp in files then
          (files[temp := files[temp] + ReportLine(c.report, |lines|)], Writing(lines + [true]))
        else (files, if |lines| < LINES - 1 then Writing(lines + [false]) else Done)
      else if IsCurrent(files, c.report) then (files, Confirmed(lines))
      else (Remove(files, temp), Done)
    case Confirmed(_) =>
      if ok && temp in files then (Remove(files[lease := files[temp]], temp), Moved) else (files, Done)
    case Moved => (files, if IsCurrent(files, c.report) then Done else Stale)
    case Stale => (Remove(files, lease), Done)
    case Done => (files, Done)
  }

  datatype Step =
    | Activate(iface: string, generation: string)
    | UnlinkLease(iface: string)
    | UnlinkMarker(iface: string)
    | Spawn(pid: nat, report: Report)
    | Go(pid: nat, ok: bool)
    | Kill(pid: nat)

  function MarkerText(generation: string): string { generation + "\n" }

  /** Activating renames a finished marker into place; clearing removes the active
      generation's lease and then the marker. */
  function Take(w: World, s: Step): World {
    match s
    case Activate(iface, g) =>
      if SafeIface(iface) && SafeGeneration(g) then w.(files := w.files[Marker(iface) := MarkerText(g)]) else w
    case UnlinkLease(iface) =>
      var active := ActiveGeneration(w.files, iface);
      if SafeIface(iface) && active.Generation? then w.(files := Remove(w.files, Lease(Key(iface, active.name)))) else w
    case UnlinkMarker(iface) => if SafeIface(iface) then w.(files := Remove(w.files, Marker(iface))) else w
    case Spawn(pid, report) =>
      if pid in w.callbacks || !WellFormed(report) then w
      else w.(callbacks := w.callbacks[pid := Callback(report, Begun)])
    case Go(pid, ok) =>
      if pid !in w.callbacks then w else
      var c := w.callbacks[pid];
      var (files, pc) := Command(w.files, pid, c, ok);
      World(files, w.callbacks[pid := c.(pc := pc)],
            if c.pc.Confirmed? && pc == Moved then w.published + {Publication(c.report, c.pc.lines)} else w.published)
    case Kill(pid) => w.(callbacks := map p | p in w.callbacks && p != pid :: w.callbacks[p])
  }

  function Run(steps: seq<Step>): World {
    if steps == [] then BOOT else Take(Run(steps[..|steps| - 1]), steps[|steps| - 1])
  }

  // ---------------------------------------------------------------- the invariant

  /** Six lines were attempted and the last of them stands. */
  predicate Attempted(lines: seq<bool>) { |lines| == LINES && lines[LINES - 1] }

  ghost predicate Published(text: string, key: string, published: set<Publication>) {
    exists p :: p in published && KeyOf(p.report) == key && text == FileText(p.report, p.lines)
  }

  /** Every lease file is one publication of a callback it belongs to. */
  ghost predicate LeasesOk(files: Files, published: set<Publication>) {
    forall key :: Lease(key) in files ==> Published(files[Lease(key)], key, published)
  }

  /** A callback's temporary file holds what the callback has written so far. */
  ghost predicate TempOk(files: Files, pid: nat, c: Callback) {
    var temp := Temp(KeyOf(c.report), pid);
    && WellFormed(c.report)
    && (c.pc.Writing? ==> && |c.pc.lines| <= LINES && (|c.pc.lines| == LINES ==> Attempted(c.pc.lines))
                          && temp in files && files[temp] == FileText(c.report, c.pc.lines))
    && (c.pc.Confirmed? ==> Attempted(c.pc.lines) && temp in files && files[temp] == FileText(c.report, c.pc.lines))
  }

  ghost predicate Inv(w: World) {
    && LeasesOk(w.files, w.published)
    && (forall pid :: pid in w.callbacks ==> TempOk(w.files, pid, w.callbacks[pid]))
    && (forall p :: p in w.published ==> WellFormed(p.report) && Attempted(p.lines))
  }

  lemma LeasesGrow(files: Files, published: set<Publication>, p: Publication)
    requires LeasesOk(files, published)
    ensures LeasesOk(files[Lease(KeyOf(p.report)) := FileText(p.report, p.lines)], published + {p})
    ensures LeasesOk(files, published + {p})
  {
    hide FileText, KeyOf;
    var more := published + {p};
    forall key | Lease(key) in files ensures Published(files[Lease(key)], key, more) {
      var q :| q in published && KeyOf(q.report) == key && files[Lease(key)] == FileText(q.report, q.lines);
      assert q in more;
    }
    assert p in more;
  }

  /** A command touches only the callback's own temporary and lease files. */
  lemma OnlyOwnFiles(files: Files, pid: nat, c: Callback, ok: bool, p: Path)
    requires p != Temp(KeyOf(c.report), pid) && p != Lease(KeyOf(c.report))
    ensures p in Command(files, pid, c, ok).0 <==> p in files
    ensures p in files ==> Command(files, pid, c, ok).0[p] == files[p]
  {
    hide KeyOf, IsCurrent, ReportLine;
  }

  /** One more attempted line. */
  lemma LineKept(r: Report, lines: seq<bool>, ok: bool)
    ensures FileText(r, lines + [ok]) == FileText(r, lines) + (if ok then ReportLine(r, |lines|) else "")
    ensures FileText(r, []) == ""
  {
    hide ReportLine;
    TextAppend(r, lines, ok, 0);
  }

  lemma CommandKeeps(w: World, pid: nat, ok: bool)
    requires Inv(w) && pid in w.callbacks
    ensures var c := w.callbacks[pid];
            var (files, pc) := Command(w.files, pid, c, ok);
            TempOk(files, pid, c.(pc := pc)) && LeasesOk(files, Take(w, Go(pid, ok)).published)
  {
    hide KeyOf, IsCurrent, ReportLine, WellFormed, Published, FileText;
    var c := w.callbacks[pid];
    assert TempOk(w.files, pid, c);
    if c.pc.Confirmed? {
      LeasesGrow(w.files, w.published, Publication(c.report, c.pc.lines));
    } else if c.pc.Writing? {
      LineKept(c.report, c.pc.lines, ok);
      assert FileText(c.report, c.pc.lines) + "" == FileText(c.report, c.pc.lines);
    } else {
      LineKept(c.report, [], ok);
    }
  }

  lemma GoKeeps(w: World, pid: nat, ok: bool)
    requires Inv(w) && pid in w.callbacks
    ensures Inv(Take(w, Go(pid, ok)))
  {
    hide KeyOf, Command, WellFormed, LeasesOk, FileText;
    CommandKeeps(w, pid, ok);
    var r := Take(w, Go(pid, ok));
    assert TempOk(w.files, pid, w.callbacks[pid]);
    forall p | p in r.callbacks && p != pid ensures TempOk(r.files, p, r.callbacks[p]) {
      assert TempOk(w.files, p, w.callbacks[p]);
      OnlyOwnFiles(w.files, pid, w.callbacks[pid], ok, Temp(KeyOf(w.callbacks[p].report), p));
    }
  }

  lemma StepKeeps(w: World, s: Step)
    requires Inv(w)
    ensures Inv(Take(w, s))
  {
    hide KeyOf, Command, WellFormed, Published, ActiveGeneration, FileText, Attempted;
    if s.Go? {
      if s.pid in w.callbacks { GoKeeps(w, s.pid, s.ok); }
    } else {
      var r := Take(w, s);
      forall p | p in r.callbacks ensures TempOk(r.files, p, r.callbacks[p]) {
        if p in w.callbacks && r.callbacks[p] == w.callbacks[p] {
          assert TempOk(w.files, p, w.callbacks[p]);
        }
      }
    }
  }

  lemma {:induction false} EveryRunOk(steps: seq<Step>)
    ensures Inv(Run(steps))
  {
    if steps != [] {
      hide Inv, Take;
      EveryRunOk(steps[..|steps| - 1]);
      StepKeeps(Run(steps[..|steps| - 1]), steps[|steps| - 1]);
    }
  }

  // ---------------------------------------------------------------- the fence

  /** What a reader that saw generation `active` can find behind it. */
  lemma FoundIsPublished(w: World, iface: string, active: string) returns (p: Publication)
    requires Inv(w) && SafeGeneration(active) && ReadAs(w.files, iface, active).Found?
    ensures p in w.published && p.report.iface == iface && p.report.generation == active
    ensures WellFormed(p.report) && Handled(p.report.event) && Attempted(p.lines) && p.lines[0] && p.lines[1]
    ensures w.files[Lease(Key(iface, active))] == FileText(p.report, p.lines)
    ensures ReadAs(w.files, iface, active).fact == FactOf(iface, FieldsLeft(p.report, p.lines))
  {
    hide FileText, FieldsOf, FirstToken;
    var key := Key(iface, active);
    assert Published(w.files[Lease(key)], key, w.published);
    p :| p in w.published && KeyOf(p.report) == key && w.files[Lease(key)] == FileText(p.report, p.lines);
    LeaseReadsBack(p.report, p.lines);
    KeyIface(p.report.iface, iface, active);
  }

  /** What a fact says of a publication: the event by its name, addresses as they were
      reported, gateway and nameserver as the first word of their lists, and nothing for a
      line that is missing. */
  ghost predicate Tells(fact: Fact, p: Publication)
    requires |p.lines| == LINES
  {
    && fact.iface == p.report.iface && fact.generation == p.report.generation
    && (fact.event == Bound <==> p.report.event == "bound") && (fact.event == Renew <==> p.report.event == "renew")
    && (fact.event == Deconfig <==> p.report.event == "deconfig") && fact.event != NoEvent
    && fact.ip == (if p.lines[2] then p.report.ip else "")
    && fact.subnet == (if p.lines[3] then p.report.subnet else "")
    && (if p.lines[4] then FirstWord(p.report.router, fact.gateway) else fact.gateway == "")
    && (if p.lines[5] then FirstWord(p.report.dns, fact.dns) else fact.dns == "")
  }

  lemma FactTells(p: Publication)
    requires |p.lines| == LINES && p.lines[0] && p.lines[1] && Handled(p.report.event)
    ensures Tells(FactOf(p.report.iface, FieldsLeft(p.report, p.lines)), p)
  {
    hide FirstToken, FirstWord;
    TokenIsWord(p.report.router);
    TokenIsWord(p.report.dns);
    assert "bound" != "renew" && "bound" != "deconfig" && "renew" != "deconfig";
  }

  /** Whatever ran before, a fact that is read was reported to a callback of that
      interface's active generation: never by another generation, and never for another
      interface whose file name happens to be the same. Of that report it says what the
      file's lines say; generation and event are always among them, and it is the full
      report exactly when no missing line held anything. */
  lemma ReadIsFresh(steps: seq<Step>, iface: string) returns (p: Publication)
    requires Read(Run(steps).files, iface).Found?
    ensures p in Run(steps).published && p.report.iface == iface
    ensures ActiveGeneration(Run(steps).files, iface) == Generation(p.report.generation)
    ensures Attempted(p.lines) && p.lines[0] && p.lines[1]
    ensures Tells(Read(Run(steps).files, iface).fact, p)
    ensures Read(Run(steps).files, iface).fact == FactOf(iface, FieldsFrom(p.report)) <==> NothingLost(p.report, p.lines)
  {
    hide Run, ReadAs, FieldsLeft, FieldsFrom, FactOf, Inv, WellFormed, Handled, NothingLost, Tells;
    EveryRunOk(steps);
    p := FoundIsPublished(Run(steps), iface, ActiveGeneration(Run(steps).files, iface).name);
    SameFact(p.report, p.lines);
    FactTells(p);
  }

  /** The service looks at the marker and opens the lease later. Whatever happened in
      between, what it then finds was reported to a callback of the generation it saw. */
  lemma LaterReadIsFresh(steps: seq<Step>, more: seq<Step>, iface: string) returns (p: Publication)
    requires var seen := ActiveGeneration(Run(steps).files, iface);
             seen.Generation? && ReadAs(Run(steps + more).files, iface, seen.name).Found?
    ensures p in Run(steps + more).published && p.report.iface == iface
    ensures ActiveGeneration(Run(steps).files, iface) == Generation(p.report.generation)
    ensures Attempted(p.lines) && p.lines[0] && p.lines[1]
    ensures Tells(ReadAs(Run(steps + more).files, iface, p.report.generation).fact, p)
  {
    hide Run, ReadAs, FieldsLeft, FactOf, Inv, WellFormed, Tells;
    EveryRunOk(steps + more);
    p := FoundIsPublished(Run(steps + more), iface, ActiveGeneration(Run(steps).files, iface).name);
    FactTells(p);
  }

  predicate CallbackStep(s: Step) { s.Spawn? || s.Go? || s.Kill? }

  /** Callbacks never change a marker, so with only callbacks in between the two looks
      amount to one look at the later moment. */
  lemma {:induction false} CallbacksKeepMarker(steps: seq<Step>, more: seq<Step>, iface: string)
    requires forall s :: s in more ==> CallbackStep(s)
    ensures ActiveGeneration(Run(steps + more).files, iface) == ActiveGeneration(Run(steps).files, iface)
  {
    hide Command;
    if more == [] {
      assert steps + more == steps;
    } else {
      var before, s := more[..|more| - 1], more[|more| - 1];
      assert s in more && forall b :: b in before ==> b in more;
      CallbacksKeepMarker(steps, before, iface);
      assert (steps + more)[..|steps + more| - 1] == steps + before;
      var w := Run(steps + before);
      assert Run(steps + more) == Take(w, s);
      if s.Go? && s.pid in w.callbacks {
        OnlyOwnFiles(w.files, s.pid, w.callbacks[s.pid], s.ok, Marker(iface));
      }
    }
  }

  /** A callback that belongs to another lease file never touches this one, at any of its
      commands. */
  lemma OtherKeysHarmless(w: World, pid: nat, ok: bool, key: string)
    requires pid in w.callbacks && KeyOf(w.callbacks[pid].report) != key
    ensures var after := Take(w, Go(pid, ok));
            && (Lease(key) in after.files <==> Lease(key) in w.files)
            && (Lease(key) in w.files ==> after.files[Lease(key)] == w.files[Lease(key)])
  {
    hide Command;
    OnlyOwnFiles(w.files, pid, w.callbacks[pid], ok, Lease(key));
  }

  /** A callback of an interface's earlier generation never touches the lease of its
      active one, nor the marker. */
  lemma StaleIsHarmless(w: World, pid: nat, ok: bool, active: string)
    requires pid in w.callbacks && w.callbacks[pid].report.generation != active
    ensures var c := w.callbacks[pid];
            var lease := Lease(Key(c.report.iface, active));
            var after := Take(w, Go(pid, ok));
            && (lease in after.files <==> lease in w.files)
            && (lease in w.files ==> after.files[lease] == w.files[lease])
            && ActiveGeneration(after.files, c.report.iface) == ActiveGeneration(w.files, c.report.iface)
  {
    hide Command, Key;
    var c := w.callbacks[pid];
    if Key(c.report.iface, active) == KeyOf(c.report) {
      KeyInjective(c.report.iface, active, c.report.generation);
    }
    OtherKeysHarmless(w, pid, ok, Key(c.report.iface, active));
    OnlyOwnFiles(w.files, pid, c, ok, Marker(c.report.iface));
  }

  /** With generations as the service names them, no callback of any other interface or
      generation touches an active lease. */
  lemma OthersAreHarmless(w: World, pid: nat, ok: bool, iface: string, active: string)
    requires pid in w.callbacks && ServiceGeneration(active) && ServiceGeneration(w.callbacks[pid].report.generation)
    requires w.callbacks[pid].report.iface != iface || w.callbacks[pid].report.generation != active
    ensures var lease := Lease(Key(iface, active));
            var after := Take(w, Go(pid, ok));
            && (lease in after.files <==> lease in w.files)
            && (lease in w.files ==> after.files[lease] == w.files[lease])
  {
    hide Command, Key, Take, ServiceGeneration;
    var r := w.callbacks[pid].report;
    if KeyOf(r) == Key(iface, active) {
      ServiceKeysDistinct(r.iface, r.generation, iface, active);
    }
    OtherKeysHarmless(w, pid, ok, Key(iface, active));
  }

  /** Other generation names could make file names of two interfaces equal, and then one's
      callback replaces the other's file; such a file is still never taken for a lease. */
  lemma CollidingLeaseIgnored(files: Files, iface: string, active: string, r: Report, lines: seq<bool>)
    requires SafeIface(iface) && ActiveGeneration(files, iface) == Generation(active)
    requires WellFormed(r) && |lines| == LINES && r.iface != iface && KeyOf(r) == Key(iface, active)
    requires Lease(KeyOf(r)) in files && files[Lease(KeyOf(r))] == FileText(r, lines)
    ensures Read(files, iface) == NoLease
  {
    hide FileText, FieldsOf, FirstToken, Key;
    LeaseReadsBack(r, lines);
    if r.generation == active { KeyIface(r.iface, iface, active); }
    SafeIsSomething(files, iface);
  }

  lemma SafeIsSomething(files: Files, iface: string)
    requires ActiveGeneration(files, iface).Generation?
    ensures ActiveGeneration(files, iface).name != ""
  {
  }

  lemma NamesCollide()
    ensures SafeIface("a_b") && SafeIface("a") && Key("a_b", "c") == Key("a", "b_c")
  {
  }

  // ---------------------------------------------------------------- delivery

  /** The callback's next commands, with these outcomes. */
  function Goes(w: World, pid: nat, outcomes: seq<bool>): World {
    if outcomes == [] then w
    else Take(Goes(w, pid, outcomes[..|outcomes| - 1]), Go(pid, outcomes[|outcomes| - 1]))
  }

  lemma GoesOne(w: World, pid: nat, outcomes: seq<bool>, ok: bool)
    ensures Goes(w, pid, outcomes + [ok]) == Take(Goes(w, pid, outcomes), Go(pid, ok))
  {
    assert (outcomes + [ok])[..|outcomes|] == outcomes;
  }

  /** A callback that stands where it is about to write its next line. */
  ghost predicate At(w: World, pid: nat, r: Report, pc: Pc) {
    Inv(w) && pid in w.callbacks && w.callbacks[pid] == Callback(r, pc) && IsCurrent(w.files, r)
  }

  lemma MarkerStays(w: World, pid: nat, ok: bool)
    requires pid in w.callbacks && IsCurrent(w.files, w.callbacks[pid].report)
    ensures IsCurrent(Take(w, Go(pid, ok)).files, w.callbacks[pid].report)
  {
    hide Command;
    var r := w.callbacks[pid].report;
    OnlyOwnFiles(w.files, pid, w.callbacks[pid], ok, Marker(r.iface));
  }

  lemma Opens(w: World, pid: nat, r: Report)
    requires At(w, pid, r, Begun) && Handled(r.event)
    ensures At(Goes(w, pid, [true, true]), pid, r, Writing([]))
  {
    hide KeyOf, FirstLine, Handled, IsCurrent, Inv;
    var one := Take(w, Go(pid, true));
    GoesOne(w, pid, [], true);
    GoesOne(w, pid, [true], true);
    assert [] + [true] == [true] && [true] + [true] == [true, true];
    StepKeeps(w, Go(pid, true));
    MarkerStays(w, pid, true);
    StepKeeps(one, Go(pid, true));
    MarkerStays(one, pid, true);
  }

  lemma Prints(w: World, pid: nat, r: Report, lines: seq<bool>, ok: bool)
    requires At(w, pid, r, Writing(lines)) && |lines| < LINES && (|lines| == LINES - 1 ==> ok)
    ensures At(Take(w, Go(pid, ok)), pid, r, Writing(lines + [ok]))
  {
    hide KeyOf, FirstLine, ReportLine, IsCurrent, LeasesOk, FileText;
    assert TempOk(w.files, pid, w.callbacks[pid]);
    StepKeeps(w, Go(pid, ok));
    MarkerStays(w, pid, ok);
  }

  lemma {:induction false} Writes(w: World, pid: nat, r: Report, lines: seq<bool>)
    requires At(w, pid, r, Begun) && Handled(r.event) && |lines| <= LINES && (|lines| == LINES ==> Attempted(lines))
    ensures At(Goes(w, pid, [true, true] + lines), pid, r, Writing(lines))
    decreases |lines|
  {
    hide At, Take, Handled;
    if lines == [] {
      assert [true, true] + lines == [true, true];
      Opens(w, pid, r);
    } else {
      var before, ok := lines[..|lines| - 1], lines[|lines| - 1];
      Writes(w, pid, r, before);
      assert lines == before + [ok] && [true, true] + lines == ([true, true] + before) + [ok];
      GoesOne(w, pid, [true, true] + before, ok);
      Prints(Goes(w, pid, [true, true] + before), pid, r, before, ok);
    }
  }

  /** With the lines written, two more commands publish the file. */
  lemma Publishes(w: World, pid: nat, r: Report, lines: seq<bool>)
    requires At(w, pid, r, Writing(lines)) && |lines| == LINES
    ensures var moved := Take(Take(w, Go(pid, true)), Go(pid, true));
            && Publication(r, lines) in moved.published && IsCurrent(moved.files, r)
            && Lease(KeyOf(r)) in moved.files && moved.files[Lease(KeyOf(r))] == FileText(r, lines)
  {
    hide KeyOf, FirstLine, ReportLine, WellFormed, FileText, LeasesOk;
    assert TempOk(w.files, pid, w.callbacks[pid]);
    var confirmed := Take(w, Go(pid, true));
    assert confirmed.files == w.files && confirmed.callbacks[pid].pc == Confirmed(lines);
    MarkerStays(confirmed, pid, true);
  }

  /** What reading a published file of the active generation gives, for any missing
      lines. */
  lemma PublishedIsRead(files: Files, r: Report, lines: seq<bool>)
    requires WellFormed(r) && IsCurrent(files, r) && Handled(r.event) && |lines| == LINES
    requires Lease(KeyOf(r)) in files && files[Lease(KeyOf(r))] == FileText(r, lines)
    ensures Read(files, r.iface) ==
            if !lines[0] then NoLease
            else if !lines[1] then InvalidEvent
            else if r.event != "deconfig" && !(lines[2] && r.ip != "" && lines[3] && r.subnet != "") then MissingAddress
            else Found(FactOf(r.iface, FieldsLeft(r, lines)))
  {
    hide FileText, FieldsOf, FirstToken, FirstLine, Key;
    LeaseReadsBack(r, lines);
  }

  lemma Arrives(w: World, pid: nat, r: Report, lines: seq<bool>)
    requires At(w, pid, r, Begun) && Handled(r.event) && Attempted(lines)
    ensures var files := Goes(w, pid, [true, true] + lines + [true, true]).files;
            && WellFormed(r) && IsCurrent(files, r)
            && Lease(KeyOf(r)) in files && files[Lease(KeyOf(r))] == FileText(r, lines)
  {
    hide Take, FileText, IsCurrent, Handled, KeyOf, At;
    Writes(w, pid, r, lines);
    Publishes(Goes(w, pid, [true, true] + lines), pid, r, lines);
    GoesOne(w, pid, [true, true] + lines, true);
    GoesOne(w, pid, [true, true] + lines + [true], true);
    assert [true, true] + lines + [true] + [true] == [true, true] + lines + [true, true];
    AtWellFormed(w, pid, r);
  }

  /** Left alone, a callback of the active generation publishes whatever lines could be
      written, and the reader gets its full report exactly when no missing line held
      anything; with all lines written, the fact tells the report. */
  lemma CallbackDelivers(w: World, pid: nat, r: Report, lines: seq<bool>)
    requires At(w, pid, r, Begun) && Handled(r.event) && Attempted(lines)
    requires r.event == "deconfig" || (r.ip != "" && r.subnet != "")
    ensures var files := Goes(w, pid, [true, true] + lines + [true, true]).files;
            && Lease(KeyOf(r)) in files
            && (files[Lease(KeyOf(r))] == LeaseText(r) <==> lines == AllLines())
            && (Read(files, r.iface) == Found(FactOf(r.iface, FieldsFrom(r))) <==> NothingLost(r, lines))
            && (lines == AllLines() ==> Read(files, r.iface).Found?
                                        && Tells(Read(files, r.iface).fact, Publication(r, lines)))
  {
    hide Goes, FileText, LeaseText, IsCurrent, Handled, KeyOf, Read, At, FactOf, FirstToken, WellFormed, Tells;
    Arrives(w, pid, r, lines);
    PublishedIsRead(Goes(w, pid, [true, true] + lines + [true, true]).files, r, lines);
    WholeExactly(r, lines);
    SameFact(r, lines);
    if lines == AllLines() { FactTells(Publication(r, lines)); }
  }

  // ---------------------------------------------------------------- the service's own steps

  /** Activating makes a generation the active one, and no other file changes. */
  lemma ActivateMeans(w: World, iface: string, g: string)
    requires SafeIface(iface) && SafeGeneration(g)
    ensures var after := Take(w, Activate(iface, g));
            && ActiveGeneration(after.files, iface) == Generation(g)
            && forall p :: p != Marker(iface) ==> (p in after.files <==> p in w.files) &&
                                                  (p in w.files ==> after.files[p] == w.files[p])
  {
    hide SafeText, FirstLine;
    MarkerReads(g);
  }

  /** After a clear there is no lease to read, nor a generation; the lease file of the
      generation that was active is gone, and no other file but the marker. */
  lemma ClearMeans(w: World, iface: string)
    requires SafeIface(iface)
    ensures var after := Take(Take(w, UnlinkLease(iface)), UnlinkMarker(iface));
            && Read(after.files, iface) == NoLease && ActiveGeneration(after.files, iface) == NoGeneration
            && (ActiveGeneration(w.files, iface).Generation? ==>
                  Lease(Key(iface, ActiveGeneration(w.files, iface).name)) !in after.files)
            && forall p :: p in after.files <==>
                 p in w.files && p != Marker(iface) &&
                 !(ActiveGeneration(w.files, iface).Generation? && p == Lease(Key(iface, ActiveGeneration(w.files, iface).name)))
  {
    hide ActiveGeneration, Key;
    NoMarkerNoGeneration(Take(Take(w, UnlinkLease(iface)), UnlinkMarker(iface)).files, iface);
  }

  lemma NoMarkerNoGeneration(files: Files, iface: string)
    requires Marker(iface) !in files
    ensures ActiveGeneration(files, iface) == NoGeneration
  {
  }

  lemma AtWellFormed(w: World, pid: nat, r: Report)
    requires At(w, pid, r, Begun)
    ensures WellFormed(r)
  {
    assert TempOk(w.files, pid, w.callbacks[pid]);
  }

  /** Two files make the same fact exactly when nothing was lost. */
  lemma SameFact(r: Report, lines: seq<bool>)
    requires WellFormed(r) && Handled(r.event) && |lines| == LINES
    ensures lines[1] ==> (FactOf(r.iface, FieldsLeft(r, lines)) == FactOf(r.iface, FieldsFrom(r)) <==> NothingLost(r, lines))
    ensures NothingLost(r, lines) ==> lines[0] && lines[1] && (r.ip != "" ==> lines[2]) && (r.subnet != "" ==> lines[3])
  {
    hide FirstToken;
  }

  // ---------------------------------------------------------------- a short lease

  /** A lost middle line is not noticed: the lease is read, without its gateway. */
  lemma ShortLeaseIsRead() returns (steps: seq<Step>, r: Report)
    ensures var files := Run(steps).files;
            && ActiveGeneration(files, r.iface) == Generation(r.generation)
            && Read(files, r.iface).Found? && Read(files, r.iface).fact.gateway == ""
            && Read(files, r.iface) != Found(FactOf(r.iface, FieldsFrom(r)))
  {
    r := Report("eth0", "1_2_3", "bound", "10.0.0.2", "255.0.0.0", "10.0.0.1", "10.0.0.1");
    var lines := [true, true, true, true, false, true];
    var start := [Activate(r.iface, r.generation), Spawn(7, r)];
    ShortLeaseStarts(r, start);
    var outcomes := [true, true] + lines + [true, true];
    steps := start + Commands(7, outcomes);
    RunGoes(start, 7, outcomes);
    ShortLeaseReads(Run(start), r, lines);
  }

  function Commands(pid: nat, outcomes: seq<bool>): seq<Step> {
    if outcomes == [] then []
    else Commands(pid, outcomes[..|outcomes| - 1]) + [Go(pid, outcomes[|outcomes| - 1])]
  }

  lemma {:induction false} RunGoes(start: seq<Step>, pid: nat, outcomes: seq<bool>)
    ensures Run(start + Commands(pid, outcomes)) == Goes(Run(start), pid, outcomes)
  {
    if outcomes == [] {
      assert start + Commands(pid, outcomes) == start;
    } else {
      var before, s := Commands(pid, outcomes[..|outcomes| - 1]), Go(pid, outcomes[|outcomes| - 1]);
      RunGoes(start, pid, outcomes[..|outcomes| - 1]);
      var all := start + (before + [s]);
      assert all[..|all| - 1] == start + before;
    }
  }

  lemma ShortLeaseStarts(r: Report, start: seq<Step>)
    requires r == Report("eth0", "1_2_3", "bound", "10.0.0.2", "255.0.0.0", "10.0.0.1", "10.0.0.1")
    requires start == [Activate(r.iface, r.generation), Spawn(7, r)]
    ensures At(Run(start), 7, r, Begun) && ActiveGeneration(Run(start).files, r.iface) == Generation(r.generation)
  {
    EveryRunOk(start);
    ExampleIsFine(r);
    MarkerReads(r.generation);
    hide SafeText, WellFormed, FirstLine, Inv;
    assert start[..1] == [start[0]] && start[..1][..0] == [];
    assert Run(start[..1]) == Take(Run([]), start[0]);
    assert Run(start) == Take(Run(start[..1]), start[1]);
  }

  lemma MarkerReads(g: string)
    requires SafeGeneration(g)
    ensures FirstLine(MarkerText(g)) == g && '\n' in MarkerText(g)
  {
    SafeIsOneLine(g);
    assert MarkerText(g) == g + ['\n'] + "";
    FoundAt(g, '\n', "");
    assert MarkerText(g)[|g|] == '\n';
  }

  lemma ExampleIsFine(r: Report)
    requires r == Report("eth0", "1_2_3", "bound", "10.0.0.2", "255.0.0.0", "10.0.0.1", "10.0.0.1")
    ensures WellFormed(r)
  {
  }

  lemma ShortLeaseReads(w: World, r: Report, lines: seq<bool>)
    requires r == Report("eth0", "1_2_3", "bound", "10.0.0.2", "255.0.0.0", "10.0.0.1", "10.0.0.1")
    requires At(w, 7, r, Begun) && lines == [true, true, true, true, false, true]
    ensures var files := Goes(w, 7, [true, true] + lines + [true, true]).files;
            && ActiveGeneration(files, r.iface) == Generation(r.generation)
            && Read(files, r.iface).Found? && Read(files, r.iface).fact.gateway == ""
            && Read(files, r.iface) != Found(FactOf(r.iface, FieldsFrom(r)))
  {
    hide Goes, At, FileText, Key, FirstLine, FieldsOf, FirstToken, WellFormed, ReadAs;
    Arrives(w, 7, r, lines);
    PublishedIsRead(Goes(w, 7, [true, true] + lines + [true, true]).files, r, lines);
    CurrentIsActive(Goes(w, 7, [true, true] + lines + [true, true]).files, r);
    WordIsToken(r.router);
  }

  lemma CurrentIsActive(files: Files, r: Report)
    requires IsCurrent(files, r) && WellFormed(r)
    ensures ActiveGeneration(files, r.iface) == Generation(r.generation)
  {
  }

  lemma WordIsToken(s: string)
    requires s != "" && !IsSpace(s[0])
    ensures FirstToken(s) != ""
  {
  }
}
