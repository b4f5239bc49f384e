/** The Wi-Fi scan lifecycle over the supplicant's event counters: when a scan may be
    called ready. */
module ScanFence {

  const UINT64_MAX := 0xFFFF_FFFF_FFFF_FFFF

  // ---------------------------------------------------------------- the event monitor

  /** Sequences of the latest event and of the latest scan events. */
  datatype Markers = Markers(sequence: nat, started: nat, completed: nat, failed: nat)

  const NO_MARKERS := Markers(0, 0, 0, 0)

  predicate Contains(text: string, part: string) {
    exists i :: 0 <= i <= |text| && part <= text[i..]
  }

  predicate IsStarted(event: string) { Contains(event, "CTRL-EVENT-SCAN-STARTED") }
  predicate IsResults(event: string) { Contains(event, "CTRL-EVENT-SCAN-RESULTS") }
  predicate IsFailed(event: string) { Contains(event, "CTRL-EVENT-SCAN-FAILED") }

  /** The 64-bit counter skips 0 when it wraps. */
  function Bumped(n: nat): nat { if n >= UINT64_MAX then 1 else n + 1 }

  function Observe(m: Markers, event: string): Markers {
    var n := Bumped(m.sequence);
    Markers(n, if IsStarted(event) then n else m.started,
            if IsResults(event) then n else m.completed,
            if IsFailed(event) then n else m.failed)
  }

  /** Status replies and a lost channel count without being scan events. */
  function Bump(m: Markers): Markers { m.(sequence := Bumped(m.sequence)) }

  // ---------------------------------------------------------------- the lifecycle

  datatype State = Idle | Scanning | Ready | Failed
  datatype Scan = Scan(id: nat, state: State, error: string, records: seq<string>, baseline: Markers, deadline: int)

  /** What a start or results call of the platform returned. */
  datatype Launch = Launched | LaunchError(error: string)
  datatype Fetch = Fetch(records: seq<string>, error: string)

  const NO_SCAN := Scan(0, Idle, "", [], NO_MARKERS, 0)

  function Fail(s: Scan, error: string): Scan {
    s.(state := Failed, error := if error == "" then "scan_failed" else error, records := [])
  }

  function StartScan(s: Scan, m: Markers, now: int, timeout: nat, launch: Launch): Scan {
    if s.state == Scanning then s else
    var begun := Scan(Bumped(s.id), Scanning, "", [], m, now + timeout);
    if launch.Launched? then begun
    else Fail(begun, if launch.error == "" then "scan_start_failed" else launch.error)
  }

  function PollScan(s: Scan, m: Markers, now: int, fetch: Fetch): Scan {
    if s.state != Scanning then s else
    var begun := m.started > s.baseline.sequence;
    if begun && m.failed > m.started && m.failed > m.completed then Fail(s, "scan_failed")
    else if begun && m.completed > m.started then
      if fetch.error != "" then Fail(s, "scan_results_failed: " + fetch.error)
      else s.(state := Ready, error := "", records := fetch.records)
    else if now >= s.deadline then Fail(s, "timeout")
    else s
  }

  class WifiScanLifecycle {
    const timeout: nat
    var id: nat
    var state: State
    var error: string
    var records: seq<string>
    var baseline: Markers
    var deadline: int

    function View(): Scan
      reads this
    {
      Scan(id, state, error, records, baseline, deadline)
    }

    constructor (limit: nat)
      ensures View() == NO_SCAN && timeout == if limit > 0 then limit else 5000
    {
      timeout := if limit > 0 then limit else 5000;
      id, state, error, records, baseline, deadline := 0, Idle, "", [], NO_MARKERS, 0;
    }

    method Abort(reason: string)
      modifies this
      ensures View() == Fail(old(View()), reason)
    {
      state := Failed;
      error := if reason == "" then "scan_failed" else reason;
      records := [];
    }

    method Start(m: Markers, now: int, launch: Launch)
      modifies this
      ensures View() == StartScan(old(View()), m, now, timeout, launch)
    {
      if state == Scanning { return; }
      id := Bumped(id);
      state, error, records, baseline, deadline := Scanning, "", [], m, now + timeout;
      if launch.LaunchError? { Abort(if launch.error == "" then "scan_start_failed" else launch.error); }
    }

    method Poll(m: Markers, now: int, fetch: Fetch)
      modifies this
      ensures View() == PollScan(old(View()), m, now, fetch)
    {
      if state != Scanning { return; }
      var begun := m.started > baseline.sequence;
      if begun && m.failed > m.started && m.failed > m.completed {
        Abort("scan_failed");
        return;
      }
      if begun && m.completed > m.started {
        if fetch.error != "" {
          Abort("scan_results_failed: " + fetch.error);
          return;
        }
        records := fetch.records;
        state, error := Ready, "";
        return;
      }
      if now >= deadline { Abort("timeout"); }
    }
  }

  // ---------------------------------------------------------------- histories

  /** `log` holds every counted event ("" for one that is no scan event), `mark` its
      length when the latest scan took its baseline. */
  datatype World = World(markers: Markers, scan: Scan, now: int, timeout: nat, log: seq<string>, mark: nat)

  datatype Step =
    | Event(text: string)
    | OtherChange
    | Tick(d: nat)
    | Starting(launch: Launch)
    | Polling(fetch: Fetch)

  function Boot(timeout: nat): World { World(NO_MARKERS, NO_SCAN, 0, timeout, [], 0) }

  function Take(w: World, s: Step): World {
    match s
    case Event(text) => w.(markers := Observe(w.markers, text), log := w.log + [text])
    case OtherChange => w.(markers := Bump(w.markers), log := w.log + [""])
    case Tick(d) => w.(now := w.now + d)
    case Starting(launch) =>
      w.(scan := StartScan(w.scan, w.markers, w.now, w.timeout, launch),
         mark := if w.scan.state == Scanning then w.mark else |w.log|)
    case Polling(fetch) => w.(scan := PollScan(w.scan, w.markers, w.now, fetch))
  }

  function Run(timeout: nat, steps: seq<Step>): World {
    if steps == [] then Boot(timeout) else Take(Run(timeout, steps[..|steps| - 1]), steps[|steps| - 1])
  }

  // ---------------------------------------------------------------- what the log says

  /** Some scan began after the baseline. */
  ghost predicate StartedSince(log: seq<string>, mark: nat) {
    exists i :: mark <= i < |log| && IsStarted(log[i])
  }

  ghost predicate NoStartFrom(log: seq<string>, j: nat) { forall k :: j <= k < |log| ==> !IsStarted(log[k]) }
  ghost predicate NoResultsFrom(log: seq<string>, j: nat) { forall k :: j <= k < |log| ==> !IsResults(log[k]) }

  /** Results came in behind the latest start. */
  ghost predicate ResultsLast(log: seq<string>) {
    exists j :: 0 <= j < |log| && IsResults(log[j]) && NoStartFrom(log, j)
  }

  /** A failure came in behind the latest start and the latest results. */
  ghost predicate FailureLast(log: seq<string>) {
    exists j :: 0 <= j < |log| && IsFailed(log[j]) && NoStartFrom(log, j) && NoResultsFrom(log, j)
  }

  /** `n` is one more than the position of the latest event of a kind, or 0. */
  ghost predicate LatestStart(log: seq<string>, n: nat) {
    n <= |log| && (n > 0 ==> IsStarted(log[n - 1])) && NoStartFrom(log, n)
  }

  ghost predicate LatestResults(log: seq<string>, n: nat) {
    n <= |log| && (n > 0 ==> IsResults(log[n - 1])) && NoResultsFrom(log, n)
  }

  ghost predicate LatestFailure(log: seq<string>, n: nat) {
    n <= |log| && (n > 0 ==> IsFailed(log[n - 1])) && forall k :: n <= k < |log| ==> !IsFailed(log[k])
  }

  ghost predicate Faithful(w: World) {
    && w.markers.sequence == |w.log|
    && LatestStart(w.log, w.markers.started) && LatestResults(w.log, w.markers.completed)
    && LatestFailure(w.log, w.markers.failed)
    && w.mark <= |w.log| && (w.scan.state != Idle ==> w.scan.baseline.sequence == w.mark)
  }

  lemma PlainIsNoScanEvent()
    ensures !IsStarted("") && !IsResults("") && !IsFailed("")
  {
  }

  lemma TakeFaithful(w: World, s: Step)
    requires Faithful(w) && |Take(w, s).log| <= UINT64_MAX
    ensures Faithful(Take(w, s))
  {
    hide IsStarted, IsResults, IsFailed;
    PlainIsNoScanEvent();
    var r := Take(w, s);
    if s.Event? || s.OtherChange? {
      assert forall k :: 0 <= k < |w.log| ==> r.log[k] == w.log[k];
    }
  }

  lemma {:induction false} RunFaithful(timeout: nat, steps: seq<Step>)
    requires |Run(timeout, steps).log| <= UINT64_MAX
    ensures Faithful(Run(timeout, steps))
  {
    if steps != [] {
      hide Faithful, Observe;
      RunFaithful(timeout, steps[..|steps| - 1]);
      TakeFaithful(Run(timeout, steps[..|steps| - 1]), steps[|steps| - 1]);
    } else {
      assert Faithful(Boot(timeout));
    }
  }

  /** The markers tell exactly what the log says. */
  lemma MarkersMean(w: World)
    requires Faithful(w)
    ensures w.markers.started > w.mark <==> StartedSince(w.log, w.mark)
    ensures w.markers.completed > w.markers.started <==> ResultsLast(w.log)
    ensures w.markers.failed > w.markers.started && w.markers.failed > w.markers.completed <==> FailureLast(w.log)
  {
    hide IsStarted, IsResults, IsFailed;
    var m := w.markers;
    if m.started > w.mark { assert IsStarted(w.log[m.started - 1]); }
    if m.completed > m.started { assert IsResults(w.log[m.completed - 1]) && NoStartFrom(w.log, m.completed - 1); }
    if m.failed > m.started && m.failed > m.completed {
      assert IsFailed(w.log[m.failed - 1]) && NoStartFrom(w.log, m.failed - 1) && NoResultsFrom(w.log, m.failed - 1);
    }
  }

  /** While the counter has not wrapped, a poll of a running scan calls it ready exactly
      when a scan was seen to start after this scan's baseline and results arrived behind
      the latest start, unless a failure came later or the results cannot be fetched.
      Results seen before the baseline never count. At or past its deadline no poll
      leaves it scanning. */
  lemma PollIsFenced(timeout: nat, steps: seq<Step>, fetch: Fetch)
    requires var w := Run(timeout, steps); |w.log| <= UINT64_MAX && w.scan.state == Scanning
    ensures var w := Run(timeout, steps);
            var after := Take(w, Polling(fetch)).scan;
            && (after.state == Ready <==>
                  StartedSince(w.log, w.mark) && ResultsLast(w.log) && !FailureLast(w.log) && fetch.error == "")
            && (after.state == Scanning <==>
                  !(StartedSince(w.log, w.mark) && (ResultsLast(w.log) || FailureLast(w.log))) && w.now < w.scan.deadline)
            && (after.state == Ready || after.state == Scanning || after.state == Failed)
            && (after.state == Ready ==> after.records == fetch.records && after.error == "")
            && (after.state == Scanning ==> after == w.scan)
            && (after.state == Failed ==>
                  && after.records == []
                  && after.error == if StartedSince(w.log, w.mark) && FailureLast(w.log) then "scan_failed"
                                    else if StartedSince(w.log, w.mark) && ResultsLast(w.log)
                                    then "scan_results_failed: " + fetch.error
                                    else "timeout")
  {
    RunFaithful(timeout, steps);
    MarkersMean(Run(timeout, steps));
    hide Run, Faithful, StartedSince, ResultsLast, FailureLast;
  }

  /** Starting again while scanning changes nothing; otherwise it opens a new generation
      whose baseline is the present. */
  lemma StartOpensGeneration(w: World, launch: Launch)
    ensures w.scan.state == Scanning ==> Take(w, Starting(launch)) == w
    ensures w.scan.state != Scanning ==>
              && Take(w, Starting(launch)).mark == |w.log| && Take(w, Starting(launch)).scan.records == []
              && Take(w, Starting(launch)).scan.id != w.scan.id
              && !StartedSince(w.log, Take(w, Starting(launch)).mark)
  {
  }

  /** A scan that is launched scans until its timeout from now, against the markers of
      now; one that cannot be launched has failed, with the reason that was given. */
  lemma StartMeans(w: World, launch: Launch)
    requires w.scan.state != Scanning
    ensures var after := Take(w, Starting(launch)).scan;
            && after.id != w.scan.id && after.records == []
            && after.baseline == w.markers && after.deadline == w.now + w.timeout
            && (launch.Launched? ==> after.state == Scanning && after.error == "")
            && (launch.LaunchError? ==>
                  && after.state == Failed
                  && after.error == if launch.error == "" then "scan_start_failed" else launch.error)
  {
  }

  /** Nothing but a new start moves a running scan's baseline or deadline. */
  lemma DeadlineStays(w: World, s: Step)
    requires w.scan.state == Scanning && Take(w, s).scan.state == Scanning
    ensures Take(w, s).scan == w.scan
  {
    hide Observe;
  }

  // ---------------------------------------------------------------- why the bound

  function Quiet(n: nat): (steps: seq<Step>) { if n == 0 then [] else Quiet(n - 1) + [OtherChange] }

  /** What the counter shows after `n` counted events. */
  function Position(n: nat): nat { if n == 0 then 0 else (n - 1) % UINT64_MAX + 1 }

  lemma PositionBumps(n: nat)
    ensures Bumped(Position(n)) == Position(n + 1)
  {
    if n > 0 {
      assert (n % UINT64_MAX) == if (n - 1) % UINT64_MAX == UINT64_MAX - 1 then 0 else (n - 1) % UINT64_MAX + 1;
    }
  }

  lemma {:induction false} QuietRun(timeout: nat, steps: seq<Step>, n: nat)
    requires var w := Run(timeout, steps); w.markers.sequence == Position(|w.log|)
    ensures var w, r := Run(timeout, steps), Run(timeout, steps + Quiet(n));
            && r == w.(markers := w.markers.(sequence := Position(|w.log| + n)), log := r.log)
            && |r.log| == |w.log| + n && w.log <= r.log && forall k :: |w.log| <= k < |r.log| ==> r.log[k] == ""
  {
    hide Run, Position, IsStarted, IsResults, IsFailed;
    if n == 0 {
      assert steps + Quiet(n) == steps;
    } else {
      QuietRun(timeout, steps, n - 1);
      assert Quiet(n) == Quiet(n - 1) + [OtherChange];
      assert steps + Quiet(n) == (steps + Quiet(n - 1)) + [OtherChange];
      RunAppend(timeout, steps + Quiet(n - 1), OtherChange);
      PositionBumps(|Run(timeout, steps).log| + n - 1);
    }
  }

  lemma RunAppend(timeout: nat, steps: seq<Step>, s: Step)
    ensures Run(timeout, steps + [s]) == Take(Run(timeout, steps), s)
  {
    assert (steps + [s])[..|steps|] == steps;
  }

  lemma SameLength(a: string, b: string)
    requires |a| == |b|
    ensures Contains(a, b) <==> a == b
  {
    assert a[0..] == a;
  }

  lemma MarkersOfWords()
    ensures IsStarted("CTRL-EVENT-SCAN-STARTED") && !IsResults("CTRL-EVENT-SCAN-STARTED")
    ensures IsResults("CTRL-EVENT-SCAN-RESULTS") && !IsStarted("CTRL-EVENT-SCAN-RESULTS")
    ensures !IsFailed("CTRL-EVENT-SCAN-STARTED") && !IsFailed("CTRL-EVENT-SCAN-RESULTS")
  {
    var a, b, c := "CTRL-EVENT-SCAN-STARTED", "CTRL-EVENT-SCAN-RESULTS", "CTRL-EVENT-SCAN-FAILED";
    assert |a| == 23 && |b| == 23 && |c| == 22 && a[16] == 'S' && b[16] == 'R' && c[16] == 'F';
    SameLength(a, a);
    SameLength(b, b);
    SameLength(a, b);
    SameLength(b, a);
    assert a[1] == 'T' && b[1] == 'T' && c[0] == 'C';
    NotInside(a, c);
    NotInside(b, c);
  }

  lemma NotInside(a: string, c: string)
    requires |a| == 23 && |c| == 22 && a[16] != c[16] && a[1] != c[0]
    ensures !Contains(a, c)
  {
    forall i | 0 <= i <= |a| ensures !(c <= a[i..]) {
      if i == 0 {
        assert a[0..][16] == a[16];
      } else if i == 1 {
        assert a[1..][0] == a[1];
      }
    }
  }

  lemma PositionInCycle(q: nat, r: nat)
    requires q >= 1 && 1 <= r <= UINT64_MAX
    ensures Position(q * UINT64_MAX + r) == r && Position(q * UINT64_MAX - 2) == UINT64_MAX - 2
  {
    ModOf(q, r - 1);
    ModOf(q - 1, UINT64_MAX - 3);
    assert q * UINT64_MAX - 3 == (q - 1) * UINT64_MAX + (UINT64_MAX - 3);
  }

  lemma {:induction false} ModOf(q: nat, r: nat)
    requires r < UINT64_MAX
    ensures (q * UINT64_MAX + r) % UINT64_MAX == r
  {
    if q > 0 {
      ModOf(q - 1, r);
      assert q * UINT64_MAX + r == ((q - 1) * UINT64_MAX + r) + UINT64_MAX;
    }
  }

  /** An old scan, ended right before the counter wraps, and a new one right behind. */
  lemma StaleScan(timeout: nat, q: nat) returns (steps: seq<Step>)
    requires q >= 1
    ensures var w := Run(timeout, steps);
            && |w.log| == q * UINT64_MAX + 1 && w.scan.state == Scanning && w.mark == |w.log|
            && w.scan.baseline.sequence == 1 && w.markers == Markers(1, UINT64_MAX - 1, UINT64_MAX, 0)
  {
    hide IsStarted, IsResults, IsFailed, Quiet, Run, Position;
    MarkersOfWords();
    PositionInCycle(q, 1);
    RunNothing(timeout);
    assert [] + Quiet(q * UINT64_MAX - 2) == Quiet(q * UINT64_MAX - 2);
    QuietRun(timeout, [], q * UINT64_MAX - 2);
    var one := Quiet(q * UINT64_MAX - 2) + [Event("CTRL-EVENT-SCAN-STARTED")];
    RunAppend(timeout, Quiet(q * UINT64_MAX - 2), Event("CTRL-EVENT-SCAN-STARTED"));
    var two := one + [Event("CTRL-EVENT-SCAN-RESULTS")];
    RunAppend(timeout, one, Event("CTRL-EVENT-SCAN-RESULTS"));
    var three := two + [OtherChange];
    RunAppend(timeout, two, OtherChange);
    steps := three + [Starting(Launched)];
    RunAppend(timeout, three, Starting(Launched));
  }

  lemma RunNothing(timeout: nat)
    ensures Run(timeout, []) == Boot(timeout) && Position(0) == 0
  {
  }

  /** With more counted events than the counter has values, markers of an old scan can
      complete a new one that never started. */
  lemma WrapDefeatsFence(n: nat) returns (steps: seq<Step>)
    requires n > UINT64_MAX
    ensures var w := Run(0, steps);
            && |w.log| == n && w.scan.state == Scanning && !StartedSince(w.log, w.mark)
            && Take(w, Polling(Fetch([], ""))).scan.state == Ready
  {
    hide IsStarted, IsResults, IsFailed, Quiet, Run, Position;
    var q, r := (n - 1) / UINT64_MAX, (n - 1) % UINT64_MAX + 1;
    var stale := StaleScan(0, q);
    PositionInCycle(q, 1);
    QuietRun(0, stale, r - 1);
    PlainIsNoScanEvent();
    steps := stale + Quiet(r - 1);
  }

  /** No run of `n` counted events ends with a scan that a poll calls ready although
      none was seen to start since its baseline. */
  ghost predicate Fenced(n: nat) {
    forall timeout: nat, steps: seq<Step> ::
      var w := Run(timeout, steps);
      |w.log| == n && w.scan.state == Scanning && Take(w, Polling(Fetch([], ""))).scan.state == Ready ==>
        StartedSince(w.log, w.mark)
  }

  /** The fence holds exactly as long as the counter has not wrapped. */
  lemma FencedExactly(n: nat)
    ensures Fenced(n) <==> n <= UINT64_MAX
  {
    hide Run, StartedSince, ResultsLast, FailureLast, PollScan;
    if n <= UINT64_MAX {
      forall timeout: nat, steps: seq<Step> |
        var w := Run(timeout, steps);
        |w.log| == n && w.scan.state == Scanning && Take(w, Polling(Fetch([], ""))).scan.state == Ready
        ensures StartedSince(Run(timeout, steps).log, Run(timeout, steps).mark)
      {
        PollIsFenced(timeout, steps, Fetch([], ""));
      }
    } else {
      var steps := WrapDefeatsFence(n);
      assert !Fenced(n);
    }
  }
}
