/** Batch's worker pool as a step system: the dispatching loop with its
    semaphore and wait group, the jobs with their separate counter updates, and
    the report they share. */
module BatchSteps {
  import opened Batch
  import opened Bytes
  import opened Faults

  /** How runOne ended. */
  datatype Outcome = Succeeded(outSize: nat) | Skipped | Failed(f: Fault)

  datatype Event = Discovered(u: Unit) | Terminal(u: Unit, o: Outcome)

  /** One job.  After runOne, `k` of its updates to the report have been made. */
  datatype Job =
    | Queued
    | Launched
    | Ran(o: Outcome, k: nat)
    | Announced(o: Outcome)
    | Released(o: Outcome)
    | Gone(o: Outcome)

  datatype Main = Loop(i: nat) | Holding(i: nat) | Added(i: nat) | Awaiting | Returned

  datatype Report = Report(discovered: nat, succeeded: nat, skipped: nat, failed: nat,
                           bytesIn: nat, bytesOut: nat, errors: seq<Path>)

  datatype State = State(main: Main, jobs: seq<Job>, sem: nat, wg: nat, report: Report, events: seq<Event>)

  datatype Step =
    | Acquire
    | Add
    | Launch
    | Wait
    | Done
    | Run(i: nat, o: Outcome)
    | Update(i: nat)
    | Announce(i: nat)
    | Release(i: nat)
    | Leave(i: nat)

  /** What a batch works on, after discovery. */
  datatype Task = Task(units: seq<Unit>, problems: seq<Path>, workers: nat, skipExisting: bool) {
    ghost predicate Valid() {
      workers > 0 && Distinct(units)
    }
  }

  /** The task that a configuration leads to. */
  function TaskOf(cfg: Config, workers: nat): Task {
    Task(Queue([], AllFindings(cfg, cfg.inputs)), Problems(AllFindings(cfg, cfg.inputs)), workers, cfg.skipExisting)
  }

  /** The start of Batch, up to the discovered plan.  A concurrency that is not
      positive stands for the number of processors. */
  method Plan(cfg: Config, concurrency: int, processors: nat) returns (t: Task)
    requires processors > 0
    ensures t == TaskOf(cfg, if concurrency <= 0 then processors else concurrency) && t.Valid()
    ensures QueueOf(cfg, t.units) && t.problems == Complaints(cfg, cfg.inputs)
    ensures t.workers == (if concurrency > 0 then concurrency else processors) && t.skipExisting == cfg.skipExisting
  {
    var workers := concurrency;
    if workers <= 0 {
      workers := processors;
    }
    var d := new Discovery(cfg);
    d.Discover();
    t := Task(d.units, d.errs, workers, cfg.skipExisting);
  }

  /** How many separate updates of the report an outcome makes. */
  function Updates(o: Outcome): nat {
    match o case Succeeded(_) => 3 case Skipped => 1 case Failed(_) => 2
  }

  function Apply(r: Report, u: Unit, o: Outcome, k: nat): Report {
    match o
    case Succeeded(n) =>
      if k == 0 then r.(succeeded := r.succeeded + 1)
      else if k == 1 then r.(bytesIn := r.bytesIn + u.size)
      else r.(bytesOut := r.bytesOut + n)
    case Skipped => r.(skipped := r.skipped + 1)
    case Failed(_) => if k == 0 then r.(failed := r.failed + 1) else r.(errors := r.errors + [u.inPath])
  }

  function Discoveries(units: seq<Unit>): seq<Event> {
    seq(|units|, i requires 0 <= i < |units| => Discovered(units[i]))
  }

  function Start(t: Task): State {
    State(Loop(0), seq(|t.units|, _ => Queued), 0, 0,
          Report(|t.units|, 0, 0, |t.problems|, 0, 0, t.problems), Discoveries(t.units))
  }

  function Do(t: Task, s: State, a: Step): Option<State>
    requires |s.jobs| == |t.units|
  {
    match a
    case Acquire =>
      if s.main.Loop? && s.main.i < |t.units| && s.sem < t.workers
      then Some(s.(main := Holding(s.main.i), sem := s.sem + 1))
      else None
    case Add =>
      if s.main.Holding? then Some(s.(main := Added(s.main.i), wg := s.wg + 1)) else None
    case Launch =>
      if s.main.Added? && s.main.i < |s.jobs| && s.jobs[s.main.i] == Queued
      then Some(s.(main := Loop(s.main.i + 1), jobs := s.jobs[s.main.i := Launched]))
      else None
    case Wait =>
      if s.main == Loop(|t.units|) then Some(s.(main := Awaiting)) else None
    case Done =>
      if s.main == Awaiting && s.wg == 0 then Some(s.(main := Returned)) else None
    case Run(i, o) =>
      if i < |s.jobs| && s.jobs[i] == Launched && (o.Skipped? ==> t.skipExisting)
      then Some(s.(jobs := s.jobs[i := Ran(o, 0)]))
      else None
    case Update(i) =>
      if i < |s.jobs| && s.jobs[i].Ran? && s.jobs[i].k < Updates(s.jobs[i].o)
      then
        var Ran(o, k) := s.jobs[i];
        Some(s.(jobs := s.jobs[i := Ran(o, k + 1)], report := Apply(s.report, t.units[i], o, k)))
      else None
    case Announce(i) =>
      if i < |s.jobs| && s.jobs[i].Ran? && s.jobs[i].k == Updates(s.jobs[i].o)
      then
        var o := s.jobs[i].o;
        Some(s.(jobs := s.jobs[i := Announced(o)], events := s.events + [Terminal(t.units[i], o)]))
      else None
    case Release(i) =>
      if i < |s.jobs| && s.jobs[i].Announced? && s.sem > 0
      then Some(s.(jobs := s.jobs[i := Released(s.jobs[i].o)], sem := s.sem - 1))
      else None
    case Leave(i) =>
      if i < |s.jobs| && s.jobs[i].Released? && s.wg > 0
      then Some(s.(jobs := s.jobs[i := Gone(s.jobs[i].o)], wg := s.wg - 1))
      else None
  }

  ghost predicate Follows(t: Task, run: seq<State>, steps: seq<Step>, i: nat)
    requires |run| == |steps| + 1 && i < |steps|
  {
    |run[i].jobs| == |t.units| && Do(t, run[i], steps[i]) == Some(run[i + 1])
  }

  ghost predicate Behaviour(t: Task, run: seq<State>, steps: seq<Step>) {
    && |run| == |steps| + 1 && run[0] == Start(t)
    && forall i :: 0 <= i < |steps| ==> Follows(t, run, steps, i)
  }

  // -- Sums over the jobs --

  /** The total over all jobs of a weight given by index and job. */
  function Sum(f: (nat, Job) -> nat, jobs: seq<Job>): nat {
    if jobs == [] then 0 else Sum(f, jobs[..|jobs| - 1]) + f(|jobs| - 1, jobs[|jobs| - 1])
  }

  lemma {:induction false} SumUpdate(f: (nat, Job) -> nat, jobs: seq<Job>, i: nat, j: Job)
    requires i < |jobs|
    ensures Sum(f, jobs[i := j]) + f(i, jobs[i]) == Sum(f, jobs) + f(i, j)
    decreases jobs
  {
    var n := |jobs| - 1;
    if i == n {
      assert jobs[i := j][..n] == jobs[..n];
    } else {
      assert jobs[i := j][..n] == jobs[..n][i := j];
      SumUpdate(f, jobs[..n], i, j);
    }
  }

  lemma {:induction false} SumZero(f: (nat, Job) -> nat, jobs: seq<Job>)
    requires forall i :: 0 <= i < |jobs| ==> f(i, jobs[i]) == 0
    ensures Sum(f, jobs) == 0
  {
    if jobs != [] {
      SumZero(f, jobs[..|jobs| - 1]);
    }
  }

  lemma {:induction false} SumAtLeast(f: (nat, Job) -> nat, jobs: seq<Job>, i: nat)
    requires i < |jobs|
    ensures Sum(f, jobs) >= f(i, jobs[i])
  {
    if i < |jobs| - 1 {
      SumAtLeast(f, jobs[..|jobs| - 1], i);
    }
  }

  predicate InFlight(j: Job) {
    j.Launched? || j.Ran? || j.Announced?
  }

  /** At least `n` updates of the report have been made. */
  predicate Made(j: Job, n: nat) {
    match j case Queued => false case Launched => false case Ran(_, k) => k >= n case _ => true
  }

  function One(b: bool): nat {
    if b then 1 else 0
  }

  const HOLDS: (nat, Job) -> nat := (i: nat, j: Job) => One(InFlight(j))
  const GROUPED: (nat, Job) -> nat := (i: nat, j: Job) => One(InFlight(j) || j.Released?)
  const SUCCEEDED: (nat, Job) -> nat := (i: nat, j: Job) => One(Made(j, 1) && j.o.Succeeded?)
  const SKIPPED: (nat, Job) -> nat := (i: nat, j: Job) => One(Made(j, 1) && j.o.Skipped?)
  const FAILED: (nat, Job) -> nat := (i: nat, j: Job) => One(Made(j, 1) && j.o.Failed?)
  const REPORTED: (nat, Job) -> nat := (i: nat, j: Job) => One(Made(j, 2) && j.o.Failed?)
  const OUTPUT: (nat, Job) -> nat := (i: nat, j: Job) => if Made(j, 3) && j.o.Succeeded? then j.o.outSize else 0

  function Input(t: Task): (nat, Job) -> nat {
    (i: nat, j: Job) => if i < |t.units| && Made(j, 2) && j.o.Succeeded? then t.units[i].size else 0
  }

  // -- What every step keeps --

  function Position(t: Task, m: Main): nat {
    match m case Loop(i) => i case Holding(i) => i case Added(i) => i case _ => |t.units|
  }

  /** Exactly the units in front of the loop have been handed to jobs. */
  ghost predicate Shape(t: Task, s: State) {
    && |s.jobs| == |t.units|
    && Position(t, s.main) <= |t.units|
    && (s.main.Holding? || s.main.Added? ==> s.main.i < |t.units|)
    && (forall i :: 0 <= i < |s.jobs| ==> (s.jobs[i] == Queued <==> i >= Position(t, s.main)))
    && (forall i :: 0 <= i < |s.jobs| && s.jobs[i].Ran? ==> s.jobs[i].k <= Updates(s.jobs[i].o))
  }

  /** The semaphore counts the jobs in flight, and the wait group the jobs that
      have not left, each with the one that is just being launched. */
  ghost predicate Pool(t: Task, s: State) {
    && s.sem == Sum(HOLDS, s.jobs) + One(s.main.Holding? || s.main.Added?)
    && s.sem <= t.workers
    && s.wg == Sum(GROUPED, s.jobs) + One(s.main.Added?)
    && (s.main == Returned ==> s.wg == 0)
  }

  /** The report is the sum of the updates made so far. */
  ghost predicate Tally(t: Task, s: State) {
    && s.report.discovered == |t.units|
    && s.report.succeeded == Sum(SUCCEEDED, s.jobs)
    && s.report.skipped == Sum(SKIPPED, s.jobs)
    && s.report.failed == |t.problems| + Sum(FAILED, s.jobs)
    && |s.report.errors| == |t.problems| + Sum(REPORTED, s.jobs)
    && t.problems <= s.report.errors
    && s.report.bytesIn == Sum(Input(t), s.jobs)
    && s.report.bytesOut == Sum(OUTPUT, s.jobs)
  }

  predicate Told(j: Job) {
    j.Announced? || j.Released? || j.Gone?
  }

  /** How many terminal events there are for a path. */
  function Endings(events: seq<Event>, p: Path): nat {
    if events == [] then 0
    else Endings(events[..|events| - 1], p) + One(events[|events| - 1].Terminal? && events[|events| - 1].u.inPath == p)
  }

  /** How many discovery events there are for a path. */
  function Beginnings(events: seq<Event>, p: Path): nat {
    if events == [] then 0
    else Beginnings(events[..|events| - 1], p)
         + One(events[|events| - 1].Discovered? && events[|events| - 1].u.inPath == p)
  }

  ghost predicate Log(t: Task, s: State)
    requires |s.jobs| == |t.units|
  {
    && Discoveries(t.units) <= s.events
    && (forall k :: |t.units| <= k < |s.events| ==> s.events[k].Terminal? && s.events[k].u in t.units)
    && (forall i :: 0 <= i < |t.units| ==> Endings(s.events, t.units[i].inPath) == One(Told(s.jobs[i])))
    && (forall i :: 0 <= i < |t.units| && Told(s.jobs[i]) ==> Terminal(t.units[i], s.jobs[i].o) in s.events)
  }

  ghost predicate Inv(t: Task, s: State) {
    Shape(t, s) && Pool(t, s) && Tally(t, s) && Log(t, s)
  }

  /** The job that a step moves, if any, and what it becomes. */
  function Moved(t: Task, s: State, a: Step): Option<(nat, Job)>
    requires |s.jobs| == |t.units|
  {
    match Do(t, s, a)
    case None => None
    case Some(s') =>
      match a
      case Launch => Some((s.main.i, Launched))
      case Run(i, o) => Some((i, Ran(o, 0)))
      case Update(i) => Some((i, Ran(s.jobs[i].o, s.jobs[i].k + 1)))
      case Announce(i) => Some((i, Announced(s.jobs[i].o)))
      case Release(i) => Some((i, Released(s.jobs[i].o)))
      case Leave(i) => Some((i, Gone(s.jobs[i].o)))
      case _ => None
  }

  lemma MovedJobs(t: Task, s: State, a: Step)
    requires |s.jobs| == |t.units| && Do(t, s, a).Some?
    ensures match Moved(t, s, a)
            case None => Do(t, s, a).value.jobs == s.jobs
            case Some(m) => m.0 < |s.jobs| && Do(t, s, a).value.jobs == s.jobs[m.0 := m.1]
  {
  }

  lemma ShapeKept(t: Task, s: State, a: Step)
    requires Shape(t, s) && Do(t, s, a).Some?
    ensures Shape(t, Do(t, s, a).value)
  {
  }

  lemma PoolKept(t: Task, s: State, a: Step)
    requires Shape(t, s) && Pool(t, s) && Do(t, s, a).Some?
    ensures Pool(t, Do(t, s, a).value)
  {
    hide Sum;
    match Moved(t, s, a)
    case None =>
    case Some(m) =>
      SumUpdate(HOLDS, s.jobs, m.0, m.1);
      SumUpdate(GROUPED, s.jobs, m.0, m.1);
  }

  lemma TallyKept(t: Task, s: State, a: Step)
    requires Shape(t, s) && Tally(t, s) && Do(t, s, a).Some?
    ensures Tally(t, Do(t, s, a).value)
  {
    CountsKept(t, s, a);
    SizesKept(t, s, a);
  }

  lemma CountsKept(t: Task, s: State, a: Step)
    requires Shape(t, s) && Tally(t, s) && Do(t, s, a).Some?
    ensures var r, jobs := Do(t, s, a).value.report, Do(t, s, a).value.jobs;
            && r.discovered == |t.units| && r.succeeded == Sum(SUCCEEDED, jobs) && r.skipped == Sum(SKIPPED, jobs)
            && r.failed == |t.problems| + Sum(FAILED, jobs)
  {
    hide Sum;
    MovedJobs(t, s, a);
    match Moved(t, s, a)
    case None =>
    case Some(m) =>
      SumUpdate(SUCCEEDED, s.jobs, m.0, m.1);
      SumUpdate(SKIPPED, s.jobs, m.0, m.1);
      SumUpdate(FAILED, s.jobs, m.0, m.1);
  }

  lemma SizesKept(t: Task, s: State, a: Step)
    requires Shape(t, s) && Tally(t, s) && Do(t, s, a).Some?
    ensures var r, jobs := Do(t, s, a).value.report, Do(t, s, a).value.jobs;
            && |r.errors| == |t.problems| + Sum(REPORTED, jobs) && t.problems <= r.errors
            && r.bytesIn == Sum(Input(t), jobs) && r.bytesOut == Sum(OUTPUT, jobs)
  {
    hide Sum;
    MovedJobs(t, s, a);
    match Moved(t, s, a)
    case None =>
    case Some(m) =>
      SumUpdate(REPORTED, s.jobs, m.0, m.1);
      SumUpdate(Input(t), s.jobs, m.0, m.1);
      SumUpdate(OUTPUT, s.jobs, m.0, m.1);
  }

  lemma EndingsSnoc(events: seq<Event>, e: Event, p: Path)
    ensures Endings(events + [e], p) == Endings(events, p) + One(e.Terminal? && e.u.inPath == p)
  {
    assert (events + [e])[..|events|] == events;
  }

  lemma LogKept(t: Task, s: State, a: Step)
    requires t.Valid() && Shape(t, s) && Log(t, s) && Do(t, s, a).Some?
    ensures Log(t, Do(t, s, a).value)
  {
    hide Endings;
    MovedJobs(t, s, a);
    var s' := Do(t, s, a).value;
    if a.Announce? {
      var e := Terminal(t.units[a.i], s.jobs[a.i].o);
      assert s'.events == s.events + [e];
      forall i | 0 <= i < |t.units|
        ensures Endings(s'.events, t.units[i].inPath) == One(Told(s'.jobs[i]))
        ensures Told(s'.jobs[i]) ==> Terminal(t.units[i], s'.jobs[i].o) in s'.events
      {
        EndingsSnoc(s.events, e, t.units[i].inPath);
        assert i == a.i ==> s'.events[|s.events|] == e;
      }
    }
  }

  lemma {:induction false} DiscoveriesEndNothing(units: seq<Unit>, n: nat, p: Path)
    requires n <= |units|
    ensures Endings(Discoveries(units)[..n], p) == 0
  {
    if n > 0 {
      DiscoveriesEndNothing(units, n - 1, p);
      assert Discoveries(units)[..n][..n - 1] == Discoveries(units)[..n - 1];
    }
  }

  lemma StartInv(t: Task)
    requires t.Valid()
    ensures Inv(t, Start(t))
  {
    var s := Start(t);
    SumZero(HOLDS, s.jobs);
    SumZero(GROUPED, s.jobs);
    SumZero(SUCCEEDED, s.jobs);
    SumZero(SKIPPED, s.jobs);
    SumZero(FAILED, s.jobs);
    SumZero(REPORTED, s.jobs);
    SumZero(Input(t), s.jobs);
    SumZero(OUTPUT, s.jobs);
    forall i | 0 <= i < |t.units| ensures Endings(s.events, t.units[i].inPath) == 0 {
      DiscoveriesEndNothing(t.units, |t.units|, t.units[i].inPath);
      assert s.events[..|t.units|] == s.events;
    }
  }

  lemma {:induction false} RunKeepsInv(t: Task, run: seq<State>, steps: seq<Step>, i: nat)
    requires t.Valid() && Behaviour(t, run, steps) && i < |run|
    ensures Inv(t, run[i])
  {
    hide Shape, Pool, Tally, Log, Do, Start;
    if i == 0 {
      StartInv(t);
    } else {
      RunKeepsInv(t, run, steps, i - 1);
      assert Follows(t, run, steps, i - 1);
      InvLength(t, run[i - 1]);
      ShapeKept(t, run[i - 1], steps[i - 1]);
      PoolKept(t, run[i - 1], steps[i - 1]);
      TallyKept(t, run[i - 1], steps[i - 1]);
      LogKept(t, run[i - 1], steps[i - 1]);
    }
  }

  lemma InvLength(t: Task, s: State)
    requires Shape(t, s)
    ensures |s.jobs| == |t.units|
  {
  }

  // -- Results over all interleavings --

  function Flying(jobs: seq<Job>): set<nat> {
    set i: nat | i < |jobs| && InFlight(jobs[i])
  }

  lemma {:induction false} FlyingCount(jobs: seq<Job>)
    ensures |Flying(jobs)| == Sum(HOLDS, jobs)
  {
    if jobs == [] {
      assert Flying(jobs) == {};
    } else {
      var n := |jobs| - 1;
      FlyingCount(jobs[..n]);
      assert Flying(jobs) == Flying(jobs[..n]) + (if InFlight(jobs[n]) then {n} else {});
    }
  }

  /** At no time are more than `workers` jobs in flight. */
  lemma AtMostWorkers(t: Task, run: seq<State>, steps: seq<Step>, i: nat)
    requires t.Valid() && Behaviour(t, run, steps) && i < |run|
    ensures |Flying(run[i].jobs)| <= t.workers
  {
    RunKeepsInv(t, run, steps, i);
    FlyingCount(run[i].jobs);
  }

  lemma {:induction false} SumPositive(f: (nat, Job) -> nat, jobs: seq<Job>) returns (i: nat)
    requires Sum(f, jobs) > 0
    ensures i < |jobs| && f(i, jobs[i]) > 0
  {
    i := |jobs| - 1;
    if f(i, jobs[i]) == 0 {
      i := SumPositive(f, jobs[..i]);
    }
  }

  lemma AllGone(t: Task, s: State)
    requires Inv(t, s) && s.main == Returned
    ensures forall i :: 0 <= i < |s.jobs| ==> s.jobs[i].Gone?
  {
    forall i | 0 <= i < |s.jobs| ensures s.jobs[i].Gone? {
      SumAtLeast(GROUPED, s.jobs, i);
    }
  }

  lemma {:induction false} EveryJobCounts(jobs: seq<Job>)
    requires forall i :: 0 <= i < |jobs| ==> jobs[i].Gone?
    ensures Sum(SUCCEEDED, jobs) + Sum(SKIPPED, jobs) + Sum(FAILED, jobs) == |jobs|
    ensures Sum(REPORTED, jobs) == Sum(FAILED, jobs)
  {
    if jobs != [] {
      EveryJobCounts(jobs[..|jobs| - 1]);
    }
  }

  // -- Which errors are in the report --

  /** Has this job's error been added under the path `p`? */
  function ErrorAt(t: Task, p: Path): (nat, Job) -> nat {
    (i: nat, j: Job) => ErrorCount(t, p, i, j)
  }

  function ErrorCount(t: Task, p: Path, i: nat, j: Job): nat {
    if i < |t.units| && t.units[i].inPath == p && Made(j, 2) && j.o.Failed? then 1 else 0
  }

  ghost predicate ErrorTally(t: Task, s: State, p: Path) {
    multiset(s.report.errors)[p] == multiset(t.problems)[p] + Sum(ErrorAt(t, p), s.jobs)
  }

  lemma ErrorsKept(t: Task, s: State, a: Step, p: Path)
    requires Shape(t, s) && ErrorTally(t, s, p) && Do(t, s, a).Some?
    ensures ErrorTally(t, Do(t, s, a).value, p)
  {
    hide Sum;
    MovedJobs(t, s, a);
    match Moved(t, s, a)
    case None =>
    case Some(m) => SumUpdate(ErrorAt(t, p), s.jobs, m.0, m.1);
  }

  lemma NoErrorsYet(t: Task, p: Path)
    ensures ErrorTally(t, Start(t), p)
  {
    SumZero(ErrorAt(t, p), Start(t).jobs);
  }

  lemma {:induction false} RunKeepsErrors(t: Task, run: seq<State>, steps: seq<Step>, i: nat, p: Path)
    requires t.Valid() && Behaviour(t, run, steps) && i < |run|
    ensures ErrorTally(t, run[i], p)
  {
    hide Shape, Pool, Tally, Log, Do;
    if i == 0 {
      NoErrorsYet(t, p);
    } else {
      RunKeepsErrors(t, run, steps, i - 1, p);
      RunKeepsInv(t, run, steps, i - 1);
      assert Follows(t, run, steps, i - 1);
      ErrorsKept(t, run[i - 1], steps[i - 1], p);
    }
  }

  lemma {:induction false} SumOfOne(f: (nat, Job) -> nat, jobs: seq<Job>, i: nat)
    requires i < |jobs| && forall k :: 0 <= k < |jobs| && k != i ==> f(k, jobs[k]) == 0
    ensures Sum(f, jobs) == f(i, jobs[i])
  {
    var n := |jobs| - 1;
    if i == n {
      SumZero(f, jobs[..n]);
    } else {
      SumOfOne(f, jobs[..n], i);
    }
  }

  /** When Batch returns, its errors are the discovery problems and, once for each,
      the paths of the units that failed. */
  lemma ErrorsAre(t: Task, run: seq<State>, steps: seq<Step>, i: nat)
    requires t.Valid() && Behaviour(t, run, steps) && run[|steps|].main == Returned && i < |t.units|
    ensures var s := run[|steps|];
            && |s.jobs| == |t.units| && s.jobs[i].Gone?
            && multiset(s.report.errors)[t.units[i].inPath]
               == multiset(t.problems)[t.units[i].inPath] + (if s.jobs[i].o.Failed? then 1 else 0)
  {
    hide Sum;
    var s := run[|steps|];
    var p := t.units[i].inPath;
    RunKeepsInv(t, run, steps, |steps|);
    AllGone(t, s);
    RunKeepsErrors(t, run, steps, |steps|, p);
    SumOfOne(ErrorAt(t, p), s.jobs, i);
  }

  /** In the log of a batch, the discovery events are those in front. */
  lemma LogBegins(t: Task, s: State, p: Path)
    requires t.Valid() && Shape(t, s) && Log(t, s)
    ensures Beginnings(s.events, p) == One(p in PathsOf(t.units))
  {
    hide Beginnings, PathsOf;
    var n := |t.units|;
    DiscoveriesBegin(t.units, n, p);
    assert s.events[..n] == Discoveries(t.units)[..n] && t.units[..n] == t.units;
    TerminalsBeginNothing(s.events, n, |s.events|, p);
    assert s.events[..|s.events|] == s.events;
  }

  lemma {:induction false} DiscoveriesBegin(units: seq<Unit>, n: nat, p: Path)
    requires Distinct(units) && n <= |units|
    ensures Beginnings(Discoveries(units)[..n], p) == One(p in PathsOf(units[..n]))
  {
    if n > 0 {
      DiscoveriesBegin(units, n - 1, p);
      assert Discoveries(units)[..n][..n - 1] == Discoveries(units)[..n - 1];
      assert units[..n] == units[..n - 1] + [units[n - 1]];
      assert PathsOf(units[..n]) == PathsOf(units[..n - 1]) + {units[n - 1].inPath};
    }
  }

  lemma {:induction false} TerminalsBeginNothing(events: seq<Event>, m: nat, n: nat, p: Path)
    requires m <= n <= |events| && forall k :: m <= k < n ==> events[k].Terminal?
    ensures Beginnings(events[..n], p) == Beginnings(events[..m], p)
    decreases n
  {
    if m < n {
      TerminalsBeginNothing(events, m, n - 1, p);
      assert events[..n][..n - 1] == events[..n - 1];
    }
  }

  /** And no path but those of the units has a terminal event. */
  lemma {:induction false} LogEndsOnlyUnits(t: Task, s: State, n: nat, p: Path)
    requires Shape(t, s) && Log(t, s) && n <= |s.events| && p !in PathsOf(t.units)
    ensures Endings(s.events[..n], p) == 0
  {
    if n > 0 {
      LogEndsOnlyUnits(t, s, n - 1, p);
      assert s.events[..n][..n - 1] == s.events[..n - 1];
      if n <= |t.units| {
        assert s.events[n - 1] == Discoveries(t.units)[n - 1];
      }
    }
  }

  lemma EventsOfPath(t: Task, s: State, p: Path)
    requires t.Valid() && Inv(t, s) && s.main == Returned
    ensures Beginnings(s.events, p) == Endings(s.events, p) == One(p in PathsOf(t.units))
  {
    hide Endings, Beginnings;
    LogBegins(t, s, p);
    assert s.events[..|s.events|] == s.events;
    if p in PathsOf(t.units) {
      AllGone(t, s);
      var i :| 0 <= i < |t.units| && t.units[i].inPath == p;
    } else {
      LogEndsOnlyUnits(t, s, |s.events|, p);
    }
  }

  /** When Batch returns, every unit and every discovery problem is accounted
      for once, every failure has its error, the byte counts are those of the
      succeeded units, and every path of the queue, and no other, has had exactly
      one discovery event and exactly one terminal event, the one its job ended
      with, all discovery events first. */
  lemma Conservation(t: Task, run: seq<State>, steps: seq<Step>)
    requires t.Valid() && Behaviour(t, run, steps) && run[|steps|].main == Returned
    ensures var s := run[|steps|];
            && |s.jobs| == |t.units| && (forall i :: 0 <= i < |s.jobs| ==> s.jobs[i].Gone?)
            && s.report.discovered == |t.units|
            && s.report.succeeded + s.report.skipped + s.report.failed == |t.units| + |t.problems|
            && |s.report.errors| == s.report.failed
            && s.report.bytesIn == Sum(Input(t), s.jobs) && s.report.bytesOut == Sum(OUTPUT, s.jobs)
            && Discoveries(t.units) <= s.events
            && (forall p :: Beginnings(s.events, p) == Endings(s.events, p) == One(p in PathsOf(t.units)))
            && (forall i :: 0 <= i < |t.units| ==> Terminal(t.units[i], s.jobs[i].o) in s.events)
  {
    hide Endings, Beginnings, Sum;
    RunKeepsInv(t, run, steps, |steps|);
    AllGone(t, run[|steps|]);
    EveryJobCounts(run[|steps|].jobs);
    forall p
      ensures Beginnings(run[|steps|].events, p) == Endings(run[|steps|].events, p) == One(p in PathsOf(t.units))
    {
      EventsOfPath(t, run[|steps|], p);
    }
  }

  lemma {:induction false} PathsCount(units: seq<Unit>)
    requires Distinct(units)
    ensures |PathsOf(units)| == |units|
  {
    if units != [] {
      var n := |units| - 1;
      PathsCount(units[..n]);
      assert units == units[..n] + [units[n]];
      assert PathsOf(units) == PathsOf(units[..n]) + {units[n].inPath};
    }
  }

  /** The paths of the files that walking the inputs finds. */
  function FoundPaths(cfg: Config): set<Path> {
    CandidatePaths(AllFindings(cfg, cfg.inputs))
  }

  /** Over the configuration: every distinct path found, however often, and no
      other, is discovered once and ends once, and the report counts each of them
      and each problem once. */
  lemma EachPathOnce(cfg: Config, workers: nat, run: seq<State>, steps: seq<Step>)
    requires workers > 0 && Behaviour(TaskOf(cfg, workers), run, steps) && run[|steps|].main == Returned
    ensures var s := run[|steps|];
            && (forall p :: Beginnings(s.events, p) == Endings(s.events, p) == One(p in FoundPaths(cfg)))
            && s.report.discovered == |FoundPaths(cfg)|
            && s.report.succeeded + s.report.skipped + s.report.failed
               == |FoundPaths(cfg)| + |Complaints(cfg, cfg.inputs)|
    ensures forall p :: p in FoundPaths(cfg) <==>
                        cfg.filter(p) && exists place :: Offered(cfg, place) && place.u.inPath == p
  {
    hide Endings, Beginnings, Sum, Queue, Problems, AllFindings, Complaints, QueueOf, Offered;
    DiscoveredIs(cfg);
    var t := TaskOf(cfg, workers);
    QueueIsDistinct([], AllFindings(cfg, cfg.inputs));
    assert PathsOf(t.units) == PathsOf([]) + FoundPaths(cfg) == FoundPaths(cfg);
    PathsCount(t.units);
    Conservation(t, run, steps);
    forall p
      ensures p in FoundPaths(cfg) <==> cfg.filter(p) && exists place :: Offered(cfg, place) && place.u.inPath == p
    {
      QueuedIff(cfg, t.units, p);
    }
  }

  function JobRank(j: Job): nat {
    match j
    case Queued => 8
    case Launched => 7
    case Ran(o, k) => if k <= Updates(o) then 3 + Updates(o) - k else 0
    case Announced(_) => 2
    case Released(_) => 1
    case Gone(_) => 0
  }

  const RANK: (nat, Job) -> nat := (i: nat, j: Job) => JobRank(j)

  function Rank(t: Task, s: State): int {
    Sum(RANK, s.jobs) +
    match s.main
    case Loop(i) => 3 * (|t.units| - i) + 2
    case Holding(i) => 3 * (|t.units| - i) + 1
    case Added(i) => 3 * (|t.units| - i)
    case Awaiting => 1
    case Returned => 0
  }

  /** Is the job inside a call of its own: runOne, or the event hook? */
  predicate InCall(j: Job) {
    j.Launched? || (j.Ran? && j.k == Updates(j.o))
  }

  /** Batch returns if every runOne and every call of the event hook does: until
      it has, something is possible, other than the return of such a call unless a
      job is inside one, and every step of anybody lowers a non-negative rank. */
  lemma BatchReturns(t: Task, run: seq<State>, steps: seq<Step>, i: nat) returns (a: Step)
    requires t.Valid() && Behaviour(t, run, steps) && i < |run|
    ensures |run[i].jobs| == |t.units| && Rank(t, run[i]) >= 0
    ensures run[i].main != Returned ==> Do(t, run[i], a).Some?
    ensures a.Run? || a.Announce? ==> exists j :: 0 <= j < |run[i].jobs| && InCall(run[i].jobs[j])
    ensures forall b :: Do(t, run[i], b).Some? ==> Rank(t, Do(t, run[i], b).value) < Rank(t, run[i])
  {
    RunKeepsInv(t, run, steps, i);
    var s := run[i];
    a := Possible(t, s);
    forall b | Do(t, s, b).Some? ensures Rank(t, Do(t, s, b).value) < Rank(t, s) {
      RankFalls(t, s, b);
    }
  }

  lemma RankFalls(t: Task, s: State, a: Step)
    requires Shape(t, s) && Do(t, s, a).Some?
    ensures Rank(t, Do(t, s, a).value) < Rank(t, s)
  {
    hide Sum;
    MovedJobs(t, s, a);
    match Moved(t, s, a)
    case None =>
    case Some(m) => SumUpdate(RANK, s.jobs, m.0, m.1);
  }

  lemma JobCanMove(t: Task, s: State, i: nat) returns (a: Step)
    requires Inv(t, s) && i < |s.jobs| && (InFlight(s.jobs[i]) || s.jobs[i].Released?)
    ensures Do(t, s, a).Some? && (a.Run? || a.Announce? ==> InCall(s.jobs[i]))
  {
    SumAtLeast(HOLDS, s.jobs, i);
    SumAtLeast(GROUPED, s.jobs, i);
    match s.jobs[i]
    case Launched => a := Run(i, Failed(0));
    case Ran(o, k) => a := if k < Updates(o) then Update(i) else Announce(i);
    case Announced(_) => a := Release(i);
    case _ => a := Leave(i);
  }

  lemma Possible(t: Task, s: State) returns (a: Step)
    requires t.Valid() && Inv(t, s)
    ensures s.main != Returned ==> Do(t, s, a).Some?
    ensures a.Run? || a.Announce? ==> exists j :: 0 <= j < |s.jobs| && InCall(s.jobs[j])
  {
    match s.main
    case Loop(i) =>
      if i == |t.units| {
        a := Wait;
      } else if s.sem < t.workers {
        a := Acquire;
      } else {
        var j := SumPositive(HOLDS, s.jobs);
        a := JobCanMove(t, s, j);
      }
    case Holding(_) => a := Add;
    case Added(_) => a := Launch;
    case Awaiting =>
      if s.wg == 0 {
        a := Done;
      } else {
        var j := SumPositive(GROUPED, s.jobs);
        a := JobCanMove(t, s, j);
      }
    case Returned => a := Wait;
  }
}
