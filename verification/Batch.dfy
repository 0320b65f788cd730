/** Batch: discovery without duplicates, and the worker pool as a step system. */
module Batch {

  type Path = string

  datatype Unit = Unit(inPath: Path, outPath: Path, size: nat)

  // -- Discovery --

  /** One thing that walking a directory reports. */
  datatype Visit = Unreadable(path: Path) | SubDirectory | Found(u: Unit)

  /** What stat says about an input. */
  datatype Stat = Missing | Regular(u: Unit) | Directory(visits: seq<Visit>, cutShort: bool)

  datatype Config = Config(inputs: seq<Path>, recursive: bool, skipExisting: bool,
                           stat: Path -> Stat, filter: Path -> bool)

  /** A finding is either an error about a path or a file to be queued. */
  datatype Finding = Problem(path: Path) | Candidate(u: Unit)

  function Keep(cfg: Config, u: Unit): seq<Finding> {
    if cfg.filter(u.inPath) then [Candidate(u)] else []
  }

  function Visited(cfg: Config, visits: seq<Visit>): seq<Finding> {
    if visits == [] then []
    else
      (match visits[0] case Unreadable(p) => [Problem(p)] case SubDirectory => [] case Found(u) => Keep(cfg, u))
      + Visited(cfg, visits[1..])
  }

  function Findings(cfg: Config, input: Path): seq<Finding> {
    match cfg.stat(input)
    case Missing => [Problem(input)]
    case Regular(u) => Keep(cfg, u)
    case Directory(visits, cutShort) =>
      if !cfg.recursive then [Problem(input)]
      else Visited(cfg, visits) + (if cutShort then [Problem(input)] else [])
  }

  function AllFindings(cfg: Config, inputs: seq<Path>): seq<Finding> {
    if inputs == [] then [] else Findings(cfg, inputs[0]) + AllFindings(cfg, inputs[1..])
  }

  function Problems(fs: seq<Finding>): seq<Path> {
    if fs == [] then []
    else (match fs[0] case Problem(p) => [p] case Candidate(_) => []) + Problems(fs[1..])
  }

  function PathsOf(units: seq<Unit>): set<Path> {
    set u | u in units :: u.inPath
  }

  /** Queueing in order, dropping a path that is already queued. */
  function Queue(units: seq<Unit>, fs: seq<Finding>): seq<Unit>
    decreases fs
  {
    if fs == [] then units
    else match fs[0]
         case Problem(_) => Queue(units, fs[1..])
         case Candidate(u) => Queue(if u.inPath in PathsOf(units) then units else units + [u], fs[1..])
  }

  ghost predicate Distinct(units: seq<Unit>) {
    forall i, j :: 0 <= i < j < |units| ==> units[i].inPath != units[j].inPath
  }

  /** Whatever was found, the queue holds every candidate's path exactly once. */
  lemma {:induction false} QueueIsDistinct(units: seq<Unit>, fs: seq<Finding>)
    requires Distinct(units)
    ensures Distinct(Queue(units, fs)) && units <= Queue(units, fs)
    ensures PathsOf(Queue(units, fs)) == PathsOf(units) + CandidatePaths(fs)
    ensures forall u :: u in Queue(units, fs) ==> u in units || Candidate(u) in fs
    decreases fs
  {
    hide Distinct, PathsOf, CandidatePaths;
    if fs == [] {
      NoPaths();
    } else {
      assert fs == [fs[0]] + fs[1..];
      MorePaths(fs[0], fs[1..]);
      match fs[0]
      case Problem(_) => QueueIsDistinct(units, fs[1..]);
      case Candidate(u) =>
        OneMoreUnit(units, u);
        QueueIsDistinct(if u.inPath in PathsOf(units) then units else units + [u], fs[1..]);
    }
  }

  function CandidatePaths(fs: seq<Finding>): set<Path> {
    set f | f in fs && f.Candidate? :: f.u.inPath
  }

  lemma NoPaths()
    ensures CandidatePaths([]) == {}
  {
  }

  lemma MorePaths(f: Finding, fs: seq<Finding>)
    ensures CandidatePaths([f] + fs) == (if f.Candidate? then {f.u.inPath} else {}) + CandidatePaths(fs)
  {
  }

  lemma OneMoreUnit(units: seq<Unit>, u: Unit)
    requires Distinct(units)
    ensures PathsOf(units + [u]) == PathsOf(units) + {u.inPath}
    ensures u.inPath !in PathsOf(units) ==> Distinct(units + [u])
  {
  }

  lemma {:induction false} QueueAppend(units: seq<Unit>, a: seq<Finding>, b: seq<Finding>)
    ensures Queue(units, a + b) == Queue(Queue(units, a), b)
    ensures Problems(a + b) == Problems(a) + Problems(b)
    decreases a
  {
    if a == [] {
      assert a + b == b;
    } else {
      assert (a + b)[1..] == a[1..] + b;
      match a[0]
      case Problem(_) => QueueAppend(units, a[1..], b);
      case Candidate(u) => QueueAppend(if u.inPath in PathsOf(units) then units else units + [u], a[1..], b);
    }
  }

  lemma QueueNothing(units: seq<Unit>)
    ensures Queue(units, []) == units && Problems([]) == []
  {
  }

  lemma QueueProblem(units: seq<Unit>, p: Path, rest: seq<Finding>)
    ensures Queue(units, [Problem(p)] + rest) == Queue(units, rest)
    ensures Problems([Problem(p)] + rest) == [p] + Problems(rest)
  {
    assert ([Problem(p)] + rest)[1..] == rest;
  }

  // -- What is found, by where it stands --

  /** A file that the inputs offer: at input `i`, and there at visit `j` of the walk. */
  datatype Place = Place(i: nat, j: nat, u: Unit)

  /** An input offers itself if it is a regular file, and if it is a directory and
      Recursive is set the files that the walk comes across. */
  predicate Offered(cfg: Config, p: Place) {
    && p.i < |cfg.inputs|
    && match cfg.stat(cfg.inputs[p.i])
       case Missing => false
       case Regular(u) => p.j == 0 && p.u == u
       case Directory(visits, _) => cfg.recursive && p.j < |visits| && visits[p.j] == Found(p.u)
  }

  /** The filter lets it pass. */
  predicate Taken(cfg: Config, p: Place) {
    Offered(cfg, p) && cfg.filter(p.u.inPath)
  }

  predicate Earlier(p: Place, q: Place) {
    p.i < q.i || (p.i == q.i && p.j < q.j)
  }

  /** It is the first of its path that is taken. */
  ghost predicate FirstOfPath(cfg: Config, p: Place) {
    Taken(cfg, p) && forall q :: Taken(cfg, q) && Earlier(q, p) ==> q.u.inPath != p.u.inPath
  }

  ghost predicate Sorted(ps: seq<Place>) {
    forall a, b :: 0 <= a < b < |ps| ==> Earlier(ps[a], ps[b])
  }

  function UnitsAt(ps: seq<Place>): (us: seq<Unit>)
    ensures |us| == |ps|
  {
    seq(|ps|, a requires 0 <= a < |ps| => ps[a].u)
  }

  /** The queue holds exactly the first unit of every path that is taken, in the
      order in which they are come across. */
  ghost predicate QueueOf(cfg: Config, units: seq<Unit>) {
    exists ps: seq<Place> :: Sorted(ps) && units == UnitsAt(ps) && HoldsFirsts(cfg, ps)
  }

  ghost predicate HoldsFirsts(cfg: Config, ps: seq<Place>) {
    forall p :: p in ps <==> FirstOfPath(cfg, p)
  }

  /** The problems of one input: it is missing, it is a directory without Recursive,
      or its walk meets unreadable paths or is cut short. */
  function Complaint(cfg: Config, input: Path): seq<Path> {
    match cfg.stat(input)
    case Missing => [input]
    case Regular(_) => []
    case Directory(visits, cutShort) =>
      if cfg.recursive then Unreadables(visits) + (if cutShort then [input] else []) else [input]
  }

  function Unreadables(visits: seq<Visit>): seq<Path> {
    if visits == [] then []
    else (if visits[0].Unreadable? then [visits[0].path] else []) + Unreadables(visits[1..])
  }

  function Complaints(cfg: Config, inputs: seq<Path>): seq<Path> {
    if inputs == [] then [] else Complaint(cfg, inputs[0]) + Complaints(cfg, inputs[1..])
  }

  // -- The proof --

  function Candidates(fs: seq<Finding>): seq<Unit> {
    if fs == [] then []
    else (match fs[0] case Problem(_) => [] case Candidate(u) => [u]) + Candidates(fs[1..])
  }

  function UnitOf(f: Finding): seq<Unit> {
    match f case Problem(_) => [] case Candidate(u) => [u]
  }

  lemma CandidatesStep(f: Finding, fs: seq<Finding>)
    ensures Candidates([f] + fs) == UnitOf(f) + Candidates(fs)
    ensures Problems([f] + fs) == (if f.Problem? then [f.path] else []) + Problems(fs)
  {
    assert ([f] + fs)[1..] == fs;
  }

  lemma {:induction false} CandidatesAppend(a: seq<Finding>, b: seq<Finding>)
    ensures Candidates(a + b) == Candidates(a) + Candidates(b)
    ensures Problems(a + b) == Problems(a) + Problems(b)
  {
    if a == [] {
      assert a + b == b;
    } else {
      var f, rest := a[0], a[1..];
      assert a == [f] + rest && a + b == [f] + (rest + b);
      CandidatesAppend(rest, b);
      CandidatesStep(f, rest);
      CandidatesStep(f, rest + b);
      hide Candidates, Problems;
      assert UnitOf(f) + (Candidates(rest) + Candidates(b)) == (UnitOf(f) + Candidates(rest)) + Candidates(b);
    }
  }

  /** What is taken from visit `j` of input `i` on. */
  function FromVisit(cfg: Config, visits: seq<Visit>, i: nat, j: nat): seq<Place>
    requires j <= |visits|
    decreases |visits| - j
  {
    if j == |visits| then []
    else (if visits[j].Found? && cfg.filter(visits[j].u.inPath) then [Place(i, j, visits[j].u)] else [])
         + FromVisit(cfg, visits, i, j + 1)
  }

  function AtInput(cfg: Config, i: nat): seq<Place>
    requires i < |cfg.inputs|
  {
    match cfg.stat(cfg.inputs[i])
    case Missing => []
    case Regular(u) => if cfg.filter(u.inPath) then [Place(i, 0, u)] else []
    case Directory(visits, _) => if cfg.recursive then FromVisit(cfg, visits, i, 0) else []
  }

  function FromInput(cfg: Config, i: nat): seq<Place>
    requires i <= |cfg.inputs|
    decreases |cfg.inputs| - i
  {
    if i == |cfg.inputs| then [] else AtInput(cfg, i) + FromInput(cfg, i + 1)
  }

  function FindingOf(cfg: Config, v: Visit): seq<Finding> {
    match v case Unreadable(p) => [Problem(p)] case SubDirectory => [] case Found(u) => Keep(cfg, u)
  }

  function PlaceOf(cfg: Config, v: Visit, i: nat, j: nat): seq<Place> {
    if v.Found? && cfg.filter(v.u.inPath) then [Place(i, j, v.u)] else []
  }

  lemma VisitFound(cfg: Config, v: Visit, i: nat, j: nat)
    ensures Candidates(FindingOf(cfg, v)) == UnitsAt(PlaceOf(cfg, v, i, j))
    ensures Problems(FindingOf(cfg, v)) == if v.Unreadable? then [v.path] else []
  {
    match v
    case Unreadable(p) => OneFinding(Problem(p));
    case SubDirectory => OneFinding(Problem(""));
    case Found(u) =>
      OneFinding(Candidate(u));
      assert UnitsAt([Place(i, j, u)]) == [u];
  }

  lemma {:induction false} VisitsFound(cfg: Config, visits: seq<Visit>, i: nat, j: nat)
    requires j <= |visits|
    ensures Candidates(Visited(cfg, visits[j..])) == UnitsAt(FromVisit(cfg, visits, i, j))
    ensures Problems(Visited(cfg, visits[j..])) == Unreadables(visits[j..])
    decreases |visits| - j
  {
    hide Candidates, Problems;
    if j == |visits| {
      OneFinding(Problem(""));
    } else {
      VisitsFound(cfg, visits, i, j + 1);
      assert visits[j..][1..] == visits[j + 1..];
      VisitFound(cfg, visits[j], i, j);
      CandidatesAppend(FindingOf(cfg, visits[j]), Visited(cfg, visits[j + 1..]));
      assert FromVisit(cfg, visits, i, j) == PlaceOf(cfg, visits[j], i, j) + FromVisit(cfg, visits, i, j + 1);
    }
  }

  lemma {:induction false} VisitsPlaced(cfg: Config, visits: seq<Visit>, i: nat, j: nat)
    requires j <= |visits|
    ensures Sorted(FromVisit(cfg, visits, i, j))
    ensures forall p :: p in FromVisit(cfg, visits, i, j) <==>
                        p.i == i && j <= p.j < |visits| && visits[p.j] == Found(p.u) && cfg.filter(p.u.inPath)
    decreases |visits| - j
  {
    if j < |visits| {
      VisitsPlaced(cfg, visits, i, j + 1);
      SortedAppend(PlaceOf(cfg, visits[j], i, j), FromVisit(cfg, visits, i, j + 1));
    }
  }

  lemma InputFound(cfg: Config, i: nat)
    requires i < |cfg.inputs|
    ensures Candidates(Findings(cfg, cfg.inputs[i])) == UnitsAt(AtInput(cfg, i))
    ensures Problems(Findings(cfg, cfg.inputs[i])) == Complaint(cfg, cfg.inputs[i])
    ensures Sorted(AtInput(cfg, i))
    ensures forall p :: p in AtInput(cfg, i) <==> p.i == i && Taken(cfg, p)
  {
    match cfg.stat(cfg.inputs[i])
    case Missing => OneFinding(Problem(cfg.inputs[i]));
    case Regular(u) =>
      if cfg.filter(u.inPath) {
        OneFinding(Candidate(u));
        assert UnitsAt([Place(i, 0, u)]) == [u];
      }
    case Directory(visits, cutShort) =>
      if cfg.recursive {
        VisitsFound(cfg, visits, i, 0);
        VisitsPlaced(cfg, visits, i, 0);
        assert visits[0..] == visits;
        hide Visited, Unreadables, Candidates, Problems, FromVisit, Sorted;
        WalkFound(cfg, cfg.inputs[i], visits, cutShort);
      } else {
        OneFinding(Problem(cfg.inputs[i]));
      }
  }

  lemma OneFinding(f: Finding)
    ensures Candidates([f]) == if f.Candidate? then [f.u] else []
    ensures Problems([f]) == if f.Problem? then [f.path] else []
    ensures Candidates([]) == [] && Problems([]) == []
  {
    assert [f][1..] == [];
  }

  lemma WalkFound(cfg: Config, input: Path, visits: seq<Visit>, cutShort: bool)
    ensures var fs := Visited(cfg, visits) + (if cutShort then [Problem(input)] else []);
            && Candidates(fs) == Candidates(Visited(cfg, visits))
            && Problems(fs) == Problems(Visited(cfg, visits)) + (if cutShort then [input] else [])
  {
    hide Visited;
    CandidatesAppend(Visited(cfg, visits), if cutShort then [Problem(input)] else []);
    OneFinding(Problem(input));
    assert Candidates(Visited(cfg, visits)) + [] == Candidates(Visited(cfg, visits));
  }

  lemma {:induction false} InputsFound(cfg: Config, i: nat)
    requires i <= |cfg.inputs|
    ensures Candidates(AllFindings(cfg, cfg.inputs[i..])) == UnitsAt(FromInput(cfg, i))
    ensures Problems(AllFindings(cfg, cfg.inputs[i..])) == Complaints(cfg, cfg.inputs[i..])
    ensures Sorted(FromInput(cfg, i))
    ensures forall p :: p in FromInput(cfg, i) <==> i <= p.i && Taken(cfg, p)
    decreases |cfg.inputs| - i
  {
    hide Findings, AtInput, Complaint;
    if i < |cfg.inputs| {
      InputFound(cfg, i);
      InputsFound(cfg, i + 1);
      assert cfg.inputs[i..][1..] == cfg.inputs[i + 1..];
      CandidatesAppend(Findings(cfg, cfg.inputs[i]), AllFindings(cfg, cfg.inputs[i + 1..]));
      SortedAppend(AtInput(cfg, i), FromInput(cfg, i + 1));
    }
  }

  lemma SortedAppend(a: seq<Place>, b: seq<Place>)
    requires Sorted(a) && Sorted(b)
    requires forall p, q :: p in a && q in b ==> Earlier(p, q)
    ensures Sorted(a + b)
  {
  }

  /** Keeping the first of every path. */
  function Firsts(kept: seq<Place>, rest: seq<Place>): seq<Place>
    decreases |rest|
  {
    if rest == [] then kept
    else Firsts(if rest[0].u.inPath in PathsOf(UnitsAt(kept)) then kept else kept + [rest[0]], rest[1..])
  }

  lemma {:induction false} FirstsQueue(kept: seq<Place>, rest: seq<Place>, fs: seq<Finding>)
    requires Candidates(fs) == UnitsAt(rest)
    ensures Queue(UnitsAt(kept), fs) == UnitsAt(Firsts(kept, rest))
    decreases fs
  {
    if fs != [] {
      match fs[0]
      case Problem(_) => FirstsQueue(kept, rest, fs[1..]);
      case Candidate(u) =>
        assert Candidates(fs)[0] == u && Candidates(fs)[1..] == Candidates(fs[1..]);
        assert UnitsAt(rest)[0] == rest[0].u && UnitsAt(rest)[1..] == UnitsAt(rest[1..]);
        var kept' := if u.inPath in PathsOf(UnitsAt(kept)) then kept else kept + [rest[0]];
        assert UnitsAt(kept + [rest[0]]) == UnitsAt(kept) + [u];
        FirstsQueue(kept', rest[1..], fs[1..]);
    }
  }

  /** `kept` has the first of every path in `seen`, in order. */
  ghost predicate KeepsFirsts(seen: seq<Place>, kept: seq<Place>) {
    && Sorted(kept)
    && (forall p :: p in kept <==> p in seen && FirstIn(seen, p))
    && (forall p :: p in seen ==> p.u.inPath in PathsOf(UnitsAt(kept)))
  }

  ghost predicate FirstIn(seen: seq<Place>, p: Place) {
    forall q :: q in seen && Earlier(q, p) ==> q.u.inPath != p.u.inPath
  }

  lemma KeepsOneMore(seen: seq<Place>, kept: seq<Place>, x: Place)
    requires Sorted(seen + [x]) && KeepsFirsts(seen, kept)
    ensures KeepsFirsts(seen + [x], if x.u.inPath in PathsOf(UnitsAt(kept)) then kept else kept + [x])
  {
    hide Sorted, PathsOf, UnitsAt, FirstIn, Earlier;
    SeenBefore(seen, x);
    KeptPaths(kept);
    if x.u.inPath in PathsOf(UnitsAt(kept)) {
      var q :| q in kept && q.u.inPath == x.u.inPath;
      NotFirst(seen + [x], x, q);
    } else {
      KeptPaths(kept + [x]);
      IsFirst(seen, x);
      SortedSnoc(kept, x);
    }
  }

  lemma SeenBefore(seen: seq<Place>, x: Place)
    requires Sorted(seen + [x])
    ensures forall p :: p in seen ==> Earlier(p, x) && (FirstIn(seen + [x], p) <==> FirstIn(seen, p))
  {
    var all := seen + [x];
    forall p | p in seen ensures Earlier(p, x) && (FirstIn(all, p) <==> FirstIn(seen, p)) {
      var a :| 0 <= a < |seen| && seen[a] == p;
      assert Earlier(all[a], all[|seen|]);
    }
  }

  lemma NotFirst(seen: seq<Place>, x: Place, q: Place)
    requires q in seen && Earlier(q, x) && q.u.inPath == x.u.inPath
    ensures !FirstIn(seen, x)
  {
  }

  lemma IsFirst(seen: seq<Place>, x: Place)
    requires forall q :: q in seen ==> q.u.inPath != x.u.inPath
    ensures FirstIn(seen + [x], x)
  {
  }

  lemma SortedSnoc(kept: seq<Place>, x: Place)
    requires Sorted(kept) && forall p :: p in kept ==> Earlier(p, x)
    ensures Sorted(kept + [x])
  {
  }

  lemma KeptPaths(kept: seq<Place>)
    ensures forall path :: path in PathsOf(UnitsAt(kept)) <==> exists q :: q in kept && q.u.inPath == path
  {
    forall q | q in kept ensures q.u.inPath in PathsOf(UnitsAt(kept)) {
      var a :| 0 <= a < |kept| && kept[a] == q;
      assert UnitsAt(kept)[a] == q.u;
    }
    forall path | path in PathsOf(UnitsAt(kept)) ensures exists q :: q in kept && q.u.inPath == path {
      var u :| u in UnitsAt(kept) && u.inPath == path;
      var a :| 0 <= a < |kept| && UnitsAt(kept)[a] == u;
      assert kept[a] in kept;
    }
  }

  lemma {:induction false} FirstsKept(seen: seq<Place>, kept: seq<Place>, rest: seq<Place>)
    requires Sorted(seen + rest) && KeepsFirsts(seen, kept)
    ensures KeepsFirsts(seen + rest, Firsts(kept, rest))
    decreases |rest|
  {
    hide KeepsFirsts;
    if rest == [] {
      assert seen + rest == seen;
    } else {
      var x := rest[0];
      assert seen + rest == (seen + [x]) + rest[1..];
      assert Sorted(seen + [x]) by { assert seen + [x] == (seen + rest)[..|seen| + 1]; }
      KeepsOneMore(seen, kept, x);
      FirstsKept(seen + [x], if x.u.inPath in PathsOf(UnitsAt(kept)) then kept else kept + [x], rest[1..]);
    }
  }

  /** The queue and the problems that discovery comes to, without the list of
      findings in between. */
  lemma DiscoveredIs(cfg: Config)
    ensures QueueOf(cfg, Queue([], AllFindings(cfg, cfg.inputs)))
    ensures Problems(AllFindings(cfg, cfg.inputs)) == Complaints(cfg, cfg.inputs)
  {
    hide AllFindings, Queue, Problems, Complaints, Firsts, FromInput, Candidates, Taken;
    InputsFound(cfg, 0);
    assert cfg.inputs[0..] == cfg.inputs;
    var all := FromInput(cfg, 0);
    var ps := Firsts([], all);
    assert UnitsAt([]) == [];
    FirstsQueue([], all, AllFindings(cfg, cfg.inputs));
    assert [] + all == all;
    FirstsKept([], [], all);
    assert HoldsFirsts(cfg, ps);
  }

  /** So a path is queued exactly when the filter accepts it and it is that of a
      regular input or of a file that the walk of a directory finds. */
  lemma QueuedIff(cfg: Config, units: seq<Unit>, path: Path)
    requires QueueOf(cfg, units)
    ensures path in PathsOf(units) <==>
            cfg.filter(path) && exists p :: Offered(cfg, p) && p.u.inPath == path
  {
    var ps: seq<Place> :| Sorted(ps) && units == UnitsAt(ps) && HoldsFirsts(cfg, ps);
    KeptPaths(ps);
    if cfg.filter(path) && exists p :: Offered(cfg, p) && p.u.inPath == path {
      var p :| Offered(cfg, p) && p.u.inPath == path;
      var q := FirstTaken(cfg, p);
      assert q in ps;
    }
  }

  /** Among the places of a path there is a first. */
  lemma {:induction false} FirstTaken(cfg: Config, p: Place) returns (q: Place)
    requires Taken(cfg, p)
    ensures FirstOfPath(cfg, q) && q.u.inPath == p.u.inPath
    decreases p.i, p.j
  {
    if forall r :: Taken(cfg, r) && Earlier(r, p) ==> r.u.inPath != p.u.inPath {
      q := p;
    } else {
      var r :| Taken(cfg, r) && Earlier(r, p) && r.u.inPath == p.u.inPath;
      q := FirstTaken(cfg, r);
    }
  }

  class Discovery {
    const cfg: Config
    var units: seq<Unit>
    var errs: seq<Path>
    var seen: set<Path>

    constructor (cfg: Config)
      ensures this.cfg == cfg && units == [] && errs == [] && Valid()
    {
      this.cfg, units, errs, seen := cfg, [], [], {};
    }

    ghost predicate Valid()
      reads this
    {
      seen == PathsOf(units)
    }

    /** The state after some findings. */
    twostate predicate Noted(fs: seq<Finding>)
      reads this
    {
      Valid() && units == Queue(old(units), fs) && errs == old(errs) + Problems(fs)
    }

    method Push(u: Unit)
      requires Valid()
      modifies `units, `seen
      ensures Valid() && units == Queue(old(units), [Candidate(u)])
    {
      assert [Candidate(u)][1..] == [];
      if u.inPath in seen {
        return;
      }
      seen := seen + {u.inPath};
      units := units + [u];
    }

    method Offer(u: Unit)
      requires Valid()
      modifies this
      ensures Noted(Keep(cfg, u))
    {
      assert [Candidate(u)][1..] == [];
      if cfg.filter(u.inPath) {
        Push(u);
      }
    }

    method Walk(visits: seq<Visit>)
      requires Valid()
      modifies this
      ensures Noted(Visited(cfg, visits))
    {
      hide Queue, Problems, PathsOf, Keep;
      var i := 0;
      while i < |visits|
        invariant 0 <= i <= |visits|
        invariant Valid() && Queue(units, Visited(cfg, visits[i..])) == Queue(old(units), Visited(cfg, visits))
        invariant errs + Problems(Visited(cfg, visits[i..])) == old(errs) + Problems(Visited(cfg, visits))
      {
        assert visits[i..][1..] == visits[i + 1..];
        ghost var rest := Visited(cfg, visits[i + 1..]);
        match visits[i] {
          case Unreadable(p) =>
            QueueProblem(units, p, rest);
            assert errs + ([p] + Problems(rest)) == errs + [p] + Problems(rest);
            errs := errs + [p];
          case SubDirectory =>
            assert [] + rest == rest;
          case Found(u) =>
            QueueAppend(units, Keep(cfg, u), rest);
            assert errs + (Problems(Keep(cfg, u)) + Problems(rest)) == errs + Problems(Keep(cfg, u)) + Problems(rest);
            Offer(u);
        }
        i := i + 1;
      }
      QueueNothing(units);
    }

    method Discover()
      requires Valid() && units == [] && errs == []
      modifies this
      ensures units == Queue([], AllFindings(cfg, cfg.inputs)) && errs == Problems(AllFindings(cfg, cfg.inputs))
      ensures Distinct(units) && QueueOf(cfg, units) && errs == Complaints(cfg, cfg.inputs)
    {
      hide Queue, Problems, PathsOf, Findings, QueueOf, Complaints;
      var i := 0;
      while i < |cfg.inputs|
        invariant 0 <= i <= |cfg.inputs|
        invariant Valid() && Queue(units, AllFindings(cfg, cfg.inputs[i..])) == Queue([], AllFindings(cfg, cfg.inputs))
        invariant errs + Problems(AllFindings(cfg, cfg.inputs[i..])) == Problems(AllFindings(cfg, cfg.inputs))
      {
        var input := cfg.inputs[i];
        assert cfg.inputs[i..][1..] == cfg.inputs[i + 1..];
        ghost var found, rest := Findings(cfg, input), AllFindings(cfg, cfg.inputs[i + 1..]);
        QueueAppend(units, found, rest);
        assert errs + (Problems(found) + Problems(rest)) == errs + Problems(found) + Problems(rest);
        DiscoverOne(input);
        i := i + 1;
      }
      QueueNothing(units);
      QueueIsDistinct([], AllFindings(cfg, cfg.inputs));
      DiscoveredIs(cfg);
    }

    method DiscoverOne(input: Path)
      requires Valid()
      modifies this
      ensures Noted(Findings(cfg, input))
    {
      assert [Problem(input)][1..] == [];
      match cfg.stat(input) {
        case Missing =>
          errs := errs + [input];
        case Regular(u) =>
          Offer(u);
        case Directory(visits, cutShort) =>
          if !cfg.recursive {
            errs := errs + [input];
            return;
          }
          Walk(visits);
          QueueAppend(old(units), Visited(cfg, visits), if cutShort then [Problem(input)] else []);
          if cutShort {
            errs := errs + [input];
          }
      }
    }
  }
}
