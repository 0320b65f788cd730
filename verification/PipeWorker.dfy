/** The compressed path of the decrypting pipe as a step system: Decrypt, making
    the calls that the stream leads it to, on one side of an io.Pipe, the LZ4
    worker on the other, and the channel on which the worker reports. */
module PipeWorker {
  import opened Bytes
  import opened Faults
  import opened Primitives
  import opened Exits
  import opened Envelope
  import opened Metadata
  import opened Meaning
  import Cbc
  import Pkcs7

  const OWN_ERROR: Fault := 1

  /** Where the thread that runs Decrypt is.  A write of `b` has `rest` left and
      has been `taken` up by the reader or not; `last` marks finish's write. */
  datatype Main =
    | Idle
    | Writing(b: bytes, rest: bytes, last: bool, taken: bool)
    | Ending                                      // finish, about to close its end
    | Failing(f: Fault)                           // about to abort
    | Waiting(refused: Option<Fault>)             // receiving, with the error to return if not the worker's
    | Exited(refused: Option<Fault>, result: Option<Fault>)
    | Walked                                      // Decrypt returned through neither finish nor abort

  datatype Worker =
    | Copying
    | Emitting(o: bytes)                          // inside a write to the output
    | Closing(err: Option<Fault>)
    | Sending(err: Option<Fault>)
    | Stopped(err: Option<Fault>)

  datatype WriteEnd = Open | Ended | Broken(f: Fault)

  /** `outputRefused` records that the output has refused a write of the worker. */
  datatype State = State(
    main: Main, calls: seq<Call>, worker: Worker, writeEnd: WriteEnd,
    done: Option<Option<Fault>>, received: nat,
    fed: bytes, consumed: bytes, hashed: bytes, outputRefused: bool)

  datatype Step =
    | Next                                   // Decrypt makes its next call
    | Transfer(n: nat)                       // the worker reads n bytes of the write in progress
    | WriteDone                              // the write returns: all taken
    | WriteRefused                           // the write returns: the reader has closed
    | CloseEnd                               // finish closes the pipe
    | CloseBroken                            // abort closes the pipe with the error
    | Emit(o: bytes)                         // the worker starts writing output
    | OutputTaken                            // the output takes the write
    | OutputRefuses(f: Fault)                // the output refuses it, and the copy fails
    | CopyEnds(err: Option<Fault>)           // the worker's copy returns
    | CloseRead                              // the worker closes its end of the pipe
    | Send                                   // the worker reports on the channel
    | Receive                                // finish or abort takes the report

  function Start(calls: seq<Call>): State {
    State(Idle, calls, Copying, Open, None, 0, [], [], [], false)
  }

  predicate Over(w: Worker) {
    w.Closing? || w.Sending? || w.Stopped?
  }

  predicate ReadClosed(s: State) {
    s.worker.Sending? || s.worker.Stopped?
  }

  /** What a refused writer is told: the worker's error, or that the pipe is closed. */
  function Refusal(w: Worker): Fault
    requires w.Sending? || w.Stopped?
  {
    match w.err case Some(f) => f case None => CLOSED_PIPE
  }

  /** Has the write in progress been met in full? */
  predicate Met(m: Main) {
    m.Writing? && m.taken && m.rest == []
  }

  /** The reader takes bytes one after the other and none once it halts. */
  predicate Takes(S: Suite, consumed: bytes, rest: bytes, n: nat)
    requires n <= |rest|
  {
    (n == 0 ==> !S.lzHalts(consumed)) && forall j :: 0 <= j < n ==> !S.lzHalts(consumed + rest[..j])
  }

  /** The copy ends well when the reader's input has ended, or the reader halts,
      on something complete whose output is all written; it ends with an error
      when that is incomplete, or the pipe was closed with one. */
  predicate CanEnd(S: Suite, s: State, err: Option<Fault>) {
    var over := s.writeEnd == Ended || S.lzHalts(s.consumed);
    if err == None then over && S.lzComplete(s.consumed) && s.hashed == S.lzOutput(s.consumed)
    else s.writeEnd.Broken? || (over && !S.lzComplete(s.consumed))
  }

  /** The state after step `a`, if the step is possible. */
  function Do(S: Suite, s: State, a: Step): Option<State> {
    match a
    case Next =>
      if s.main == Idle && s.calls != [] then Some(Called(s)) else None
    case Transfer(n) =>
      if s.main.Writing? && s.worker == Copying && !Met(s.main)
         && n <= |s.main.rest| && (n > 0 || s.main.rest == []) && Takes(S, s.consumed, s.main.rest, n)
      then Some(s.(main := s.main.(rest := s.main.rest[n..], taken := true), consumed := s.consumed + s.main.rest[..n]))
      else None
    case WriteDone =>
      if Met(s.main) then Some(s.(main := if s.main.last then Ending else Idle)) else None
    case WriteRefused =>
      if s.main.Writing? && !Met(s.main) && ReadClosed(s)
      then Some(s.(main := if s.main.last then Waiting(Some(Refusal(s.worker))) else Failing(Refusal(s.worker))))
      else None
    case CloseEnd =>
      if s.main == Ending then Some(s.(main := Waiting(None), writeEnd := Ended)) else None
    case CloseBroken =>
      if s.main.Failing? then Some(s.(main := Waiting(Some(s.main.f)), writeEnd := Broken(s.main.f))) else None
    case Emit(o) =>
      if s.worker == Copying && o != [] && s.hashed + o <= S.lzOutput(s.consumed)
      then Some(s.(worker := Emitting(o)))
      else None
    case OutputTaken =>
      if s.worker.Emitting? then Some(s.(worker := Copying, hashed := s.hashed + s.worker.o)) else None
    case OutputRefuses(f) =>
      if s.worker.Emitting? then Some(s.(worker := Closing(Some(f)), outputRefused := true)) else None
    case CopyEnds(err) =>
      if s.worker == Copying && CanEnd(S, s, err) then Some(s.(worker := Closing(err))) else None
    case CloseRead =>
      if s.worker.Closing? then Some(s.(worker := Sending(s.worker.err))) else None
    case Send =>
      if s.worker.Sending? && s.done == None
      then Some(s.(worker := Stopped(s.worker.err), done := Some(s.worker.err)))
      else None
    case Receive =>
      if s.main.Waiting? && s.done.Some?
      then Some(s.(main := Exited(s.main.refused, if s.main.refused.Some? then s.main.refused else s.done.value),
                   done := None, received := s.received + 1))
      else None
  }

  /** Decrypt's next call of the pipe, or its walking away from it. */
  function Called(s: State): State
    requires s.calls != []
  {
    var t := s.(calls := s.calls[1..]);
    match s.calls[0]
    case Feed(b) => t.(main := Writing(b, b, false, false), fed := s.fed + b)
    case Tail(b) => t.(main := Writing(b, b, true, false), fed := s.fed + b)
    case Quit(_) => t.(main := Failing(OWN_ERROR))
    case Walk(_) => t.(main := Walked)
  }

  /** Where a sequence of steps leads from `s`, if each of them is possible in its
      turn.  The steps from `Start(calls)` are all interleavings there are. */
  function Run(S: Suite, s: State, steps: seq<Step>): Option<State>
    decreases |steps|
  {
    if steps == [] then Some(s)
    else match Do(S, s, steps[0]) case None => None case Some(t) => Run(S, t, steps[1..])
  }

  // -- What every step keeps --

  function InFlight(m: Main): bytes {
    match m case Writing(_, rest, _, _) => rest case _ => []
  }

  /** No write has been refused so far, and Decrypt has no error of its own. */
  predicate AllAccepted(m: Main) {
    m.Idle? || m.Writing? || m.Ending? || m == Waiting(None) || (m.Exited? && m.refused == None) || m.Walked?
  }

  /** The report is made once, by a worker that has stopped, and taken at most
      once; whoever waits can count on the worker's input being closed. */
  predicate ReportInv(s: State) {
    && s.received + (if s.done.Some? then 1 else 0) == (if s.worker.Stopped? then 1 else 0)
    && (s.done.Some? ==> s.worker == Stopped(s.done.value))
    && (s.received == 1 <==> s.main.Exited?)
    && (s.main.Exited? && s.main.refused == None ==> s.worker == Stopped(s.main.result))
    && (s.main.Exited? && s.main.refused.Some? ==> s.main.result == s.main.refused)
    && (s.main.Waiting? ==> s.writeEnd != Open || ReadClosed(s))
    && (s.main.Idle? || s.main.Writing? || s.main.Ending? || s.main.Failing? || s.main.Walked? ==> s.writeEnd == Open)
    && (s.main == Waiting(None) || (s.main.Exited? && s.main.refused == None) ==> s.writeEnd == Ended)
  }

  /** Bytes are passed on in order and none is lost before a refusal. */
  predicate DataInv(s: State) {
    && s.consumed + InFlight(s.main) <= s.fed
    && (AllAccepted(s.main) ==> s.consumed + InFlight(s.main) == s.fed)
    && (s.main.Writing? ==>
          && |s.main.rest| <= |s.main.b| <= |s.fed|
          && s.main.b == s.fed[|s.fed| - |s.main.b|..]
          && (!s.main.taken ==> s.main.rest == s.main.b))
  }

  ghost predicate ReaderInv(S: Suite, s: State) {
    // nothing was taken by a reader that had halted
    && (forall n :: 0 <= n < |s.consumed| ==> !S.lzHalts(s.consumed[..n]))
    && (Met(s.main) && s.main.b == [] ==> !S.lzHalts(s.consumed))
    // the output is what the reader makes of what it took
    && s.hashed + (if s.worker.Emitting? then s.worker.o else []) <= S.lzOutput(s.consumed)
    && (Over(s.worker) && s.worker.err == None ==> S.lzComplete(s.consumed) && s.hashed == S.lzOutput(s.consumed))
    && (Over(s.worker) && s.worker.err.Some? ==> s.outputRefused || s.writeEnd.Broken? || !S.lzComplete(s.consumed))
    && (Over(s.worker) && s.writeEnd == Open ==> s.outputRefused || S.lzHalts(s.consumed))
  }

  ghost predicate Inv(S: Suite, s: State) {
    DataInv(s) && ReportInv(s) && ReaderInv(S, s)
  }

  lemma TransferLosesNothing(S: Suite, s: State, n: nat)
    requires DataInv(s) && Do(S, s, Transfer(n)).Some?
    ensures DataInv(Do(S, s, Transfer(n)).value)
  {
    hide Family.Lawful, CanEnd, Takes, Refusal;
    var rest := s.main.rest;
    assert (s.consumed + rest[..n]) + rest[n..] == s.consumed + rest;
  }

  lemma CallLosesNothing(S: Suite, s: State)
    requires DataInv(s) && Do(S, s, Next).Some?
    ensures DataInv(Do(S, s, Next).value)
  {
    hide Family.Lawful;
    assert s.consumed + [] == s.consumed;
    if s.calls[0].Feed? || s.calls[0].Tail? {
      assert (s.fed + s.calls[0].b)[|s.fed|..] == s.calls[0].b;
    }
  }

  lemma DataKept(S: Suite, s: State, a: Step)
    requires DataInv(s) && Do(S, s, a).Some?
    ensures DataInv(Do(S, s, a).value)
  {
    hide Family.Lawful, CanEnd, Takes, Refusal, Called;
    if a.Transfer? {
      TransferLosesNothing(S, s, a.n);
    } else if a.Next? {
      CallLosesNothing(S, s);
    } else {
      assert s.consumed + [] == s.consumed;
    }
  }

  lemma ReportKept(S: Suite, s: State, a: Step)
    requires ReportInv(s) && Do(S, s, a).Some?
    ensures ReportInv(Do(S, s, a).value)
  {
    hide Family.Lawful;
  }

  lemma TransferKept(S: Suite, s: State, n: nat)
    requires Inv(S, s) && Do(S, s, Transfer(n)).Some?
    ensures ReaderInv(S, Do(S, s, Transfer(n)).value)
  {
    hide Family.Lawful, CanEnd, ReportInv;
    var t := Do(S, s, Transfer(n)).value;
    var taken := s.main.rest[..n];
    forall i | 0 <= i < |t.consumed| ensures !S.lzHalts(t.consumed[..i]) {
      if i >= |s.consumed| {
        assert t.consumed[..i] == s.consumed + s.main.rest[..i - |s.consumed|];
      } else {
        assert t.consumed[..i] == s.consumed[..i];
      }
    }
    Monotone(S, s.consumed, taken);
    if n == 0 {
      assert s.consumed + taken == s.consumed;
    }
  }

  lemma Monotone(S: Suite, x: bytes, y: bytes)
    ensures S.lzOutput(x) <= S.lzOutput(x + y)
  {
  }

  lemma ReaderKept(S: Suite, s: State, a: Step)
    requires Inv(S, s) && Do(S, s, a).Some?
    ensures ReaderInv(S, Do(S, s, a).value)
  {
    hide Family.Lawful, Takes;
    if a.Transfer? {
      TransferKept(S, s, a.n);
    } else {
      hide DataInv, ReportInv;
    }
  }

  lemma StartInv(S: Suite, calls: seq<Call>)
    ensures Inv(S, Start(calls))
  {
    hide Family.Lawful;
  }

  lemma StepKeepsInv(S: Suite, s: State, a: Step)
    requires Inv(S, s) && Do(S, s, a).Some?
    ensures Inv(S, Do(S, s, a).value)
  {
    hide Family.Lawful, DataInv, ReportInv, ReaderInv, Do;
    DataKept(S, s, a);
    ReportKept(S, s, a);
    ReaderKept(S, s, a);
  }

  lemma {:induction false} RunKeepsInv(S: Suite, s: State, steps: seq<Step>)
    requires Inv(S, s) && Run(S, s, steps).Some?
    ensures Inv(S, Run(S, s, steps).value)
    decreases |steps|
  {
    hide Family.Lawful, Inv, Do;
    if steps != [] {
      StepKeepsInv(S, s, steps[0]);
      RunKeepsInv(S, Do(S, s, steps[0]).value, steps[1..]);
    }
  }

  // -- How Decrypt returns --

  /** Does Decrypt walk away from here, if the output refuses nothing? */
  ghost predicate WalkAhead(S: Suite, s: State) {
    match s.main
    case Idle => Walks(S, s.fed, s.calls)
    case Writing(b, _, last, _) =>
      !last && |b| <= |s.fed| && !S.Refuses(s.fed[..|s.fed| - |b|], b) && Walks(S, s.fed, s.calls)
    case Walked => true
    case _ => false
  }

  /** A write that returns has been refused exactly when the LZ4 reader refuses
      it, whatever the interleaving; an output that refuses can only add to that. */
  lemma WriteReturns(S: Suite, s: State, a: Step)
    requires Inv(S, s) && Do(S, s, a).Some? && (a.WriteDone? || a.WriteRefused?)
    ensures var x := s.fed[..|s.fed| - |s.main.b|];
            && x + s.main.b == s.fed
            && (a.WriteDone? ==> !S.Refuses(x, s.main.b))
            && (a.WriteRefused? && !s.outputRefused ==> S.Refuses(x, s.main.b))
  {
    hide Family.Lawful;
    var b := s.main.b;
    var x := s.fed[..|s.fed| - |b|];
    assert x + b == s.fed;
    assert s.consumed + s.main.rest == s.fed;
    if a.WriteDone? {
      assert s.consumed == s.fed;
    } else if !s.outputRefused {
      assert (x + b)[..|s.consumed|] == s.consumed;
    }
  }

  lemma WalkAheadKept(S: Suite, s: State, a: Step)
    requires Inv(S, s) && Do(S, s, a).Some?
    ensures var t := Do(S, s, a).value;
            && (s.outputRefused ==> t.outputRefused)
            && (WalkAhead(S, t) ==> WalkAhead(S, s))
            && (WalkAhead(S, s) && !t.outputRefused ==> WalkAhead(S, t))
  {
    hide Family.Lawful, Family.Refuses, ReaderInv, CanEnd, Takes;
    if a.WriteDone? || a.WriteRefused? {
      WriteReturns(S, s, a);
    }
    if a.Next? && (s.calls[0].Feed? || s.calls[0].Tail?) {
      assert (s.fed + s.calls[0].b)[..|s.fed|] == s.fed;
    }
  }

  lemma {:induction false} RunKeepsWalk(S: Suite, s: State, steps: seq<Step>)
    requires Inv(S, s) && Run(S, s, steps).Some?
    ensures var t := Run(S, s, steps).value;
            && (WalkAhead(S, t) ==> WalkAhead(S, s))
            && (WalkAhead(S, s) && !t.outputRefused ==> WalkAhead(S, t))
            && (s.outputRefused ==> t.outputRefused)
    decreases |steps|
  {
    hide Family.Lawful, Inv, Do, WalkAhead;
    if steps != [] {
      StepKeepsInv(S, s, steps[0]);
      WalkAheadKept(S, s, steps[0]);
      RunKeepsWalk(S, Do(S, s, steps[0]).value, steps[1..]);
    }
  }

  /** When Decrypt has returned, the worker's report has been taken once or not at
      all.  It has not been taken only if the calls lead to a Walk, with the LZ4
      reader's refusals on the way; and if so and the output has refused
      nothing, it has indeed not been taken. */
  lemma ReportTakenIff(S: Suite, calls: seq<Call>, steps: seq<Step>)
    requires Run(S, Start(calls), steps).Some?
    requires var t := Run(S, Start(calls), steps).value; t.main.Exited? || t.main.Walked?
    ensures var t := Run(S, Start(calls), steps).value;
            && t.received == (if t.main.Exited? then 1 else 0)
            && (t.received == 0 ==> Walks(S, [], calls))
            && (!t.outputRefused ==> (t.received == 0 <==> Walks(S, [], calls)))
  {
    hide Family.Lawful, Do, Family.Refuses, ReaderInv, DataInv;
    StartInv(S, calls);
    RunKeepsInv(S, Start(calls), steps);
    RunKeepsWalk(S, Start(calls), steps);
  }

  /** On the bytes: for the calls that a stream leads to, the report goes untaken
      exactly when the stream's first flaw after the first data dict is a bad
      object and the reader has refused nothing up to there. */
  lemma ReportTakenOnStream(S: Suite, k: CipherKey, s: bytes, m: Meta, steps: seq<Step>)
    requires k.Valid()
    requires Run(S, Start(Script(S, k, s, m, [])), steps).Some?
    requires var t := Run(S, Start(Script(S, k, s, m, [])), steps).value;
             !t.outputRefused && (t.main.Exited? || t.main.Walked?)
    ensures var calls := Script(S, k, s, m, []);
            Run(S, Start(calls), steps).value.received == 0
            <==> FirstFlaw(s, m) == BadObject && NoneRefused(S, [], calls)
  {
    hide Family.Lawful, Do, Run, Script, FirstFlaw, NoneRefused;
    ReportTakenIff(S, Script(S, k, s, m, []), steps);
    WalksIff(S, k, s, m, [], []);
  }

  // -- What an exit means --

  /** Has every write up to here been made, and none been refused? */
  predicate OnCourse(m: Main) {
    m.Idle? || m.Writing? || m == Ending || m == Waiting(None) || (m.Exited? && m.refused == None)
  }

  /** Everything that has been fed and is still to be fed, up to finish's write. */
  function Spelt(s: State): Option<bytes> {
    if s.main.Idle? || (s.main.Writing? && !s.main.last) then
      match TailBytes(s.calls) case None => None case Some(t) => Some(s.fed + t)
    else Some(s.fed)
  }

  /** Is the pipe fed `whole`, as long as nothing has gone wrong? */
  predicate Course(whole: Option<bytes>, s: State) {
    OnCourse(s.main) ==> Spelt(s) == whole
  }

  lemma CourseKept(S: Suite, whole: Option<bytes>, s: State, a: Step)
    requires Course(whole, s) && Do(S, s, a).Some?
    ensures Course(whole, Do(S, s, a).value)
  {
    hide Family.Lawful, CanEnd, Takes;
    if a.Next? && s.calls[0].Feed? && TailBytes(s.calls[1..]).Some? {
      var b, t := s.calls[0].b, TailBytes(s.calls[1..]).value;
      assert s.fed + (b + t) == (s.fed + b) + t;
    }
  }

  /** Will all writes be made and taken from here on, if the output refuses nothing? */
  ghost predicate TakenAhead(S: Suite, s: State) {
    match s.main
    case Idle => AllTaken(S, s.fed, s.calls)
    case Writing(b, _, last, _) =>
      |b| <= |s.fed| && !S.Refuses(s.fed[..|s.fed| - |b|], b) && (last || AllTaken(S, s.fed, s.calls))
    case Ending => true
    case Waiting(refused) => refused == None
    case Exited(refused, _) => refused == None
    case _ => false
  }

  lemma TakenAheadKept(S: Suite, s: State, a: Step)
    requires Inv(S, s) && Do(S, s, a).Some?
    ensures var t := Do(S, s, a).value;
            && (s.outputRefused ==> t.outputRefused)
            && (TakenAhead(S, t) ==> TakenAhead(S, s))
            && (TakenAhead(S, s) && !t.outputRefused ==> TakenAhead(S, t))
  {
    hide Family.Lawful, Family.Refuses, ReaderInv, CanEnd, Takes;
    if a.WriteDone? || a.WriteRefused? {
      WriteReturns(S, s, a);
    }
    if a.Next? && (s.calls[0].Feed? || s.calls[0].Tail?) {
      assert (s.fed + s.calls[0].b)[..|s.fed|] == s.fed;
    }
  }

  lemma {:induction false} RunKeepsCourse(S: Suite, whole: Option<bytes>, s: State, steps: seq<Step>)
    requires Inv(S, s) && Course(whole, s) && Run(S, s, steps).Some?
    ensures var t := Run(S, s, steps).value;
            && Course(whole, t)
            && (TakenAhead(S, t) ==> TakenAhead(S, s))
            && (TakenAhead(S, s) && !t.outputRefused ==> TakenAhead(S, t))
            && (s.outputRefused ==> t.outputRefused)
    decreases |steps|
  {
    hide Family.Lawful, Inv, Course, TakenAhead, Do;
    if steps != [] {
      StepKeepsInv(S, s, steps[0]);
      CourseKept(S, whole, s, steps[0]);
      TakenAheadKept(S, s, steps[0]);
      RunKeepsCourse(S, whole, Do(S, s, steps[0]).value, steps[1..]);
    }
  }

  /** When finish or abort has returned, the worker has stopped and its one report
      has been taken.  When the result is no error, the reader has taken all that
      the calls feed, up to finish's last write, that is complete, and the hash
      holds exactly what the reader makes of it; and over an output that refuses
      nothing these are the only errors: a write that the reader does not take, a
      last write that is not reached, and a whole that is not complete. */
  lemma ExitedMeansStopped(S: Suite, calls: seq<Call>, steps: seq<Step>)
    requires Run(S, Start(calls), steps).Some? && Run(S, Start(calls), steps).value.main.Exited?
    ensures TailBytes(calls).Some? || !AllTaken(S, [], calls)
    ensures var t := Run(S, Start(calls), steps).value;
            t.worker.Stopped? && t.received == 1 && t.done == None
    ensures var t := Run(S, Start(calls), steps).value;
            && (t.main.result == None
                ==> AllTaken(S, [], calls) && S.LzRead(TailBytes(calls).value) == LzOk(t.hashed))
            && (!t.outputRefused
                ==> (t.main.result == None <==> AllTaken(S, [], calls) && S.LzRead(TailBytes(calls).value).LzOk?))
  {
    hide Family.Lawful, Do, Run, Family.Refuses;
    StartInv(S, calls);
    RunKeepsInv(S, Start(calls), steps);
    assert TailBytes(calls).Some? ==> [] + TailBytes(calls).value == TailBytes(calls).value;
    RunKeepsCourse(S, TailBytes(calls), Start(calls), steps);
    TakenReachesTail(S, [], calls);
    var t := Run(S, Start(calls), steps).value;
    if t.main.refused == None {
      assert t.consumed + [] == t.consumed == t.fed;
    }
  }

  lemma {:induction false} TakenReachesTail(S: Suite, fed: bytes, calls: seq<Call>)
    ensures AllTaken(S, fed, calls) ==> TailBytes(calls).Some?
    decreases calls
  {
    hide Family.Lawful, Family.Refuses;
    if calls != [] && calls[0].Feed? {
      TakenReachesTail(S, fed + calls[0].b, calls[1..]);
    }
  }

  /** Is this the error that the worker's end of the pipe answers with: its own, or
      that the pipe is closed when it ended without one? */
  predicate FromWorker(s: State, f: Fault) {
    Over(s.worker) && (s.worker.err == Some(f) || (s.worker.err == None && f == CLOSED_PIPE))
  }

  predicate WhoseError(s: State) {
    match s.main
    case Failing(f) => f == OWN_ERROR || FromWorker(s, f)
    case Waiting(Some(f)) => f == OWN_ERROR || FromWorker(s, f)
    case Exited(Some(f), _) => f == OWN_ERROR || FromWorker(s, f)
    case _ => true
  }

  lemma {:induction false} RunKeepsError(S: Suite, s: State, steps: seq<Step>)
    requires Inv(S, s) && WhoseError(s) && Run(S, s, steps).Some?
    ensures WhoseError(Run(S, s, steps).value)
    decreases |steps|
  {
    hide Family.Lawful, Inv, WhoseError, Do;
    if steps != [] {
      StepKeepsInv(S, s, steps[0]);
      ErrorKept(S, s, steps[0]);
      RunKeepsError(S, Do(S, s, steps[0]).value, steps[1..]);
    }
  }

  lemma ErrorKept(S: Suite, s: State, a: Step)
    requires WhoseError(s) && Do(S, s, a).Some?
    ensures WhoseError(Do(S, s, a).value)
  {
    hide Family.Lawful, CanEnd, Takes;
  }

  /** The error that Decrypt is left with is its own, or the worker's: the worker's
      where finish or a write had to do with it, or that of a closed pipe after a
      worker that had ended well. */
  lemma ErrorIsWhose(S: Suite, calls: seq<Call>, steps: seq<Step>, f: Fault)
    requires Run(S, Start(calls), steps).Some?
    requires var t := Run(S, Start(calls), steps).value; t.main.Exited? && t.main.result == Some(f)
    ensures var t := Run(S, Start(calls), steps).value;
            f == OWN_ERROR || t.worker == Stopped(Some(f)) || (t.worker == Stopped(None) && f == CLOSED_PIPE)
  {
    hide Family.Lawful, Do, Run;
    StartInv(S, calls);
    RunKeepsInv(S, Start(calls), steps);
    RunKeepsError(S, Start(calls), steps);
  }

  /** On the bytes: whatever the interleaving, a pipe that Decrypt leaves through
      finish or abort without an error has passed on exactly the one-shot decoding
      of all payloads; and over an output that refuses nothing it is left with an
      error only if there is none, or the reader does not take all that it is
      given. */
  lemma PipeDecodes(S: Suite, k: CipherKey, s: bytes, m: Meta, h: Meta, steps: seq<Step>)
    requires k.Valid() && Run(S, Start(Script(S, k, s, m, [])), steps).Some?
    requires Run(S, Start(Script(S, k, s, m, [])), steps).value.main.Exited?
    ensures var calls := Script(S, k, s, m, []);
            var t := Run(S, Start(calls), steps).value;
            && (t.main.result == None
                ==> OneShot(S, k, s, Gathered(m, Some(h), [])) == Some(t.hashed) && AllTaken(S, [], calls))
            && (!t.outputRefused
                ==> (t.main.result == None
                     <==> OneShot(S, k, s, Gathered(m, Some(h), [])).Some? && AllTaken(S, [], calls)))
  {
    hide Family.Lawful, Do, Run, Script, Collect, TailBytes, Cbc.Decrypt, Pkcs7.Unpadded, AllTaken;
    ExitedMeansStopped(S, Script(S, k, s, m, []), steps);
    ScriptSpells(S, k, s, m, h, []);
    var g := Collect(s, Gathered(m, Some(h), []));
    if g.Ok? {
      CollectKeeps(s, Gathered(m, Some(h), []));
      PayloadsAligned(g.value.payloads);
      match TailBytes(Script(S, k, s, m, []))
      case None =>
      case Some(y) => assert LetGo(S, k, []) + y == y;
    }
  }

  /** A draining reader takes all of what it can decode, so with one the decoding
      alone decides. */
  lemma PipeDecodesDraining(S: Suite, k: CipherKey, s: bytes, m: Meta, h: Meta, steps: seq<Step>)
    requires k.Valid() && S.LzDrains() && Run(S, Start(Script(S, k, s, m, [])), steps).Some?
    requires var t := Run(S, Start(Script(S, k, s, m, [])), steps).value; t.main.Exited? && !t.outputRefused
    ensures Run(S, Start(Script(S, k, s, m, [])), steps).value.main.result == None
       <==> OneShot(S, k, s, Gathered(m, Some(h), [])).Some?
  {
    hide Family.Lawful, Do, Run, Script, Collect, TailBytes, Cbc.Decrypt, Pkcs7.Unpadded, AllTaken, Family.LzDrains;
    PipeDecodes(S, k, s, m, h, steps);
    ScriptSpells(S, k, s, m, h, []);
    if OneShot(S, k, s, Gathered(m, Some(h), [])).Some? {
      var y := TailBytes(Script(S, k, s, m, [])).value;
      assert LetGo(S, k, []) + y == y == [] + y;
      DrainingTakes(S, [], Script(S, k, s, m, []));
    }
  }

  /** Where the reader stops at the end of its frame, an empty last write after it
      is refused in every run, although everything has been decoded. */
  lemma EmptyWriteFails(S: Suite, frame: bytes, steps: seq<Step>)
    requires frame != [] && S.LzRead(frame).LzOk? && S.lzHalts(frame)
    requires Run(S, Start([Feed(frame), Tail([])]), steps).Some?
    requires Run(S, Start([Feed(frame), Tail([])]), steps).value.main.Exited?
    ensures Run(S, Start([Feed(frame), Tail([])]), steps).value.main.result.Some?
  {
    hide Family.Lawful, Do, Run;
    var calls := [Feed(frame), Tail([])];
    ExitedMeansStopped(S, calls, steps);
    assert calls[1..] == [Tail([])];
    assert [] + frame == frame && (frame + [])[..|frame|] == frame;
    assert S.Refuses(frame, []);
    assert !AllTaken(S, frame, calls[1..]);
  }

  /** The compressed payloads of the rest of a stream, decoded together. */
  ghost function OneShot(S: Suite, k: CipherKey, s: bytes, g: Gathered): Option<bytes>
    requires k.Valid() && Payloads(g.payloads)
  {
    match Collect(s, g)
    case Err(_) => None
    case Ok(r) =>
      CollectKeeps(s, g);
      PayloadsAligned(r.payloads);
      Decoded(S, k, true, Flatten(r.payloads))
  }

  /** After such an exit nothing can move any more, so the hash that Decrypt then
      reads is final. */
  lemma HashIsFinal(S: Suite, calls: seq<Call>, steps: seq<Step>, a: Step)
    requires Run(S, Start(calls), steps).Some? && Run(S, Start(calls), steps).value.main.Exited?
    ensures Do(S, Run(S, Start(calls), steps).value, a) == None
  {
    hide Family.Lawful, ReaderInv, DataInv, CanEnd, Takes;
    StartInv(S, calls);
    RunKeepsInv(S, Start(calls), steps);
  }

  // -- No call gets stuck, but for an output that blocks --

  predicate InCall(m: Main) {
    m.Writing? || m.Ending? || m.Failing? || m.Waiting?
  }

  /** The worker is inside a write to the output, and Decrypt cannot go on
      without it. */
  predicate HeldByOutput(s: State) {
    s.worker.Emitting? && (s.main.Waiting? || (s.main.Writing? && !Met(s.main)))
  }

  /** Inside a call some step is possible without the output, unless the call is
      held up by the output: then none is until the output takes or refuses. */
  lemma StuckIff(S: Suite, s: State)
    requires Inv(S, s) && InCall(s.main)
    ensures (forall a :: Do(S, s, a).Some? ==> a.OutputTaken? || a.OutputRefuses?) <==> HeldByOutput(s)
    ensures HeldByOutput(s) ==> Do(S, s, OutputTaken).Some?
  {
    hide Family.Lawful, DataInv;
    if !HeldByOutput(s) {
      var a := WayOn(S, s);
      assert Do(S, s, a).Some?;
    }
  }

  /** The step to take inside a call that the output does not hold up. */
  ghost function WayOn(S: Suite, s: State): (a: Step)
    requires Inv(S, s) && InCall(s.main) && !HeldByOutput(s)
    ensures Do(S, s, a).Some? && !a.OutputTaken? && !a.OutputRefuses?
  {
    hide Family.Lawful, DataInv;
    if Met(s.main) then WriteDone
    else if s.main.Ending? then CloseEnd
    else if s.main.Failing? then CloseBroken
    else match s.worker
         case Copying => CopyOn(S, s)
         case Closing(_) => CloseRead
         case Sending(_) => Send
         case Stopped(_) => if s.main.Writing? then WriteRefused else Receive
         case Emitting(_) => assert false; Send
  }

  ghost function CopyOn(S: Suite, s: State): (a: Step)
    requires Inv(S, s) && s.worker == Copying && ((s.main.Writing? && !Met(s.main)) || s.main.Waiting?)
    ensures Do(S, s, a).Some? && !a.OutputTaken? && !a.OutputRefuses?
  {
    hide Family.Lawful, DataInv;
    if s.main.Writing? && !S.lzHalts(s.consumed) then
      assert s.consumed + s.main.rest[..0] == s.consumed;
      Transfer(if s.main.rest == [] then 0 else 1)
    else if s.writeEnd.Broken? then CopyEnds(Some(OWN_ERROR))
    else if !S.lzComplete(s.consumed) then CopyEnds(Some(OWN_ERROR))
    else if s.hashed == S.lzOutput(s.consumed) then CopyEnds(None)
    else
      var o := S.lzOutput(s.consumed)[|s.hashed|..];
      assert s.hashed + [] == s.hashed <= S.lzOutput(s.consumed);
      assert s.hashed + o == S.lzOutput(s.consumed);
      Emit(o)
  }

  /** Output still to come from what has been fed. */
  function OutputLeft(S: Suite, s: State): int {
    if Over(s.worker) then 0
    else |S.lzOutput(s.fed)| - |s.hashed| - (if s.worker.Emitting? then |s.worker.o| else 0)
  }

  function WorkerRank(w: Worker): nat {
    match w case Emitting(_) => 4 case Copying => 3 case Closing(_) => 2 case Sending(_) => 1 case Stopped(_) => 0
  }

  function MainRank(m: Main): nat {
    match m
    case Writing(_, rest, _, taken) => 5 + 2 * |rest| + (if taken then 0 else 1)
    case Ending => 4
    case Failing(_) => 3
    case Waiting(_) => 2
    case _ => 0
  }

  function Rank(S: Suite, s: State): int {
    2 * OutputLeft(S, s) + WorkerRank(s.worker) + MainRank(s.main)
  }

  lemma OutputLeftIsNat(S: Suite, s: State)
    requires Inv(S, s)
    ensures OutputLeft(S, s) >= 0
  {
    hide Family.Lawful, ReportInv;
    if !Over(s.worker) {
      var rest := s.fed[|s.consumed|..];
      assert s.consumed <= s.fed;
      assert s.consumed + rest == s.fed;
      Monotone(S, s.consumed, rest);
    }
  }

  /** Every step inside a call brings its end nearer, so that a call that is not
      held up by the output returns after finitely many steps, whatever the
      interleaving. */
  lemma CallsEnd(S: Suite, s: State, a: Step)
    requires Inv(S, s) && InCall(s.main) && Do(S, s, a).Some?
    ensures 0 <= Rank(S, Do(S, s, a).value) < Rank(S, s)
  {
    hide Family.Lawful, DataInv, ReportInv, CanEnd;
    StepKeepsInv(S, s, a);
    OutputLeftIsNat(S, s);
    OutputLeftIsNat(S, Do(S, s, a).value);
  }

  // -- And so every run can be brought to its end --

  lemma Before(S: Suite, s: State, a: Step, t: State, rest: seq<Step>) returns (steps: seq<Step>)
    requires Do(S, s, a) == Some(t)
    ensures steps == [a] + rest && Run(S, s, steps) == Run(S, t, rest)
  {
    hide Do, Family.Lawful;
    steps := [a] + rest;
    assert steps[1..] == rest;
  }

  predicate Settled(s: State) {
    s.main.Exited? || s.main.Walked? || (s.main.Idle? && s.calls == [])
  }

  /** The next step on the way, the output taking what it is given. */
  ghost function GoOn(S: Suite, s: State): (a: Step)
    requires Inv(S, s) && !Settled(s)
    ensures Do(S, s, a).Some? && !a.OutputRefuses?
  {
    hide Family.Lawful, Inv;
    if s.main.Idle? then Next else if HeldByOutput(s) then OutputTaken else WayOn(S, s)
  }

  /** From wherever a run has come to, it can go on until Decrypt has returned, or
      has no call left to make. */
  lemma {:induction false} RunsEnd(S: Suite, s: State) returns (steps: seq<Step>)
    requires Inv(S, s)
    ensures Run(S, s, steps).Some? && Settled(Run(S, s, steps).value)
    ensures Run(S, s, steps).value.outputRefused == s.outputRefused
    decreases |s.calls|, if InCall(s.main) then 1 + Rank(S, s) else 0
  {
    hide Family.Lawful, Inv, Do, Rank, Run;
    if Settled(s) {
      steps := [];
      RunNothing(S, s);
    } else {
      var a := GoOn(S, s);
      var t := Do(S, s, a).value;
      StepKeepsInv(S, s, a);
      GoesOn(S, s, a);
      if InCall(s.main) {
        CallsEnd(S, s, a);
      }
      var rest := RunsEnd(S, t);
      steps := Before(S, s, a, t, rest);
    }
  }

  lemma RunNothing(S: Suite, s: State)
    ensures Run(S, s, []) == Some(s)
  {
    hide Do, Family.Lawful;
  }

  lemma GoesOn(S: Suite, s: State, a: Step)
    requires Do(S, s, a).Some? && !a.OutputRefuses? && !Settled(s)
    ensures var t := Do(S, s, a).value;
            && t.outputRefused == s.outputRefused
            && (if s.main.Idle? && a.Next? then |t.calls| < |s.calls| else t.calls == s.calls)
  {
    hide Family.Lawful, CanEnd, Takes;
  }

  /** Where all writes are taken and what they feed is complete, there is a run that
      ends without error and has passed on what the reader makes of it. */
  lemma SuccessHappens(S: Suite, calls: seq<Call>) returns (steps: seq<Step>)
    requires AllTaken(S, [], calls) && TailBytes(calls).Some? && S.LzRead(TailBytes(calls).value).LzOk?
    ensures Run(S, Start(calls), steps).Some?
    ensures var t := Run(S, Start(calls), steps).value;
            t.main == Exited(None, None) && LzOk(t.hashed) == S.LzRead(TailBytes(calls).value)
  {
    hide Family.Lawful, Do, Run, Family.Refuses;
    StartInv(S, calls);
    steps := RunsEnd(S, Start(calls));
    RunKeepsInv(S, Start(calls), steps);
    assert [] + TailBytes(calls).value == TailBytes(calls).value;
    RunKeepsCourse(S, TailBytes(calls), Start(calls), steps);
    var t := Run(S, Start(calls), steps).value;
    assert TakenAhead(S, t);
    ExitedMeansStopped(S, calls, steps);
  }

  // -- The worker that is left behind --

  /** Once Decrypt has walked away, nobody closes the pipe or takes the report.
      Unless the reader asks for no more or the output refuses a write, the worker
      stays where it is for good. */
  lemma {:induction false} StrandedForGood(S: Suite, s: State, steps: seq<Step>)
    requires Inv(S, s) && s.main.Walked? && Run(S, s, steps).Some?
    ensures var t := Run(S, s, steps).value;
            && t.main.Walked? && t.writeEnd == Open && t.received == 0 && t.consumed == s.fed == t.fed
            && (t.outputRefused || S.lzHalts(s.fed) || t.worker.Copying? || t.worker.Emitting?)
    decreases |steps|
  {
    hide Family.Lawful;
    assert s.consumed + [] == s.consumed;
    if steps != [] {
      StepKeepsInv(S, s, steps[0]);
      StrandedForGood(S, Do(S, s, steps[0]).value, steps[1..]);
    }
  }

  /** Whenever the calls lead to a Walk, there is a run that gets there. */
  lemma {:induction false} WalkHappens(S: Suite, s: State) returns (steps: seq<Step>)
    requires s.main == Idle && s.worker == Copying && s.consumed == s.fed && Walks(S, s.fed, s.calls)
    ensures Run(S, s, steps).Some?
    ensures var t := Run(S, s, steps).value; t.main.Walked? && t.outputRefused == s.outputRefused
    decreases |s.calls|
  {
    hide Family.Lawful;
    var t := Called(s);
    assert Do(S, s, Next) == Some(t);
    if s.calls[0].Walk? {
      steps := [Next];
      assert Run(S, t, steps[1..]) == Some(t);
    } else {
      var b := s.calls[0].b;
      forall j | 0 <= j < |b| || (j == 0 && b == []) ensures !S.lzHalts(s.fed + b[..j]) {
        assert (s.fed + b)[..|s.fed| + j] == s.fed + b[..j];
      }
      assert s.fed + b[..0] == s.fed;
      var u := t.(main := t.main.(rest := [], taken := true), consumed := s.fed + b);
      assert b[..|b|] == b && b[|b|..] == [];
      assert Takes(S, t.consumed, b, |b|);
      assert Do(S, t, Transfer(|b|)) == Some(u);
      var v := u.(main := Idle);
      assert Do(S, u, WriteDone) == Some(v);
      var more := WalkHappens(S, v);
      var last := [WriteDone] + more;
      assert Run(S, u, last) == Run(S, v, more) by { assert last[1..] == more; }
      var both := [Transfer(|b|)] + last;
      assert Run(S, t, both) == Run(S, u, last) by { assert both[1..] == last; }
      steps := [Next] + both;
      assert steps[1..] == both;
    }
  }

  /** On the bytes: whenever the first flaw is a bad object and the reader has
      refused nothing up to there, some run leaves the worker behind, and then no
      continuation of it ever takes a report; nor does the worker stop, unless the
      reader asks for no more or the output refuses a write. */
  lemma StrandedOnStream(S: Suite, k: CipherKey, s: bytes, m: Meta) returns (steps: seq<Step>)
    requires k.Valid() && FirstFlaw(s, m) == BadObject && NoneRefused(S, [], Script(S, k, s, m, []))
    ensures Run(S, Start(Script(S, k, s, m, [])), steps).Some?
    ensures var t := Run(S, Start(Script(S, k, s, m, [])), steps).value;
            forall more :: LeftBehind(S, t, more)
  {
    hide Family.Lawful, Do, Run, Script, FirstFlaw, NoneRefused, Walks;
    var calls := Script(S, k, s, m, []);
    WalksIff(S, k, s, m, [], []);
    steps := WalkHappens(S, Start(calls));
    StartInv(S, calls);
    RunKeepsInv(S, Start(calls), steps);
    var t := Run(S, Start(calls), steps).value;
    forall more ensures LeftBehind(S, t, more) {
      if Run(S, t, more).Some? {
        StrandedForGood(S, t, more);
      }
    }
  }

  predicate LeftBehind(S: Suite, t: State, more: seq<Step>) {
    Run(S, t, more).Some? ==>
      var u := Run(S, t, more).value;
      u.received == 0 && u.main.Walked? && (u.worker.Stopped? ==> u.outputRefused || S.lzHalts(t.fed))
  }
}
