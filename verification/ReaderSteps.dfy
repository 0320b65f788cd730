/** Reader as a step system: the goroutine that runs Decrypt on an input into an
    io.Pipe, the thread in it that writes to the pipe, the caller that reads, and
    any number of Close calls at once. */
module ReaderSteps {
  import opened Bytes
  import opened Faults

  /** The background goroutine.  Inside Decrypt it computes or waits for more of
      the input. */
  datatype Main =
    | Decrypting
    | AwaitingInput
    | Returned(err: Option<Fault>)        // Decrypt has returned
    | Reporting(err: Option<Fault>)       // the pipe is closed with that result
    | Finished(err: Option<Fault>)        // the result is on doneCh

  /** Whoever writes the plaintext: Decrypt itself or its LZ4 worker, which may be
      left behind when Decrypt returns. */
  datatype Writer =
    | Quiet
    | Writing(rest: bytes, taken: bool)

  /** One call of Close, on its way through the once block. */
  datatype Closer =
    | NotYet
    | Entered
    | PipeClosed
    | Got(err: Option<Fault>)
    | Judged(err: Option<Fault>)
    | Done(result: Option<Fault>)

  datatype Once = Free | Running(who: nat) | Over

  /** `refused` records that a write to the pipe has failed because one of its
      ends was closed; nobody writes again after that. */
  datatype State = State(
    main: Main, writer: Writer, refused: bool, readClosed: bool,
    done: Option<Option<Fault>>, received: nat,
    offered: bytes, delivered: bytes, sawEof: bool,
    once: Once, closers: seq<Closer>, closeErr: Option<Fault>)

  datatype Step =
    | AwaitInput
    | InputArrives                 // bytes, the end of the input, or an error of it
    | StartWrite(b: bytes)
    | Read(n: nat)                 // Read takes n bytes of the write in progress
    | WriteDone
    | WriteRefused
    | Return(err: Option<Fault>)
    | CloseWrite
    | Report
    | ReadEof
    | Enter(i: nat)
    | ClosePipe(i: nat)
    | Receive(i: nat)
    | CloseExtra(i: nat)
    | Settle(i: nat)
    | Pass(i: nat)                 // a Close that finds the once block over

  function Start(closes: nat): State {
    State(Decrypting, Quiet, false, false, None, 0, [], [], false, Free, seq(closes, _ => NotYet), None)
  }

  /** The result of the producer once extraClose has had its say. */
  function Combine(err: Option<Fault>, extra: Option<Fault>): Option<Fault> {
    if err == None then extra else err
  }

  /** What Close keeps of that: walking away early is not an error. */
  function Verdict(err: Option<Fault>): Option<Fault> {
    if err == Some(CLOSED_PIPE) then None else err
  }

  predicate WriteClosed(s: State) {
    s.main.Reporting? || s.main.Finished?
  }

  /** Has everything of the write in progress been read? */
  predicate Met(w: Writer) {
    w.Writing? && w.taken && w.rest == []
  }

  /** May somebody still write, with Decrypt where it is?  After an error the LZ4
      worker may, after a success nobody does. */
  predicate MayWrite(m: Main) {
    m.Decrypting? || m.AwaitingInput? || m.err.Some?
  }

  /** What a Read called now comes to. */
  datatype Outcome = Waits | Bytes | Eof | Fails(f: Fault)

  function ReadResult(s: State): Outcome {
    if s.readClosed then Fails(CLOSED_PIPE)
    else if WriteClosed(s) then (match s.main.err case None => Eof case Some(f) => Fails(f))
    else if s.writer.Writing? && !Met(s.writer) then Bytes
    else Waits
  }

  /** `extra` is the error of the closer handed over with the input, if any. */
  function Do(extra: Option<Fault>, s: State, a: Step): Option<State> {
    match a
    case AwaitInput =>
      if s.main == Decrypting then Some(s.(main := AwaitingInput)) else None
    case InputArrives =>
      if s.main == AwaitingInput then Some(s.(main := Decrypting)) else None
    case StartWrite(b) =>
      if s.writer == Quiet && !s.refused && MayWrite(s.main)
      then Some(s.(writer := Writing(b, false), offered := s.offered + b))
      else None
    case Read(n) =>
      if ReadResult(s) == Bytes && n <= |s.writer.rest|
      then Some(s.(writer := Writing(s.writer.rest[n..], true), delivered := s.delivered + s.writer.rest[..n]))
      else None
    case WriteDone =>
      if Met(s.writer) then Some(s.(writer := Quiet)) else None
    case WriteRefused =>
      if s.writer.Writing? && !Met(s.writer) && (s.readClosed || WriteClosed(s))
      then Some(s.(writer := Quiet, refused := true))
      else None
    case Return(err) =>
      if s.main == Decrypting && (err == None ==> s.writer == Quiet && !s.refused)
      then Some(s.(main := Returned(err)))
      else None
    case CloseWrite =>
      if s.main.Returned? then Some(s.(main := Reporting(s.main.err))) else None
    case Report =>
      if s.main.Reporting? && s.done == None
      then Some(s.(main := Finished(s.main.err), done := Some(s.main.err)))
      else None
    case ReadEof =>
      if ReadResult(s) == Eof then Some(s.(sawEof := true)) else None
    case Enter(i) =>
      if i < |s.closers| && s.closers[i] == NotYet && s.once == Free
      then Some(s.(once := Running(i), closers := s.closers[i := Entered]))
      else None
    case ClosePipe(i) =>
      if i < |s.closers| && s.closers[i] == Entered
      then Some(s.(readClosed := true, closers := s.closers[i := PipeClosed]))
      else None
    case Receive(i) =>
      if i < |s.closers| && s.closers[i] == PipeClosed && s.done.Some?
      then Some(s.(done := None, received := s.received + 1, closers := s.closers[i := Got(s.done.value)]))
      else None
    case CloseExtra(i) =>
      if i < |s.closers| && s.closers[i].Got?
      then Some(s.(closers := s.closers[i := Judged(Combine(s.closers[i].err, extra))]))
      else None
    case Settle(i) =>
      if i < |s.closers| && s.closers[i].Judged?
      then
        var e := Verdict(s.closers[i].err);
        Some(s.(closeErr := e, once := Over, closers := s.closers[i := Done(e)]))
      else None
    case Pass(i) =>
      if i < |s.closers| && s.closers[i] == NotYet && s.once == Over
      then Some(s.(closers := s.closers[i := Done(s.closeErr)]))
      else None
  }

  /** Where a sequence of steps leads from `s`, if each of them is possible in its
      turn.  The steps from a start are all interleavings there are. */
  function Run(extra: Option<Fault>, s: State, steps: seq<Step>): Option<State>
    decreases |steps|
  {
    if steps == [] then Some(s)
    else match Do(extra, s, steps[0]) case None => None case Some(t) => Run(extra, t, steps[1..])
  }

  // -- What every step keeps --

  function InFlight(w: Writer): bytes {
    match w case Writing(rest, _) => rest case Quiet => []
  }

  /** What a Close in the once block may be doing, given the rest of the state. */
  predicate OnceInv(extra: Option<Fault>, s: State) {
    match s.once
    case Free => !s.readClosed && s.received == 0
    case Running(i) =>
      i < |s.closers| &&
      (match s.closers[i]
       case Entered => !s.readClosed && s.received == 0
       case PipeClosed => s.readClosed && s.received == 0
       case Got(e) => s.readClosed && s.received == 1 && s.main == Finished(e)
       case Judged(e) => s.readClosed && s.received == 1 && s.main.Finished? && e == Combine(s.main.err, extra)
       case _ => false)
    case Over =>
      s.readClosed && s.received == 1 && s.main.Finished? && s.closeErr == Verdict(Combine(s.main.err, extra))
  }

  predicate CloserInv(s: State, i: nat)
    requires i < |s.closers|
  {
    match s.closers[i]
    case NotYet => true
    case Done(e) => s.once == Over && e == s.closeErr
    case _ => s.once == Running(i)
  }

  /** Bytes are delivered in order, and none is missing unless a write was refused. */
  predicate DeliveryInv(s: State) {
    && s.delivered + InFlight(s.writer) <= s.offered
    && (!s.refused ==> s.delivered + InFlight(s.writer) == s.offered)
  }

  /** The result of Decrypt is reported once and received at most once. */
  predicate ReportInv(s: State) {
    && s.received + (if s.done.Some? then 1 else 0) == (if s.main.Finished? then 1 else 0)
    && (s.done.Some? ==> s.main == Finished(s.done.value))
  }

  /** A write is refused only after an end of the pipe was closed, and then it
      is the last; nobody writes once Decrypt has succeeded. */
  predicate WriterInv(s: State) {
    && (s.refused ==> s.writer == Quiet && (s.readClosed || WriteClosed(s)))
    && (!MayWrite(s.main) ==> s.writer == Quiet && !s.refused)
    && (s.sawEof ==> WriteClosed(s) && s.main.err == None)
  }

  ghost predicate Inv(extra: Option<Fault>, s: State) {
    && ReportInv(s) && OnceInv(extra, s) && DeliveryInv(s) && WriterInv(s)
    && (forall i :: 0 <= i < |s.closers| ==> CloserInv(s, i))
  }

  lemma DeliveryKept(extra: Option<Fault>, s: State, a: Step)
    requires Do(extra, s, a).Some? && DeliveryInv(s)
    requires s.refused ==> s.writer == Quiet
    ensures DeliveryInv(Do(extra, s, a).value)
  {
    assert s.delivered + [] == s.delivered;
    if a.Read? {
      var rest := s.writer.rest;
      assert (s.delivered + rest[..a.n]) + rest[a.n..] == s.delivered + rest;
    }
  }

  lemma WriterKept(extra: Option<Fault>, s: State, a: Step)
    requires Do(extra, s, a).Some? && WriterInv(s)
    ensures WriterInv(Do(extra, s, a).value)
  {
  }

  lemma OnceKept(extra: Option<Fault>, s: State, a: Step)
    requires Inv(extra, s) && Do(extra, s, a).Some?
    ensures ReportInv(Do(extra, s, a).value) && OnceInv(extra, Do(extra, s, a).value)
  {
    hide DeliveryInv, WriterInv, Combine, Verdict;
    if a.ClosePipe? || a.Receive? || a.CloseExtra? || a.Settle? {
      assert CloserInv(s, a.i);
    }
  }

  lemma StepKeepsInv(extra: Option<Fault>, s: State, a: Step)
    requires Inv(extra, s) && Do(extra, s, a).Some?
    ensures Inv(extra, Do(extra, s, a).value)
  {
    hide DeliveryInv, OnceInv, CloserInv, ReportInv, Do;
    var t := Do(extra, s, a).value;
    DeliveryKept(extra, s, a);
    WriterKept(extra, s, a);
    OnceKept(extra, s, a);
    forall i | 0 <= i < |t.closers| ensures CloserInv(t, i) {
      CloserKept(extra, s, a, i);
    }
  }

  predicate OfClose(a: Step) {
    a.Enter? || a.ClosePipe? || a.Receive? || a.CloseExtra? || a.Settle? || a.Pass?
  }

  lemma OthersLeaveClose(extra: Option<Fault>, s: State, a: Step)
    requires Do(extra, s, a).Some? && !OfClose(a)
    ensures var t := Do(extra, s, a).value; t.closers == s.closers && t.once == s.once && t.closeErr == s.closeErr
  {
  }

  lemma CloserKept(extra: Option<Fault>, s: State, a: Step, i: nat)
    requires Inv(extra, s) && Do(extra, s, a).Some? && i < |Do(extra, s, a).value.closers|
    ensures CloserInv(Do(extra, s, a).value, i)
  {
    hide DeliveryInv, WriterInv, OnceInv, ReportInv, Combine, Verdict, ReadResult, MayWrite, Met;
    if OfClose(a) {
      assert CloserInv(s, a.i) && CloserInv(s, i);
    } else {
      hide Do;
      OthersLeaveClose(extra, s, a);
      assert CloserInv(s, i);
    }
  }

  lemma StartInv(extra: Option<Fault>, closes: nat)
    ensures Inv(extra, Start(closes))
  {
  }

  lemma {:induction false} RunKeepsInv(extra: Option<Fault>, s: State, steps: seq<Step>)
    requires Inv(extra, s) && Run(extra, s, steps).Some?
    ensures Inv(extra, Run(extra, s, steps).value)
    decreases |steps|
  {
    hide Inv, Do;
    if steps != [] {
      StepKeepsInv(extra, s, steps[0]);
      RunKeepsInv(extra, Do(extra, s, steps[0]).value, steps[1..]);
    }
  }

  // -- Results over all interleavings --

  /** What has been read is always a prefix of what was written, and the end of
      the stream is seen only when Decrypt has returned without error and
      everything it wrote has been read. */
  lemma ReadsAreFaithful(extra: Option<Fault>, closes: nat, steps: seq<Step>)
    requires Run(extra, Start(closes), steps).Some?
    ensures var t := Run(extra, Start(closes), steps).value;
            && t.delivered <= t.offered
            && (t.sawEof ==> WriteClosed(t) && t.main.err == None && t.delivered == t.offered)
  {
    hide Do, Run;
    StartInv(extra, closes);
    RunKeepsInv(extra, Start(closes), steps);
    var t := Run(extra, Start(closes), steps).value;
    assert t.delivered + [] == t.delivered <= t.delivered + InFlight(t.writer);
  }

  /** While a write is in progress and both ends are open, a read of `n` bytes
      delivers the front of it. */
  lemma ReadDelivers(extra: Option<Fault>, s: State, n: nat)
    requires s.writer.Writing? && !Met(s.writer) && n <= |s.writer.rest|
    requires !s.readClosed && !s.main.Reporting? && !s.main.Finished?
    ensures Do(extra, s, Read(n)).Some?
    ensures var t := Do(extra, s, Read(n)).value;
            && t.delivered == s.delivered + s.writer.rest[..n]
            && t.writer == Writing(s.writer.rest[n..], true)
  {
  }

  /** Once Decrypt has finished, and as long as nobody has closed the reading end, a
      read gives the end of the stream after a success with everything delivered,
      and after an error that error. */
  lemma ResultSurfaces(extra: Option<Fault>, closes: nat, steps: seq<Step>)
    requires Run(extra, Start(closes), steps).Some?
    requires var t := Run(extra, Start(closes), steps).value; t.main.Finished? && !t.readClosed
    ensures var t := Run(extra, Start(closes), steps).value;
            && (t.main.err == None ==> ReadResult(t) == Eof && t.delivered == t.offered)
            && (t.main.err.Some? ==> ReadResult(t) == Fails(t.main.err.value))
  {
    hide Do, Run;
    StartInv(extra, closes);
    RunKeepsInv(extra, Start(closes), steps);
    var t := Run(extra, Start(closes), steps).value;
    assert t.delivered + [] == t.delivered;
  }

  /** Whatever Decrypt has to write, in whatever pieces, there is a run in which the
      caller reads all of it and then sees the end of the stream. */
  lemma AllDelivered(extra: Option<Fault>, closes: nat, pieces: seq<bytes>) returns (steps: seq<Step>)
    ensures Run(extra, Start(closes), steps).Some?
    ensures var t := Run(extra, Start(closes), steps).value;
            t.offered == Flatten(pieces) == t.delivered && t.sawEof && t.main == Finished(None)
  {
    hide Run, Do;
    var s := Start(closes);
    steps := PiecesDelivered(extra, s, pieces);
    assert [] + Flatten(pieces) == Flatten(pieces);
  }

  lemma {:induction false} PiecesDelivered(extra: Option<Fault>, s: State, pieces: seq<bytes>)
    returns (steps: seq<Step>)
    requires s.main == Decrypting && s.writer == Quiet && !s.refused && !s.readClosed && s.done == None
    requires s.offered == s.delivered
    ensures Run(extra, s, steps).Some?
    ensures var t := Run(extra, s, steps).value;
            t.offered == s.offered + Flatten(pieces) == t.delivered && t.sawEof && t.main == Finished(None)
    decreases |pieces|
  {
    hide Run;
    if pieces == [] {
      var s1 := s.(main := Returned(None));
      var s2 := s.(main := Reporting(None));
      var s3 := s.(main := Finished(None), done := Some(None));
      var s4 := s3.(sawEof := true);
      RunNothing(extra, s4);
      steps := Before(extra, s3, ReadEof, s4, []);
      steps := Before(extra, s2, Report, s3, steps);
      steps := Before(extra, s1, CloseWrite, s2, steps);
      steps := Before(extra, s, Return(None), s1, steps);
      assert s.offered + [] == s.offered;
    } else {
      var b := pieces[0];
      var s1 := s.(writer := Writing(b, false), offered := s.offered + b);
      var s2 := s1.(writer := Writing([], true), delivered := s.delivered + b);
      var s3 := s2.(writer := Quiet);
      assert b[..|b|] == b && b[|b|..] == [];
      var rest := PiecesDelivered(extra, s3, pieces[1..]);
      steps := Before(extra, s2, WriteDone, s3, rest);
      steps := Before(extra, s1, Read(|b|), s2, steps);
      steps := Before(extra, s, StartWrite(b), s1, steps);
      assert s.offered + (b + Flatten(pieces[1..])) == (s.offered + b) + Flatten(pieces[1..]);
    }
  }

  /** Once Close has closed the pipe, no later read delivers anything or sees the
      end of the stream: each fails as on a closed pipe. */
  lemma {:induction false} NothingReadAfterClose(extra: Option<Fault>, s: State, steps: seq<Step>)
    requires s.readClosed && Run(extra, s, steps).Some?
    ensures var t := Run(extra, s, steps).value;
            t.readClosed && t.delivered == s.delivered && t.sawEof == s.sawEof && ReadResult(t) == Fails(CLOSED_PIPE)
    decreases |steps|
  {
    if steps != [] {
      NothingReadAfterClose(extra, Do(extra, s, steps[0]).value, steps[1..]);
    }
  }

  /** Every Close that has returned gave the same result: the goroutine's own
      error, or else the extra closer's, with the closed pipe forgiven.  By then
      the goroutine has finished and its result was received exactly once.  A
      caller that had read to the end gets no error but the extra closer's. */
  lemma CloseResult(extra: Option<Fault>, closes: nat, steps: seq<Step>, c: nat)
    requires Run(extra, Start(closes), steps).Some?
    requires var t := Run(extra, Start(closes), steps).value; c < |t.closers| && t.closers[c].Done?
    ensures var t := Run(extra, Start(closes), steps).value;
            && t.main.Finished? && t.received == 1 && t.done == None && t.readClosed
            && t.closers[c].result == Verdict(Combine(t.main.err, extra))
            && (t.main.err == None ==> t.closers[c].result == if extra == Some(CLOSED_PIPE) then None else extra)
            && (t.main.err == Some(CLOSED_PIPE) ==> t.closers[c].result == None)
            && (t.main.err.Some? && t.main.err != Some(CLOSED_PIPE) ==> t.closers[c].result == t.main.err)
            && (t.sawEof ==> t.closers[c].result == Verdict(extra))
  {
    hide Do, Run;
    StartInv(extra, closes);
    RunKeepsInv(extra, Start(closes), steps);
    assert CloserInv(Run(extra, Start(closes), steps).value, c);
  }

  lemma {:induction false} FinishedStays(extra: Option<Fault>, s: State, steps: seq<Step>)
    requires s.main.Finished? && Run(extra, s, steps).Some?
    ensures Run(extra, s, steps).value.main == s.main
    decreases |steps|
  {
    if steps != [] {
      FinishedStays(extra, Do(extra, s, steps[0]).value, steps[1..]);
    }
  }

  /** Any two calls of Close give the same result, however far apart they return. */
  lemma ClosesAgree(extra: Option<Fault>, closes: nat, steps: seq<Step>, more: seq<Step>, c: nat, d: nat)
    requires Run(extra, Start(closes), steps).Some? && Run(extra, Run(extra, Start(closes), steps).value, more).Some?
    requires var s := Run(extra, Start(closes), steps).value; c < |s.closers| && s.closers[c].Done?
    requires var t := Run(extra, Run(extra, Start(closes), steps).value, more).value;
             d < |t.closers| && t.closers[d].Done?
    ensures var s := Run(extra, Start(closes), steps).value;
            Run(extra, s, more).value.closers[d].result == s.closers[c].result
  {
    hide Do, Run;
    var s := Run(extra, Start(closes), steps).value;
    CloseResult(extra, closes, steps, c);
    FinishedStays(extra, s, more);
    StartInv(extra, closes);
    RunKeepsInv(extra, Start(closes), steps);
    RunKeepsInv(extra, s, more);
    assert CloserInv(Run(extra, s, more).value, d);
  }

  // -- Reading after Close --

  /** What Reader promises of a read after Close: the end of the stream, or the
      error with which the decryption ended. */
  predicate PromisedAfterClose(s: State) {
    s.main.Finished? && (ReadResult(s) == Eof || (s.main.err.Some? && ReadResult(s) == Fails(s.main.err.value)))
  }

  /** After a Close has returned, that promise is kept if and only if the
      decryption ended with the closed pipe as its error. */
  lemma AfterCloseIff(extra: Option<Fault>, closes: nat, steps: seq<Step>, c: nat)
    requires Run(extra, Start(closes), steps).Some?
    requires var t := Run(extra, Start(closes), steps).value; c < |t.closers| && t.closers[c].Done?
    ensures var t := Run(extra, Start(closes), steps).value;
            && ReadResult(t) == Fails(CLOSED_PIPE)
            && (PromisedAfterClose(t) <==> t.main == Finished(Some(CLOSED_PIPE)))
  {
    hide Do, Run;
    CloseResult(extra, closes, steps, c);
  }

  /** A run after which it is broken: Decrypt succeeds on a stream without
      plaintext bytes, Close returns no error, and a read fails all the same. */
  lemma ReadAfterCloseFails() returns (steps: seq<Step>)
    ensures Run(None, Start(1), steps).Some?
    ensures var t := Run(None, Start(1), steps).value;
            && t.closers == [Done(None)] && t.main == Finished(None)
            && ReadResult(t) == Fails(CLOSED_PIPE) && !PromisedAfterClose(t)
  {
    hide Run;
    var s0 := Start(1);
    var s1 := s0.(main := Returned(None));
    var s2 := s0.(main := Reporting(None));
    var s3 := s0.(main := Finished(None), done := Some(None));
    assert s0.closers == [NotYet];
    steps := CloseWhenFinished(s3);
    steps := Before(None, s2, Report, s3, steps);
    steps := Before(None, s1, CloseWrite, s2, steps);
    steps := Before(None, s0, Return(None), s1, steps);
  }

  /** The end of that run: one Close after Decrypt has succeeded. */
  lemma CloseWhenFinished(s: State) returns (steps: seq<Step>)
    requires s == Start(1).(main := Finished(None), done := Some(None))
    ensures Run(None, s, steps)
         == Some(s.(readClosed := true, done := None, received := 1, once := Over, closers := [Done(None)]))
  {
    hide Run;
    var s4 := s.(once := Running(0), closers := [Entered]);
    var s5 := s4.(readClosed := true, closers := [PipeClosed]);
    var s6 := s5.(done := None, received := 1, closers := [Got(None)]);
    var s7 := s6.(closers := [Judged(None)]);
    var s8 := s7.(once := Over, closers := [Done(None)]);
    RunNothing(None, s8);
    steps := Before(None, s7, Settle(0), s8, []) by { assert s7.closers[0 := Done(None)] == s8.closers; }
    steps := Before(None, s6, CloseExtra(0), s7, steps) by { assert s6.closers[0 := Judged(None)] == s7.closers; }
    steps := Before(None, s5, Receive(0), s6, steps) by { assert s5.closers[0 := Got(None)] == s6.closers; }
    steps := Before(None, s4, ClosePipe(0), s5, steps) by { assert s4.closers[0 := PipeClosed] == s5.closers; }
    steps := Before(None, s, Enter(0), s4, steps) by {
      assert s.closers == [NotYet] && s.closers[0 := Entered] == s4.closers;
    }
  }

  lemma RunNothing(extra: Option<Fault>, s: State)
    ensures Run(extra, s, []) == Some(s)
  {
    hide Do;
  }

  lemma Before(extra: Option<Fault>, s: State, a: Step, t: State, rest: seq<Step>) returns (steps: seq<Step>)
    requires Do(extra, s, a) == Some(t)
    ensures steps == [a] + rest && Run(extra, s, steps) == Run(extra, t, rest)
  {
    hide Do;
    steps := [a] + rest;
    assert steps[1..] == rest;
  }

  // -- When Close returns --

  /** How much the goroutine, the writer and the Close in the once block can still
      do once the pipe is closed for reading, if no more input arrives. */
  function Rank(s: State): nat {
    (match s.main
     case Decrypting => 4
     case AwaitingInput => 3
     case Returned(_) => 2
     case Reporting(_) => 1
     case Finished(_) => 0)
    + (if Met(s.writer) then 3 else if s.writer.Writing? then 1 else if s.refused then 0 else 2)
    + (if s.once.Running? && s.once.who < |s.closers| then CloserRank(s.closers[s.once.who]) else 0)
  }

  function CloserRank(c: Closer): nat {
    match c case PipeClosed => 3 case Got(_) => 2 case Judged(_) => 1 case _ => 0
  }

  /** Once the pipe is closed for reading, every step that is not an arrival of
      input brings the end of Close nearer. */
  lemma CloseWindsDown(extra: Option<Fault>, s: State, a: Step)
    requires Inv(extra, s) && s.once.Running? && s.readClosed
    requires Do(extra, s, a).Some? && a != InputArrives
    ensures Rank(Do(extra, s, a).value) < Rank(s)
  {
    hide DeliveryInv, Combine, Verdict;
    assert CloserInv(s, s.once.who);
    if a.ClosePipe? || a.Receive? || a.CloseExtra? || a.Settle? {
      assert CloserInv(s, a.i);
    }
  }

  /** Does `steps` lead to the return of the Close in the once block, with nothing
      more arriving from the input? */
  ghost predicate Returns(extra: Option<Fault>, s: State, steps: seq<Step>) {
    InputArrives !in steps && Run(extra, s, steps).Some? && Run(extra, s, steps).value.once == Over
  }

  /** While Decrypt waits for input that does not come, Close does not return. */
  lemma {:induction false} CloseHangs(extra: Option<Fault>, s: State, steps: seq<Step>)
    requires Inv(extra, s) && s.once.Running? && s.main == AwaitingInput
    requires InputArrives !in steps && Run(extra, s, steps).Some?
    ensures var t := Run(extra, s, steps).value; t.main == AwaitingInput && t.once == s.once
    decreases |steps|
  {
    if steps != [] {
      assert steps[0] in steps;
      var t := Do(extra, s, steps[0]).value;
      StepKeepsInv(extra, s, steps[0]);
      StillHangs(extra, s, steps[0]);
      CloseHangs(extra, t, steps[1..]);
    }
  }

  lemma StillHangs(extra: Option<Fault>, s: State, a: Step)
    requires Inv(extra, s) && s.once.Running? && s.main == AwaitingInput
    requires a != InputArrives && Do(extra, s, a).Some?
    ensures var t := Do(extra, s, a).value; t.main == AwaitingInput && t.once == s.once
  {
    hide DeliveryInv, Combine, Verdict;
    if a.Settle? {
      JudgedMeansFinished(extra, s, a.i);
      assert false;
    }
  }

  lemma JudgedMeansFinished(extra: Option<Fault>, s: State, i: nat)
    requires Inv(extra, s) && i < |s.closers| && s.closers[i].Judged?
    ensures s.main.Finished?
  {
    hide DeliveryInv, Combine, Verdict;
    assert CloserInv(s, i);
  }

  /** The step to take towards the end of Close, if Decrypt is not waiting for input. */
  ghost function WayOut(extra: Option<Fault>, s: State): (a: Step)
    requires Inv(extra, s) && s.once.Running? && s.main != AwaitingInput
    ensures Do(extra, s, a).Some? && a != InputArrives
    ensures var t := Do(extra, s, a).value;
            && t.main != AwaitingInput && (t.once == s.once || t.once == Over)
            && (s.closers[s.once.who] == Entered ==> t.readClosed)
  {
    assert CloserInv(s, s.once.who);
    var c := s.once.who;
    match s.closers[c]
    case Entered => ClosePipe(c)
    case Got(_) => CloseExtra(c)
    case Judged(_) => Settle(c)
    case _ =>
      match s.main
      case Decrypting => Return(Some(CLOSED_PIPE))
      case Returned(_) => CloseWrite
      case Reporting(_) => Report
      case _ => Receive(c)
  }

  lemma {:induction false} CloseCompletes(extra: Option<Fault>, s: State) returns (steps: seq<Step>)
    requires Inv(extra, s) && s.once.Running? && s.main != AwaitingInput
    ensures Returns(extra, s, steps)
    decreases if s.readClosed then 0 else 1, Rank(s)
  {
    hide Do, Rank;
    var a := WayOut(extra, s);
    var t := Do(extra, s, a).value;
    StepKeepsInv(extra, s, a);
    var rest := [];
    if t.once == Over {
      assert Run(extra, t, rest) == Some(t);
    } else {
      if s.readClosed {
        CloseWindsDown(extra, s, a);
        StaysClosed(extra, s, a);
      } else {
        assert s.closers[s.once.who] == Entered;
      }
      rest := CloseCompletes(extra, t);
    }
    steps := Before(extra, s, a, t, rest);
  }

  /** Nothing more happens unless input arrives. */
  ghost predicate Settled(extra: Option<Fault>, s: State) {
    forall a :: Do(extra, s, a).Some? ==> a == InputArrives
  }

  lemma OnceGoesOn(extra: Option<Fault>, s: State, a: Step)
    requires Inv(extra, s) && s.readClosed && !s.once.Free? && Do(extra, s, a).Some?
    ensures var t := Do(extra, s, a).value; t.readClosed && (t.once == s.once || (s.once.Running? && t.once == Over))
  {
    hide DeliveryInv, Combine, Verdict, ReadResult;
  }

  lemma {:induction false} RunWindsDown(extra: Option<Fault>, s: State, more: seq<Step>)
    requires Inv(extra, s) && s.readClosed && !s.once.Free?
    requires InputArrives !in more && Run(extra, s, more).Some?
    ensures var t := Run(extra, s, more).value;
            t.once == Over || (t.once == s.once && t.readClosed && Rank(t) + |more| <= Rank(s))
    decreases |more|
  {
    hide Do, Inv, Rank;
    if more != [] {
      assert more[0] in more;
      var t := Do(extra, s, more[0]).value;
      StepKeepsInv(extra, s, more[0]);
      OnceGoesOn(extra, s, more[0]);
      if s.once.Running? {
        CloseWindsDown(extra, s, more[0]);
      }
      RunWindsDown(extra, t, more[1..]);
    }
  }

  /** Whatever happens once Close has closed the pipe: in every run without an
      arrival of input there are at most so many steps before Close is over, and
      where nothing more can happen without one, Close is over or Decrypt waits
      for input. */
  lemma CloseSettles(extra: Option<Fault>, closes: nat, steps: seq<Step>, more: seq<Step>)
    requires Run(extra, Start(closes), steps).Some?
    requires var s := Run(extra, Start(closes), steps).value; s.readClosed && Run(extra, s, more).Some?
    requires InputArrives !in more
    ensures var s := Run(extra, Start(closes), steps).value;
            var t := Run(extra, s, more).value;
            && (t.once == Over || Rank(t) + |more| <= Rank(s))
            && (Settled(extra, t) ==> t.once == Over || t.main == AwaitingInput)
  {
    hide Do, Run, Rank;
    StartInv(extra, closes);
    RunKeepsInv(extra, Start(closes), steps);
    var s := Run(extra, Start(closes), steps).value;
    RunKeepsInv(extra, s, more);
    RunWindsDown(extra, s, more);
    var t := Run(extra, s, more).value;
    if t.once.Running? && t.main != AwaitingInput {
      var a := WayOut(extra, t);
    }
  }

  lemma StaysClosed(extra: Option<Fault>, s: State, a: Step)
    requires s.readClosed && Do(extra, s, a).Some?
    ensures Do(extra, s, a).value.readClosed
  {
  }

  /** The Close in the once block can return without another arrival of input if
      and only if Decrypt is not waiting for input. */
  lemma CloseReturnsIff(extra: Option<Fault>, closes: nat, steps: seq<Step>)
    requires Run(extra, Start(closes), steps).Some? && Run(extra, Start(closes), steps).value.once.Running?
    ensures var t := Run(extra, Start(closes), steps).value;
            (exists more :: Returns(extra, t, more)) <==> t.main != AwaitingInput
  {
    hide Do, Run;
    StartInv(extra, closes);
    RunKeepsInv(extra, Start(closes), steps);
    var t := Run(extra, Start(closes), steps).value;
    if t.main != AwaitingInput {
      var more := CloseCompletes(extra, t);
    } else {
      forall more ensures !Returns(extra, t, more) {
        if InputArrives !in more && Run(extra, t, more).Some? {
          CloseHangs(extra, t, more);
        }
      }
    }
  }
}
