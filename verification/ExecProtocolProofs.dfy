/**
 Safety, deadlock freedom and termination of the exec and copy protocol, for every interleaving:
 an invariant of every step, an enabled step in every unfinished state, and a measure that every
 step decreases; then the same facts about whole runs.
 */
module ExecProtocolProofs {
  import opened Wrappers
  import opened Decimals
  import opened ExecProtocol

  // ---------------------------------------------------------------------------------------------
  // The invariant

  /** No byte of an output stream is invented, reordered, or lost other than by Close. */
  ghost predicate StreamInv(cfg: Config, chunks: seq<string>, st: Stream) {
    && NoEmptyWrites(st.todo)
    && st.buf + st.scan + st.pending + st.lost + Flat(st.todo) == Flat(chunks)
    && (st.closed ==> st.pending == "")
    && (!st.closed ==> st.lost == "")
    && (st.pc == SendingErr ==> cfg.sinkFails)
    && (st.pc == Captured && !cfg.sinkFails && cfg.started ==> st.closed && st.scan == "")
    && (!cfg.started ==> st == InitStream(chunks).(pc := st.pc))
  }

  ghost predicate StdinInv(cfg: Config, i: Stdin) {
    var main, trailer := HeaderAndBody(cfg), Trailer(cfg);
    && (i.closed ==> i.pending.None?)
    && (!i.closed ==> i.lost.None?)
    && (cfg.tar.None? ==> i == InitStdin(None))
    && (cfg.tar.Some? && i.pc == TarWriting ==> WorkLeft(cfg, i) && !i.broken && i.result.None?)
    && (cfg.tar.Some? && i.pc != TarWriting ==>
          i.result == WriterErr(cfg)
          || (i.result == Some(CLOSED_PIPE) && i.broken && (Refused(cfg) || |i.got| < |Flat(main)|)))
    && (!i.broken ==>
          match i.pc
          case TarWriting => i.got + Held(i) + Flat(i.todo) == Flat(main)
          case TarSending => i.got == Flat(main) && Idle(i)
          case TarTrailer => i.got + Held(i) + Flat(i.todo) == Flat(main) + Flat(trailer) && |i.got| >= |Flat(main)|
          case _ => i.got == Flat(main) + Flat(trailer) && Idle(i))
    && (i.broken ==> i.pending.None? && i.closed && i.got <= Flat(main) + Flat(trailer))
    && (i.broken && i.result.None? ==> |i.got| >= |Flat(main)| && i.pc != TarSending)
    && (i.pc == TarTrailer && i.broken ==> i.todo == [])
    && (cfg.tar.Some? && i.pc == TarGone ==> i.closed)
    && (i.eof && cfg.tar.Some? ==> i.pc == TarGone && !i.broken)
  }

  predicate Refused(cfg: Config)
    requires cfg.tar.Some?
  {
    cfg.tar.value.headerErr.Some?
  }

  /** The bytes of a Write in progress, or of one that Close has cut off. */
  function Held(i: Stdin): string {
    i.pending.GetOr("") + i.lost.GetOr("")
  }

  predicate Idle(i: Stdin) {
    i.todo == [] && i.pending.None? && i.lost.None?
  }

  /**
   Before the result is sent, an accepted header has bytes left as long as it has Writes left: an
   empty Write is never the last one.
   */
  ghost predicate WorkLeft(cfg: Config, i: Stdin)
    requires cfg.tar.Some?
  {
    cfg.tar.value.headerErr.None? ==>
      EndsInBytes(i.todo) && (i.pending == Some("") || i.lost == Some("") ==> i.todo != [])
  }

  /** The verdict that goes through ExecErr. */
  function VerdictOf(cfg: Config, s: State): Verdict {
    if !cfg.started then Failed(cfg.startErr)
    else if s.completed then cfg.verdict
    else cfg.abandons.GetOr(cfg.verdict)
  }

  function Count(b: bool): nat { if b then 1 else 0 }

  ghost predicate ChannelInv(cfg: Config, s: State) {
    && |s.execErr| + Count(s.waiter != AwaitVerdict) == Count(s.exec.Sent())
    && |s.captureErrs| <= Count(s.out.pc == Captured) + Count(s.err.pc == Captured)
    && (!cfg.sinkFails ==> s.captureErrs == [])
    && (cfg.tar.Some? ==> |s.tarErr| + Count(s.waiter.Returned?) == Count(s.stdin.pc.Sent()))
    && (cfg.tar.None? ==> s.tarErr == [])
    && (forall i :: 0 <= i < |s.execErr| ==> s.execErr[i] == VerdictOf(cfg, s))
    && (forall i :: 0 <= i < |s.tarErr| ==> s.tarErr[i] == s.stdin.result)
  }

  ghost predicate WaiterInv(cfg: Config, s: State) {
    match s.waiter
    case AwaitVerdict => true
    case AwaitCaptures(v) => v == VerdictOf(cfg, s)
    case AwaitTar(so, se, run) =>
      && cfg.tar.Some? && s.out.pc == s.err.pc == Captured
      && so == TrimNewline(s.out.buf) && se == TrimNewline(s.err.buf)
      && run == RunError(VerdictOf(cfg, s), s.captureErrs)
    case Returned(so, se, err) =>
      && s.out.pc == s.err.pc == Captured
      && so == TrimNewline(s.out.buf) && se == TrimNewline(s.err.buf)
      && err == Answer(cfg, s, se)
  }

  /** The error the waiter returns, from the verdict, the capture errors and the tar result. */
  function Answer(cfg: Config, s: State, stderr: string): Option<GoError> {
    var run := RunError(VerdictOf(cfg, s), s.captureErrs);
    if cfg.tar.Some? then CopyError(run, s.stdin.result, stderr) else run
  }

  ghost predicate ExecInv(cfg: Config, s: State) {
    && (cfg.started ==>
          && (s.out.closed <==> s.exec.OutClosed())
          && (s.err.closed <==> s.exec.ErrClosed())
          && (cfg.tar.Some? ==> (s.stdin.closed <==> s.exec == Gone || s.stdin.pc == TarGone))
          && (cfg.tar.Some? && s.exec != Gone ==> !s.stdin.broken))
    && (!cfg.started ==>
          s.exec == Gone && !s.completed && (cfg.tar.Some? ==> (s.stdin.closed <==> s.stdin.pc == TarGone)))
    && (s.exec.Sending? ==> s.exec.v == VerdictOf(cfg, s))
    && (s.completed ==> s.exec != Streaming && s.out.todo == s.err.todo == []
                        && s.out.pending == s.out.lost == s.err.pending == s.err.lost == "")
    && (s.completed && cfg.drains ==> s.stdin.eof)
    && (cfg.started && s.exec != Streaming && !s.completed ==> cfg.abandons.Some?)
  }

  ghost predicate Inv(cfg: Config, s: State) {
    && StreamInv(cfg, cfg.stdout, s.out)
    && StreamInv(cfg, cfg.stderr, s.err)
    && StdinInv(cfg, s.stdin)
    && SystemInv(cfg, s)
  }

  lemma InitInv(cfg: Config)
    requires ValidConfig(cfg)
    ensures Inv(cfg, Init(cfg))
  {
    InitStreamInv(cfg, cfg.stdout);
    InitStreamInv(cfg, cfg.stderr);
    InitStdinInv(cfg);
    hide StreamInv, StdinInv, Flat, NoEmptyWrites;
  }

  lemma InitStreamInv(cfg: Config, chunks: seq<string>)
    requires NoEmptyWrites(chunks)
    ensures StreamInv(cfg, chunks, InitStream(chunks))
  {
    hide Flat;
    assert "" + Flat(chunks) == Flat(chunks);
  }

  lemma InitStdinInv(cfg: Config)
    requires ValidConfig(cfg)
    ensures StdinInv(cfg, InitStdin(cfg.tar))
  {
    NothingFlat();
    hide Flat, NoEmptyWrites;
    assert "" + Flat(HeaderAndBody(cfg)) == Flat(HeaderAndBody(cfg));
  }

  lemma NothingFlat()
    ensures Flat([]) == ""
  {
  }

  function Chunks(cfg: Config, side: Side): seq<string> {
    if side == Stdout then cfg.stdout else cfg.stderr
  }

  lemma StreamStep(cfg: Config, streaming: bool, chunks: seq<string>, st: Stream, a: StreamAction)
    requires StreamInv(cfg, chunks, st) && StreamEnabled(cfg, streaming, st, a)
    requires streaming ==> cfg.started && !st.closed
    ensures StreamInv(cfg, chunks, StreamNext(cfg, streaming, st, a))
  {
    var st' := StreamNext(cfg, streaming, st, a);
    assert st'.buf + st'.scan + st'.pending + st'.lost + Flat(st'.todo)
        == st.buf + st.scan + st.pending + st.lost + Flat(st.todo);
  }

  lemma {:induction false} FlatNonEmpty(chunks: seq<string>)
    requires EndsInBytes(chunks) && chunks != []
    ensures Flat(chunks) != ""
  {
    if |chunks| > 1 { FlatNonEmpty(chunks[1..]); }
  }

  lemma StdinTaken(cfg: Config, streaming: bool, i: Stdin, n: nat)
    requires StdinInv(cfg, i) && StdinEnabled(cfg, streaming, i, StdinTake(n))
    ensures StdinInv(cfg, StdinNext(cfg, streaming, i, StdinTake(n)))
  {
    hide HeaderAndBody, Trailer, Flat;
    var i' := StdinNext(cfg, streaming, i, StdinTake(n));
    assert i.pending.value == i.pending.value[..n] + i.pending.value[n..];
    assert i'.got + Held(i') == i.got + Held(i);
  }

  lemma StdinOffered(cfg: Config, streaming: bool, i: Stdin)
    requires StdinInv(cfg, i) && StdinEnabled(cfg, streaming, i, TarOffer)
    ensures StdinInv(cfg, StdinNext(cfg, streaming, i, TarOffer))
  {
    hide HeaderAndBody, Trailer;
    var i' := StdinNext(cfg, streaming, i, TarOffer);
    assert i'.got + Held(i') + Flat(i'.todo) == i.got + Held(i) + Flat(i.todo);
  }

  lemma StdinCut(cfg: Config, streaming: bool, i: Stdin)
    requires StdinInv(cfg, i) && StdinEnabled(cfg, streaming, i, TarCut)
    ensures StdinInv(cfg, StdinNext(cfg, streaming, i, TarCut))
  {
    hide HeaderAndBody, Trailer, Flat;
    if i.todo != [] && EndsInBytes(i.todo) { FlatNonEmpty(i.todo); }
    assert i.got <= i.got + (Held(i) + Flat(i.todo)) == i.got + Held(i) + Flat(i.todo);
  }

  lemma StdinStep(cfg: Config, streaming: bool, i: Stdin, a: StdinAction)
    requires StdinInv(cfg, i) && StdinEnabled(cfg, streaming, i, a)
    requires streaming && cfg.tar.Some? ==> (i.closed ==> i.pc == TarGone) && !i.broken
    ensures StdinInv(cfg, StdinNext(cfg, streaming, i, a))
  {
    hide HeaderAndBody;
    if a.StdinTake? {
      StdinTaken(cfg, streaming, i, a.n);
    } else if a == TarOffer {
      StdinOffered(cfg, streaming, i);
    } else if a == TarCut {
      StdinCut(cfg, streaming, i);
    }
  }

  ghost predicate SystemInv(cfg: Config, s: State) {
    ExecInv(cfg, s) && ChannelInv(cfg, s) && WaiterInv(cfg, s)
  }

  lemma IoStep(cfg: Config, s: State, a: Action)
    requires SystemInv(cfg, s) && a.Io? && Enabled(cfg, s, a)
    requires a.io == SendSinkErr ==> cfg.sinkFails
    ensures SystemInv(cfg, Next(cfg, s, a))
  {
    hide Flat;
    var s' := Next(cfg, s, a);
    if a.side == Stdout {
      assert s'.err == s.err;
      match a.io case SendSinkErr => case _ =>
    } else {
      assert s'.out == s.out;
      match a.io case SendSinkErr => case _ =>
    }
  }

  lemma InputStep(cfg: Config, s: State, a: Action)
    requires SystemInv(cfg, s) && a.Input? && Enabled(cfg, s, a)
    requires cfg.tar.None? ==> s.stdin == InitStdin(None)
    ensures SystemInv(cfg, Next(cfg, s, a))
  {
    hide SystemInv, Next, StdinEnabled;
    if a.stdin == TarSend { SendStep(cfg, s, a); } else { TransferStep(cfg, s, a); }
  }

  lemma SendStep(cfg: Config, s: State, a: Action)
    requires SystemInv(cfg, s) && a == Input(TarSend) && Enabled(cfg, s, a)
    requires cfg.tar.None? ==> s.stdin == InitStdin(None)
    ensures SystemInv(cfg, Next(cfg, s, a))
  {
    hide Flat, CopyError, RunError, HeaderAndBody, Trailer;
  }

  lemma TransferStep(cfg: Config, s: State, a: Action)
    requires SystemInv(cfg, s) && a.Input? && a.stdin != TarSend && Enabled(cfg, s, a)
    requires cfg.tar.None? ==> s.stdin == InitStdin(None)
    ensures SystemInv(cfg, Next(cfg, s, a))
  {
    hide Flat, CopyError, RunError, HeaderAndBody, Trailer;
  }

  /** Closing the streams changes nothing that the channels and the waiter depend on. */
  lemma CloseStep(cfg: Config, s: State)
    requires SystemInv(cfg, s) && Enabled(cfg, s, Close)
    ensures SystemInv(cfg, Next(cfg, s, Close))
  {
    hide Flat, CopyError, RunError, TrimNewline;
    CloseStepExec(cfg, s);
    hide ExecInv;
    var s' := Next(cfg, s, Close);
    assert s'.waiter == s.waiter && s'.execErr == s.execErr && s'.captureErrs == s.captureErrs && s'.tarErr == s.tarErr;
    assert s'.out.buf == s.out.buf && s'.err.buf == s.err.buf && s'.out.pc == s.out.pc && s'.err.pc == s.err.pc;
    assert s'.stdin.pc == s.stdin.pc && s'.stdin.result == s.stdin.result;
    assert VerdictOf(cfg, s') == VerdictOf(cfg, s) && s'.exec.Sent() == s.exec.Sent();
  }

  lemma CloseStepExec(cfg: Config, s: State)
    requires ExecInv(cfg, s) && Enabled(cfg, s, Close)
    ensures ExecInv(cfg, Next(cfg, s, Close))
  {
    hide Flat, CopyError, RunError, TrimNewline, StreamNext, StdinNext;
  }

  lemma ControlStep(cfg: Config, s: State, a: Action)
    requires SystemInv(cfg, s) && !a.Io? && !a.Input? && Enabled(cfg, s, a)
    requires (s.exec == Streaming ==> s.out.lost == s.err.lost == "")
    ensures SystemInv(cfg, Next(cfg, s, a))
  {
    hide SystemInv, Next;
    if a == Close {
      CloseStep(cfg, s);
    } else if a == JoinCaptures || a == RecvTar {
      AnswerStep(cfg, s, a);
    } else {
      VerdictStep(cfg, s, a);
    }
  }

  lemma AnswerStep(cfg: Config, s: State, a: Action)
    requires SystemInv(cfg, s) && (a == JoinCaptures || a == RecvTar) && Enabled(cfg, s, a)
    ensures SystemInv(cfg, Next(cfg, s, a))
  {
    hide Flat, CopyError, RunError, TrimNewline, HeaderAndBody, Trailer;
  }

  lemma VerdictStep(cfg: Config, s: State, a: Action)
    requires SystemInv(cfg, s) && Enabled(cfg, s, a)
    requires a == Complete || a == Abandon || a == SendVerdict || a == RecvVerdict
    requires (s.exec == Streaming ==> s.out.lost == s.err.lost == "")
    ensures SystemInv(cfg, Next(cfg, s, a))
  {
    hide Flat, CopyError, RunError, TrimNewline, HeaderAndBody, Trailer;
  }

  lemma CloseKeepsInv(cfg: Config, chunks: seq<string>, st: Stream, i: Stdin)
    requires StreamInv(cfg, chunks, st) && StdinInv(cfg, i)
    ensures cfg.started ==> StreamInv(cfg, chunks, CloseStream(st))
    ensures StdinInv(cfg, CloseStdin(i))
  {
    assert st.buf + st.scan + "" + st.pending + Flat(st.todo) == st.buf + st.scan + st.pending + "" + Flat(st.todo);
    assert Held(CloseStdin(i)) == Held(i);
  }

  lemma StreamFacts(cfg: Config, chunks: seq<string>, st: Stream)
    requires StreamInv(cfg, chunks, st)
    ensures st.pc == SendingErr ==> cfg.sinkFails
    ensures !st.closed ==> st.lost == ""
  {
  }

  lemma StdinFacts(cfg: Config, i: Stdin)
    requires StdinInv(cfg, i)
    ensures cfg.tar.None? ==> i == InitStdin(None)
  {
  }

  lemma IoKeepsInv(cfg: Config, s: State, a: Action)
    requires Inv(cfg, s) && a.Io? && Enabled(cfg, s, a)
    ensures Inv(cfg, Next(cfg, s, a))
  {
    hide StreamInv, StdinInv, Flat, ChannelInv, WaiterInv, StreamNext;
    StreamFacts(cfg, cfg.stdout, s.out);
    StreamFacts(cfg, cfg.stderr, s.err);
    IoStep(cfg, s, a);
    StreamStep(cfg, s.exec == Streaming, Chunks(cfg, a.side), StreamOf(s, a.side), a.io);
  }

  lemma InputKeepsInv(cfg: Config, s: State, a: Action)
    requires Inv(cfg, s) && a.Input? && Enabled(cfg, s, a)
    ensures Inv(cfg, Next(cfg, s, a))
  {
    hide StreamInv, StdinInv, Flat, ChannelInv, WaiterInv, StdinNext;
    StdinFacts(cfg, s.stdin);
    InputStep(cfg, s, a);
    StdinStep(cfg, s.exec == Streaming, s.stdin, a.stdin);
  }

  lemma ControlKeepsInv(cfg: Config, s: State, a: Action)
    requires Inv(cfg, s) && !a.Io? && !a.Input? && Enabled(cfg, s, a)
    ensures Inv(cfg, Next(cfg, s, a))
  {
    hide StreamInv, StdinInv, Flat, ChannelInv, WaiterInv, CloseStream, CloseStdin;
    StreamFacts(cfg, cfg.stdout, s.out);
    StreamFacts(cfg, cfg.stderr, s.err);
    CloseKeepsInv(cfg, cfg.stdout, s.out, s.stdin);
    CloseKeepsInv(cfg, cfg.stderr, s.err, s.stdin);
    ControlStep(cfg, s, a);
  }

  /** Every step of every goroutine keeps the invariant. */
  lemma {:induction false} StepKeepsInv(cfg: Config, s: State, a: Action)
    requires Inv(cfg, s) && Enabled(cfg, s, a)
    ensures Inv(cfg, Next(cfg, s, a))
  {
    hide Inv, Enabled, Next;
    if a.Io? {
      IoKeepsInv(cfg, s, a);
    } else if a.Input? {
      InputKeepsInv(cfg, s, a);
    } else {
      ControlKeepsInv(cfg, s, a);
    }
  }

  // ---------------------------------------------------------------------------------------------
  // The measure

  function Weight(chunks: seq<string>): nat {
    if chunks == [] then 0 else 3 * |chunks[0]| + 2 + Weight(chunks[1..])
  }

  function StreamMeasure(st: Stream): nat {
    Weight(st.todo) + 3 * |st.pending| + 2 * |st.scan|
    + (match st.pc case Scanning => 2 case SendingErr => 1 case Captured => 0)
  }

  function StdinMeasure(cfg: Config, i: Stdin): nat {
    Weight(i.todo) + 3 * |i.pending.GetOr("")| + Count(i.pending.Some?) + Count(!i.eof)
    + (match i.pc
       case TarWriting => 4 + Weight(Trailer(cfg))
       case TarSending => 3 + Weight(Trailer(cfg))
       case TarTrailer => 2
       case TarClosing => 1
       case TarGone => 0)
  }

  function Measure(cfg: Config, s: State): nat {
    StreamMeasure(s.out) + StreamMeasure(s.err) + StdinMeasure(cfg, s.stdin)
    + (match s.exec
       case Streaming => 5 case Sending(_) => 4 case ClosingOut => 3 case ClosingErr => 2
       case ClosingStdin => 1 case Gone => 0)
    + (match s.waiter
       case AwaitVerdict => 3 case AwaitCaptures(_) => 2 case AwaitTar(_, _, _) => 1 case Returned(_, _, _) => 0)
  }

  lemma StreamDecreases(cfg: Config, streaming: bool, st: Stream, a: StreamAction)
    requires StreamEnabled(cfg, streaming, st, a)
    ensures StreamMeasure(StreamNext(cfg, streaming, st, a)) < StreamMeasure(st)
  {
  }

  lemma StdinDecreases(cfg: Config, streaming: bool, i: Stdin, a: StdinAction)
    requires StdinEnabled(cfg, streaming, i, a)
    ensures StdinMeasure(cfg, StdinNext(cfg, streaming, i, a)) < StdinMeasure(cfg, i)
  {
  }

  lemma ControlDecreases(cfg: Config, s: State, a: Action)
    requires Enabled(cfg, s, a) && !a.Io? && !a.Input?
    ensures Measure(cfg, Next(cfg, s, a)) < Measure(cfg, s)
  {
    hide Weight, RunError, CopyError, TrimNewline, StreamEnabled, StreamNext, StdinEnabled, StdinNext;
    hide StreamMeasure, StdinMeasure, CloseStream, CloseStdin;
    ClosingCosts(cfg, s);
  }

  /** Closing a pipe adds no work. */
  lemma ClosingCosts(cfg: Config, s: State)
    ensures StreamMeasure(CloseStream(s.out)) <= StreamMeasure(s.out)
    ensures StreamMeasure(CloseStream(s.err)) <= StreamMeasure(s.err)
    ensures StdinMeasure(cfg, CloseStdin(s.stdin)) <= StdinMeasure(cfg, s.stdin)
  {
    hide Weight;
  }

  lemma TransferDecreases(cfg: Config, s: State, a: Action)
    requires Enabled(cfg, s, a) && (a.Io? || a.Input?)
    ensures Measure(cfg, Next(cfg, s, a)) < Measure(cfg, s)
  {
    hide StreamMeasure, StdinMeasure, StreamNext, StreamEnabled, StdinNext, StdinEnabled, RunError, CopyError;
    if a.Io? {
      StreamDecreases(cfg, s.exec == Streaming, StreamOf(s, a.side), a.io);
    } else {
      StdinDecreases(cfg, s.exec == Streaming, s.stdin, a.stdin);
    }
  }

  /** Every step uses up some of a finite budget, so no interleaving runs forever. */
  lemma {:induction false} StepDecreases(cfg: Config, s: State, a: Action)
    requires Enabled(cfg, s, a)
    ensures Measure(cfg, Next(cfg, s, a)) < Measure(cfg, s)
  {
    hide Measure, Next, Enabled;
    if a.Io? || a.Input? {
      TransferDecreases(cfg, s, a);
    } else {
      ControlDecreases(cfg, s, a);
    }
  }

  // ---------------------------------------------------------------------------------------------
  // Deadlock freedom

  /** All goroutines are gone and the caller has its answer. */
  predicate Finished(s: State) {
    && s.waiter.Returned? && s.exec == Gone && s.stdin.pc == TarGone
    && s.out.pc == s.err.pc == Captured
  }

  /** The guard under which every goroutine gets to its end: the exec has started or there is no tar writer. */
  predicate Unblocked(cfg: Config) {
    cfg.started || cfg.tar.None?
  }

  lemma StreamProgress(cfg: Config, s: State, side: Side) returns (a: Action)
    requires Inv(cfg, s) && !cfg.sinkFails
    requires cfg.started && s.exec != Streaming ==> StreamOf(s, side).closed
    requires StreamOf(s, side).pc != Captured
    requires s.exec == Streaming ==> StreamOf(s, side).todo != [] || StreamOf(s, side).pending != ""
    ensures Enabled(cfg, s, a)
  {
    hide Flat;
    var st := StreamOf(s, side);
    if !cfg.started {
      a := Io(side, Eof);
    } else if st.scan != "" {
      a := Io(side, Emit);
    } else if st.pending != "" {
      a := Io(side, Take(1));
    } else if s.exec == Streaming {
      a := Io(side, Offer);
    } else {
      a := Io(side, Eof);
    }
  }

  lemma TarProgress(cfg: Config, s: State) returns (a: Action)
    requires Inv(cfg, s) && s.stdin.pc != TarGone && Unblocked(cfg)
    requires s.exec == Streaming || s.exec == Gone
    ensures Enabled(cfg, s, a)
  {
    hide Flat, WaiterInv;
    var i := s.stdin;
    if i.pc == TarSending {
      a := Input(TarSend);
    } else if i.pc == TarClosing {
      a := Input(TarClose);
    } else if i.pending.Some? {
      a := Input(StdinTake(if i.pending.value == "" then 0 else 1));
    } else if i.closed && (i.lost.Some? || i.todo != []) {
      a := Input(TarCut);
    } else if i.todo != [] {
      a := Input(TarOffer);
    } else {
      a := Input(if i.pc == TarWriting then TarBodyDone else TarTrailerDone);
    }
  }

  /** No reachable state but a finished one is stuck. */
  lemma Progress(cfg: Config, s: State) returns (a: Action)
    requires Inv(cfg, s) && !cfg.sinkFails && Unblocked(cfg) && !Finished(s)
    ensures Enabled(cfg, s, a)
  {
    hide Flat, StreamInv, StdinInv;
    match s.exec
    case Sending(_) => a := SendVerdict;
    case ClosingOut => a := Close;
    case ClosingErr => a := Close;
    case ClosingStdin => a := Close;
    case Streaming =>
      if s.out.todo != [] || s.out.pending != "" {
        assert s.out.pc != Captured by { OpenStream(cfg, cfg.stdout, s.out); }
        a := StreamProgress(cfg, s, Stdout);
      } else if s.err.todo != [] || s.err.pending != "" {
        assert s.err.pc != Captured by { OpenStream(cfg, cfg.stderr, s.err); }
        a := StreamProgress(cfg, s, Stderr);
      } else if cfg.drains && !s.stdin.eof {
        if s.stdin.pc != TarGone {
          a := TarProgress(cfg, s);
        } else {
          ClosedStdin(cfg, s.stdin);
          a := Input(StdinEof);
        }
      } else {
        a := Complete;
      }
    case Gone =>
      if s.out.pc != Captured {
        a := StreamProgress(cfg, s, Stdout);
      } else if s.err.pc != Captured {
        a := StreamProgress(cfg, s, Stderr);
      } else if s.stdin.pc != TarGone {
        a := TarProgress(cfg, s);
      } else {
        a := match s.waiter case AwaitVerdict => RecvVerdict case AwaitCaptures(_) => JoinCaptures case _ => RecvTar;
      }
  }

  lemma OpenStream(cfg: Config, chunks: seq<string>, st: Stream)
    requires StreamInv(cfg, chunks, st) && cfg.started && !cfg.sinkFails && !st.closed
    ensures st.pc == Scanning
  {
  }

  lemma ClosedStdin(cfg: Config, i: Stdin)
    requires StdinInv(cfg, i) && i.pc == TarGone
    ensures i.closed && i.pending.None?
  {
  }

  // ---------------------------------------------------------------------------------------------
  // Whole runs

  ghost predicate StepTo(cfg: Config, s: State, s': State) {
    exists a :: Enabled(cfg, s, a) && Next(cfg, s, a) == s'
  }

  /** A run from the start, under any interleaving. */
  ghost predicate IsRun(cfg: Config, run: seq<State>) {
    && run != [] && run[0] == Init(cfg)
    && (forall i :: 0 < i < |run| ==> StepTo(cfg, run[i - 1], run[i]))
  }

  function Last(run: seq<State>): State
    requires run != []
  {
    run[|run| - 1]
  }

  ghost predicate Stuck(cfg: Config, s: State) {
    forall a :: !Enabled(cfg, s, a)
  }

  /** The invariant holds throughout a run, and the run is no longer than its first measure. */
  lemma {:induction false} RunInv(cfg: Config, run: seq<State>)
    requires ValidConfig(cfg) && IsRun(cfg, run)
    ensures Inv(cfg, Last(run))
    ensures |run| - 1 + Measure(cfg, Last(run)) <= Measure(cfg, Init(cfg))
  {
    hide Inv, Measure;
    if |run| == 1 {
      InitInv(cfg);
    } else {
      var prefix := run[..|run| - 1];
      RunInv(cfg, prefix);
      var s := Last(prefix);
      assert StepTo(cfg, s, Last(run));
      var a :| Enabled(cfg, s, a) && Next(cfg, s, a) == Last(run);
      StepKeepsInv(cfg, s, a);
      StepDecreases(cfg, s, a);
    }
  }

  /**
   Deadlock freedom: whatever the interleaving, a run is finite, and a run that cannot go on has
   finished: the caller has its answer and no goroutine is left behind.
   */
  lemma NoDeadlock(cfg: Config, run: seq<State>)
    requires ValidConfig(cfg) && !cfg.sinkFails && Unblocked(cfg) && IsRun(cfg, run)
    ensures |run| <= Measure(cfg, Init(cfg)) + 1
    ensures Stuck(cfg, Last(run)) ==> Finished(Last(run))
  {
    hide Inv, Measure, Finished, Enabled;
    RunInv(cfg, run);
    if !Finished(Last(run)) {
      var a := Progress(cfg, Last(run));
    }
  }

  /** From every state of a run the caller can still get its answer. */
  lemma {:induction false} CanFinish(cfg: Config, run: seq<State>) returns (full: seq<State>)
    requires ValidConfig(cfg) && !cfg.sinkFails && Unblocked(cfg) && IsRun(cfg, run)
    ensures IsRun(cfg, full) && run <= full && Finished(Last(full))
    decreases Measure(cfg, Last(run))
  {
    hide Inv, Measure, Finished, Enabled;
    RunInv(cfg, run);
    if Finished(Last(run)) {
      full := run;
    } else {
      var a := Progress(cfg, Last(run));
      StepDecreases(cfg, Last(run), a);
      var next := run + [Next(cfg, Last(run), a)];
      assert StepTo(cfg, Last(run), Last(next));
      full := CanFinish(cfg, next);
    }
  }

  /** The tar writer that waits for a reader nobody starts, and the waiter that waits for it. */
  ghost predicate Waiting(cfg: Config, s: State) {
    s.stdin.pc == TarWriting && !s.stdin.closed && (s.stdin.todo != [] || s.stdin.pending.Some?)
    && s.tarErr == [] && !s.waiter.Returned?
    && s.exec == Gone
  }

  lemma WaitingStep(cfg: Config, s: State, a: Action)
    requires !Unblocked(cfg) && Waiting(cfg, s) && Enabled(cfg, s, a)
    ensures Waiting(cfg, Next(cfg, s, a))
  {
    hide StreamEnabled, StreamNext;
    assert a.Input? ==> a.stdin == TarOffer;
  }

  lemma {:induction false} StaysWaiting(cfg: Config, run: seq<State>)
    requires ValidConfig(cfg) && !Unblocked(cfg) && IsRun(cfg, run)
    ensures Waiting(cfg, Last(run))
  {
    if |run| > 1 {
      hide Measure, Waiting, Enabled, StreamInv, SystemInv, ValidConfig, Unblocked;
      var prefix := run[..|run| - 1];
      StaysWaiting(cfg, prefix);
      RunInv(cfg, prefix);
      var s := Last(prefix);
      assert StepTo(cfg, s, Last(run));
      var a :| Enabled(cfg, s, a) && Next(cfg, s, a) == Last(run);
      WaitingStep(cfg, s, a);
    }
  }

  ghost predicate CanReturn(cfg: Config) {
    exists run :: IsRun(cfg, run) && Last(run).waiter.Returned?
  }

  /**
   Exactly when the caller of Run or Copy can get an answer at all. A Copy whose exec fails to
   start never returns, whether its header is accepted or not: nothing reads or closes stdin, so
   the tar writer blocks in its first Write.
   */
  lemma ReturnsIff(cfg: Config)
    requires ValidConfig(cfg) && !cfg.sinkFails
    ensures CanReturn(cfg) <==> Unblocked(cfg)
  {
    hide Init;
    if Unblocked(cfg) {
      var first := [Init(cfg)];
      assert IsRun(cfg, first);
      var full := CanFinish(cfg, first);
      assert IsRun(cfg, full) && Last(full).waiter.Returned?;
    } else {
      forall run | IsRun(cfg, run) ensures !Last(run).waiter.Returned? {
        StaysWaiting(cfg, run);
      }
    }
  }

  /** No channel holds more than its capacity, and no goroutine ever finds its channel full. */
  lemma ChannelsNeverBlock(cfg: Config, run: seq<State>)
    requires ValidConfig(cfg) && IsRun(cfg, run)
    ensures var s := Last(run);
            && |s.execErr| <= 1 == EXEC_ERR_CAPACITY && |s.captureErrs| <= 2 == CAPTURE_ERR_CAPACITY
            && |s.tarErr| <= 1 == TAR_ERR_CAPACITY
            && (s.exec.Sending? ==> Enabled(cfg, s, SendVerdict))
            && (s.out.pc == SendingErr ==> Enabled(cfg, s, Io(Stdout, SendSinkErr)))
            && (s.err.pc == SendingErr ==> Enabled(cfg, s, Io(Stderr, SendSinkErr)))
            && (s.stdin.pc == TarSending ==> Enabled(cfg, s, Input(TarSend)))
  {
    hide Flat, StreamInv, StdinInv, ExecInv, WaiterInv, Measure, IsRun, ValidConfig, Init;
    RunInv(cfg, run);
  }

  // ---------------------------------------------------------------------------------------------
  // What the caller gets

  /** `s` ends in a newline exactly when trimming takes it away, and nothing else is taken away. */
  lemma TrimmedFacts(s: string)
    ensures TrimNewline(s) + "\n" == s || (TrimNewline(s) == s && (s == "" || s[|s| - 1] != '\n'))
    ensures TrimNewline(s) == "" <==> s == "" || s == "\n"
  {
  }

  /**
   The output of Run or Copy: each stream is the prefix of the remote side's bytes that was handed
   over (all of them when it ran to completion), less exactly one final newline if there is one.
   */
  lemma RunOutput(cfg: Config, run: seq<State>)
    requires ValidConfig(cfg) && !cfg.sinkFails && cfg.started && IsRun(cfg, run) && Last(run).waiter.Returned?
    ensures var buf, stdout := Last(run).out.buf, Last(run).waiter.stdout;
            buf == stdout + "\n" || (stdout == buf && (buf == "" || buf[|buf| - 1] != '\n'))
    ensures var buf, stderr := Last(run).err.buf, Last(run).waiter.stderr;
            buf == stderr + "\n" || (stderr == buf && (buf == "" || buf[|buf| - 1] != '\n'))
    ensures var s := Last(run);
            && s.out.buf <= Flat(cfg.stdout) && s.err.buf <= Flat(cfg.stderr)
            && (s.completed ==> s.out.buf == Flat(cfg.stdout) && s.err.buf == Flat(cfg.stderr))
            && (s.completed || cfg.abandons.Some?)
  {
    hide StdinInv, Flat, Measure, ValidConfig, Init, TrimNewline;
    RunInv(cfg, run);
    TrimmedFacts(Last(run).out.buf);
    TrimmedFacts(Last(run).err.buf);
    AllHandedOver(cfg, cfg.stdout, Last(run).out);
    AllHandedOver(cfg, cfg.stderr, Last(run).err);
  }

  /** The error of Run or Copy: an exit code is kept, and nothing else turns into one. */
  lemma RunVerdict(cfg: Config, run: seq<State>)
    requires ValidConfig(cfg) && !cfg.sinkFails && IsRun(cfg, run) && Last(run).waiter.Returned?
    ensures var v, e := VerdictOf(cfg, Last(run)), Last(run).waiter.err;
            && (v.Exited? <==> e.Some? && e.value.ExitError?)
            && (v.Exited? ==> e.value.code == v.code && v.cause in e.value.causes)
            && (v != Succeeded ==> e.Some? && v.cause in e.value.causes)
            && (cfg.tar.None? ==> (e.None? <==> v == Succeeded))
            && (cfg.tar.None? && e.Some? ==> e.value.causes == [v.cause])
  {
    hide StdinInv, StreamInv, ExecInv, Flat, Measure, ValidConfig, Init, VerdictOf;
    RunInv(cfg, run);
    assert Last(run).captureErrs == [];
  }

  lemma AllHandedOver(cfg: Config, chunks: seq<string>, st: Stream)
    requires StreamInv(cfg, chunks, st) && cfg.started && !cfg.sinkFails && st.pc == Captured
    ensures st.buf <= Flat(chunks)
    ensures st.lost == "" && st.todo == [] ==> st.buf == Flat(chunks)
  {
    assert Flat(chunks) == st.buf + (st.lost + Flat(st.todo));
  }

  /**
   The answer of Copy. The error is nil exactly when the command succeeded, wrote nothing to
   stderr, and read the whole of an accepted header and its body from a source that could be read;
   a remote side that stops earlier shows up in the error. One that drains stdin has read every
   byte, the trailer included, which also follows a refused header; a trailer that is cut off is
   not reported.
   */
  lemma CopyAnswer(cfg: Config, run: seq<State>)
    requires ValidConfig(cfg) && !cfg.sinkFails && cfg.started && cfg.tar.Some? && IsRun(cfg, run)
    requires Last(run).waiter.Returned?
    ensures var s, plan := Last(run), cfg.tar.value;
            var main := if plan.headerErr.Some? then "" else Flat(plan.main);
            var trailer := if plan.headerErr.Some? || plan.whole then Flat(plan.trailer) else "";
            && s.tarErr == [] && s.stdin.pc.Sent()
            && (s.waiter.err.None? <==>
                  VerdictOf(cfg, s) == Succeeded && (s.err.buf == "" || s.err.buf == "\n") && s.stdin.result.None?)
            && (s.waiter.err.Some? ==>
                  s.waiter.err.value.causes ==
                    (if VerdictOf(cfg, s) == Succeeded then [] else [VerdictOf(cfg, s).cause])
                    + (if s.stdin.result.Some? then [s.stdin.result.value] else [])
                    + (if s.waiter.stderr != "" then ["failed to copy to dst, due to: " + s.waiter.stderr] else []))
            && (s.stdin.result.None? <==>
                  main <= s.stdin.got && cfg.tar.value.headerErr.None? && cfg.tar.value.srcErr.None?)
            && (s.stdin.result.Some? ==>
                  var e := s.stdin.result.value;
                  if plan.headerErr.Some? then e == plan.headerErr.value || e == "io: read/write on closed pipe"
                  else if main <= s.stdin.got then plan.srcErr == Some(e)
                  else plan.srcErr == Some(e) || e == "io: read/write on closed pipe")
            && s.stdin.got <= main + trailer
            && (s.stdin.eof ==> s.stdin.got == main + trailer)
            && (s.completed && cfg.drains ==> s.stdin.eof)
  {
    RunInv(cfg, run);
    var s := Last(run);
    TarResult(cfg, s.stdin);
    TrimmedFacts(s.err.buf);
    TarContents(cfg, cfg.tar.value);
    CopyErrorFacts(VerdictOf(cfg, s), s.stdin.result, s.waiter.stderr);
    hide StdinInv, StreamInv, Flat, TrimNewline, RunError, CopyError, VerdictOf, HeaderAndBody, Trailer, IsRun, Measure,
      ValidConfig;
    assert s.captureErrs == [];
  }

  /** A refused header leaves a trailer and nothing else; a body that falls short leaves none. */
  lemma TarContents(cfg: Config, plan: TarPlan)
    requires cfg.tar == Some(plan)
    ensures Flat(HeaderAndBody(cfg)) == if plan.headerErr.Some? then "" else Flat(plan.main)
    ensures Flat(Trailer(cfg)) == if plan.headerErr.Some? || plan.whole then Flat(plan.trailer) else ""
  {
    NothingFlat();
    var opening := HeaderAndBody(cfg);
    assert Flat(opening) == opening[0] + Flat(opening[1..]);
    assert opening[1..] == if plan.headerErr.Some? then [] else plan.main;
  }

  /** The error of Copy joins what went wrong: the verdict, the tar writer, and what is on stderr. */
  lemma CopyErrorFacts(v: Verdict, tar: Option<string>, stderr: string)
    ensures var e := CopyError(RunError(v, []), tar, stderr);
            && (e.None? <==> v == Succeeded && tar.None? && stderr == "")
            && (e.Some? ==>
                  e.value.causes ==
                    (if v == Succeeded then [] else [v.cause]) + (if tar.Some? then [tar.value] else [])
                    + (if stderr != "" then ["failed to copy to dst, due to: " + stderr] else []))
  {
  }

  lemma TarResult(cfg: Config, i: Stdin)
    requires StdinInv(cfg, i) && cfg.tar.Some?
    ensures i.pc.Sent() ==>
              (i.result.None? <==> Flat(HeaderAndBody(cfg)) <= i.got
                                   && cfg.tar.value.headerErr.None? && cfg.tar.value.srcErr.None?)
    ensures i.pc.Sent() && i.result.Some? ==>
              var plan, e := cfg.tar.value, i.result.value;
              if plan.headerErr.Some? then e == plan.headerErr.value || e == CLOSED_PIPE
              else if Flat(HeaderAndBody(cfg)) <= i.got then plan.srcErr == Some(e)
              else plan.srcErr == Some(e) || e == CLOSED_PIPE
    ensures i.pc.Sent() ==> i.got <= Flat(HeaderAndBody(cfg)) + Flat(Trailer(cfg))
    ensures i.eof ==> i.got == Flat(HeaderAndBody(cfg)) + Flat(Trailer(cfg))
  {
    hide Flat, HeaderAndBody, Trailer;
    var main, trailer := Flat(HeaderAndBody(cfg)), Flat(Trailer(cfg));
    if !i.broken && i.pc == TarTrailer {
      assert i.got + (Held(i) + Flat(i.todo)) == main + trailer;
    }
    if i.got <= main + trailer && |i.got| >= |main| {
      assert main == (main + trailer)[..|main|] == i.got[..|main|];
    }
  }

  /** The Nomad sender: the caller sees an exit error exactly for a non-zero exit code. */
  lemma NomadExitCode(cfg: Config, run: seq<State>, err: Option<string>, exitCode: int)
    requires ValidConfig(cfg) && !cfg.sinkFails && IsRun(cfg, run) && Last(run).waiter.Returned?
    requires VerdictOf(cfg, Last(run)) == NomadVerdict(err, exitCode)
    ensures var e := Last(run).waiter.err;
            && (exitCode != 0 <==> e.Some? && e.value.ExitError?)
            && (exitCode != 0 ==>
                  && e.value.code == exitCode
                  && err.GetOr("command terminated with exit code " + Decimal(exitCode)) in e.value.causes)
            && (exitCode == 0 && err.Some? ==> e.Some? && err.value in e.value.causes)
            && (exitCode == 0 && err.None? && cfg.tar.None? ==> e.None?)
  {
    RunVerdict(cfg, run);
  }

  /** The Kubernetes sender: an exit error is seen exactly when the stream error carries an exit status. */
  lemma KubernetesExitCode(cfg: Config, run: seq<State>, err: Option<string>, exitStatus: Option<int>)
    requires ValidConfig(cfg) && !cfg.sinkFails && IsRun(cfg, run) && Last(run).waiter.Returned?
    requires VerdictOf(cfg, Last(run)) == KubernetesVerdict(err, exitStatus)
    ensures var e := Last(run).waiter.err;
            && (err.Some? && exitStatus.Some? <==> e.Some? && e.value.ExitError?)
            && (err.Some? && exitStatus.Some? ==> e.value.code == exitStatus.value)
            && (err.Some? ==> e.Some? && err.value in e.value.causes)
            && (err.None? && cfg.tar.None? ==> e.None?)
  {
    RunVerdict(cfg, run);
  }
}
