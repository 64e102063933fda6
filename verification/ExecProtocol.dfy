/**
 The goroutines behind a remote exec and a remote copy (internal/transport/exec.go together with
 the senders in internal/kubernetes/client.go and internal/nomad/client.go), as a step relation
 with one program counter per goroutine:

  - the executor, which writes the two output streams, may read stdin, sends one verdict on
    ExecErr and then closes the streams;
  - one capture goroutine per output stream;
  - the tar writer of a copy, which feeds stdin and sends one result on its own channel;
  - the waiter, which is WaitForResults, followed by the tail of Copy when there is a tar writer.

 An io.Pipe is unbuffered: a Write keeps its unread rest in `pending` until readers have taken
 it, and closing the write end makes that Write fail and drops the rest (`lost`). A Write of no
 bytes waits for a reader as well; archive/tar makes some, as it flushes before each header (twice for
 one that it accepts) and before its trailer, so on stdin a Write in progress is told apart from none.
 */
module ExecProtocol {
  import opened Wrappers
  import opened Decimals

  // ---------------------------------------------------------------------------------------------
  // Errors

  /** The error interface values the protocol passes around. */
  datatype GoError =
    | ExitError(code: int, causes: seq<string>)  // *ExecError
    | MultiError(causes: seq<string>)            // *multierror.Error

  /** What the executor sends on ExecErr. */
  datatype Verdict = Succeeded | Exited(code: int, cause: string) | Failed(cause: string)

  const CLOSED_PIPE: string := "io: read/write on closed pipe"

  /** The end of WaitForResults: the verdict joined with the errors of the capture goroutines. */
  function RunError(v: Verdict, captureErrs: seq<string>): Option<GoError> {
    match v
    case Succeeded => if captureErrs == [] then None else Some(MultiError(captureErrs))
    case Exited(code, cause) => Some(ExitError(code, [cause] + captureErrs))
    case Failed(cause) => Some(MultiError([cause] + captureErrs))
  }

  /** The end of Copy: the tar result and a non-empty stderr joined to the error of Run. */
  function CopyError(run: Option<GoError>, tar: Option<string>, stderr: string): Option<GoError> {
    var extra := (if tar.Some? then [tar.value] else [])
               + (if stderr != "" then ["failed to copy to dst, due to: " + stderr] else []);
    match run
    case None => if extra == [] then None else Some(MultiError(extra))
    case Some(ExitError(code, causes)) => Some(ExitError(code, causes + extra))
    case Some(MultiError(causes)) => Some(MultiError(causes + extra))
  }

  /** The Kubernetes sender: an error that carries an exit status becomes an ExecError. */
  function KubernetesVerdict(err: Option<string>, exitStatus: Option<int>): Verdict {
    match err
    case None => Succeeded
    case Some(cause) => if exitStatus.Some? then Exited(exitStatus.value, cause) else Failed(cause)
  }

  /** The Nomad sender: a non-zero exit code is an ExecError even when the API reports no error. */
  function NomadVerdict(err: Option<string>, exitCode: int): Verdict {
    if exitCode != 0 then
      Exited(exitCode, err.GetOr("command terminated with exit code " + Decimal(exitCode)))
    else if err.Some? then Failed(err.value)
    else Succeeded
  }

  // ---------------------------------------------------------------------------------------------
  // Configurations and states

  /** What the tar writer of a copy has to write; the tar byte format stays abstract. */
  datatype TarPlan = TarPlan(
    headerErr: Option<string>,  // WriteHeader refuses the header, which does not break the writer
    main: seq<string>,          // header and body of an accepted header, a string for each Write, flushes included
    srcErr: Option<string>,     // reading the source fails after those writes
    whole: bool,                // the source supplied exactly Size bytes, so Close writes a trailer
    trailer: seq<string>)       // the Writes of the trailer, empty ones included

  /** One remote execution: what the remote side does is an oracle. */
  datatype Config = Config(
    started: bool,              // the context is live and the executor could be created
    startErr: string,           // otherwise: the error sent in place of a verdict
    stdout: seq<string>,        // the Writes of the remote side, none of them empty
    stderr: seq<string>,
    verdict: Verdict,           // the verdict when the remote side runs to completion
    abandons: Option<Verdict>,  // the verdict of an execution that is cut off at any time
    drains: bool,               // the remote side reads stdin to EOF before it completes
    sinkFails: bool,            // WriteString into a capture buffer may fail
    tar: Option<TarPlan>)       // present for Copy, absent for Run

  datatype Side = Stdout | Stderr

  datatype CapturePc = Scanning | SendingErr | Captured

  /** An output pipe with its writer and its capture goroutine. */
  datatype Stream = Stream(
    todo: seq<string>,   // Writes not issued yet
    pending: string,     // unread rest of the current Write
    lost: string,        // rest of a Write that was cut off by Close
    closed: bool,
    scan: string,        // bytes inside the scanner
    buf: string,         // the capture buffer
    pc: CapturePc)

  datatype ExecPc = Streaming | Sending(v: Verdict) | ClosingOut | ClosingErr | ClosingStdin | Gone {
    predicate OutClosed() { ClosingErr? || ClosingStdin? || Gone? }
    predicate ErrClosed() { ClosingStdin? || Gone? }
    predicate Sent() { ClosingOut? || OutClosed() }
  }

  datatype TarPc = TarWriting | TarSending | TarTrailer | TarClosing | TarGone {
    predicate Writes() { TarWriting? || TarTrailer? }
    predicate Sent() { TarTrailer? || TarClosing? || TarGone? }
  }

  /** The stdin pipe with the tar writer and what the remote side has read from it. */
  datatype Stdin = Stdin(
    todo: seq<string>, pending: Option<string>, lost: Option<string>, closed: bool,
    got: string,               // what the remote side has read
    eof: bool,                 // the remote side has read EOF
    broken: bool,              // a Write has failed
    result: Option<string>,    // what the tar writer sends, or has sent, on writeErrC
    pc: TarPc)

  datatype WaiterPc =
    | AwaitVerdict
    | AwaitCaptures(v: Verdict)
    | AwaitTar(stdout: string, stderr: string, run: Option<GoError>)
    | Returned(stdout: string, stderr: string, err: Option<GoError>)

  datatype State = State(
    out: Stream, err: Stream, stdin: Stdin, exec: ExecPc, waiter: WaiterPc,
    completed: bool,                // the remote side ran to completion
    execErr: seq<Verdict>,          // ExecErr, capacity 1
    captureErrs: seq<string>,       // streamWriteErrC, capacity 2
    tarErr: seq<Option<string>>)    // writeErrC, capacity 1

  const EXEC_ERR_CAPACITY := 1
  const CAPTURE_ERR_CAPACITY := 2
  const TAR_ERR_CAPACITY := 1

  function Flat(chunks: seq<string>): string {
    if chunks == [] then "" else chunks[0] + Flat(chunks[1..])
  }

  predicate NoEmptyWrites(chunks: seq<string>) {
    forall i :: 0 <= i < |chunks| ==> chunks[i] != ""
  }

  /** Flushes come before what they make room for, so the last Write has some bytes. */
  predicate EndsInBytes(chunks: seq<string>) {
    chunks != [] ==> chunks[|chunks| - 1] != ""
  }

  ghost predicate ValidConfig(cfg: Config) {
    && NoEmptyWrites(cfg.stdout)
    && NoEmptyWrites(cfg.stderr)
    && (cfg.tar.Some? && cfg.tar.value.headerErr.None? ==> cfg.tar.value.main != [] && EndsInBytes(cfg.tar.value.main))
  }

  /** What is written before the result is sent: the flush in WriteHeader, then header and body. */
  function HeaderAndBody(cfg: Config): seq<string> {
    if cfg.tar.Some? then Opening(cfg.tar.value) else []
  }

  function Opening(plan: TarPlan): seq<string> {
    [""] + (if plan.headerErr.Some? then [] else plan.main)
  }

  /** The error of writing header and body when every Write succeeds. */
  function WriterErr(cfg: Config): Option<string> {
    if cfg.tar.None? then None
    else if cfg.tar.value.headerErr.Some? then cfg.tar.value.headerErr
    else cfg.tar.value.srcErr
  }

  /**
   What the deferred Close of the tar writer writes: the trailer, also after a refused header, and
   nothing if the body fell short.
   */
  function Trailer(cfg: Config): seq<string> {
    if cfg.tar.Some? && (cfg.tar.value.headerErr.Some? || cfg.tar.value.whole) then cfg.tar.value.trailer else []
  }

  function InitStream(chunks: seq<string>): Stream {
    Stream(chunks, "", "", false, "", "", Scanning)
  }

  function InitStdin(tar: Option<TarPlan>): Stdin {
    match tar
    case None => Stdin([], None, None, true, "", true, false, None, TarGone)
    case Some(plan) => Stdin(Opening(plan), None, None, false, "", false, false, None, TarWriting)
  }

  function Init(cfg: Config): State {
    State(InitStream(cfg.stdout), InitStream(cfg.stderr), InitStdin(cfg.tar),
          if cfg.started then Streaming else Gone, AwaitVerdict, false,
          if cfg.started then [] else [Failed(cfg.startErr)], [], [])
  }

  // ---------------------------------------------------------------------------------------------
  // Steps of one output pipe: its writer inside the executor, and its capture goroutine

  datatype StreamAction = Offer | Take(n: nat) | Emit | Eof | SinkFail | SendSinkErr

  predicate StreamEnabled(cfg: Config, streaming: bool, st: Stream, a: StreamAction) {
    match a
    case Offer => streaming && st.todo != [] && st.pending == ""
    case Take(n) => cfg.started && st.pc == Scanning && st.scan == "" && 1 <= n <= |st.pending|
    case Emit => st.pc == Scanning && st.scan != ""
    // Without a started exec the reader is nil and the goroutine is done at once.
    case Eof => st.pc == Scanning && (!cfg.started || (st.scan == "" && st.closed))
    case SinkFail => cfg.sinkFails && st.pc == Scanning && st.scan != ""
    case SendSinkErr => st.pc == SendingErr
  }

  function StreamNext(cfg: Config, streaming: bool, st: Stream, a: StreamAction): Stream
    requires StreamEnabled(cfg, streaming, st, a)
  {
    match a
    case Offer => st.(pending := st.todo[0], todo := st.todo[1..])
    case Take(n) => st.(scan := st.pending[..n], pending := st.pending[n..])
    case Emit => st.(buf := st.buf + [st.scan[0]], scan := st.scan[1..])
    case Eof => st.(pc := Captured)
    case SinkFail => st.(pc := SendingErr)
    case SendSinkErr => st.(pc := Captured)
  }

  function CloseStream(st: Stream): Stream {
    if st.closed then st else st.(closed := true, lost := st.pending, pending := "")
  }

  // ---------------------------------------------------------------------------------------------
  // Steps of stdin: the tar writer, and the reader inside the executor

  datatype StdinAction =
    | StdinTake(n: nat) | StdinEof
    | TarOffer | TarCut | TarBodyDone | TarSend | TarTrailerDone | TarClose

  predicate StdinEnabled(cfg: Config, streaming: bool, i: Stdin, a: StdinAction) {
    match a
    case StdinTake(n) => cfg.started && i.pending.Some? && n <= |i.pending.value| && (n == 0 ==> i.pending.value == "")
    case StdinEof => streaming && i.closed && i.pending.None? && !i.eof
    case TarOffer => i.pc.Writes() && i.todo != [] && i.pending.None? && !i.closed
    // The current or the next Write fails with ErrClosedPipe.
    case TarCut => i.pc.Writes() && i.closed && (i.lost.Some? || i.todo != [])
    case TarBodyDone => i.pc == TarWriting && i.todo == [] && i.pending.None? && i.lost.None?
    case TarSend => i.pc == TarSending
    case TarTrailerDone => i.pc == TarTrailer && i.todo == [] && i.pending.None? && i.lost.None?
    case TarClose => i.pc == TarClosing
  }

  function StdinNext(cfg: Config, streaming: bool, i: Stdin, a: StdinAction): Stdin
    requires StdinEnabled(cfg, streaming, i, a)
  {
    match a
    case StdinTake(n) =>
      var rest := i.pending.value[n..];
      i.(got := i.got + i.pending.value[..n], pending := if rest == "" then None else Some(rest))
    case StdinEof => i.(eof := true)
    case TarOffer => i.(pending := Some(i.todo[0]), todo := i.todo[1..])
    case TarCut =>
      if i.pc == TarWriting then i.(pc := TarSending, broken := true, result := Some(CLOSED_PIPE))
      else i.(pc := TarClosing, broken := true)
    case TarBodyDone => i.(pc := TarSending, result := WriterErr(cfg))
    case TarSend => i.(pc := TarTrailer, todo := if i.broken then [] else Trailer(cfg))
    case TarTrailerDone => i.(pc := TarClosing)
    case TarClose => CloseStdin(i).(pc := TarGone)
  }

  function CloseStdin(i: Stdin): Stdin {
    if i.closed then i else i.(closed := true, lost := i.pending, pending := None)
  }

  // ---------------------------------------------------------------------------------------------
  // Steps of the whole system

  datatype Action =
    | Io(side: Side, io: StreamAction)
    | Input(stdin: StdinAction)
    | Complete | Abandon | SendVerdict | Close
    | RecvVerdict | JoinCaptures | RecvTar

  function StreamOf(s: State, side: Side): Stream {
    if side == Stdout then s.out else s.err
  }

  /** When a goroutine can take a step; a blocked goroutine has none. */
  predicate Enabled(cfg: Config, s: State, a: Action) {
    match a
    case Io(side, io) =>
      && StreamEnabled(cfg, s.exec == Streaming, StreamOf(s, side), io)
      && (io == SendSinkErr ==> |s.captureErrs| < CAPTURE_ERR_CAPACITY)
    case Input(i) =>
      && StdinEnabled(cfg, s.exec == Streaming, s.stdin, i)
      && (i == TarSend ==> |s.tarErr| < TAR_ERR_CAPACITY)
    case Complete =>
      s.exec == Streaming && s.out.todo == s.err.todo == [] && s.out.pending == s.err.pending == ""
      && (cfg.drains ==> s.stdin.eof)
    case Abandon => s.exec == Streaming && cfg.abandons.Some?
    case SendVerdict => s.exec.Sending? && |s.execErr| < EXEC_ERR_CAPACITY
    case Close => s.exec.ClosingOut? || s.exec.ClosingErr? || s.exec.ClosingStdin?
    case RecvVerdict => s.waiter == AwaitVerdict && s.execErr != []
    case JoinCaptures => s.waiter.AwaitCaptures? && s.out.pc == s.err.pc == Captured
    case RecvTar => s.waiter.AwaitTar? && s.tarErr != []
  }

  /** strings.TrimSuffix(s, "\n") */
  function TrimNewline(s: string): string {
    if s != "" && s[|s| - 1] == '\n' then s[..|s| - 1] else s
  }

  function Next(cfg: Config, s: State, a: Action): State
    requires Enabled(cfg, s, a)
  {
    match a
    case Io(side, io) =>
      var st := StreamNext(cfg, s.exec == Streaming, StreamOf(s, side), io);
      var errs := if io == SendSinkErr then
                    s.captureErrs + [if side == Stdout then "failed to write exec stdout"
                                     else "failed to write exec stderr"]
                  else s.captureErrs;
      if side == Stdout then s.(out := st, captureErrs := errs) else s.(err := st, captureErrs := errs)
    case Input(i) =>
      s.(stdin := StdinNext(cfg, s.exec == Streaming, s.stdin, i),
         tarErr := if i == TarSend then s.tarErr + [s.stdin.result] else s.tarErr)
    case Complete => s.(exec := Sending(cfg.verdict), completed := true)
    case Abandon => s.(exec := Sending(cfg.abandons.value))
    case SendVerdict => s.(exec := ClosingOut, execErr := s.execErr + [s.exec.v])
    case Close =>
      if s.exec == ClosingOut then s.(exec := ClosingErr, out := CloseStream(s.out))
      else if s.exec == ClosingErr then s.(exec := ClosingStdin, err := CloseStream(s.err))
      else s.(exec := Gone, stdin := CloseStdin(s.stdin))
    case RecvVerdict => s.(waiter := AwaitCaptures(s.execErr[0]), execErr := s.execErr[1..])
    case JoinCaptures =>
      var so, se := TrimNewline(s.out.buf), TrimNewline(s.err.buf);
      var run := RunError(s.waiter.v, s.captureErrs);
      s.(waiter := if cfg.tar.Some? then AwaitTar(so, se, run) else Returned(so, se, run))
    case RecvTar =>
      s.(waiter := Returned(s.waiter.stdout, s.waiter.stderr,
                            CopyError(s.waiter.run, s.tarErr[0], s.waiter.stderr)),
         tarErr := s.tarErr[1..])
  }
}
