/**
 Waiting for a Vault node and initializing it (internal/remoteflight/vault/state.go, init.go).
 Each try of a wait sees its own replies.
 */
module VaultInit {
  import opened Wrappers
  import opened Contexts
  import opened Retry
  import opened Systemd
  import opened VaultState

  type CheckStater = State -> bool

  const FIVE_SECONDS := 5_000_000_000

  predicate AllHold(checks: seq<CheckStater>, s: State) {
    forall i :: 0 <= i < |checks| ==> checks[i](s)
  }

  /** One try of WaitForState, as the retry engine sees it. */
  function Try(r: Replies, tr: Transport, req: StateRequest, checks: seq<CheckStater>): Attempt<Option<State>> {
    var o := Observed(r, tr, req);
    Attempt(o.state, if o.ok && o.state.Some? && AllHold(checks, o.state.value) then None else Some(NOT_YET))
  }

  const NOT_YET := GoError("vault is not in the desired state", {})

  /** The function that WaitForState has retried. */
  method CheckState(r: Replies, tr: Transport, req: StateRequest, checks: seq<CheckStater>)
    returns (a: Attempt<Option<State>>)
    ensures a == Try(r, tr, req, checks)
  {
    var state, ok := GetState(r, tr, req);
    if !ok || state.None? { return Attempt(state, Some(NOT_YET)); }
    for i := 0 to |checks|
      invariant forall j :: 0 <= j < i ==> checks[j](state.value)
    {
      if !checks[i](state.value) { return Attempt(state, Some(NOT_YET)); }
    }
    return Attempt(state, None);
  }

  /** The node as it is seen over time: every poll of it, before and after it was initialized. */
  class Node {
    const see: (nat, nat) -> Replies  // by the number of init commands and of polls so far
    var inits: nat
    var polls: nat

    constructor (see: (nat, nat) -> Replies)
      ensures this.see == see && inits == polls == 0
    {
      this.see, inits, polls := see, 0, 0;
    }
  }

  /**
   WaitForState. It retries without limit, so it fails only because the context was found done; a
   state without error is the last one polled, and it satisfies every check. Between two polls it
   waits five seconds.
   */
  method WaitForState(ctx: Context, node: Node, tr: Transport, req: StateRequest, checks: seq<CheckStater>)
    returns (state: Option<State>, ok: bool, ghost waits: seq<int>)
    modifies ctx, node`polls
    ensures node.polls >= old(node.polls) && (ok ==> |waits| == node.polls - old(node.polls) - 1)
    ensures forall i :: 0 <= i < |waits| ==> waits[i] == 5_000_000_000
    ensures ok ==> state.Some? && AllHold(checks, state.value) && node.polls > old(node.polls)
    ensures ok ==> forall i :: 0 <= i < |checks| ==> checks[i](state.value)
    ensures ok ==> Observed(node.see(node.inits, node.polls - 1), tr, req) == Observation(state, true)
    ensures forall n :: old(node.polls) <= n < node.polls - 1 ==>
            Try(node.see(node.inits, n), tr, req, checks).err.Some?
    ensures !ok ==> ctx.left == 0
    ensures !ok ==> forall n :: old(node.polls) <= n < node.polls ==>
            Try(node.see(node.inits, n), tr, req, checks).err.Some?
  {
    hide Try, Observed, AllHold;
    var see, inits, polls := node.see, node.inits, node.polls;
    var run: nat -> Attempt<Option<State>> := (n: nat) => Try(see(inits, polls + n), tr, req, checks);
    var res, n, done;
    res, n, done, waits := RetryForever(ctx, run);
    node.polls := node.polls + n;
    ok, state := done, if res.Some? then res.value else None;
    forall i | polls <= i < node.polls && (ok ==> i < node.polls - 1)
      ensures Try(see(inits, i), tr, req, checks).err.Some?
    {
      assert run(i - polls).err.Some?;
    }
    if ok {
      assert run(n - 1) == Try(see(inits, polls + n - 1), tr, req, checks);
      TrySucceeds(see(inits, polls + n - 1), tr, req, checks);
      EachHolds(checks, state.value);
    }
  }

  /** The retrier of WaitForState: no limit, every error, five seconds apart. */
  method RetryForever<T>(ctx: Context, run: nat -> Attempt<T>)
    returns (res: Option<T>, n: nat, ok: bool, ghost waits: seq<int>)
    modifies ctx
    ensures ok ==> |waits| == n - 1
    ensures forall i :: 0 <= i < |waits| ==> waits[i] == 5_000_000_000
    ensures ok ==> n > 0 && run(n - 1).err.None? && res == Some(run(n - 1).value)
    ensures forall i: nat :: i < n && (ok ==> i < n - 1) ==> run(i).err.Some?
    ensures !ok ==> ctx.left == 0
  {
    hide Retrier.LastCall, Failures;
    var r := new Retrier(MAX_RETRIES_UNLIMITED, [], (n: nat) => if n == 0 then 0 else FIVE_SECONDS);
    var err;
    res, err, n, waits := r.Retry(ctx, run);
    EveryErrorIsRetried(r, run);
    ok := err == [];
  }

  lemma EveryErrorIsRetried<T>(r: Retrier, run: nat -> Attempt<T>)
    requires r.maxRetries == MAX_RETRIES_UNLIMITED && r.onlyRetryErrors == []
    ensures forall i: nat :: r.LastCall(0, run, i) <==> run(i).err.None?
  {
  }

  lemma EachHolds(checks: seq<CheckStater>, s: State)
    requires AllHold(checks, s)
    ensures forall i :: 0 <= i < |checks| ==> checks[i](s)
  {
  }

  lemma TrySucceeds(r: Replies, tr: Transport, req: StateRequest, checks: seq<CheckStater>)
    requires Try(r, tr, req, checks).err.None?
    ensures var o := Observed(r, tr, req);
            o.ok && o.state.Some? && AllHold(checks, o.state.value) && Try(r, tr, req, checks).value == o.state
  {
  }

  // ---------------------------------------------------------------------------------------------
  // The checks that Init uses

  const POD_RUNNING := "Running"

  /** The first pod with the name decides. */
  predicate PodHasPhase(pods: seq<Pod>, name: string, phase: string) {
    pods != [] && (if pods[0].name == name then pods[0].phase == phase else PodHasPhase(pods[1..], name, phase))
  }

  lemma {:induction false} PodPhaseIff(pods: seq<Pod>, name: string, phase: string)
    ensures PodHasPhase(pods, name, phase) <==>
            exists i :: 0 <= i < |pods| && pods[i].name == name && pods[i].phase == phase
                        && forall j :: 0 <= j < i ==> pods[j].name != name
  {
    if pods != [] && pods[0].name != name {
      PodPhaseIff(pods[1..], name, phase);
      if PodHasPhase(pods[1..], name, phase) {
        var i :| 0 <= i < |pods| - 1 && pods[1..][i].name == name && pods[1..][i].phase == phase
                 && forall j :: 0 <= j < i ==> pods[1..][j].name != name;
        assert pods[i + 1].name == name && forall j :: 0 < j < i + 1 ==> pods[j].name == pods[1..][j - 1].name;
      }
      if i :| 0 <= i < |pods| && pods[i].name == name && pods[i].phase == phase
              && forall j :: 0 <= j < i ==> pods[j].name != name {
        assert pods[1..][i - 1].name == name && forall j :: 0 <= j < i - 1 ==> pods[1..][j].name == pods[j + 1].name;
      }
    }
  }

  predicate SealStateIsKnown(s: State) {
    s.IsSealed().Some?
  }

  predicate Initialized(s: State) {
    s.IsInitialized() == Some(true)
  }

  predicate RunsOn(tr: Transport, s: State) {
    match tr
    case SSH => Includes(s.unitProperties.GetOr(map[]), ENABLED_AND_RUNNING)
    case Kubernetes(pod) => PodHasPhase(s.pods.GetOr([]), pod, POD_RUNNING)
    case OtherTransport => true
  }

  /** The process of a node, by the transport: the unit is loaded and running, or the pod is. */
  lemma RunsOnIff(tr: Transport, s: State)
    ensures tr.SSH? ==>
              (RunsOn(tr, s) <==>
                s.unitProperties.Some? &&
                var p := s.unitProperties.value;
                && {"LoadState", "ActiveState", "SubState", "UnitFileState"} <= p.Keys
                && p["LoadState"] == "loaded" && p["ActiveState"] == "active" && p["SubState"] == "running"
                && p["UnitFileState"] == "enabled")
    ensures tr.Kubernetes? ==>
              (RunsOn(tr, s) <==>
                s.pods.Some? &&
                exists i ::
                  && 0 <= i < |s.pods.value| && s.pods.value[i].name == tr.pod && s.pods.value[i].phase == "Running"
                  && forall j :: 0 <= j < i ==> s.pods.value[j].name != tr.pod)
    ensures tr.OtherTransport? ==> RunsOn(tr, s)
  {
    if tr.Kubernetes? {
      PodPhaseIff(s.pods.GetOr([]), tr.pod, POD_RUNNING);
    } else if tr.SSH? {
      EnabledAndRunning();
    }
  }

  lemma EnabledAndRunning()
    ensures ENABLED_AND_RUNNING.Keys == {"LoadState", "ActiveState", "SubState", "UnitFileState"}
    ensures ENABLED_AND_RUNNING["LoadState"] == "loaded" && ENABLED_AND_RUNNING["ActiveState"] == "active"
    ensures ENABLED_AND_RUNNING["SubState"] == "running" && ENABLED_AND_RUNNING["UnitFileState"] == "enabled"
  {
  }

  /** What the two other checks say of a state that GetState has returned without error. */
  lemma ChecksIff(r: Replies, tr: Transport, req: StateRequest)
    requires Observed(r, tr, req).ok
    ensures StatusAnswers(r, req) && SealAnswers(r, req) && HealthAnswers(r, req)
    ensures Observed(r, tr, req).state.Some?
    ensures Initialized(Observed(r, tr, req).state.value) <==> r.status.body.value.initialized
    ensures SealStateIsKnown(Observed(r, tr, req).state.value) <==> RepliesAgree(r)
  {
    ObservedFacts(r, tr, req);
    hide Observed;
    WantsIff(r, req);
    BasicIs(r, req);
    SucceedsIff(r, tr, req);
  }

  /** The prior and the post checks, built as lists. */
  method ChecksFor(tr: Transport) returns (prior: seq<CheckStater>, post: seq<CheckStater>)
    ensures forall s :: AllHold(prior, s) <==> SealStateIsKnown(s) && RunsOn(tr, s)
    ensures forall s :: AllHold(post, s) <==> SealStateIsKnown(s) && Initialized(s) && RunsOn(tr, s)
  {
    hide SealStateIsKnown, Initialized, RunsOn;
    var sealKnown: CheckStater, initialized: CheckStater := s => SealStateIsKnown(s), s => Initialized(s);
    var runs: CheckStater := s => RunsOn(tr, s);
    if tr.OtherTransport? {
      prior, post := [sealKnown], [sealKnown, initialized];
      assert forall s :: RunsOn(tr, s) by { AlwaysRuns(); }
    } else {
      prior, post := [sealKnown, runs], [sealKnown, initialized, runs];
      assert prior[1] == runs && post[2] == runs;
    }
    assert prior[0] == post[0] == sealKnown && post[1] == initialized;
  }

  lemma AlwaysRuns()
    ensures forall s :: RunsOn(OtherTransport, s)
  {
  }

  // ---------------------------------------------------------------------------------------------
  // Init

  /** What the init command itself gave back. */
  datatype InitReply = InitReply(failed: bool, stdoutEmpty: bool, stderrEmpty: bool, decodes: bool) {
    predicate Good() {
      !failed && !stdoutEmpty && stderrEmpty && decodes
    }
  }

  datatype InitResponse = InitResponse(prior: Option<State>, post: Option<State>)

  /**
   Init; `ready` tells that the prior wait ended without error. The init command is issued at most
   once, exactly when the node was ready and not initialized; without an error the node is
   initialized, its seal state known and its process running, and if the command was issued it worked.
   */
  method Init(ctx: Context, node: Node, tr: Transport, req: StateRequest, command: InitReply)
    returns (res: InitResponse, ok: bool, ghost ready: bool)
    modifies ctx, node
    ensures node.inits == old(node.inits) || node.inits == old(node.inits) + 1
    ensures ready ==> req.binPath != "" && req.vaultAddr != "" && res.prior.Some?
    ensures ready ==> SealStateIsKnown(res.prior.value) && RunsOn(tr, res.prior.value)
    ensures ready ==>
              exists n ::
                && old(node.polls) <= n < node.polls
                && Observed(node.see(old(node.inits), n), tr, req) == Observation(res.prior, true)
    ensures node.inits > old(node.inits) <==> ready && res.prior.value.IsInitialized() == Some(false)
    ensures ok ==> ready && res.post.Some? && Initialized(res.post.value)
    ensures ok ==> SealStateIsKnown(res.post.value) && RunsOn(tr, res.post.value)
    ensures ok ==>
              node.polls > 0 && Observed(node.see(node.inits, node.polls - 1), tr, req) == Observation(res.post, true)
    ensures ok && node.inits > old(node.inits) ==>
              !command.failed && !command.stdoutEmpty && command.stderrEmpty && command.decodes
    ensures node.inits > old(node.inits) && !command.Good() ==>
              node.polls > 0 && res.post == Observed(node.see(node.inits, node.polls - 1), tr, req).state
    ensures !ok && req.binPath != "" && req.vaultAddr != "" ==>
            ctx.left == 0
            || (node.inits > old(node.inits)
                && (command.failed || command.stdoutEmpty || !command.stderrEmpty || !command.decodes))
  {
    hide SealStateIsKnown, RunsOn, Observed;
    res, ready := InitResponse(None, None), false;
    if req.binPath == "" || req.vaultAddr == "" { return res, false, false; }
    var prior, post := ChecksFor(tr);
    var s, isReady;
    ghost var waits;
    s, isReady, waits := WaitForState(ctx, node, tr, req, prior);
    ghost var last := node.polls - 1;
    res := res.(prior := s);
    if !isReady { return res, false, false; }
    ready := true;
    InitIsKnown(node.see(node.inits, node.polls - 1), tr, req);
    if s.value.IsInitialized() != Some(true) {
      node.inits := node.inits + 1;
      if !command.Good() {
        node.polls := node.polls + 1;
        var after := Observed(node.see(node.inits, node.polls - 1), tr, req);
        return res.(post := after.state), false, true;
      }
    }
    s, ok, waits := WaitForState(ctx, node, tr, req, post);
    res := res.(post := s);
  }

  /** GetState itself has compared the two initialization flags. */
  lemma InitIsKnown(r: Replies, tr: Transport, req: StateRequest)
    requires Observed(r, tr, req).ok
    ensures Observed(r, tr, req).state.value.IsInitialized().Some?
  {
    ChecksIff(r, tr, req);
    ObservedFacts(r, tr, req);
    SucceedsIff(r, tr, req);
    hide Observed, StatusAnswers, SealAnswers, HealthAnswers, RepliesAgree;
  }
}
