/**
 The state of a Vault node (internal/remoteflight/vault/state.go, status.go, seal_status.go,
 health.go). The replies of the remote side are values; JSON bodies are already decoded, with None
 for one that does not decode.
 */
module VaultState {
  import opened Wrappers
  import opened Systemd

  // ---------------------------------------------------------------------------------------------
  // Replies

  datatype Exit = Exited(code: int) | OtherError

  /** What a command gave back; NotRun when the context was found done. */
  datatype Reply<+B> =
    | NotRun
    | Ran(err: Option<Exit>, stdoutEmpty: bool, stderrEmpty: bool, body: Option<B>)

  datatype StatusBody = StatusBody(initialized: bool, isSealed: bool, haEnabled: bool)

  datatype SealData = SealData(isSealed: bool, storageType: string)

  datatype HealthBody = HealthBody(initialized: bool, isSealed: bool, drMode: string, performanceMode: string)

  datatype Pod = Pod(name: string, phase: string)

  /** Everything that one GetState may ask for. */
  datatype Replies = Replies(
    live: bool,
    processManager: Option<string>,
    unitProperties: Option<UnitProperties>,
    pods: Option<seq<Pod>>,
    status: Reply<StatusBody>,
    flightControl: Option<string>,
    seal: Reply<Option<SealData>>,
    health: Reply<HealthBody>,
    replication: Option<string>,
    config: Option<string>,
    hostInfo: Option<string>,
    haStatus: Option<string>,
    raftConfig: Option<string>,
    autopilotConfig: Option<string>,
    autopilotState: Option<string>)

  datatype Transport = SSH | Kubernetes(pod: string) | OtherTransport

  datatype StateRequest = StateRequest(binPath: string, vaultAddr: string, token: string)

  // ---------------------------------------------------------------------------------------------
  // "vault status", /v1/sys/seal-status and /v1/sys/health

  const STATUS_UNSEALED := 0
  const STATUS_ERROR := 1
  const STATUS_SEALED := 2
  const STATUS_UNKNOWN := 9

  const HEALTH_ACTIVE := 230
  const HEALTH_STANDBY := 231
  const HEALTH_DR_SECONDARY_ACTIVE := 232
  const HEALTH_PERFORMANCE_STANDBY := 233
  const HEALTH_NOT_INITIALIZED := 234
  const HEALTH_SEALED := 235

  datatype Status = Status(code: int, body: StatusBody)

  datatype SealStatus = SealStatus(data: Option<SealData>)

  datatype Health = Health(status: int, body: HealthBody)

  /** vaultStatusCodeFromError, or the code of a command that did not fail. */
  function StatusCode(err: Option<Exit>, stderrEmpty: bool): int {
    match err
    case None => if stderrEmpty then STATUS_UNSEALED else STATUS_ERROR
    case Some(Exited(code)) => code
    case Some(OtherError) => STATUS_UNKNOWN
  }

  function GetStatus(r: Reply<StatusBody>, req: StateRequest): Option<Status> {
    if r.NotRun? || req.binPath == "" || req.vaultAddr == "" then None else
      var code := StatusCode(r.err, r.stderrEmpty);
      if code != STATUS_UNSEALED && code != STATUS_SEALED then None
      else if !r.stderrEmpty || r.stdoutEmpty || r.body.None? then None
      else Some(Status(code, r.body.value))
  }

  /** A body without data is an error: it is decoded again into the data that is not there. */
  function GetSealStatus(r: Reply<Option<SealData>>, path: string, req: StateRequest): Option<SealStatus> {
    if r.NotRun? || path == "" || req.vaultAddr == "" then None
    else if r.err.Some? || !r.stderrEmpty || r.stdoutEmpty || r.body.None? || r.body.value.None? then None
    else Some(SealStatus(r.body.value))
  }

  predicate IsHealthStatus(code: int) {
    || code == HEALTH_ACTIVE || code == HEALTH_STANDBY || code == HEALTH_DR_SECONDARY_ACTIVE
    || code == HEALTH_PERFORMANCE_STANDBY || code == HEALTH_NOT_INITIALIZED || code == HEALTH_SEALED
  }

  /** The health command reports through its exit code, so it has to fail. */
  function GetHealth(r: Reply<HealthBody>, path: string, req: StateRequest): Option<Health> {
    if r.NotRun? || path == "" || req.vaultAddr == "" then None
    else if r.err.None? || r.err.value.OtherError? || !IsHealthStatus(r.err.value.code) then None
    else if r.stdoutEmpty || r.body.None? then None
    else Some(Health(r.err.value.code, r.body.value))
  }

  function StatusSealed(s: Status): Option<bool> {
    if s.code == STATUS_UNSEALED then (if s.body.isSealed then None else Some(false))
    else if s.code == STATUS_SEALED then (if s.body.isSealed then Some(true) else None)
    else None
  }

  function SealStatusSealed(s: SealStatus): Option<bool> {
    if s.data.None? then None else Some(s.data.value.isSealed)
  }

  function HealthSealed(h: Health): Option<bool> {
    var byStatus := h.status == HEALTH_NOT_INITIALIZED || h.status == HEALTH_SEALED;
    if h.body.isSealed != byStatus then None else Some(byStatus)
  }

  // ---------------------------------------------------------------------------------------------
  // The state

  datatype State = State(
    unitProperties: Option<UnitProperties>,
    pods: Option<seq<Pod>>,
    status: Option<Status>,
    seal: Option<SealStatus>,
    health: Option<Health>,
    replication: Option<string>,
    config: Option<string>,
    hostInfo: Option<string>,
    haStatus: Option<string>,
    raftConfig: Option<string>,
    autopilotConfig: Option<string>,
    autopilotState: Option<string>)
  {
    /** None is an error. */
    function IsSealed(): Option<bool> {
      if status.None? || health.None? || seal.None? then None else
        var s, d, h := StatusSealed(status.value), SealStatusSealed(seal.value), HealthSealed(health.value);
        if s.None? || d.None? || h.None? || s != h || s != d then None else s
    }

    function IsInitialized(): Option<bool> {
      if status.None? || health.None? then None
      else if status.value.body.initialized != health.value.body.initialized then None
      else Some(status.value.body.initialized)
    }

    function ReplicationEnabled(): Option<bool> {
      if health.None? then None
      else Some(ModeEnabled(health.value.body.drMode) || ModeEnabled(health.value.body.performanceMode))
    }

    function HAEnabled(): Option<bool> {
      if status.None? then None else Some(status.value.body.haEnabled)
    }

    function StorageType(): Option<string> {
      if seal.None? || seal.value.data.None? then None else Some(seal.value.data.value.storageType)
    }

    predicate Active() {
      health.Some? && (health.value.status == HEALTH_ACTIVE || health.value.status == HEALTH_DR_SECONDARY_ACTIVE)
    }
  }

  predicate ModeEnabled(mode: string) {
    mode != "" && mode != "unknown" && mode != "disabled"
  }

  const NEW_STATE := State(None, None, None, None, None, None, None, None, None, None, None, None)

  /** What GetState returns: the state as far as it got, and whether there was no error. */
  datatype Observation = Observation(state: Option<State>, ok: bool)

  // ---------------------------------------------------------------------------------------------
  // GetState

  predicate ProcessOk(r: Replies, tr: Transport) {
    && r.live && r.processManager.Some?
    && (r.processManager.value == "systemd" ==> r.unitProperties.Some?)
    && (r.processManager.value == "kubernetes" ==> tr.Kubernetes? && r.pods.Some?)
  }

  /** Every step up to the health endpoint has worked. */
  predicate Reached(r: Replies, tr: Transport, req: StateRequest) {
    && ProcessOk(r, tr) && GetStatus(r.status, req).Some? && r.flightControl.Some?
    && GetSealStatus(r.seal, r.flightControl.value, req).Some?
    && GetHealth(r.health, r.flightControl.value, req).Some?
  }

  function WithProcess(r: Replies): State {
    if r.processManager == Some("systemd") then NEW_STATE.(unitProperties := r.unitProperties)
    else if r.processManager == Some("kubernetes") then NEW_STATE.(pods := r.pods)
    else NEW_STATE
  }

  /** The part of the state that needs no privileges. */
  function Basic(r: Replies, req: StateRequest): State
    requires r.flightControl.Some?
  {
    WithProcess(r).(
      status := GetStatus(r.status, req),
      seal := GetSealStatus(r.seal, r.flightControl.value, req),
      health := GetHealth(r.health, r.flightControl.value, req))
  }

  /** Initialized and unsealed, as all sources agree. */
  predicate Open(s: State) {
    s.IsInitialized() == Some(true) && s.IsSealed() == Some(false)
  }

  predicate WantsReplication(s: State) {
    Open(s) && s.ReplicationEnabled() == Some(true) && s.Active()
  }

  predicate WantsPrivileged(s: State, req: StateRequest) {
    Open(s) && req.token != ""
  }

  predicate WantsHA(s: State, req: StateRequest) {
    WantsPrivileged(s, req) && s.HAEnabled() == Some(true)
  }

  predicate WantsRaft(s: State, req: StateRequest) {
    WantsPrivileged(s, req) && s.StorageType() == Some("raft")
  }

  function When(wanted: bool, reply: Option<string>): Option<string> {
    if wanted then reply else None
  }

  /** Each further part is there exactly when the basic state calls for it. */
  function Full(s: State, r: Replies, req: StateRequest): State {
    s.(replication := When(WantsReplication(s), r.replication),
       config := When(WantsPrivileged(s, req), r.config),
       hostInfo := When(WantsPrivileged(s, req), r.hostInfo),
       haStatus := When(WantsHA(s, req), r.haStatus),
       raftConfig := When(WantsRaft(s, req), r.raftConfig),
       autopilotConfig := When(WantsRaft(s, req), r.autopilotConfig),
       autopilotState := When(WantsRaft(s, req), r.autopilotState))
  }

  predicate Answers(wanted: bool, reply: Option<string>) {
    wanted ==> reply.Some?
  }

  predicate Complete(s: State, r: Replies, req: StateRequest) {
    && s.IsInitialized().Some? && (s.IsInitialized() == Some(true) ==> s.IsSealed().Some?)
    && Answers(WantsReplication(s), r.replication)
    && Answers(WantsPrivileged(s, req), r.config) && Answers(WantsPrivileged(s, req), r.hostInfo)
    && Answers(WantsHA(s, req), r.haStatus)
    && Answers(WantsRaft(s, req), r.raftConfig) && Answers(WantsRaft(s, req), r.autopilotConfig)
    && Answers(WantsRaft(s, req), r.autopilotState)
  }

  /** GetState succeeds: everything it asked for was answered and the sources agree. */
  predicate Observable(r: Replies, tr: Transport, req: StateRequest) {
    && Reached(r, tr, req)
    && Complete(Basic(r, req), r, req)
  }

  /** GetState: on an error the state is returned as far as it got. */
  function Observed(r: Replies, tr: Transport, req: StateRequest): Observation {
    if !r.live then Observation(None, false)
    else if !ProcessOk(r, tr) then Observation(Some(NEW_STATE), false)
    else
      var s := WithProcess(r).(status := GetStatus(r.status, req));
      if s.status.None? || r.flightControl.None? then Observation(Some(s), false) else
        var s := s.(seal := GetSealStatus(r.seal, r.flightControl.value, req));
        if s.seal.None? then Observation(Some(s), false) else
          var s := s.(health := GetHealth(r.health, r.flightControl.value, req));
          if s.health.None? then Observation(Some(s), false) else Details(s, r, req)
  }

  function Details(s: State, r: Replies, req: StateRequest): Observation {
    if s.IsInitialized().None? then Observation(Some(s), false)
    else if !s.IsInitialized().value then Observation(Some(s), true)
    else if s.IsSealed().None? then Observation(Some(s), false)
    else if s.IsSealed().value then Observation(Some(s), true)
    else
      var s := s.(replication := When(WantsReplication(s), r.replication));
      if WantsReplication(s) && s.replication.None? then Observation(Some(s), false)
      else if req.token == "" then Observation(Some(s), true)
      else Privileged(s, r, req)
  }

  function Privileged(s: State, r: Replies, req: StateRequest): Observation {
    if r.config.None? then Observation(Some(s), false)
    else
      var s := s.(config := r.config, hostInfo := r.hostInfo);
      if s.hostInfo.None? then Observation(Some(s), false) else
        var ha := s.HAEnabled() == Some(true);
        var s := s.(haStatus := When(ha, r.haStatus));
        if (ha && s.haStatus.None?) || s.StorageType().None? then Observation(Some(s), false)
        else if s.StorageType().value != "raft" then Observation(Some(s), true)
        else Raft(s, r)
  }

  function Raft(s: State, r: Replies): Observation {
    if r.raftConfig.None? then Observation(Some(s), false)
    else if r.autopilotConfig.None? then Observation(Some(s.(raftConfig := r.raftConfig)), false)
    else
      Observation(Some(s.(raftConfig := r.raftConfig, autopilotConfig := r.autopilotConfig,
                          autopilotState := r.autopilotState)), r.autopilotState.Some?)
  }

  /** GetState fills the state field by field. */
  method GetState(r: Replies, tr: Transport, req: StateRequest) returns (state: Option<State>, ok: bool)
    ensures Observation(state, ok) == Observed(r, tr, req)
  {
    hide GetStatus, GetSealStatus, GetHealth, Details;
    if !r.live { return None, false; }
    var s := NEW_STATE;
    if r.processManager.None? { return Some(s), false; }
    if r.processManager.value == "systemd" {
      s := s.(unitProperties := r.unitProperties);
      if s.unitProperties.None? { return Some(s), false; }
    } else if r.processManager.value == "kubernetes" {
      if !tr.Kubernetes? { return Some(s), false; }
      s := s.(pods := r.pods);
      if s.pods.None? { return Some(s), false; }
    }
    s := s.(status := GetStatus(r.status, req));
    if s.status.None? { return Some(s), false; }
    if r.flightControl.None? { return Some(s), false; }
    s := s.(seal := GetSealStatus(r.seal, r.flightControl.value, req));
    if s.seal.None? { return Some(s), false; }
    s := s.(health := GetHealth(r.health, r.flightControl.value, req));
    if s.health.None? { return Some(s), false; }
    s, ok := GetDetails(s, r, req);
    return Some(s), ok;
  }

  /** The rest of GetState, from the initialization check on. */
  method GetDetails(basic: State, r: Replies, req: StateRequest) returns (s: State, ok: bool)
    requires basic.replication.None? && basic.config.None? && basic.hostInfo.None? && basic.haStatus.None?
    requires basic.raftConfig.None? && basic.autopilotConfig.None? && basic.autopilotState.None?
    ensures Observation(Some(s), ok) == Details(basic, r, req)
  {
    hide StatusSealed, SealStatusSealed, HealthSealed, ModeEnabled;
    s := basic;
    var initialized := s.IsInitialized();
    if initialized.None? { return s, false; }
    if !initialized.value { return s, true; }
    var isSealed := s.IsSealed();
    if isSealed.None? { return s, false; }
    if isSealed.value { return s, true; }
    if s.ReplicationEnabled() == Some(true) && s.Active() {
      s := s.(replication := r.replication);
      if s.replication.None? { return s, false; }
    }
    if req.token == "" { return s, true; }
    s := s.(config := r.config);
    if s.config.None? { return s, false; }
    s := s.(hostInfo := r.hostInfo);
    if s.hostInfo.None? { return s, false; }
    if s.HAEnabled() == Some(true) {
      s := s.(haStatus := r.haStatus);
      if s.haStatus.None? { return s, false; }
    }
    var storageType := s.StorageType();
    if storageType.None? { return s, false; }
    if storageType.value == "raft" {
      s := s.(raftConfig := r.raftConfig);
      if s.raftConfig.None? { return s, false; }
      s := s.(autopilotConfig := r.autopilotConfig);
      if s.autopilotConfig.None? { return s, false; }
      s := s.(autopilotState := r.autopilotState);
      if s.autopilotState.None? { return s, false; }
    }
    return s, true;
  }

  /** When there is no error, and what the state then is. */
  lemma ObservedIff(r: Replies, tr: Transport, req: StateRequest)
    ensures Observed(r, tr, req).ok <==> Observable(r, tr, req)
    ensures Observed(r, tr, req).ok ==> Observed(r, tr, req).state == Some(Full(Basic(r, req), r, req))
    ensures Observed(r, tr, req).state.None? <==> !r.live
  {
    hide GetStatus, GetSealStatus, GetHealth, Details, StatusSealed, SealStatusSealed, HealthSealed, ModeEnabled, Full;
    if Reached(r, tr, req) { DetailsIff(Basic(r, req), r, req); }
  }

  lemma DetailsIff(s: State, r: Replies, req: StateRequest)
    requires s.status.Some? && s.seal.Some? && s.health.Some?
    requires s.replication.None? && s.config.None? && s.hostInfo.None? && s.haStatus.None?
    requires s.raftConfig.None? && s.autopilotConfig.None? && s.autopilotState.None?
    ensures Details(s, r, req).ok <==> Complete(s, r, req)
    ensures Details(s, r, req).ok ==> Details(s, r, req).state == Some(Full(s, r, req))
    ensures Details(s, r, req).state.Some?
  {
    hide StatusSealed, HealthSealed, ModeEnabled;
  }

  // ---------------------------------------------------------------------------------------------
  // What a state obtained without error says

  /** The three sources and their exit codes tell the same about the seal. */
  predicate SealAgrees(s: State)
    requires s.status.Some? && s.seal.Some? && s.seal.value.data.Some? && s.health.Some?
  {
    var isSealed := s.status.value.body.isSealed;
    && s.status.value.code == (if isSealed then STATUS_SEALED else STATUS_UNSEALED)
    && s.seal.value.data.value.isSealed == isSealed && s.health.value.body.isSealed == isSealed
    && (s.health.value.status == HEALTH_NOT_INITIALIZED || s.health.value.status == HEALTH_SEALED) == isSealed
  }

  /**
   Exactly which replies make GetState succeed: the process manager answers; "vault status" exits
   with 0 or 2 and health with one of its six codes; every body decodes; the sources agree; and
   whatever the state calls for is answered.
   */
  lemma SucceedsIff(r: Replies, tr: Transport, req: StateRequest)
    ensures Observed(r, tr, req).ok <==>
            && ProcessAnswers(r, tr) && StatusAnswers(r, req) && SealAnswers(r, req) && HealthAnswers(r, req)
            && var status, health := r.status.body.value, r.health.body.value;
               && status.initialized == health.initialized
               && (status.initialized ==> RepliesAgree(r))
               && (status.initialized && !status.isSealed ==> DetailsAnswer(r, req))
  {
    hide GetStatus, GetSealStatus, GetHealth, Complete, Basic, Observed, ProcessOk, SealAgrees;
    hide ProcessAnswers, StatusAnswers, SealAnswers, HealthAnswers, RepliesAgree, DetailsAnswer;
    ObservedIff(r, tr, req);
    ProcessAnswersIff(r, tr);
    StatusIs(r, req);
    if r.flightControl.Some? {
      SealIs(r, req);
      HealthIs(r, req);
    } else {
      NoFlightControl(r, req);
    }
    if Reached(r, tr, req) { CompleteIff(r, req); }
  }

  // The replies in terms of exit codes and bodies.

  ghost predicate ProcessAnswers(r: Replies, tr: Transport) {
    && r.live && r.processManager.Some?
    && (r.processManager == Some("systemd") ==> r.unitProperties.Some?)
    && (r.processManager == Some("kubernetes") ==> tr.Kubernetes? && r.pods.Some?)
  }

  ghost predicate StatusAnswers(r: Replies, req: StateRequest) {
    && req.binPath != "" && req.vaultAddr != ""
    && r.status.Ran? && r.status.body.Some? && r.status.stderrEmpty && !r.status.stdoutEmpty
    && (r.status.err == None || r.status.err == Some(Exited(0)) || r.status.err == Some(Exited(2)))
  }

  ghost predicate SealAnswers(r: Replies, req: StateRequest) {
    && r.flightControl.Some? && r.flightControl != Some("") && req.vaultAddr != ""
    && r.seal.Ran? && r.seal.err.None? && r.seal.stderrEmpty && !r.seal.stdoutEmpty
    && r.seal.body.Some? && r.seal.body.value.Some?
  }

  ghost predicate HealthAnswers(r: Replies, req: StateRequest) {
    && r.flightControl.Some? && r.flightControl != Some("") && req.vaultAddr != ""
    && r.health.Ran? && r.health.body.Some? && !r.health.stdoutEmpty
    && r.health.err.Some? && r.health.err.value.Exited? && 230 <= r.health.err.value.code <= 235
  }

  /** All bodies tell the same about the seal, and so do the two exit codes. */
  ghost predicate RepliesAgree(r: Replies)
    requires r.status.Ran? && r.status.body.Some? && r.seal.Ran? && r.seal.body.Some? && r.seal.body.value.Some?
    requires r.health.Ran? && r.health.body.Some? && r.health.err.Some? && r.health.err.value.Exited?
  {
    var isSealed := r.status.body.value.isSealed;
    && r.seal.body.value.value.isSealed == isSealed && r.health.body.value.isSealed == isSealed
    && (r.status.err == Some(Exited(2)) <==> isSealed)
    && (r.health.err.value.code == 234 || r.health.err.value.code == 235 <==> isSealed)
  }

  /** A primary or secondary of either kind of replication, on its active node. */
  ghost predicate Replicates(health: HealthBody, code: int) {
    && (health.drMode !in {"", "unknown", "disabled"} || health.performanceMode !in {"", "unknown", "disabled"})
    && (code == 230 || code == 232)
  }

  ghost predicate DetailsAnswer(r: Replies, req: StateRequest)
    requires r.status.Ran? && r.status.body.Some? && r.seal.Ran? && r.seal.body.Some? && r.seal.body.value.Some?
    requires r.health.Ran? && r.health.body.Some? && r.health.err.Some? && r.health.err.value.Exited?
  {
    && (Replicates(r.health.body.value, r.health.err.value.code) ==> r.replication.Some?)
    && (req.token != "" ==>
          && r.config.Some? && r.hostInfo.Some?
          && (r.status.body.value.haEnabled ==> r.haStatus.Some?)
          && (r.seal.body.value.value.storageType == "raft" ==>
                r.raftConfig.Some? && r.autopilotConfig.Some? && r.autopilotState.Some?))
  }

  lemma ProcessAnswersIff(r: Replies, tr: Transport)
    ensures ProcessOk(r, tr) <==> ProcessAnswers(r, tr)
  {
  }

  lemma StatusIs(r: Replies, req: StateRequest)
    ensures GetStatus(r.status, req) ==
            if StatusAnswers(r, req)
            then Some(Status(if r.status.err == Some(Exited(2)) then 2 else 0, r.status.body.value)) else None
  {
  }

  lemma SealIs(r: Replies, req: StateRequest)
    requires r.flightControl.Some?
    ensures GetSealStatus(r.seal, r.flightControl.value, req) ==
            if SealAnswers(r, req) then Some(SealStatus(r.seal.body.value)) else None
  {
  }

  lemma HealthIs(r: Replies, req: StateRequest)
    requires r.flightControl.Some?
    ensures GetHealth(r.health, r.flightControl.value, req) ==
            if HealthAnswers(r, req) then Some(Health(r.health.err.value.code, r.health.body.value)) else None
  {
  }

  lemma NoFlightControl(r: Replies, req: StateRequest)
    requires r.flightControl.None?
    ensures !SealAnswers(r, req) && !HealthAnswers(r, req)
  {
  }

  /** The basic state in terms of the replies. */
  lemma BasicIs(r: Replies, req: StateRequest)
    requires StatusAnswers(r, req) && SealAnswers(r, req) && HealthAnswers(r, req)
    ensures var s := Basic(r, req);
            && s.status == Some(Status(if r.status.err == Some(Exited(2)) then 2 else 0, r.status.body.value))
            && s.seal == Some(SealStatus(r.seal.body.value))
            && s.health == Some(Health(r.health.err.value.code, r.health.body.value))
            && s.unitProperties == (if r.processManager == Some("systemd") then r.unitProperties else None)
            && s.pods == (if r.processManager == Some("kubernetes") then r.pods else None)
  {
    hide GetStatus, GetSealStatus, GetHealth, StatusAnswers, SealAnswers, HealthAnswers;
    assert r.flightControl.Some? by { if r.flightControl.None? { NoFlightControl(r, req); } }
    StatusIs(r, req);
    SealIs(r, req);
    HealthIs(r, req);
  }

  /** What the basic state calls for. */
  lemma WantsIff(r: Replies, req: StateRequest)
    requires StatusAnswers(r, req) && SealAnswers(r, req) && HealthAnswers(r, req)
    ensures var s, status := Basic(r, req), r.status.body.value;
            && (s.IsInitialized() ==
                if status.initialized == r.health.body.value.initialized then Some(status.initialized) else None)
            && (s.IsSealed() == if RepliesAgree(r) then Some(status.isSealed) else None)
            && (s.ReplicationEnabled() == Some(true) && s.Active() <==>
                  Replicates(r.health.body.value, r.health.err.value.code))
            && s.HAEnabled() == Some(status.haEnabled)
            && s.StorageType() == Some(r.seal.body.value.value.storageType)
  {
    BasicIs(r, req);
    hide GetStatus, GetSealStatus, GetHealth, Basic;
  }

  lemma CompleteIff(r: Replies, req: StateRequest)
    requires StatusAnswers(r, req) && SealAnswers(r, req) && HealthAnswers(r, req)
    ensures var status := r.status.body.value;
            Complete(Basic(r, req), r, req) <==>
            && status.initialized == r.health.body.value.initialized
            && (status.initialized ==> RepliesAgree(r))
            && (status.initialized && !status.isSealed ==> DetailsAnswer(r, req))
  {
    WantsIff(r, req);
    hide Basic, State.IsInitialized, State.IsSealed, State.ReplicationEnabled, State.Active, State.HAEnabled,
      State.StorageType, RepliesAgree, Replicates;
  }

  /** A state obtained without error: every part of it is a reply, and each is there exactly if it applies. */
  lemma ObservedFacts(r: Replies, tr: Transport, req: StateRequest)
    requires Observed(r, tr, req).ok
    ensures StatusAnswers(r, req) && SealAnswers(r, req) && HealthAnswers(r, req)
    ensures Observed(r, tr, req).state.Some?
    ensures var s, status, code := Observed(r, tr, req).state.value, r.status.body.value, r.health.err.value.code;
            var open := status.initialized && !status.isSealed;
            var privileged := open && req.token != "";
            var raft := privileged && r.seal.body.value.value.storageType == "raft";
            var dr, performance := r.health.body.value.drMode, r.health.body.value.performanceMode;
            var replicates := (dr !in {"", "unknown", "disabled"} || performance !in {"", "unknown", "disabled"})
                              && (code == 230 || code == 232);
            && s.status == Some(Status(if r.status.err == Some(Exited(2)) then 2 else 0, status))
            && s.seal == Some(SealStatus(r.seal.body.value)) && s.health == Some(Health(code, r.health.body.value))
            && s.unitProperties == (if r.processManager == Some("systemd") then r.unitProperties else None)
            && s.pods == (if r.processManager == Some("kubernetes") then r.pods else None)
            && s.replication == (if open && replicates then r.replication else None)
            && s.config == (if privileged then r.config else None)
            && s.hostInfo == (if privileged then r.hostInfo else None)
            && s.haStatus == (if privileged && status.haEnabled then r.haStatus else None)
            && s.raftConfig == (if raft then r.raftConfig else None)
            && s.autopilotConfig == (if raft then r.autopilotConfig else None)
            && s.autopilotState == (if raft then r.autopilotState else None)
  {
    SucceedsIff(r, tr, req);
    ObservedIff(r, tr, req);
    assert Replicates(r.health.body.value, r.health.err.value.code) <==>
             (r.health.body.value.drMode !in {"", "unknown", "disabled"}
              || r.health.body.value.performanceMode !in {"", "unknown", "disabled"})
             && (r.health.err.value.code == 230 || r.health.err.value.code == 232);
    hide Observed, RepliesAgree, DetailsAnswer, Replicates, StatusAnswers, SealAnswers, HealthAnswers, ProcessAnswers;
    WantsIff(r, req);
    BasicIs(r, req);
    hide Basic, State.IsInitialized, State.IsSealed, State.ReplicationEnabled, State.Active, State.HAEnabled,
      State.StorageType;
  }

  /** After an error: which of the first three parts are there, and that every part is a reply. */
  lemma PartialFacts(r: Replies, tr: Transport, req: StateRequest)
    requires !Observed(r, tr, req).ok
    ensures Observed(r, tr, req).state.Some? <==> r.live
    ensures r.live ==>
              var s := Observed(r, tr, req).state.value;
              && (s.status.Some? <==> ProcessAnswers(r, tr) && StatusAnswers(r, req))
              && (s.seal.Some? <==> s.status.Some? && SealAnswers(r, req))
              && (s.health.Some? <==> s.seal.Some? && HealthAnswers(r, req))
              && (s.status.Some? ==> s.status.value.body == r.status.body.value)
              && (s.seal.Some? ==> s.seal.value.data == r.seal.body.value)
              && (s.health.Some? ==> s.health == Some(Health(r.health.err.value.code, r.health.body.value)))
              && (s.unitProperties == None || s.unitProperties == r.unitProperties)
              && (s.pods == None || s.pods == r.pods)
              && (s.replication == None || s.replication == r.replication)
              && (s.config == None || s.config == r.config) && (s.hostInfo == None || s.hostInfo == r.hostInfo)
              && (s.haStatus == None || s.haStatus == r.haStatus)
              && (s.raftConfig == None || s.raftConfig == r.raftConfig)
              && (s.autopilotConfig == None || s.autopilotConfig == r.autopilotConfig)
              && (s.autopilotState == None || s.autopilotState == r.autopilotState)
  {
    hide GetStatus, GetSealStatus, GetHealth, ProcessOk, StatusAnswers, SealAnswers, HealthAnswers, ProcessAnswers,
      State.IsInitialized, State.IsSealed, State.ReplicationEnabled, State.Active, State.HAEnabled, State.StorageType,
      Details;
    ProcessAnswersIff(r, tr);
    StatusIs(r, req);
    if r.flightControl.Some? {
      SealIs(r, req);
      HealthIs(r, req);
      PartialDetails(Basic(r, req), r, req);
    } else {
      NoFlightControl(r, req);
    }
  }

  /** s' is s with some of the further replies. */
  ghost predicate Adds(s: State, s': State, r: Replies) {
    && s'.status == s.status && s'.seal == s.seal && s'.health == s.health
    && s'.unitProperties == s.unitProperties && s'.pods == s.pods
    && (s'.replication == s.replication || s'.replication == r.replication)
    && (s'.config == s.config || s'.config == r.config) && (s'.hostInfo == s.hostInfo || s'.hostInfo == r.hostInfo)
    && (s'.haStatus == s.haStatus || s'.haStatus == r.haStatus)
    && (s'.raftConfig == s.raftConfig || s'.raftConfig == r.raftConfig)
    && (s'.autopilotConfig == s.autopilotConfig || s'.autopilotConfig == r.autopilotConfig)
    && (s'.autopilotState == s.autopilotState || s'.autopilotState == r.autopilotState)
  }

  lemma PrivilegedAdds(s: State, r: Replies, req: StateRequest)
    requires s.config.None? && s.hostInfo.None? && s.haStatus.None?
    ensures Privileged(s, r, req).state.Some? && Adds(s, Privileged(s, r, req).state.value, r)
  {
    hide State.HAEnabled, State.StorageType;
  }

  lemma PartialDetails(s: State, r: Replies, req: StateRequest)
    requires s.replication.None? && s.config.None? && s.hostInfo.None? && s.haStatus.None?
    requires s.raftConfig.None? && s.autopilotConfig.None? && s.autopilotState.None?
    ensures Details(s, r, req).state.Some? && Adds(s, Details(s, r, req).state.value, r)
  {
    hide State.IsInitialized, State.IsSealed, WantsReplication, Privileged;
    var s' := s.(replication := When(WantsReplication(s), r.replication));
    PrivilegedAdds(s', r, req);
  }

  /** The seal state is known exactly when all sources agree. */
  lemma SealedIff(s: State)
    ensures s.IsSealed().Some? <==>
            s.status.Some? && s.seal.Some? && s.seal.value.data.Some? && s.health.Some? && SealAgrees(s)
    ensures s.IsSealed().Some? ==> s.IsSealed().value == s.status.value.body.isSealed
  {
  }
}
