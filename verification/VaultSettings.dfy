/**
 The settings in what Render returns (vaultConfig.Render in
 internal/plugin/resource_vault_start.go): every entry of the document, every variable of the
 environment, and the two modes side by side.
 */
module VaultSettings {
  import opened Wrappers
  import opened TfValues
  import opened HclBuilder
  import opened HclDocument
  import opened SealEnv
  import opened VaultRender

  // ---------------------------------------------------------------------------------------------
  // What can be read back from the environment

  /** A seal type with the attributes that are translated. */
  datatype Moved = Moved(kind: string, attrs: Attrs)

  ghost function SingleSeal(c: Config): Option<Moved> {
    if SealSet(c.seal) then Some(Moved(c.seal.kind.value, c.seal.attrs.value)) else None
  }

  /** The HA seal that moves to the environment, because it is the only one. */
  ghost function LoneSeal(c: Config): Option<Moved> {
    if !NeedsMultiseal(c) && exists p :: p in c.seals && HASealSet(c.seals[p]) then
      var p :| p in c.seals && HASealSet(c.seals[p]);
      Some(Moved(c.seals[p].kind.value, WithDefaults(p, c.seals[p].attrs.value)))
    else None
  }

  /** An attribute of the seal has this variable. */
  ghost predicate Sets(m: Option<Moved>, n: string) {
    m.Some? && SealOf(m.value.kind).Some? &&
    exists k :: k in m.value.attrs && TargetOf(SealOf(m.value.kind).value, k) == Var(n)
  }

  /** All attributes that have this variable have this value. */
  ghost predicate Tells(m: Option<Moved>, n: string, v: string) {
    m.Some? && SealOf(m.value.kind).Some? &&
    forall k :: k in m.value.attrs && TargetOf(SealOf(m.value.kind).value, k) == Var(n) ==>
      AttrString(m.value.attrs[k]) == Some(v)
  }

  ghost predicate Unambiguous(m: Option<Moved>) {
    m.Some? && SealOf(m.value.kind).Some? ==> SharedAgree(SealOf(m.value.kind).value, m.value.attrs)
  }

  /** The variables of one moved seal. */
  ghost predicate Holding(m: Option<Moved>, vars: map<string, string>) {
    && (m.None? ==> vars == map[])
    && (m.Some? ==> SEAL_TYPE in vars && vars[SEAL_TYPE] == m.value.kind)
    && (forall n :: n in vars && n != SEAL_TYPE <==> Sets(m, n))
    && (forall n :: n in vars && n != SEAL_TYPE ==> Tells(m, n, vars[n]))
    && (forall n :: n in vars && n != SEAL_TYPE ==> !Reserved(n))
  }

  lemma VarsHold(kind: string, attrs: Attrs, vars: map<string, string>)
    requires VarsFor(kind, attrs, vars) && TranslatesOk(kind, attrs) && Unambiguous(Some(Moved(kind, attrs)))
    ensures Holding(Some(Moved(kind, attrs)), vars)
  {
    hide TargetOf, AttrString, SharedAgree, Translatable, SealOf, Reserved;
    var seal := SealOf(kind).value;
    ReadsBack(kind, seal, attrs, vars);
    forall k | k in attrs && TargetOf(seal, k).Var?
      ensures TargetOf(seal, k).name in vars && !Reserved(TargetOf(seal, k).name)
    {
      NeverReserved(seal, k);
    }
    assert Reserved(SEAL_TYPE) by { SealTypeReserved(); }
  }

  lemma SealTypeReserved()
    ensures Reserved(SEAL_TYPE)
  {
  }

  lemma NothingMoved()
    ensures Holding(None, map[])
  {
  }

  lemma SealVarsHold(c: Config, sealVars: map<string, string>)
    requires SealOk(c, EnvMode) && SealVars(c.seal, sealVars) && Unambiguous(SingleSeal(c))
    ensures Holding(SingleSeal(c), sealVars)
  {
    hide VarsFor, TranslatesOk, Unambiguous, Holding;
    NothingMoved();
    if SealSet(c.seal) { VarsHold(c.seal.kind.value, c.seal.attrs.value, sealVars); }
  }

  lemma HAVarsHold(c: Config, haVars: map<string, string>)
    requires SealsInEnv(c, EnvMode) ==> forall p :: p in c.seals ==> HASealOk(c, p)
    requires if NeedsMultiseal(c) then haVars == map[] else HASealVars(c, c.seals.Keys, haVars)
    requires Unambiguous(LoneSeal(c))
    ensures Holding(LoneSeal(c), haVars)
  {
    hide VarsFor, TranslatesOk, Unambiguous, Holding, WithDefaults;
    NothingMoved();
    if LoneSeal(c).Some? {
      var p :| p in c.seals && HASealSet(c.seals[p])
        && LoneSeal(c).value == Moved(c.seals[p].kind.value, WithDefaults(p, c.seals[p].attrs.value));
      assert HASealOk(c, p);
      VarsHold(LoneSeal(c).value.kind, LoneSeal(c).value.attrs, haVars);
    }
  }

  lemma ScalarsReserved(c: Config)
    ensures forall n :: n in ScalarVars(c) ==>
      n in {"VAULT_API_ADDR", "VAULT_CLUSTER_ADDR", "VAULT_UI", "VAULT_LOG_LEVEL"} && Reserved(n) && n != SEAL_TYPE
  {
    assert |SEAL_TYPE| == 15 && SEAL_TYPE[6] == 'S';
    assert "VAULT_LOG_LEVEL"[6] == 'L';
  }

  /** Whatever the attributes of the seals, they set none of the four scalar variables. */
  lemma VarsAreFree(kind: string, attrs: Attrs, vars: map<string, string>)
    requires VarsFor(kind, attrs, vars)
    ensures forall n :: n in vars ==> n == SEAL_TYPE || !Reserved(n)
  {
    hide TargetOf, AttrString, SealOf, Reserved;
    var seal := SealOf(kind).value;
    forall n | n in vars && n != SEAL_TYPE ensures !Reserved(n) {
      var k :| k in attrs && TargetOf(seal, k) == Var(n);
      NeverReserved(seal, k);
    }
  }

  lemma SealsAreFree(c: Config, sealVars: map<string, string>, haVars: map<string, string>)
    requires SealVars(c.seal, sealVars)
    requires if NeedsMultiseal(c) then haVars == map[] else HASealVars(c, c.seals.Keys, haVars)
    ensures forall n :: n in sealVars || n in haVars ==> n == SEAL_TYPE || !Reserved(n)
  {
    hide VarsFor, WithDefaults, Reserved, NeedsMultiseal;
    if SealSet(c.seal) { VarsAreFree(c.seal.kind.value, c.seal.attrs.value, sealVars); }
    if !NeedsMultiseal(c) && haVars != map[] {
      var p :| p in c.seals && HASealSet(c.seals[p]);
      VarsAreFree(c.seals[p].kind.value, WithDefaults(p, c.seals[p].attrs.value), haVars);
    }
  }

  ghost predicate ScalarsInEnv(c: Config, env: map<string, string>) {
    && ("VAULT_API_ADDR" in env <==> c.apiAddr.Some?)
    && (c.apiAddr.Some? ==> env["VAULT_API_ADDR"] == c.apiAddr.value)
    && ("VAULT_CLUSTER_ADDR" in env <==> c.clusterAddr.Some?)
    && (c.clusterAddr.Some? ==> env["VAULT_CLUSTER_ADDR"] == c.clusterAddr.value)
    && ("VAULT_UI" in env <==> c.ui.Some?)
    && (c.ui.Some? ==> env["VAULT_UI"] == if c.ui.value then "true" else "false")
    && ("VAULT_LOG_LEVEL" in env <==> c.logLevel.Some?)
    && (c.logLevel.Some? ==> env["VAULT_LOG_LEVEL"] == c.logLevel.value)
  }

  lemma ScalarVarsAre(c: Config)
    ensures ScalarsInEnv(c, ScalarVars(c))
  {
  }

  lemma ScalarNames()
    ensures Reserved("VAULT_API_ADDR") && Reserved("VAULT_CLUSTER_ADDR") && Reserved("VAULT_UI")
    ensures Reserved("VAULT_LOG_LEVEL")
    ensures SEAL_TYPE != "VAULT_API_ADDR" && SEAL_TYPE != "VAULT_CLUSTER_ADDR"
    ensures SEAL_TYPE != "VAULT_UI" && SEAL_TYPE != "VAULT_LOG_LEVEL"
  {
    assert SEAL_TYPE[6] == 'S';
    assert "VAULT_LOG_LEVEL"[6] == 'L';
  }

  /** In env mode each scalar has its own variable, whatever the seals set. */
  lemma ScalarsCarried(c: Config, env: map<string, string>, sealVars: map<string, string>, haVars: map<string, string>)
    requires EnvIs(c, EnvMode, env, sealVars, haVars)
    ensures ScalarsInEnv(c, env)
  {
    hide ScalarVars, SealVars, HASealVars, NeedsMultiseal, Reserved;
    SealsAreFree(c, sealVars, haVars);
    ScalarVarsAre(c);
    ScalarNames();
  }

  /**
   Every scalar is in the environment; every attribute of a moved seal that has a variable can be read
   back from it, where the HA seal takes precedence on a variable that both seals set, the seal type
   among them; and nothing else is set.
   */
  ghost predicate Carried(c: Config, env: map<string, string>) {
    && ScalarsInEnv(c, env)
    && (SEAL_TYPE in env <==> SingleSeal(c).Some? || LoneSeal(c).Some?)
    && (SEAL_TYPE in env ==>
          env[SEAL_TYPE] == (if LoneSeal(c).Some? then LoneSeal(c) else SingleSeal(c)).value.kind)
    && (forall n :: n !in {SEAL_TYPE, "VAULT_API_ADDR", "VAULT_CLUSTER_ADDR", "VAULT_UI", "VAULT_LOG_LEVEL"} ==>
          (n in env <==> Sets(SingleSeal(c), n) || Sets(LoneSeal(c), n)))
    && (forall n :: n != SEAL_TYPE && Sets(LoneSeal(c), n) ==> n in env && Tells(LoneSeal(c), n, env[n]))
    && (forall n :: n != SEAL_TYPE && Sets(SingleSeal(c), n) && !Sets(LoneSeal(c), n) ==>
          n in env && Tells(SingleSeal(c), n, env[n]))
  }

  /** The environment of the env mode, whichever of the single seal and a lone HA seal there are. */
  lemma {:induction false} EnvCarriesSettings(c: Config, env: map<string, string>,
                                              sealVars: map<string, string>, haVars: map<string, string>)
    requires CanRender(c, EnvMode) && EnvIs(c, EnvMode, env, sealVars, haVars)
    requires Unambiguous(SingleSeal(c)) && Unambiguous(LoneSeal(c))
    ensures Carried(c, env)
  {
    hide ScalarVars, NeedsMultiseal, SealVars, HASealVars, SealOk, HASealOk, Unambiguous, SingleSeal, LoneSeal, Sets,
      Tells, Reserved, SealsInEnv, NeedsClusterName, ScalarsInEnv;
    SealVarsHold(c, sealVars);
    HAVarsHold(c, haVars);
    ScalarsReserved(c);
    ScalarsCarried(c, env, sealVars, haVars);
  }

  // ---------------------------------------------------------------------------------------------
  // What stands in the document

  lemma AttrIn(m: Attrs, x: Canon)
    ensures x in AttrSet(m) <==> x.CAttr? && x.key in m && m[x.key] == x.value
  {
  }

  /** Which attributes a body has. */
  ghost predicate HasAttrs(body: multiset<Canon>, attrs: Attrs) {
    forall k, v :: CAttr(k, v) in body <==> k in attrs && attrs[k] == v
  }

  ghost predicate HasNoBlocks(body: multiset<Canon>) {
    forall name, labels, inner :: CBlock(name, labels, inner) !in body
  }

  /** A block without labels is there exactly if its attributes are. */
  ghost predicate HasSection(body: multiset<Canon>, name: string, attrs: Option<Attrs>) {
    forall labels, inner :: CBlock(name, labels, inner) in body <==>
      labels == [] && attrs.Some? && inner == AttrSet(attrs.value)
  }

  lemma AttrSetHas(attrs: Attrs)
    ensures HasAttrs(AttrSet(attrs), attrs) && HasNoBlocks(AttrSet(attrs))
  {
    hide AttrSet;
    forall k, v ensures CAttr(k, v) in AttrSet(attrs) <==> k in attrs && attrs[k] == v { AttrIn(attrs, CAttr(k, v)); }
    forall name, labels, inner ensures CBlock(name, labels, inner) !in AttrSet(attrs) {
      AttrIn(attrs, CBlock(name, labels, inner));
    }
  }

  ghost predicate ScalarsInDoc(c: Config, doc: multiset<Canon>) {
    && (forall v :: CAttr("api_addr", v) in doc <==> c.apiAddr.Some? && v == GoString(c.apiAddr.value))
    && (forall v :: CAttr("cluster_addr", v) in doc <==> c.clusterAddr.Some? && v == GoString(c.clusterAddr.value))
    && (forall v :: CAttr("ui", v) in doc <==> c.ui.Some? && v == GoBool(c.ui.value))
    && (forall v :: CAttr("log_level", v) in doc <==> c.logLevel.Some? && v == GoString(c.logLevel.value))
  }

  ghost predicate NoScalars(doc: multiset<Canon>) {
    forall k, v :: CAttr(k, v) in doc ==> k !in {"api_addr", "cluster_addr", "ui", "log_level"}
  }

  /** The listener with its attributes and the four sections it may have. */
  ghost predicate ListenerBody(l: Listener, body: multiset<Canon>) {
    && HasAttrs(body, l.attrs.GetOr(map[]))
    && HasSection(body, "telemetry", l.telemetry) && HasSection(body, "profiling", l.profiling)
    && HasSection(body, "inflight_requests_logging", l.inflightRequestsLogging)
    && HasSection(body, "custom_response_headers", l.customResponseHeaders)
    && (forall name, labels, inner :: CBlock(name, labels, inner) in body ==>
          name in {"telemetry", "profiling", "inflight_requests_logging", "custom_response_headers"})
  }

  /** Integrated storage has a path and joins by itself unless it is told how. */
  ghost predicate StorageBody(c: Config, body: multiset<Canon>) {
    var attrs := c.storage.attrs.GetOr(map[]);
    if c.storage.kind != Some("raft") || c.storage.attrs.None? then body == AttrSet(attrs)
    else
      && HasAttrs(body, if "path" in attrs then attrs else attrs["path" := GoString("/opt/raft/data")])
      && forall name, labels, inner :: CBlock(name, labels, inner) in body <==>
           && name == "retry_join" && labels == []
           && inner ==
                AttrSet(
                  if c.storage.retryJoin.Some? then c.storage.retryJoin.value
                  else map["auto_join" := GoString("provider=aws tag_key=Type tag_value=" + c.clusterName.GetOr("")),
                           "auto_join_scheme" := GoString("http")])
  }

  /** The stanza of an HA seal: what is given, and priority and name by position where they are not. */
  ghost predicate HAStanza(p: string, given: Attrs, attrs: Attrs) {
    && attrs.Keys == given.Keys + {"priority", "name"} && (forall k :: k in given ==> attrs[k] == given[k])
    && ("name" !in given ==> attrs["name"] == GoString(p))
    && ("priority" !in given ==>
          attrs["priority"] == GoString(if p == "primary" then "1" else if p == "secondary" then "2" else "3"))
  }

  /** The block of one HA seal. */
  ghost predicate HASealBlock(c: Config, p: string, x: Canon) {
    && p in c.seals && c.seals[p].kind.Some? && c.seals[p].kind.value !in {"shamir", "none"} && c.seals[p].attrs.Some?
    && x.CBlock? && x.name == "seal" && x.labels == [c.seals[p].kind.value]
    && exists attrs :: HAStanza(p, c.seals[p].attrs.value, attrs) && x.body == AttrSet(attrs)
  }

  ghost predicate SingleSealBlock(c: Config, x: Canon) {
    && c.seal.kind.Some? && c.seal.kind != Some("shamir") && c.seal.attrs.Some?
    && x == CBlock("seal", [c.seal.kind.value], AttrSet(c.seal.attrs.value))
  }

  /** The seals stand in the file, but for those that the env mode moves to the environment. */
  ghost predicate SealBlock(c: Config, mode: Mode, x: Canon) {
    || (mode.FileMode? && SingleSealBlock(c, x))
    || ((mode.FileMode? || |c.seals| >= 2) && exists p :: HASealBlock(c, p, x))
  }

  ghost predicate AttrsStand(c: Config, mode: Mode, doc: multiset<Canon>) {
    && (if mode.FileMode? then ScalarsInDoc(c, doc) else NoScalars(doc))
    && (forall v :: CAttr("enable_multiseal", v) in doc <==> |c.seals| >= 2 && v == GoBool(true))
    && (forall k, v :: CAttr(k, v) in doc ==>
          k in {"api_addr", "cluster_addr", "ui", "log_level", "enable_multiseal"})
  }

  ghost predicate BlocksStand(c: Config, mode: Mode, doc: multiset<Canon>) {
    && (forall x :: x in doc && x.CBlock? ==> x.name in {"listener", "storage", "seal", "telemetry"})
    && (forall x :: x in doc && x.CBlock? && x.name == "listener" ==>
          c.listener.kind.Some? && x.labels == [c.listener.kind.value] && ListenerBody(c.listener, x.body))
    && (c.listener.kind.Some? ==> exists body :: CBlock("listener", [c.listener.kind.value], body) in doc)
    && (forall x :: x in doc && x.CBlock? && x.name == "storage" ==>
          c.storage.kind.Some? && x.labels == [c.storage.kind.value] && StorageBody(c, x.body))
    && (c.storage.kind.Some? ==> exists body :: CBlock("storage", [c.storage.kind.value], body) in doc)
    && (forall x :: x in doc && x.CBlock? && x.name == "seal" <==> SealBlock(c, mode, x))
    && HasSection(doc, "telemetry", c.telemetry)
  }

  /** Everything that a document has, entry by entry. */
  ghost predicate Stands(c: Config, mode: Mode, doc: multiset<Canon>) {
    AttrsStand(c, mode, doc) && BlocksStand(c, mode, doc)
  }

  lemma ScalarsStand(c: Config)
    ensures ScalarsInDoc(c, AttrSet(ScalarAttrs(c))) && HasNoBlocks(AttrSet(ScalarAttrs(c)))
    ensures forall k, v :: CAttr(k, v) in AttrSet(ScalarAttrs(c)) ==>
              k in {"api_addr", "cluster_addr", "ui", "log_level"}
  {
    AttrSetHas(ScalarAttrs(c));
    ScalarAttrsAre(c);
    hide AttrSet, ScalarAttrs;
  }

  lemma ScalarAttrsAre(c: Config)
    ensures var m := ScalarAttrs(c);
            && m.Keys <= {"api_addr", "cluster_addr", "ui", "log_level"}
            && ("api_addr" in m <==> c.apiAddr.Some?) && ("cluster_addr" in m <==> c.clusterAddr.Some?)
            && ("ui" in m <==> c.ui.Some?) && ("log_level" in m <==> c.logLevel.Some?)
            && (c.apiAddr.Some? ==> m["api_addr"] == GoString(c.apiAddr.value))
            && (c.clusterAddr.Some? ==> m["cluster_addr"] == GoString(c.clusterAddr.value))
            && (c.ui.Some? ==> m["ui"] == GoBool(c.ui.value))
            && (c.logLevel.Some? ==> m["log_level"] == GoString(c.logLevel.value))
  {
  }

  lemma SectionStands(name: string, attrs: Option<Attrs>)
    ensures var d := OptionalBlock(name, attrs);
            && HasSection(d, name, attrs)
            && forall x :: x in d ==> x.CBlock? && x.name == name
  {
    hide AttrSet;
  }

  lemma ListenerBodyStands(l: Listener)
    ensures ListenerBody(l,
              AttrSet(l.attrs.GetOr(map[]))
              + OptionalBlock("telemetry", l.telemetry) + OptionalBlock("profiling", l.profiling)
              + OptionalBlock("inflight_requests_logging", l.inflightRequestsLogging)
              + OptionalBlock("custom_response_headers", l.customResponseHeaders))
  {
    AttrSetHas(l.attrs.GetOr(map[]));
    SectionStands("telemetry", l.telemetry);
    SectionStands("profiling", l.profiling);
    SectionStands("inflight_requests_logging", l.inflightRequestsLogging);
    SectionStands("custom_response_headers", l.customResponseHeaders);
    hide AttrSet, OptionalBlock;
    var a, t := AttrSet(l.attrs.GetOr(map[])), OptionalBlock("telemetry", l.telemetry);
    var p, r := OptionalBlock("profiling", l.profiling),
                OptionalBlock("inflight_requests_logging", l.inflightRequestsLogging);
    var h := OptionalBlock("custom_response_headers", l.customResponseHeaders);
    assert forall x :: x in a + t + p + r + h <==> x in a || x in t || x in p || x in r || x in h;
  }

  lemma ListenerStands(l: Listener)
    ensures forall x :: x in ListenerDoc(l) ==>
              x.CBlock? && x.name == "listener" && l.kind.Some? && x.labels == [l.kind.value] && ListenerBody(l, x.body)
    ensures l.kind.Some? ==> exists body :: CBlock("listener", [l.kind.value], body) in ListenerDoc(l)
  {
    ListenerBodyStands(l);
    hide ListenerBody, AttrSet, OptionalBlock;
  }

  lemma StorageBodyStands(c: Config)
    requires c.storage.kind == Some("raft") && c.storage.attrs.Some?
    ensures StorageBody(c,
              AttrSet((map["path" := GoString(DEFAULT_RAFT_DATA_DIR)]) + c.storage.attrs.value)
              + BlockOf("retry_join", [], RetryJoin(c)))
  {
    var attrs := c.storage.attrs.value;
    var all := (map["path" := GoString(DEFAULT_RAFT_DATA_DIR)]) + attrs;
    assert all == if "path" in attrs then attrs else attrs["path" := GoString("/opt/raft/data")];
    AttrSetHas(all);
    hide AttrSet;
  }

  lemma StorageStands(c: Config)
    ensures forall x :: x in StorageDoc(c) ==>
              && x.CBlock? && x.name == "storage" && c.storage.kind.Some? && x.labels == [c.storage.kind.value]
              && StorageBody(c, x.body)
    ensures c.storage.kind.Some? ==> exists body :: CBlock("storage", [c.storage.kind.value], body) in StorageDoc(c)
  {
    if c.storage.kind == Some("raft") && c.storage.attrs.Some? {
      StorageBodyStands(c);
      hide StorageBody, AttrSet, RetryJoin;
    } else {
      hide AttrSet;
    }
  }

  lemma StanzaStands(p: string, given: Attrs)
    requires IsPriority(p)
    ensures HAStanza(p, given, WithDefaults(p, given))
    ensures forall attrs :: HAStanza(p, given, attrs) ==> attrs == WithDefaults(p, given)
  {
    forall attrs | HAStanza(p, given, attrs) ensures attrs == WithDefaults(p, given) {
      forall k | k in attrs ensures k in WithDefaults(p, given) && attrs[k] == WithDefaults(p, given)[k] {}
    }
  }

  lemma HASealStands(c: Config, p: string)
    requires IsPriority(p)
    ensures forall x :: x in HASealDoc(c, p) <==> HASealBlock(c, p, x)
  {
    hide HAStanza, WithDefaults, AttrSet;
    if p in c.seals && HASealSet(c.seals[p]) { StanzaStands(p, c.seals[p].attrs.value); }
  }

  lemma HASealsStand(c: Config)
    requires forall p :: p in c.seals ==> IsPriority(p)
    ensures forall x :: x in HASealDocs(c, c.seals.Keys) <==> exists p :: HASealBlock(c, p, x)
  {
    hide HASealDoc, HASealBlock;
    forall p | IsPriority(p) ensures forall x :: x in HASealDoc(c, p) <==> HASealBlock(c, p, x) { HASealStands(c, p); }
    forall p, x | HASealBlock(c, p, x) ensures p in c.seals { NotASeal(c, p, x); }
  }

  lemma NotASeal(c: Config, p: string, x: Canon)
    requires HASealBlock(c, p, x)
    ensures p in c.seals && x.CBlock? && x.name == "seal"
  {
  }

  /** The blocks that are not seals. */
  ghost function Others(c: Config): multiset<Canon> {
    ListenerDoc(c.listener) + StorageDoc(c) + OptionalBlock("telemetry", c.telemetry)
  }

  ghost function Seals(c: Config, mode: Mode): multiset<Canon> {
    (if mode.FileMode? then SealDoc(c.seal) else multiset{})
    + (if mode.FileMode? then HASealDocs(c, c.seals.Keys) else StayingSeals(c))
  }

  ghost function Attributes(c: Config, mode: Mode): multiset<Canon> {
    (if mode.FileMode? then AttrSet(ScalarAttrs(c)) else multiset{}) + MultisealDoc(c)
  }

  lemma Parts(c: Config, mode: Mode)
    ensures ExpectedDoc(c, mode) == Attributes(c, mode) + Seals(c, mode) + Others(c)
  {
    hide AttrSet, ScalarAttrs, MultisealDoc, SealDoc, HASealDocs, StayingSeals, ListenerDoc, StorageDoc, OptionalBlock;
  }

  lemma AttributesStand(c: Config, mode: Mode)
    ensures AttrsStand(c, mode, Attributes(c, mode)) && forall x :: x in Attributes(c, mode) ==> x.CAttr?
  {
    ScalarsStand(c);
    hide AttrSet, ScalarAttrs;
  }

  lemma SealDocStands(c: Config)
    ensures forall x :: x in SealDoc(c.seal) <==> SingleSealBlock(c, x)
  {
    hide AttrSet;
  }

  lemma SealsStand(c: Config, mode: Mode)
    requires forall p :: p in c.seals ==> IsPriority(p)
    ensures forall x :: x in Seals(c, mode) <==> SealBlock(c, mode, x)
    ensures forall x :: x in Seals(c, mode) ==> x.CBlock? && x.name == "seal"
  {
    SealDocStands(c);
    HASealsStand(c);
    forall p, x | HASealBlock(c, p, x) ensures x.CBlock? && x.name == "seal" { NotASeal(c, p, x); }
    hide HASealDocs, HASealBlock, SealDoc;
  }

  lemma OthersStand(c: Config)
    ensures var o := Others(c);
            && (forall x :: x in o ==> x.CBlock? && x.name in {"listener", "storage", "telemetry"})
            && (forall x :: x in o && x.name == "listener" ==>
                  c.listener.kind.Some? && x.labels == [c.listener.kind.value] && ListenerBody(c.listener, x.body))
            && (c.listener.kind.Some? ==> exists body :: CBlock("listener", [c.listener.kind.value], body) in o)
            && (forall x :: x in o && x.name == "storage" ==>
                  c.storage.kind.Some? && x.labels == [c.storage.kind.value] && StorageBody(c, x.body))
            && (c.storage.kind.Some? ==> exists body :: CBlock("storage", [c.storage.kind.value], body) in o)
            && HasSection(o, "telemetry", c.telemetry)
  {
    ListenerStands(c.listener);
    StorageStands(c);
    SectionStands("telemetry", c.telemetry);
    hide ListenerDoc, StorageDoc, OptionalBlock, ListenerBody, StorageBody;
  }

  lemma MoreBlocks(c: Config, mode: Mode, a: multiset<Canon>, b: multiset<Canon>)
    requires AttrsStand(c, mode, a) && forall x :: x in b ==> x.CBlock?
    ensures AttrsStand(c, mode, a + b)
  {
    assert forall k, v :: CAttr(k, v) in a + b <==> CAttr(k, v) in a;
  }

  /** Where a document agrees with its other blocks, and the rest of its blocks are the seals. */
  lemma BlocksOf(c: Config, mode: Mode, doc: multiset<Canon>)
    requires forall x: Canon :: x.CBlock? && x.name != "seal" ==> (x in doc <==> x in Others(c))
    requires forall x :: x in doc && x.CBlock? && x.name == "seal" <==> SealBlock(c, mode, x)
    ensures BlocksStand(c, mode, doc)
  {
    OthersStand(c);
    var o := Others(c);
    hide Others, ListenerBody, StorageBody, SealBlock;
    assert HasSection(doc, "telemetry", c.telemetry) by {
      assert forall labels, inner :: CBlock("telemetry", labels, inner) in doc <==>
        CBlock("telemetry", labels, inner) in o;
    }
    hide HasSection;
  }

  lemma OthersNames(c: Config)
    ensures forall x :: x in Others(c) ==> x.CBlock? && x.name != "seal"
  {
    OthersStand(c);
    hide Others, ListenerBody, StorageBody, HasSection;
  }

  lemma SealsAndOthers(doc: multiset<Canon>, a: multiset<Canon>, s: multiset<Canon>, o: multiset<Canon>)
    requires doc == a + s + o && forall x :: x in a ==> x.CAttr?
    requires forall x :: x in s ==> x.CBlock? && x.name == "seal"
    requires forall x :: x in o ==> x.CBlock? && x.name != "seal"
    ensures forall x: Canon :: x.CBlock? && x.name != "seal" ==> (x in doc <==> x in o)
    ensures forall x :: x in doc && x.CBlock? && x.name == "seal" <==> x in s
  {
    forall x: Canon | x.CBlock? && x.name != "seal" ensures x in doc <==> x in o {
      assert x !in a && x !in s;
    }
    forall x ensures x in doc && x.CBlock? && x.name == "seal" <==> x in s {
      if x in s { assert x in doc; }
    }
  }

  /** All entries of the expected document, one by one, for every configuration and mode. */
  lemma DocumentStands(c: Config, mode: Mode)
    requires forall p :: p in c.seals ==> IsPriority(p)
    ensures Stands(c, mode, ExpectedDoc(c, mode))
  {
    Parts(c, mode);
    hide ExpectedDoc, Attributes, Seals, Others, SealBlock, AttrsStand, BlocksStand;
    var a, s, o := Attributes(c, mode), Seals(c, mode), Others(c);
    AttributesStand(c, mode);
    SealsStand(c, mode);
    OthersNames(c);
    MoreBlocks(c, mode, a, s);
    MoreBlocks(c, mode, a + s, o);
    SealsAndOthers(a + s + o, a, s, o);
    BlocksOf(c, mode, a + s + o);
  }

  ghost predicate Translates(kind: string, attrs: Attrs) {
    && kind in {"alicloudkms", "awskms", "azurekeyvault", "gcpckms", "ocikms", "pkcs11", "transit"} && attrs != map[]
    && forall k :: k in attrs ==>
         && (attrs[k].GoString? || attrs[k].GoInt?)
         && (kind == "transit" ==>
               k in {"address", "token", "namespace", "key_name", "mount_path", "disable_renewal", "tls_ca_cert",
                     "tls_client_cert", "tls_client_key", "tls_skip_verify", "tls_server_name", "key_id_prefix",
                     "name", "priority"})
  }

  lemma TranslatesIff(kind: string, attrs: Attrs)
    ensures TranslatesOk(kind, attrs) <==> Translates(kind, attrs)
  {
    SealTypes(kind);
    hide TargetOf, SealOf, AttrString;
    assert |attrs| > 0 <==> attrs != map[];
    if SealOf(kind).Some? {
      var seal := SealOf(kind).value;
      forall k | k in attrs
        ensures Translatable(seal, k, attrs[k]) <==>
                  (attrs[k].GoString? || attrs[k].GoInt?)
                  && (seal.TransitSeal? ==> !TargetOf(TransitSeal, k).Unsupported?)
      {
        AttrStringIs(attrs[k]);
        if !seal.TransitSeal? { OnlyTransitRefuses(seal, k); }
      }
      forall k | k in attrs { TransitRefuses(k); }
    }
  }

  lemma OnlyTransitRefuses(seal: Seal, key: string)
    requires !seal.TransitSeal?
    ensures !TargetOf(seal, key).Unsupported?
  {
    hide Upper;
  }

  /**
   When Render succeeds in a mode it knows: integrated storage can join, and in env mode every seal
   that moves to the environment can be translated.
   */
  lemma CanRenderIff(c: Config, mode: Mode)
    ensures CanRender(c, mode) <==>
            && (c.storage.kind == Some("raft") && c.storage.attrs.Some? && c.storage.retryJoin.None? ==>
                  c.clusterName.Some?)
            && (mode.EnvMode? && c.seal.kind.Some? && c.seal.kind != Some("shamir") && c.seal.attrs.Some? ==>
                  Translates(c.seal.kind.value, c.seal.attrs.value))
            && (mode.EnvMode? && |c.seals| < 2 ==>
                  forall p :: p in c.seals && c.seals[p].kind.Some? && c.seals[p].attrs.Some?
                              && c.seals[p].kind.value !in {"shamir", "none"} ==>
                    Translates(c.seals[p].kind.value, WithDefaults(p, c.seals[p].attrs.value)))
  {
    hide Translates, TranslatesOk, WithDefaults;
    if c.seal.kind.Some? && c.seal.attrs.Some? { TranslatesIff(c.seal.kind.value, c.seal.attrs.value); }
    forall p | p in c.seals && c.seals[p].kind.Some? && c.seals[p].attrs.Some?
      ensures TranslatesOk(c.seals[p].kind.value, WithDefaults(p, c.seals[p].attrs.value)) <==>
              Translates(c.seals[p].kind.value, WithDefaults(p, c.seals[p].attrs.value))
    {
      TranslatesIff(c.seals[p].kind.value, WithDefaults(p, c.seals[p].attrs.value));
    }
  }

  /**
   Whatever Render has returned for the two modes, the file mode writes what the env mode writes and
   exactly what moves to the environment, for every order of map iteration in either call. The file
   mode sets no variable, and the env mode carries what has moved: each scalar is an attribute of the
   one document and a variable of the other's environment.
   */
  lemma {:induction false} ModesAgree(c: Config, f: Builder, e: Builder,
                                      fEnv: map<string, string>, fSeal: map<string, string>, fHA: map<string, string>,
                                      eEnv: map<string, string>, eSeal: map<string, string>, eHA: map<string, string>)
    requires Rendered(c, FileMode, f, fEnv, fSeal, fHA) && Rendered(c, EnvMode, e, eEnv, eSeal, eHA)
    requires forall p :: p in c.seals ==> IsPriority(p)
    ensures ScalarsInDoc(c, CanonOf(Doc(f))) && NoScalars(CanonOf(Doc(e))) && ScalarsInEnv(c, eEnv)
    ensures Stands(c, FileMode, CanonOf(Doc(f))) && Stands(c, EnvMode, CanonOf(Doc(e)))
    ensures CanonOf(Doc(f)) == CanonOf(Doc(e)) + MovedDoc(c)
    ensures CanonOf(Written(f)) == CanonOf(Written(e)) + MovedDoc(c)
    ensures fEnv == map[]
    ensures Unambiguous(SingleSeal(c)) && Unambiguous(LoneSeal(c)) ==> Carried(c, eEnv)
  {
    hide Builder.Valid, Doc, CanonOf, Clean, AttrSet, ScalarAttrs, ListenerDoc, SealDoc, HASealDocs, StorageDoc,
      OptionalBlock, CanRender, MultisealDoc, Emitted, Carried, Unambiguous, SingleSeal, LoneSeal, BlocksStand,
      ScalarsInDoc, NoScalars, ScalarsInEnv, SealVars, HASealVars, ScalarVars, HasSection, SealBlock;
    DocumentStands(c, FileMode);
    DocumentStands(c, EnvMode);
    ScalarsCarried(c, eEnv, eSeal, eHA);
    RenderedIsWritten(c, FileMode, f, fEnv, fSeal, fHA);
    RenderedIsWritten(c, EnvMode, e, eEnv, eSeal, eHA);
    if Unambiguous(SingleSeal(c)) && Unambiguous(LoneSeal(c)) { EnvCarriesSettings(c, eEnv, eSeal, eHA); }
  }
}
