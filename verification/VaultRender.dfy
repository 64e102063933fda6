/**
 Rendering a Vault configuration as HCL and environment variables (vaultConfig.Render in
 internal/plugin/resource_vault_start.go).
 */
module VaultRender {
  import opened Wrappers
  import opened TfValues
  import opened Orders
  import opened HclBuilder
  import opened HclDocument
  import opened SealEnv

  type Attrs = map<string, Native>

  datatype Listener = Listener(
    kind: Option<string>, attrs: Option<Attrs>, telemetry: Option<Attrs>, profiling: Option<Attrs>,
    inflightRequestsLogging: Option<Attrs>, customResponseHeaders: Option<Attrs>)

  /** A seal block that is not null. */
  datatype Stanza = Stanza(kind: Option<string>, attrs: Option<Attrs>)

  datatype Storage = Storage(kind: Option<string>, attrs: Option<Attrs>, retryJoin: Option<Attrs>)

  /** The known values of a configuration; `seals` holds the seals that are not null by priority. */
  datatype Config = Config(
    clusterName: Option<string>, apiAddr: Option<string>, clusterAddr: Option<string>, ui: Option<bool>,
    logLevel: Option<string>, listener: Listener, seal: Stanza, seals: map<string, Stanza>,
    storage: Storage, telemetry: Option<Attrs>)

  datatype Mode = FileMode | EnvMode

  const RAFT := "raft"
  const DEFAULT_RAFT_DATA_DIR := "/opt/raft/data"
  const AUTO_JOIN := "provider=aws tag_key=Type tag_value="

  predicate IsPriority(p: string) {
    p == "primary" || p == "secondary" || p == "tertiary"
  }

  function PriorityNumber(p: string): string {
    if p == "primary" then "1" else if p == "secondary" then "2" else "3"
  }

  function NeedsMultiseal(c: Config): bool {
    |c.seals| >= 2
  }

  /** The configured stanza of the single seal; shamir has none. */
  predicate SealSet(s: Stanza) {
    s.kind.Some? && s.kind.value != "shamir" && s.attrs.Some?
  }

  predicate HASealSet(s: Stanza) {
    SealSet(s) && s.kind.value != "none"
  }

  function WithDefaults(p: string, attrs: Attrs): Attrs {
    (map["priority" := GoString(PriorityNumber(p)), "name" := GoString(p)]) + attrs
  }

  // ---------------------------------------------------------------------------------------------
  // What is to be rendered

  function FormatBool(b: bool): string {
    if b then "true" else "false"
  }

  /** The scalars as attributes and as environment variables. */
  function ScalarAttrs(c: Config): Attrs {
    (if c.apiAddr.Some? then map["api_addr" := GoString(c.apiAddr.value)] else map[])
    + (if c.clusterAddr.Some? then map["cluster_addr" := GoString(c.clusterAddr.value)] else map[])
    + (if c.ui.Some? then map["ui" := GoBool(c.ui.value)] else map[])
    + (if c.logLevel.Some? then map["log_level" := GoString(c.logLevel.value)] else map[])
  }

  function ScalarVars(c: Config): map<string, string> {
    (if c.apiAddr.Some? then map["VAULT_API_ADDR" := c.apiAddr.value] else map[])
    + (if c.clusterAddr.Some? then map["VAULT_CLUSTER_ADDR" := c.clusterAddr.value] else map[])
    + (if c.ui.Some? then map["VAULT_UI" := FormatBool(c.ui.value)] else map[])
    + (if c.logLevel.Some? then map["VAULT_LOG_LEVEL" := c.logLevel.value] else map[])
  }

  ghost function BlockOf(name: string, labels: seq<string>, attrs: Attrs): multiset<Canon> {
    multiset{CBlock(name, labels, AttrSet(attrs))}
  }

  ghost function OptionalBlock(name: string, attrs: Option<Attrs>): multiset<Canon> {
    if attrs.Some? then BlockOf(name, [], attrs.value) else multiset{}
  }

  ghost function ListenerDoc(l: Listener): multiset<Canon> {
    if l.kind.None? then multiset{} else
      multiset{CBlock("listener", [l.kind.value],
        AttrSet(l.attrs.GetOr(map[]))
        + OptionalBlock("telemetry", l.telemetry) + OptionalBlock("profiling", l.profiling)
        + OptionalBlock("inflight_requests_logging", l.inflightRequestsLogging)
        + OptionalBlock("custom_response_headers", l.customResponseHeaders))}
  }

  ghost function SealDoc(s: Stanza): multiset<Canon> {
    if SealSet(s) then BlockOf("seal", [s.kind.value], s.attrs.value) else multiset{}
  }

  ghost function HASealDoc(c: Config, p: string): multiset<Canon> {
    if p in c.seals && HASealSet(c.seals[p])
    then BlockOf("seal", [c.seals[p].kind.value], WithDefaults(p, c.seals[p].attrs.value))
    else multiset{}
  }

  ghost function HASealDocs(c: Config, done: set<string>): multiset<Canon> {
    (if "primary" in done then HASealDoc(c, "primary") else multiset{})
    + (if "secondary" in done then HASealDoc(c, "secondary") else multiset{})
    + (if "tertiary" in done then HASealDoc(c, "tertiary") else multiset{})
  }

  ghost function MultisealDoc(c: Config): multiset<Canon> {
    if NeedsMultiseal(c) then multiset{CAttr("enable_multiseal", GoBool(true))} else multiset{}
  }

  ghost function RetryJoin(c: Config): Attrs {
    c.storage.retryJoin.GetOr(
      map["auto_join" := GoString(AUTO_JOIN + c.clusterName.GetOr("")), "auto_join_scheme" := GoString("http")])
  }

  /** Storage, with the defaults of integrated storage. */
  ghost function StorageDoc(c: Config): multiset<Canon> {
    var s := c.storage;
    if s.kind.None? then multiset{}
    else if s.attrs.None? || s.kind.value != RAFT then BlockOf("storage", [s.kind.value], s.attrs.GetOr(map[]))
    else
      multiset{CBlock("storage", [RAFT],
        AttrSet((map["path" := GoString(DEFAULT_RAFT_DATA_DIR)]) + s.attrs.value)
        + BlockOf("retry_join", [], RetryJoin(c)))}
  }

  /** What moves to the environment: the scalars, the single seal and a seal that is the only one of its kind. */
  ghost function MovedDoc(c: Config): multiset<Canon> {
    AttrSet(ScalarAttrs(c)) + SealDoc(c.seal) + (if NeedsMultiseal(c) then multiset{} else HASealDocs(c, c.seals.Keys))
  }

  ghost function StayingSeals(c: Config): multiset<Canon> {
    if NeedsMultiseal(c) then HASealDocs(c, c.seals.Keys) else multiset{}
  }

  /** What each mode writes to the file. */
  ghost function ExpectedDoc(c: Config, mode: Mode): multiset<Canon> {
    match mode
    case FileMode =>
      AttrSet(ScalarAttrs(c)) + ListenerDoc(c.listener) + SealDoc(c.seal) + MultisealDoc(c)
      + HASealDocs(c, c.seals.Keys) + StorageDoc(c) + OptionalBlock("telemetry", c.telemetry)
    case EnvMode =>
      ListenerDoc(c.listener) + MultisealDoc(c) + StayingSeals(c) + StorageDoc(c)
      + OptionalBlock("telemetry", c.telemetry)
  }

  // ---------------------------------------------------------------------------------------------
  // Sections

  /** Everything that is added to a document only in blocks leaves it clean. */
  ghost predicate Blocks(added: seq<Out>) {
    Clean(added) && AttrKeys(added) == {}
  }

  /** One optional block under b. */
  method AppendOptional(b: Builder, name: string, attrs: Option<Attrs>) returns (ghost added: seq<Out>)
    requires b.Valid()
    modifies b`entries, b.root`nodes
    ensures b.Valid() && Extends(old(b.Contents()), b.Contents(), b.id) && old(b.root.nodes) <= b.root.nodes
    ensures Doc(b) == old(Doc(b)) + added && Blocks(added) && CanonOf(added) == OptionalBlock(name, attrs)
  {
    hide Builder.Valid, Doc, CanonOf, AttrKeys, Clean, AttrSet;
    added := [];
    Nothing();
    b.IdInRange();
    assert Doc(b) + [] == Doc(b);
    if attrs.Some? {
      var child := AppendFilled(b, name, [], attrs.value);
      added := [OutBlock(name, [], Doc(child))];
      Snoc([], added[0]);
      assert [] + added == added;
    }
  }

  method AppendListener(b: Builder, l: Listener) returns (ghost added: seq<Out>)
    requires b.Valid()
    modifies b`entries, b.root`nodes
    ensures b.Valid() && Extends(old(b.Contents()), b.Contents(), b.id) && old(b.root.nodes) <= b.root.nodes
    ensures Doc(b) == old(Doc(b)) + added && Blocks(added) && CanonOf(added) == ListenerDoc(l)
  {
    hide Builder.Valid, DocAt, CanonOf, AttrKeys, Clean, AttrSet, OptionalBlock, Extends, Ordered, OneTree;
    added := [];
    Nothing();
    ContentsOrdered(b);
    ExtendsSelf(b.Contents(), b.id);
    assert Doc(b) + [] == Doc(b);
    if l.kind.Some? {
      ghost var s0 := b.Contents();
      var child := AppendFilled(b, "listener", [l.kind.value], l.attrs.GetOr(map[]));
      ghost var s1, body := b.Contents(), Doc(child);
      SharedValid(b, child);
      ExtendsSelf(s1, child.id);
      ghost var t := AppendOptional(child, "telemetry", l.telemetry);
      ghost var s2 := child.Contents();
      ghost var p := AppendOptional(child, "profiling", l.profiling);
      ExtendsAgain(s1, s2, child.Contents(), child.id);
      s2 := child.Contents();
      ghost var r := AppendOptional(child, "inflight_requests_logging", l.inflightRequestsLogging);
      ExtendsAgain(s1, s2, child.Contents(), child.id);
      s2 := child.Contents();
      ghost var h := AppendOptional(child, "custom_response_headers", l.customResponseHeaders);
      ExtendsAgain(s1, s2, child.Contents(), child.id);
      BlockCompleted(b, child, s0, s1, "listener", [l.kind.value]);
      FourMore(body, l.attrs.GetOr(map[]), t, p, r, h);
      added := [OutBlock("listener", [l.kind.value], Doc(child))];
      Snoc([], added[0]);
      assert [] + added == added;
    }
  }

  lemma ExtendsSelf(s: Items, c: nat)
    requires c < |s|
    ensures Extends(s, s, c)
  {
  }

  lemma FourMore(body: seq<Out>, attrs: Attrs, t: seq<Out>, p: seq<Out>, r: seq<Out>, h: seq<Out>)
    requires Holds(body, attrs) && Blocks(t) && Blocks(p) && Blocks(r) && Blocks(h)
    ensures var all := body + t + p + r + h;
            Clean(all) && CanonOf(all) == AttrSet(attrs) + CanonOf(t) + CanonOf(p) + CanonOf(r) + CanonOf(h)
  {
    hide Clean, CanonOf, AttrKeys, AttrSet;
    Concat(body, t);
    Concat(body + t, p);
    Concat(body + t + p, r);
    Concat(body + t + p + r, h);
  }

  /** The retry_join block: as configured, or the defaults, for which the cluster name must be known. */
  method AppendRetryJoin(b: Builder, c: Config) returns (ok: bool, ghost added: seq<Out>)
    requires b.Valid()
    modifies b`entries, b.root`nodes
    ensures ok <==> c.storage.retryJoin.Some? || c.clusterName.Some?
    ensures ok ==> b.Valid() && Extends(old(b.Contents()), b.Contents(), b.id) && old(b.root.nodes) <= b.root.nodes
    ensures ok ==> Doc(b) == old(Doc(b)) + added && Blocks(added)
    ensures ok ==> CanonOf(added) == BlockOf("retry_join", [], RetryJoin(c))
  {
    hide Builder.Valid, DocAt, CanonOf, AttrKeys, Clean, AttrSet, Extends, Ordered, OneTree;
    ContentsOrdered(b);
    ghost var s0 := b.Contents();
    var child := AppendFilled(b, "retry_join", [], c.storage.retryJoin.GetOr(map[]));
    ghost var s1 := b.Contents();
    SharedValid(b, child);
    child.IdInRange();
    ExtendsSelf(s1, child.id);
    if c.storage.retryJoin.None? {
      if c.clusterName.None? { return false, []; }
      ghost var body := Doc(child);
      PutAttribute(child, "auto_join", GoString(AUTO_JOIN + c.clusterName.value));
      ghost var s2 := child.Contents();
      PutAttribute(child, "auto_join_scheme", GoString("http"));
      ExtendsAgain(s1, s2, child.Contents(), child.id);
      OneMoreHeld(body, map[], "auto_join", GoString(AUTO_JOIN + c.clusterName.value));
      OneMoreHeld(body + [OutAttr("auto_join", GoString(AUTO_JOIN + c.clusterName.value))],
                  map["auto_join" := GoString(AUTO_JOIN + c.clusterName.value)], "auto_join_scheme", GoString("http"));
    }
    assert Holds(Doc(child), RetryJoin(c));
    BlockCompleted(b, child, s0, s1, "retry_join", []);
    added := [OutBlock("retry_join", [], Doc(child))];
    OneBlock("retry_join", [], Doc(child));
    ok := true;
  }

  lemma OneBlock(name: string, labels: seq<string>, body: seq<Out>)
    requires Clean(body)
    ensures Blocks([OutBlock(name, labels, body)])
    ensures CanonOf([OutBlock(name, labels, body)]) == multiset{CBlock(name, labels, CanonOf(body))}
  {
    Nothing();
    Snoc([], OutBlock(name, labels, body));
    assert [] + [OutBlock(name, labels, body)] == [OutBlock(name, labels, body)];
  }

  lemma OneMoreHeld(p: seq<Out>, m: Attrs, key: string, value: Native)
    requires Holds(p, m) && key !in m
    ensures Holds(p + [OutAttr(key, value)], m[key := value])
  {
    hide CanonOf, AttrKeys, Clean, AttrSet;
    Snoc(p, OutAttr(key, value));
    AttrSetNext(m, key, value);
  }

  method AppendStorage(b: Builder, c: Config) returns (ok: bool, ghost added: seq<Out>)
    requires b.Valid()
    modifies b`entries, b.root`nodes
    ensures ok <==> !NeedsClusterName(c) || c.clusterName.Some?
    ensures ok ==> b.Valid() && Extends(old(b.Contents()), b.Contents(), b.id) && old(b.root.nodes) <= b.root.nodes
    ensures ok ==> Doc(b) == old(Doc(b)) + added && Blocks(added) && CanonOf(added) == StorageDoc(c)
  {
    hide Builder.Valid, DocAt, CanonOf, AttrKeys, Clean, AttrSet, Extends, Ordered, OneTree, Holds;
    var s := c.storage;
    added := [];
    Nothing();
    ContentsOrdered(b);
    ExtendsSelf(b.Contents(), b.id);
    assert Doc(b) + [] == Doc(b);
    if s.kind.None? { return true, []; }
    ghost var s0 := b.Contents();
    var attrs := s.attrs.GetOr(map[]);
    var child := AppendFilled(b, "storage", [s.kind.value], attrs);
    ghost var s1 := b.Contents();
    SharedValid(b, child);
    child.IdInRange();
    ExtendsSelf(s1, child.id);
    if s.attrs.Some? && s.kind.value == RAFT {
      ghost var all := (map["path" := GoString(DEFAULT_RAFT_DATA_DIR)]) + attrs;
      if "path" !in attrs {
        OneMoreHeld(Doc(child), attrs, "path", GoString(DEFAULT_RAFT_DATA_DIR));
        PutAttribute(child, "path", GoString(DEFAULT_RAFT_DATA_DIR));
        assert all == attrs["path" := GoString(DEFAULT_RAFT_DATA_DIR)];
      } else {
        assert all == attrs;
      }
      ghost var s2, body := child.Contents(), Doc(child);
      ghost var retry;
      ok, retry := AppendRetryJoin(child, c);
      if !ok { return false, []; }
      ExtendsAgain(s1, s2, child.Contents(), child.id);
      BlockAfter(body, all, retry);
    } else {
      HeldFacts(Doc(child), attrs);
    }
    BlockCompleted(b, child, s0, s1, "storage", [s.kind.value]);
    added := [OutBlock("storage", [s.kind.value], Doc(child))];
    OneBlock("storage", [s.kind.value], Doc(child));
    ok := true;
  }

  predicate NeedsClusterName(c: Config) {
    c.storage.kind == Some(RAFT) && c.storage.attrs.Some? && c.storage.retryJoin.None?
  }

  lemma HeldFacts(p: seq<Out>, m: Attrs)
    requires Holds(p, m)
    ensures Clean(p) && CanonOf(p) == AttrSet(m) && AttrKeys(p) == m.Keys
  {
  }

  lemma BlockAfter(body: seq<Out>, attrs: Attrs, blocks: seq<Out>)
    requires Holds(body, attrs) && Blocks(blocks)
    ensures Clean(body + blocks) && CanonOf(body + blocks) == AttrSet(attrs) + CanonOf(blocks)
  {
    hide Clean, CanonOf, AttrKeys, AttrSet;
    Concat(body, blocks);
  }

  function With(m: Attrs, key: string, value: Option<Native>): (r: Attrs)
    ensures r.Keys <= m.Keys + {key}
  {
    if value.Some? then m[key := value.value] else m
  }

  lemma ScalarsAre(c: Config)
    ensures ScalarAttrs(c) ==
            With(With(With(With(map[], "api_addr", Str(c.apiAddr)), "cluster_addr", Str(c.clusterAddr)),
                      "ui", if c.ui.Some? then Some(GoBool(c.ui.value)) else None), "log_level", Str(c.logLevel))
  {
  }

  /** An attribute that is written only if its value is known. */
  method PutOptional(b: Builder, key: string, value: Option<Native>, ghost before: seq<Out>, ghost added: seq<Out>,
                     ghost m: Attrs)
    returns (ghost added': seq<Out>, ghost m': Attrs)
    requires b.Valid() && Doc(b) == before + added && Holds(added, m) && key !in m
    modifies b`entries
    ensures b.Valid() && b.root.nodes == old(b.root.nodes)
    ensures Doc(b) == before + added' && Holds(added', m')
    ensures m' == With(m, key, value)
  {
    hide Builder.Valid, Doc, Holds;
    added', m' := added, m;
    if value.Some? {
      PutAttribute(b, key, value.value);
      OneMoreHeld(added, m, key, value.value);
      added', m' := added + [OutAttr(key, value.value)], m[key := value.value];
    }
  }

  function Str(s: Option<string>): Option<Native> {
    if s.Some? then Some(GoString(s.value)) else None
  }

  /** The four scalars of the file mode. */
  method AppendScalars(b: Builder, c: Config) returns (ghost added: seq<Out>)
    requires b.Valid()
    modifies b`entries
    ensures b.Valid() && b.root.nodes == old(b.root.nodes)
    ensures Doc(b) == old(Doc(b)) + added && Holds(added, ScalarAttrs(c))
  {
    hide Builder.Valid, Doc, Holds, With, ScalarAttrs, Str;
    added := [];
    NothingHeld();
    ghost var before, m := Doc(b), map[];
    assert before + [] == before;
    added, m := PutOptional(b, "api_addr", Str(c.apiAddr), before, added, m);
    added, m := PutOptional(b, "cluster_addr", Str(c.clusterAddr), before, added, m);
    added, m := PutOptional(b, "ui", if c.ui.Some? then Some(GoBool(c.ui.value)) else None, before, added, m);
    added, m := PutOptional(b, "log_level", Str(c.logLevel), before, added, m);
    ScalarsAre(c);
  }

  lemma NothingHeld()
    ensures Holds([], map[])
  {
    Nothing();
  }

  // ---------------------------------------------------------------------------------------------
  // Seals

  ghost predicate TranslatesOk(kind: string, attrs: Attrs) {
    SealOf(kind).Some? && |attrs| > 0 && forall k :: k in attrs ==> Translatable(SealOf(kind).value, k, attrs[k])
  }

  ghost predicate VarsFor(kind: string, attrs: Attrs, vars: map<string, string>) {
    SealOf(kind).Some? && ComesFrom(kind, SealOf(kind).value, attrs, attrs.Keys, vars)
  }

  ghost predicate SealOk(c: Config, mode: Mode) {
    SealSet(c.seal) && mode.EnvMode? ==> TranslatesOk(c.seal.kind.value, c.seal.attrs.value)
  }

  /** The variables of the single seal in env mode. */
  ghost predicate SealVars(s: Stanza, vars: map<string, string>) {
    if SealSet(s) then VarsFor(s.kind.value, s.attrs.value, vars) else vars == map[]
  }

  /** ToEnvVars, as far as rendering relies on it: in whatever order it visits the attributes. */
  method Translate(kind: string, attrs: Attrs) returns (r: Option<map<string, string>>)
    ensures r.Some? <==> TranslatesOk(kind, attrs)
    ensures r.Some? ==> VarsFor(kind, attrs, r.value)
  {
    hide SealOf, Translatable, ComesFrom, Visit, Permutes;
    r := ToEnvVars(kind, attrs);
  }

  method AppendSeal(b: Builder, c: Config, mode: Mode)
    returns (ok: bool, vars: map<string, string>, ghost added: seq<Out>)
    requires b.Valid()
    modifies b`entries, b.root`nodes
    ensures ok <==> SealOk(c, mode)
    ensures ok ==> b.Valid() && Extends(old(b.Contents()), b.Contents(), b.id) && old(b.root.nodes) <= b.root.nodes
    ensures ok ==> Doc(b) == old(Doc(b)) + added && Blocks(added)
    ensures ok ==> CanonOf(added) == if mode.FileMode? then SealDoc(c.seal) else multiset{}
    ensures ok ==> if mode.FileMode? then vars == map[] else SealVars(c.seal, vars)
  {
    hide Builder.Valid, Doc, CanonOf, AttrKeys, Clean, AttrSet, TranslatesOk, VarsFor, OneTree;
    ok, vars, added := true, map[], [];
    Nothing();
    ContentsOrdered(b);
    ExtendsSelf(b.Contents(), b.id);
    assert Doc(b) + [] == Doc(b);
    if SealSet(c.seal) {
      var kind, attrs := c.seal.kind.value, c.seal.attrs.value;
      if mode.FileMode? {
        var child := AppendFilled(b, "seal", [kind], attrs);
        HeldFacts(Doc(child), attrs);
        added := [OutBlock("seal", [kind], Doc(child))];
        OneBlock("seal", [kind], Doc(child));
      } else {
        var r := Translate(kind, attrs);
        if r.None? { return false, map[], []; }
        vars := r.value;
      }
    }
  }

  /** The seals go to the environment only if there is no more than one of them. */
  predicate SealsInEnv(c: Config, mode: Mode) {
    mode.EnvMode? && !NeedsMultiseal(c)
  }

  ghost predicate HASealOk(c: Config, p: string)
    requires p in c.seals
  {
    HASealSet(c.seals[p]) ==> TranslatesOk(c.seals[p].kind.value, WithDefaults(p, c.seals[p].attrs.value))
  }

  ghost predicate HASealVars(c: Config, done: set<string>, vars: map<string, string>) {
    && (forall p :: p in c.seals && p in done && HASealSet(c.seals[p]) ==>
          VarsFor(c.seals[p].kind.value, WithDefaults(p, c.seals[p].attrs.value), vars))
    && ((forall p :: p in c.seals && p in done ==> !HASealSet(c.seals[p])) ==> vars == map[])
  }

  /** A seal without priority or name gets those of its position. */
  method FillDefaults(p: string, given: Attrs) returns (attrs: Attrs)
    ensures attrs == WithDefaults(p, given)
  {
    attrs := given;
    if "priority" !in attrs { attrs := attrs["priority" := GoString(PriorityNumber(p))]; }
    if "name" !in attrs { attrs := attrs["name" := GoString(p)]; }
  }

  /** The seals in an arbitrary order of their priorities. */
  method AppendSeals(b: Builder, c: Config, mode: Mode)
    returns (ok: bool, vars: map<string, string>, ghost added: seq<Out>)
    requires b.Valid() && forall p :: p in c.seals ==> IsPriority(p)
    modifies b`entries, b.root`nodes
    ensures ok <==> SealsInEnv(c, mode) ==> forall p :: p in c.seals ==> HASealOk(c, p)
    ensures ok ==> b.Valid() && Extends(old(b.Contents()), b.Contents(), b.id) && old(b.root.nodes) <= b.root.nodes
    ensures ok ==> Doc(b) == old(Doc(b)) + added && Blocks(added)
    ensures ok ==> CanonOf(added) == if SealsInEnv(c, mode) then multiset{} else HASealDocs(c, c.seals.Keys)
    ensures ok ==> if SealsInEnv(c, mode) then HASealVars(c, c.seals.Keys, vars) else vars == map[]
  {
    hide Builder.Valid, Doc, OneTree, Extends, HASealDocs, HASealVars, HASealOk, CanonOf, Blocks, HASealSet,
      SealsInEnv, NeedsMultiseal, WithDefaults, TranslatesOk, VarsFor;
    ok, vars, added := true, map[], [];
    ghost var before, s0 := Doc(b), b.Contents();
    assert before + [] == before;
    NoSeals(c, c.seals.Keys - c.seals.Keys);
    ContentsOrdered(b);
    ExtendsSelf(s0, b.id);
    var todo := c.seals.Keys;
    while todo != {}
      invariant todo <= c.seals.Keys && b.Valid() && Extends(s0, b.Contents(), b.id)
                && old(b.root.nodes) <= b.root.nodes
      invariant Doc(b) == before + added && Blocks(added)
      invariant CanonOf(added) == if SealsInEnv(c, mode) then multiset{} else HASealDocs(c, c.seals.Keys - todo)
      invariant if SealsInEnv(c, mode) then HASealVars(c, c.seals.Keys - todo, vars) else vars == map[]
      invariant SealsInEnv(c, mode) ==> forall p :: p in c.seals.Keys - todo ==> HASealOk(c, p)
    {
      var p :| p in todo;
      ghost var done := c.seals.Keys - todo;
      var seal := c.seals[p];
      assert c.seals.Keys - (todo - {p}) == done + {p};
      if HASealSet(seal) {
        HASealParts(seal);
        var attrs := FillDefaults(p, seal.attrs.value);
        if SealsInEnv(c, mode) {
          var r := Translate(seal.kind.value, attrs);
          OneInEnv(c, mode, p, done, r);
          if r.None? { return false, map[], []; }
          vars := r.value;
        } else {
          ghost var s1 := b.Contents();
          var child := AppendFilled(b, "seal", [seal.kind.value], attrs);
          ExtendsAgain(s0, s1, b.Contents(), b.id);
          OneInFile(c, p, done, added, Doc(child));
          added := added + [OutBlock("seal", [seal.kind.value], Doc(child))];
        }
      } else {
        OneSkipped(c, p, done, vars);
      }
      todo := todo - {p};
    }
    assert c.seals.Keys - todo == c.seals.Keys;
  }

  lemma NoSeals(c: Config, done: set<string>)
    requires done == {}
    ensures HASealDocs(c, done) == multiset{} == CanonOf([]) && Blocks([]) && HASealVars(c, done, map[])
  {
    Nothing();
  }

  lemma HASealParts(s: Stanza)
    requires HASealSet(s)
    ensures s.kind.Some? && s.attrs.Some?
  {
  }

  lemma OneInEnv(c: Config, mode: Mode, p: string, done: set<string>, r: Option<map<string, string>>)
    requires SealsInEnv(c, mode) && p in c.seals && HASealSet(c.seals[p]) && done <= c.seals.Keys && p !in done
    requires var attrs := WithDefaults(p, c.seals[p].attrs.value);
             && (r.Some? <==> TranslatesOk(c.seals[p].kind.value, attrs))
             && (r.Some? ==> VarsFor(c.seals[p].kind.value, attrs, r.value))
    ensures r.Some? <==> HASealOk(c, p)
    ensures r.Some? ==> HASealVars(c, done + {p}, r.value)
  {
    hide TranslatesOk, VarsFor, WithDefaults;
    assert |done + {p}| <= |c.seals.Keys| <= 1 by { SubsetSize(done + {p}, c.seals.Keys); }
    assert done == {};
  }

  lemma SubsetSize(a: set<string>, b: set<string>)
    requires a <= b
    ensures |a| <= |b|
  {
    assert b == a + (b - a);
  }

  lemma OneInFile(c: Config, p: string, done: set<string>, added: seq<Out>, body: seq<Out>)
    requires p in c.seals && HASealSet(c.seals[p]) && p !in done && IsPriority(p) && Blocks(added)
    requires Holds(body, WithDefaults(p, c.seals[p].attrs.value)) && CanonOf(added) == HASealDocs(c, done)
    ensures var more := added + [OutBlock("seal", [c.seals[p].kind.value], body)];
            Blocks(more) && CanonOf(more) == HASealDocs(c, done + {p})
  {
    hide CanonOf, AttrKeys, Clean, AttrSet, WithDefaults;
    Snoc(added, OutBlock("seal", [c.seals[p].kind.value], body));
  }

  lemma OneSkipped(c: Config, p: string, done: set<string>, vars: map<string, string>)
    requires p in c.seals && !HASealSet(c.seals[p])
    ensures HASealDocs(c, done + {p}) == HASealDocs(c, done) && HASealOk(c, p)
    ensures HASealVars(c, done, vars) ==> HASealVars(c, done + {p}, vars)
  {
    hide HASealSet, VarsFor;
  }

  // ---------------------------------------------------------------------------------------------
  // Render

  function ModeOf(configMode: string): Option<Mode> {
    if configMode == "file" then Some(FileMode) else if configMode == "env" then Some(EnvMode) else None
  }

  ghost predicate CanRender(c: Config, mode: Mode) {
    && SealOk(c, mode) && (SealsInEnv(c, mode) ==> forall p :: p in c.seals ==> HASealOk(c, p))
    && (NeedsClusterName(c) ==> c.clusterName.Some?)
  }

  /** Where the environment comes from in env mode; a lone HA seal overrides the single seal. */
  ghost predicate EnvIs(c: Config, mode: Mode, env: map<string, string>, sealVars: map<string, string>,
                        haVars: map<string, string>)
  {
    if mode.FileMode? then env == map[]
    else
      && env == ScalarVars(c) + sealVars + haVars && SealVars(c.seal, sealVars)
      && (if NeedsMultiseal(c) then haVars == map[] else HASealVars(c, c.seals.Keys, haVars))
  }

  /** Builder and environment are what the configuration is rendered to in this mode. */
  ghost predicate Rendered(c: Config, mode: Mode, b: Builder, env: map<string, string>, sealVars: map<string, string>,
                           haVars: map<string, string>)
    reads b.root, b.root.nodes
  {
    && b.Valid() && b.id == 0 && CanonOf(Doc(b)) == ExpectedDoc(c, mode) && Clean(Doc(b))
    && CanRender(c, mode) && EnvIs(c, mode, env, sealVars, haVars)
  }

  /** Render; it makes a new document and leaves the configuration as it is. */
  method Render(c: Config, configMode: string)
    returns (r: Option<Builder>, env: map<string, string>, ghost sealVars: map<string, string>,
             ghost haVars: map<string, string>)
    requires forall p :: p in c.seals ==> IsPriority(p)
    ensures r.Some? <==> ModeOf(configMode).Some? && CanRender(c, ModeOf(configMode).value)
    ensures r.Some? ==> configMode == "file" || configMode == "env"
    ensures r.Some? ==> (ModeOf(configMode).value == FileMode <==> configMode == "file")
    ensures r.Some? ==> fresh(r.value) && Rendered(c, ModeOf(configMode).value, r.value, env, sealVars, haVars)
  {
    hide Builder.Valid, Doc, CanonOf, AttrKeys, Clean, AttrSet, OneTree, Extends, HASealDocs, HASealVars, HASealOk,
      ListenerDoc, StorageDoc, SealDoc, OptionalBlock, SealVars, SealOk, ScalarVars, ScalarAttrs, NeedsClusterName,
      ExpectedDoc, SealsInEnv;
    sealVars, haVars := map[], map[];
    if configMode != "env" && configMode != "file" { return None, map[], sealVars, haVars; }
    var mode := if configMode == "file" then FileMode else EnvMode;
    var b := new Builder();
    ghost var scalars: seq<Out> := [];
    assert Doc(b) == [] by { NewDoc(b); }
    env := map[];
    NothingHeld();
    if mode.FileMode? {
      scalars := AppendScalars(b, c);
    } else {
      env := ScalarEnv(c);
    }
    ghost var listener := AppendListener(b, c.listener);
    var ok, vars;
    ghost var seal, seals, storage;
    ok, vars, seal := AppendSeal(b, c, mode);
    if !ok { return None, map[], sealVars, haVars; }
    env, sealVars := env + vars, vars;
    ghost var multiseal: seq<Out> := [];
    if NeedsMultiseal(c) {
      PutAttribute(b, "enable_multiseal", GoBool(true));
      multiseal := [OutAttr("enable_multiseal", GoBool(true))];
    }
    assert Doc(b) == scalars + listener + seal + multiseal;
    ok, vars, seals := AppendSeals(b, c, mode);
    if !ok { return None, map[], sealVars, haVars; }
    env, haVars := env + vars, vars;
    ok, storage := AppendStorage(b, c);
    if !ok { return None, map[], sealVars, haVars; }
    ghost var telemetry := AppendOptional(b, "telemetry", c.telemetry);
    Assembled(c, mode, scalars, listener, seal, multiseal, seals, storage, telemetry);
    EnvAssembled(c, mode, env, sealVars, haVars);
    return Some(b), env, sealVars, haVars;
  }

  method ScalarEnv(c: Config) returns (env: map<string, string>)
    ensures env == ScalarVars(c)
  {
    env := map[];
    if c.apiAddr.Some? { env := env["VAULT_API_ADDR" := c.apiAddr.value]; }
    if c.clusterAddr.Some? { env := env["VAULT_CLUSTER_ADDR" := c.clusterAddr.value]; }
    if c.ui.Some? { env := env["VAULT_UI" := FormatBool(c.ui.value)]; }
    if c.logLevel.Some? { env := env["VAULT_LOG_LEVEL" := c.logLevel.value]; }
  }

  lemma NewDoc(b: Builder)
    requires b.Valid() && b.id == 0 && b.Contents() == [[]]
    ensures Doc(b) == []
  {
  }

  lemma EnvAssembled(c: Config, mode: Mode, env: map<string, string>, sealVars: map<string, string>,
                     haVars: map<string, string>)
    requires env == (if mode.FileMode? then map[] else ScalarVars(c)) + sealVars + haVars
    requires if mode.FileMode? then sealVars == map[] else SealVars(c.seal, sealVars)
    requires if SealsInEnv(c, mode) then HASealVars(c, c.seals.Keys, haVars) else haVars == map[]
    ensures EnvIs(c, mode, env, sealVars, haVars)
  {
    hide HASealVars, SealVars, ScalarVars, NeedsMultiseal;
  }

  lemma Assembled(c: Config, mode: Mode, scalars: seq<Out>, listener: seq<Out>, seal: seq<Out>, multiseal: seq<Out>,
                  seals: seq<Out>, storage: seq<Out>, telemetry: seq<Out>)
    requires if mode.FileMode? then Holds(scalars, ScalarAttrs(c)) else scalars == []
    requires Blocks(listener) && CanonOf(listener) == ListenerDoc(c.listener)
    requires Blocks(seal) && CanonOf(seal) == (if mode.FileMode? then SealDoc(c.seal) else multiset{})
    requires multiseal == if NeedsMultiseal(c) then [OutAttr("enable_multiseal", GoBool(true))] else []
    requires Blocks(seals)
             && CanonOf(seals) == (if SealsInEnv(c, mode) then multiset{} else HASealDocs(c, c.seals.Keys))
    requires Blocks(storage) && CanonOf(storage) == StorageDoc(c)
    requires Blocks(telemetry) && CanonOf(telemetry) == OptionalBlock("telemetry", c.telemetry)
    ensures var doc := scalars + listener + seal + multiseal + seals + storage + telemetry;
            Clean(doc) && CanonOf(doc) == ExpectedDoc(c, mode)
  {
    hide CanonOf, AttrKeys, Clean, AttrSet, HASealDocs, ListenerDoc, StorageDoc, SealDoc, OptionalBlock, NeedsMultiseal,
      ScalarAttrs, HASealSet, SealSet;
    var upTo := scalars + listener + seal;
    Nothing();
    ScalarKeys(c);
    Concat(scalars, listener);
    Concat(scalars + listener, seal);
    Snoc(upTo, OutAttr("enable_multiseal", GoBool(true)));
    assert upTo + [] == upTo;
    BlocksAfter(upTo + multiseal, seals, storage, telemetry);
  }

  lemma BlocksAfter(p: seq<Out>, q: seq<Out>, r: seq<Out>, t: seq<Out>)
    requires Clean(p) && Blocks(q) && Blocks(r) && Blocks(t)
    ensures Clean(p + q + r + t) && CanonOf(p + q + r + t) == CanonOf(p) + CanonOf(q) + CanonOf(r) + CanonOf(t)
  {
    hide CanonOf, AttrKeys, Clean;
    Concat(p, q);
    Concat(p + q, r);
    Concat(p + q + r, t);
  }

  lemma ScalarKeys(c: Config)
    ensures "enable_multiseal" !in ScalarAttrs(c) && AttrSet(map[]) == multiset{}
  {
    Nothing();
  }

  // ---------------------------------------------------------------------------------------------
  // The two modes carry the same settings

  /** What BuildHCL writes for a builder. */
  ghost function Written(b: Builder): seq<Out>
    requires b.Valid()
    reads b.root, b.root.nodes
  {
    ContentsOrdered(b);
    Emitted(Whole(b.Contents(), b.id))
  }

  /** What BuildHCL writes for a rendered configuration is all of it, each entry once. */
  lemma RenderedIsWritten(c: Config, mode: Mode, b: Builder, env: map<string, string>, sealVars: map<string, string>,
                          haVars: map<string, string>)
    requires Rendered(c, mode, b, env, sealVars, haVars)
    ensures Written(b) == Doc(b) && CanonOf(Written(b)) == ExpectedDoc(c, mode)
  {
    hide CanonOf, ExpectedDoc, CanRender, EnvIs, Clean, DocAt;
    WrittenOutIff(b);
  }

  /** Render followed by BuildHCL, as startVault does it: an error, or the configuration of the mode. */
  method RenderHCL(c: Config, configMode: string, encodes: Native -> bool)
    returns (r: Result<seq<Out>, string>, env: map<string, string>, ghost sealVars: map<string, string>,
             ghost haVars: map<string, string>)
    requires forall p :: p in c.seals ==> IsPriority(p)
    ensures r.Ok? ==>
              && ModeOf(configMode).Some? && CanRender(c, ModeOf(configMode).value)
              && CanonOf(r.value) == ExpectedDoc(c, ModeOf(configMode).value)
              && EnvIs(c, ModeOf(configMode).value, env, sealVars, haVars)
    ensures ModeOf(configMode).Some? && CanRender(c, ModeOf(configMode).value) && (forall v :: encodes(v)) ==> r.Ok?
  {
    hide CanonOf, ExpectedDoc, CanRender, EnvIs, Clean, Doc, Builder.Valid, AllEncode, Emitted;
    var b;
    b, env, sealVars, haVars := Render(c, configMode);
    if b.None? { return Err("failed to create the vault HCL configuration"), env, sealVars, haVars; }
    RenderedIsWritten(c, ModeOf(configMode).value, b.value, env, sealVars, haVars);
    ContentsOrdered(b.value);
    if forall v :: encodes(v) { AllEncodeAlways(Whole(b.value.Contents(), b.value.id), encodes); }
    r := b.value.BuildHCL(encodes);
  }

  lemma {:induction false} AllEncodeAlways(t: seq<Node>, encodes: Native -> bool)
    requires forall v :: encodes(v)
    ensures AllEncode(t, encodes)
  {
    if t != [] {
      AllEncodeAlways(t[..|t| - 1], encodes);
      if t[|t| - 1].Block? { AllEncodeAlways(t[|t| - 1].body, encodes); }
    }
  }
}
