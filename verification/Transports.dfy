/**
 Embedded transports (internal/plugin/embedded_transport.go, with the SSH transport of
 embedded_transport_ssh.go and its Kubernetes and Nomad siblings): attributes live behind
 pointers, `values` keeps the raw wire values, and provider defaults are merged into a copy so
 that the value sent back to Terraform stays as it was.
 */
module Transports {
  import opened Wrappers
  import opened TfValues

  // ---------------------------------------------------------------------------------------------
  // tfString

  /** Known and not null. */
  predicate HasValue(w: Wire) {
    !w.Null? && !w.Unknown?
  }

  /** The precedence of a resource value over a provider default. */
  function Prefer(own: Wire, default: Wire): Wire {
    if !HasValue(own) && HasValue(default) then default else own
  }

  /** The wrapper of a string attribute, with its flags set in place. */
  class TfString {
    var unknown: bool
    var isNull: bool
    var val: string

    constructor ()
      ensures !unknown && isNull && val == ""
    {
      unknown, isNull, val := false, true, "";
    }

    function Wrapper(): (v: Tf)
      reads this
      ensures v.TfStr?
    {
      TfStr(unknown, isNull, val)
    }

    function Value(): Wire
      reads this
    {
      TFValue(Wrapper())
    }

    method Set(v: string)
      modifies this
      ensures Wrapper() == TfStr(false, false, v)
    {
      unknown, isNull, val := false, false, v;
    }

    /** A null or unknown value only raises its own flag; the other flag and the text stay. */
    method FromTFValue(w: Wire) returns (err: Option<string>)
      modifies this
      ensures err.None? <==> StrFrom(w).Ok?
      ensures Wrapper() == if err.Some? then old(Wrapper())
                           else if IsUnknown(w, TyStr) then TfStr(true, old(isNull), old(val))
                           else if IsNull(w, TyStr) then TfStr(old(unknown), true, old(val))
                           else StrFrom(w).value
    {
      if IsUnknown(w, TyStr) {
        unknown := true;
      } else if IsNull(w, TyStr) {
        isNull := true;
      } else {
        match w {
          case Null(_) => Set("");
          case Str(s) => Set(s);
          case _ => return Some("can't unmarshal into string");
        }
      }
      return None;
    }

    /** One turn of applyDefaults: take the default only when there is none here, and one there. */
    method Default(d: TfString)
      requires d != this
      modifies this
      ensures Value() == Prefer(old(Value()), d.Value())
    {
      if !HasValue(Value()) && HasValue(d.Value()) {
        var err := FromTFValue(d.Value());
      }
    }
  }

  // ---------------------------------------------------------------------------------------------
  // One transport

  datatype Kind = SSH | K8S | NOMAD

  function KindName(k: Kind): string {
    match k case SSH => "ssh" case K8S => "kubernetes" case NOMAD => "nomad"
  }

  /** transportTypeFrom: None is the UNKNOWN type. */
  function KindFrom(name: string): Option<Kind> {
    if name == "ssh" then Some(SSH)
    else if name == "kubernetes" then Some(K8S)
    else if name == "nomad" then Some(NOMAD)
    else None
  }

  const KIND_NAMES := {"ssh", "kubernetes", "nomad"}

  lemma KindNames()
    ensures forall k: Kind :: KindName(k) in KIND_NAMES && KindFrom(KindName(k)) == Some(k)
    ensures forall name :: name in KIND_NAMES <==> KindFrom(name).Some?
    ensures forall name :: name in KIND_NAMES ==> KindName(KindFrom(name).value) == name
  {
  }

  function Known(k: Kind): set<string> {
    match k
    case SSH => {"user", "host", "private_key", "private_key_path", "passphrase", "passphrase_path"}
    case K8S => {"kubeconfig_base64", "context_name", "namespace", "pod", "container"}
    case NOMAD => {"host", "secret_id", "allocation_id", "task_name"}
  }

  /** Value.As(&map[string]tftypes.Value) */
  function FieldsOf(w: Wire): Option<map<string, Wire>> {
    match w
    case Null(_) => Some(map[])
    case Obj(fields) => Some(fields)
    case Map(_, entries) => Some(entries)
    case _ => None
  }

  /** Wire values a transport of this kind accepts as its configuration. */
  ghost predicate Loadable(k: Kind, values: map<string, Wire>) {
    values != map[] && values.Keys <= Known(k) && forall a :: a in values ==> StrFrom(values[a]).Ok?
  }

  /** The attributes a fresh transport has after loading `values`. */
  ghost function Loaded(k: Kind, values: map<string, Wire>): map<string, Wire>
    requires values == map[] || Loadable(k, values)
  {
    map a | a in Known(k) :: if a in values then TFValue(StrFrom(values[a]).value) else Null(TyStr)
  }

  ghost function ViewOf(attrs: map<string, TfString>): (v: map<string, Wire>)
    reads attrs.Values
    ensures v.Keys == attrs.Keys
  {
    map a | a in attrs :: attrs[a].Value()
  }

  lemma ViewAt(attrs: map<string, TfString>, a: string)
    requires a in attrs
    ensures ViewOf(attrs)[a] == attrs[a].Value()
  {
  }

  /** Resource values with provider defaults behind them, whatever the order of the merge. */
  function Merged(own: map<string, Wire>, defaults: map<string, Wire>): map<string, Wire> {
    map a | a in own :: if a in defaults then Prefer(own[a], defaults[a]) else own[a]
  }

  lemma MergeNone(own: map<string, Wire>, defaults: map<string, Wire>)
    ensures Merged(own, defaults - defaults.Keys) == own
    ensures Merged(own, defaults).Keys == own.Keys
  {
  }

  lemma MergeOne(own: map<string, Wire>, defaults: map<string, Wire>, todo: set<string>, a: string)
    requires a in todo && a in own && a in defaults
    ensures Merged(own, defaults - (todo - {a}))
         == Merged(own, defaults - todo)[a := Prefer(own[a], defaults[a])]
    ensures Merged(own, defaults - todo)[a] == own[a]
  {
  }

  class Transport {
    const kind: Kind
    const attrs: map<string, TfString>
    var values: map<string, Wire>

    constructor (kind: Kind, attrs: map<string, TfString>)
      ensures this.kind == kind && this.attrs == attrs && values == map[]
    {
      this.kind, this.attrs, this.values := kind, attrs, map[];
    }

    /** The attribute pointers are those of this kind, and no two names share one. */
    ghost predicate Valid() {
      && attrs.Keys == Known(kind)
      && (forall a, b :: a in attrs && b in attrs && attrs[a] == attrs[b] ==> a == b)
    }

    /** The current wire value of each attribute. */
    ghost function View(): (v: map<string, Wire>)
      reads attrs.Values
      ensures v.Keys == attrs.Keys
    {
      ViewOf(attrs)
    }

    /** Every attribute has the wrapper that newTfString or FromTFValue gives it. */
    ghost predicate Fresh()
      reads attrs.Values
    {
      forall a :: a in attrs ==> attrs[a].Wrapper() == TfStr(false, true, "")
    }

    function Terraform5Value(): Wire
      reads this
    {
      if values == map[] then Unknown(TyObj(map a | a in Known(kind) :: TyStr)) else Obj(values)
    }

    method FromTerraform5Value(w: Wire) returns (err: Option<string>)
      requires Valid() && Fresh()
      modifies this, attrs.Values
      ensures err.None? <==> FieldsOf(w).Some? && Loadable(kind, FieldsOf(w).value)
      ensures err.None? ==> values == FieldsOf(w).value && View() == Loaded(kind, values)
    {
      var fields := FieldsOf(w);
      if fields.None? {
        return Some("failed to convert terraform value to transport config");
      }
      values := fields.value;
      hide TFValue, StrFrom, Known, Loaded, ViewOf, View;
      var todo := Known(kind);
      while todo != {}
        invariant todo <= Known(kind) && values == fields.value
        invariant forall a :: a in todo ==> attrs[a].Wrapper() == TfStr(false, true, "")
        invariant forall a :: a in Known(kind) - todo ==>
          (a in values ==> StrFrom(values[a]).Ok?)
          && attrs[a].Value() == if a in values then TFValue(StrFrom(values[a]).value) else Null(TyStr)
      {
        var a :| a in todo;
        if a in values {
          err := attrs[a].FromTFValue(values[a]);
          if err.Some? { return; }
        }
        todo := todo - {a};
      }
      // verifyConfiguration
      if values == map[] {
        return Some("transport configuration cannot be empty");
      }
      if !(values.Keys <= Known(kind)) {
        return Some("unsupported argument");
      }
      AllLoaded();
      return None;
    }

    lemma AllLoaded()
      requires Valid() && values.Keys <= Known(kind)
      requires forall a :: a in Known(kind) ==>
        (a in values ==> StrFrom(values[a]).Ok?)
        && attrs[a].Value() == if a in values then TFValue(StrFrom(values[a]).value) else Null(TyStr)
      requires values != map[]
      ensures View() == Loaded(kind, values)
    {
      hide TFValue, StrFrom, Known;
    }

    method DefaultAttribute(a: string, d: TfString)
      requires Valid() && a in attrs && d !in attrs.Values
      modifies attrs[a]
      ensures View() == old(View())[a := Prefer(old(View()[a]), d.Value())]
    {
      assert attrs[a] in attrs.Values;
      attrs[a].Default(d);
    }

    /** applyDefaults over the attributes of a provider transport, in any order. */
    method ApplyDefaults(defaults: map<string, TfString>) returns (err: Option<string>)
      requires Valid() && defaults.Values !! attrs.Values
      modifies attrs.Values
      ensures err.None? <==> defaults.Keys <= attrs.Keys
      ensures err.None? ==> View() == Merged(old(View()), ViewOf(defaults))
    {
      hide Prefer, Merged, Known, TFValue, StrFrom, HasValue, Valid, View, ViewOf, TfString.Value;
      ghost var own, ds := View(), ViewOf(defaults);
      MergeNone(own, ds);
      var todo := defaults.Keys;
      assert todo == ds.Keys;
      while todo != {}
        invariant todo <= defaults.Keys
        invariant defaults.Keys - todo <= attrs.Keys
        invariant ViewOf(defaults) == ds
        invariant View() == Merged(own, ds - todo)
      {
        var a :| a in todo;
        if a !in attrs {
          return Some("failed to apply default to attribute, since it is missing");
        }
        assert defaults[a] in defaults.Values;
        ViewAt(defaults, a);
        DefaultAttribute(a, defaults[a]);
        MergeOne(own, ds, todo, a);
        todo := todo - {a};
      }
      assert ds - todo == ds;
      return None;
    }
  }

  /** createTransport */
  method NewTransport(kind: Kind) returns (t: Transport)
    ensures fresh(t) && fresh(t.attrs.Values) && t.kind == kind && t.Valid() && t.Fresh() && t.values == map[]
    ensures t.View() == Loaded(kind, map[])
  {
    hide StrFrom, HasValue, Prefer, Loadable, Known;
    var attrs: map<string, TfString> := map[];
    var todo := Known(kind);
    while todo != {}
      invariant todo <= Known(kind) && attrs.Keys == Known(kind) - todo
      invariant forall a :: a in attrs ==> fresh(attrs[a])
      invariant forall a :: a in attrs ==> attrs[a].Wrapper() == TfStr(false, true, "")
      invariant forall a, b :: a in attrs && b in attrs && attrs[a] == attrs[b] ==> a == b
    {
      var a :| a in todo;
      var s := new TfString();
      attrs := attrs[a := s];
      todo := todo - {a};
    }
    t := new Transport(kind, attrs);
  }

  // ---------------------------------------------------------------------------------------------
  // The embedded transport of a resource

  /** A transport as a value: the raw wire values and the current attributes. */
  datatype Snapshot = Snapshot(values: map<string, Wire>, view: map<string, Wire>)

  type Config = map<Kind, Snapshot>

  /** The wire value of a transport that keeps these raw values. */
  function RawWire(k: Kind, values: map<string, Wire>): Wire {
    if values == map[] then Unknown(TyObj(map a | a in Known(k) :: TyStr)) else Obj(values)
  }

  function ConfigWire(c: Config): Wire {
    if c == map[] then Null(TyDyn)
    else Obj(map name | name in KIND_NAMES && KindFrom(name).value in c ::
      RawWire(KindFrom(name).value, c[KindFrom(name).value].values))
  }

  /** A configuration in which every attribute comes from the raw values. */
  ghost predicate Unresolved(c: Config) {
    forall k :: k in c ==>
      (c[k].values == map[] || Loadable(k, c[k].values)) && c[k].view == Loaded(k, c[k].values)
  }

  /** What ApplyDefaults makes of a resource configuration and the provider's. */
  ghost function Resolve(own: Config, provider: Config): Result<Config, string> {
    if |own.Keys| == 1 then
      Ok(map k | k in own ::
        if k in provider then own[k].(view := Merged(own[k].view, provider[k].view)) else own[k])
    else if |own.Keys| == 0 && |provider.Keys| == 1 then
      Ok(map k | k in provider :: Snapshot(map[], Merged(Loaded(k, map[]), provider[k].view)))
    else Err("invalid transport configuration")
  }

  /** The keys of a wire value for the whole transport block, and what each may hold. */
  ghost predicate Acceptable(vals: map<string, Wire>) {
    forall name :: name in vals ==>
      && KindFrom(name).Some?
      && (vals[name].Unknown?
          || (FieldsOf(vals[name]).Some? && Loadable(KindFrom(name).value, FieldsOf(vals[name]).value)))
  }

  method FromDefaults(d: Transport) returns (t: Transport)
    requires d.Valid()
    ensures fresh(t) && fresh(t.attrs.Values) && t.kind == d.kind && t.Valid() && t.values == map[]
    ensures t.View() == Merged(Loaded(d.kind, map[]), d.View())
  {
    hide TFValue, Merged, Loaded, HasValue, Prefer, ViewOf;
    t := NewTransport(d.kind);
    var err := t.ApplyDefaults(d.attrs);
    assert err.None?;
  }

  class Embedded {
    var transports: map<Kind, Transport>
    var resolved: Transport?        // the transport that was resolved after applying defaults
    ghost var cells: set<TfString>  // the attribute pointers of all transports

    constructor ()
      ensures transports == map[] && cells == {}
    {
      transports, resolved, cells := map[], null, {};
    }

    ghost predicate Valid()
      reads `transports, `cells
    {
      forall k :: k in transports ==>
        transports[k].kind == k && transports[k].Valid() && transports[k].attrs.Values <= cells
    }

    ghost function Snap(): (c: Config)
      requires Valid()
      reads `transports, `cells, transports.Values, cells
      ensures c.Keys == transports.Keys
    {
      map k | k in transports :: Snapshot(transports[k].values, transports[k].View())
    }

    /** What Terraform is given back; the keys are the type names of the transports. */
    function Terraform5Value(): Wire
      reads `transports, transports.Values
    {
      if transports == map[] then Null(TyDyn)
      else Obj(map name | name in KIND_NAMES && KindFrom(name).value in transports ::
        transports[KindFrom(name).value].Terraform5Value())
    }

    lemma WireOfSnap()
      requires Valid()
      ensures Terraform5Value() == ConfigWire(Snap())
    {
      hide TFValue, Known, ViewOf, Transport.Valid, Transport.View, KindName;
      if transports != map[] {
        assert Terraform5Value().fields == ConfigWire(Snap()).fields;
      }
    }

    method Add(t: Transport)
      requires Valid() && t.Valid()
      modifies this
      ensures Valid()
      ensures transports == old(transports)[t.kind := t] && cells == old(cells) + t.attrs.Values
      ensures Snap() == old(Snap())[t.kind := Snapshot(t.values, t.View())]
    {
      hide TFValue, Known;
      transports := transports[t.kind := t];
      cells := cells + t.attrs.Values;
    }

    method FromTerraform5Value(val: Wire) returns (err: Option<string>)
      requires Valid() && transports == map[]
      modifies this
      ensures Valid()
      ensures err.None? <==> FieldsOf(val).Some? && Acceptable(FieldsOf(val).value)
      ensures err.None? ==> Snap() == LoadedConfig(FieldsOf(val).value)
      ensures (forall k :: k in transports ==> fresh(transports[k])) && fresh(cells - old(cells))
    {
      hide Loaded, Loadable, TFValue, StrFrom, Known, LoadedConfig, Acceptable, Snap, Transport.Valid, Transport.View;
      var vals := FieldsOf(val);
      if vals.None? { return Some("the transport is not an object"); }
      var todo := vals.value.Keys;
      LoadNone(vals.value);
      while todo != {}
        invariant Valid() && todo <= vals.value.Keys
        invariant (forall k :: k in transports ==> fresh(transports[k])) && fresh(cells - old(cells))
        invariant Acceptable(vals.value - todo)
        invariant Snap() == LoadedConfig(vals.value - todo)
      {
        var name :| name in todo;
        var kind := KindFrom(name);
        if kind.None? {
          NotAcceptable(vals.value, name);
          return Some("failed to unmarshall unknown transport config");
        }
        var t := LoadTransport(kind.value, vals.value[name]);
        if t.Err? {
          NotAcceptable(vals.value, name);
          return Some(t.error);
        }
        LoadOne(vals.value - todo, name, vals.value[name]);
        assert vals.value - (todo - {name}) == (vals.value - todo)[name := vals.value[name]];
        Add(t.value);
        todo := todo - {name};
      }
      assert vals.value - todo == vals.value;
      return None;
    }

    /** An independent transport with the same raw values; nothing of this one is touched. */
    method Copy() returns (r: Result<Embedded, string>)
      requires Valid()
      ensures r.Ok? <==> forall k :: k in Snap() ==>
        Snap()[k].values == map[] || Loadable(k, Snap()[k].values)
      ensures r.Ok? ==>
        && fresh(r.value) && fresh(r.value.cells) && r.value.Valid()
        && (forall k :: k in r.value.transports ==> fresh(r.value.transports[k]))
        && r.value.Terraform5Value() == Terraform5Value()
        && Unresolved(r.value.Snap())
        && r.value.Snap().Keys == Snap().Keys
        && (forall k :: k in transports ==> r.value.Snap()[k].values == Snap()[k].values)
    {
      hide Loaded, Loadable, TFValue, StrFrom, Known, LoadedConfig, Acceptable, ConfigWire, Transport.Valid, ViewOf;
      hide Snap, FieldsOf, Unresolved, Transport.View, Embedded.Terraform5Value;
      var c := new Embedded();
      WireOfSnap();
      ghost var snap := Snap();
      Reload(snap);
      var err := c.FromTerraform5Value(Terraform5Value());
      assert Snap() == snap;
      if err.Some? { return Err(err.value); }
      c.WireOfSnap();
      return Ok(c);
    }

    /** The single configured transport; map iteration stops at a second one. */
    method GetConfiguredTransport() returns (r: Result<Transport, string>)
      requires Valid()
      ensures r.Ok? <==> |transports.Keys| == 1
      ensures r.Ok? ==> transports == map[r.value.kind := r.value]
    {
      hide Transport.Valid;
      var found: Option<Kind> := None;
      var todo := transports.Keys;
      while todo != {}
        invariant todo <= transports.Keys
        invariant found.None? ==> todo == transports.Keys
        invariant found.Some? ==> found.value in transports && todo == transports.Keys - {found.value}
      {
        var k :| k in todo;
        if found.Some? {
          TwoKeys(transports.Keys, found.value, k);
          return Err("only one transport can be configured");
        }
        found := Some(k);
        todo := todo - {k};
      }
      if found.None? { return Err("no transport configured"); }
      OneKey(transports, found.value);
      return Ok(transports[found.value]);
    }

    /** ApplyDefaults when one transport is configured. */
    method MergeDefaults(k: Kind, provider: Embedded)
      requires Valid() && transports.Keys == {k} && provider.Valid() && provider != this && provider.cells !! cells
      modifies cells
      ensures provider.Snap() == old(provider.Snap())
      ensures Snap() == map[k := if k in provider.transports then
          old(Snap()[k]).(view := Merged(old(Snap()[k].view), provider.Snap()[k].view)) else old(Snap()[k])]
    {
      hide TFValue, Known, Merged, HasValue, Prefer, ViewOf, Snap;
      var t := transports[k];
      ghost var own := t.View();
      SnapOne(k);
      if k in provider.transports {
        var d := provider.transports[k];
        provider.SnapAt(k);
        assert d.attrs.Values <= provider.cells && t.attrs.Values <= cells;
        ghost var ds := d.View();
        var err := t.ApplyDefaults(d.attrs);
        SnapOne(k);
      }
    }

    lemma SnapOne(k: Kind)
      requires Valid() && transports.Keys == {k}
      ensures Snap() == map[k := Snapshot(transports[k].values, transports[k].View())]
    {
      hide Known, ViewOf, Transport.Valid, Transport.View;
    }

    lemma SnapAt(k: Kind)
      requires Valid() && k in transports
      ensures Snap()[k] == Snapshot(transports[k].values, transports[k].View())
    {
      hide Known, ViewOf, Transport.Valid, Transport.View;
    }

    /** ApplyDefaults when the resource has no transport block. */
    method AdoptDefaults(k: Kind, provider: Embedded) returns (t: Transport)
      requires Valid() && transports == map[] && k in provider.transports
      requires provider.Valid() && provider != this && provider.cells !! cells
      modifies this
      ensures Valid() && t.kind == k && transports == map[k := t] && provider.Snap() == old(provider.Snap())
      ensures Snap() == map[k := Snapshot(map[], Merged(Loaded(k, map[]), provider.Snap()[k].view))]
    {
      hide TFValue, Known, Merged, Loaded, HasValue, Prefer, ViewOf, Transport.View;
      var d := provider.transports[k];
      assert d.attrs.Values <= provider.cells;
      t := FromDefaults(d);
      Add(t);
    }

    method ResolveFromProvider(provider: Embedded) returns (r: Result<Transport, string>)
      requires Valid() && transports == map[]
      requires provider.Valid() && provider != this && provider.cells !! cells
      modifies this
      ensures Valid() && provider.Snap() == old(provider.Snap())
      ensures r.Ok? <==> Resolve(old(Snap()), provider.Snap()).Ok?
      ensures Snap() == if r.Ok? then Resolve(old(Snap()), provider.Snap()).value else old(Snap())
      ensures r.Ok? ==> transports == map[r.value.kind := r.value]
    {
      hide TFValue, Known, Merged, Loaded, Resolve, Snap, Transport.Valid, Transport.View, Embedded.Valid;
      ResolveCases(Snap(), provider.Snap());
      r := provider.GetConfiguredTransport();
      if r.Err? { return r; }
      var t := AdoptDefaults(r.value.kind, provider);
      return Ok(t);
    }

    /** The provider's attributes go behind those of the configured transport, or stand alone. */
    method ApplyDefaults(provider: Embedded) returns (r: Result<Transport, string>)
      requires Valid() && provider.Valid() && provider != this && provider.cells !! cells
      modifies this, cells
      ensures Valid() && provider.Snap() == old(provider.Snap())
      ensures r.Ok? <==> Resolve(old(Snap()), provider.Snap()).Ok?
      ensures Snap() == if r.Ok? then Resolve(old(Snap()), provider.Snap()).value else old(Snap())
      ensures r.Ok? ==> transports == map[r.value.kind := r.value]
    {
      hide TFValue, Known, Merged, Loaded, Resolve, Snap, Transport.Valid, Transport.View, Embedded.Valid;
      if |transports.Keys| == 0 {
        r := ResolveFromProvider(provider);
        return r;
      }
      ResolveCases(Snap(), provider.Snap());
      if |transports.Keys| == 1 {
        r := GetConfiguredTransport();
        MergeDefaults(r.value.kind, provider);
        return r;
      }
      return Err("only one transport can be configured");
    }
  }

  lemma TwoKeys(s: set<Kind>, k: Kind, j: Kind)
    requires k in s && j in s && k != j
    ensures |s| > 1
  {
    assert s == {k, j} + (s - {k, j});
  }

  lemma OneKey<T>(m: map<Kind, T>, k: Kind)
    requires k in m && m.Keys - {k} == {}
    ensures m == map[k := m[k]] && |m.Keys| == 1
  {
    assert m.Keys == {k};
  }

  lemma ResolveCases(own: Config, provider: Config)
    ensures Resolve(own, provider).Ok? <==> |own.Keys| == 1 || (|own.Keys| == 0 && |provider.Keys| == 1)
    ensures forall k :: own.Keys == {k} ==>
      Resolve(own, provider) ==
              Ok(map[k := if k in provider then own[k].(view := Merged(own[k].view, provider[k].view)) else own[k]])
    ensures forall k :: own == map[] && provider.Keys == {k} ==>
      Resolve(own, provider) == Ok(map[k := Snapshot(map[], Merged(Loaded(k, map[]), provider[k].view))])
  {
    hide Merged, Loaded;
    forall k | own.Keys == {k}
      ensures Resolve(own, provider) ==
              Ok(map[k := if k in provider then own[k].(view := Merged(own[k].view, provider[k].view)) else own[k]])
    {
      assert |own.Keys| == 1;
      assert Resolve(own, provider).value ==
              map[k := if k in provider then own[k].(view := Merged(own[k].view, provider[k].view)) else own[k]];
    }
    forall k | own == map[] && provider.Keys == {k}
      ensures Resolve(own, provider) == Ok(map[k := Snapshot(map[], Merged(Loaded(k, map[]), provider[k].view))])
    {
      assert |provider.Keys| == 1;
      assert Resolve(own, provider).value == map[k := Snapshot(map[], Merged(Loaded(k, map[]), provider[k].view))];
    }
  }

  /** The configuration that FromTerraform5Value reads. */
  ghost function LoadedConfig(vals: map<string, Wire>): Config
    requires Acceptable(vals)
  {
    map k: Kind | KindName(k) in vals ::
      var v := vals[KindName(k)];
      var values := if v.Unknown? then map[] else FieldsOf(v).value;
      Snapshot(values, Loaded(k, values))
  }

  lemma LoadNone(vals: map<string, Wire>)
    ensures Acceptable(vals - vals.Keys) && LoadedConfig(vals - vals.Keys) == map[]
  {
  }

  lemma NotAcceptable(vals: map<string, Wire>, name: string)
    requires name in vals
    requires KindFrom(name).None?
          || !(vals[name].Unknown?
              || (FieldsOf(vals[name]).Some? && Loadable(KindFrom(name).value, FieldsOf(vals[name]).value)))
    ensures !Acceptable(vals)
  {
  }

  /** Every kind of transport by the name of its block, and the attributes it may have. */
  lemma AcceptableIff(vals: map<string, Wire>)
    ensures Acceptable(vals) <==>
            forall name :: name in vals ==>
              && name in {"ssh", "kubernetes", "nomad"}
              && (vals[name].Unknown? || (FieldsOf(vals[name]).Some? && BlockOk(name, FieldsOf(vals[name]).value)))
  {
    forall k: Kind, values ensures Loadable(k, values) <==> BlockOk(KindName(k), values) { BlockOkIff(k, values); }
    KindNames();
    hide KindName, KindFrom, KIND_NAMES, Loadable, BlockOk, FieldsOf;
    NamesAre();
    forall name | name in vals && KindFrom(name).Some? ensures KindName(KindFrom(name).value) == name {}
  }

  lemma NamesAre()
    ensures forall name :: KindFrom(name).Some? <==> name in {"ssh", "kubernetes", "nomad"}
    ensures KindFrom("ssh") == Some(SSH) && KindFrom("kubernetes") == Some(K8S) && KindFrom("nomad") == Some(NOMAD)
  {
  }

  /** A block that is not empty, has no other attributes than these, and only strings, nulls and unknown strings. */
  ghost predicate BlockOk(name: string, values: map<string, Wire>) {
    && values != map[]
    && (forall a :: a in values ==>
          values[a].Str? || values[a].Null? || values[a] == Unknown(TyDyn) || values[a] == Unknown(TyStr))
    && (name == "ssh" ==>
          values.Keys <= {"user", "host", "private_key", "private_key_path", "passphrase", "passphrase_path"})
    && (name == "kubernetes" ==> values.Keys <= {"kubeconfig_base64", "context_name", "namespace", "pod", "container"})
    && (name == "nomad" ==> values.Keys <= {"host", "secret_id", "allocation_id", "task_name"})
  }

  lemma BlockOkIff(k: Kind, values: map<string, Wire>)
    ensures Loadable(k, values) <==> BlockOk(KindName(k), values)
  {
  }

  /** What a Copy reads back from the wire value of its original. */
  lemma {:induction false} Reload(c: Config)
    ensures FieldsOf(ConfigWire(c)).Some?
    ensures var vals := FieldsOf(ConfigWire(c)).value;
            && (Acceptable(vals) <==> forall k :: k in c ==> c[k].values == map[] || Loadable(k, c[k].values))
            && (Acceptable(vals) ==>
                  var d := LoadedConfig(vals);
                  && d.Keys == c.Keys && (forall k :: k in c ==> d[k].values == c[k].values)
                  && Unresolved(d) && ConfigWire(d) == ConfigWire(c))
  {
    hide Loaded, TFValue, StrFrom, Known;
    KindNames();
    hide KindName, KindFrom, KIND_NAMES;
    var vals := FieldsOf(ConfigWire(c)).value;
    forall k | k in c ensures KindName(k) in vals && vals[KindName(k)] == RawWire(k, c[k].values) {}
    if Acceptable(vals) {
      var d := LoadedConfig(vals);
      forall k | k in c ensures k in d && d[k].values == c[k].values {}
      assert d.Keys == c.Keys;
      hide RawWire, Unresolved;
      LoadedIsUnresolved(vals);
      SameWire(c, d);
    }
  }

  lemma SameWire(c: Config, d: Config)
    requires d.Keys == c.Keys && forall k :: k in c ==> d[k].values == c[k].values
    ensures ConfigWire(d) == ConfigWire(c)
  {
    hide RawWire, KindName, KindFrom, KIND_NAMES;
    assert d == map[] <==> c == map[];
  }

  lemma LoadedIsUnresolved(vals: map<string, Wire>)
    requires Acceptable(vals)
    ensures Unresolved(LoadedConfig(vals))
  {
    KindNames();
    hide Loaded, Loadable, KindName, KindFrom, KIND_NAMES;
  }

  lemma LoadOne(read: map<string, Wire>, name: string, v: Wire)
    requires Acceptable(read) && KindFrom(name).Some?
    requires v.Unknown? || (FieldsOf(v).Some? && Loadable(KindFrom(name).value, FieldsOf(v).value))
    ensures Acceptable(read[name := v])
    ensures var values := if v.Unknown? then map[] else FieldsOf(v).value;
            var kind := KindFrom(name).value;
            LoadedConfig(read[name := v]) == LoadedConfig(read)[kind := Snapshot(values, Loaded(kind, values))]
  {
    KindNames();
    hide KindName, KindFrom, KIND_NAMES, Loadable, Loaded, FieldsOf;
  }

  method LoadTransport(kind: Kind, val: Wire) returns (r: Result<Transport, string>)
    ensures r.Ok? <==> val.Unknown? || (FieldsOf(val).Some? && Loadable(kind, FieldsOf(val).value))
    ensures r.Ok? ==>
      var values := if val.Unknown? then map[] else FieldsOf(val).value;
      && fresh(r.value) && fresh(r.value.attrs.Values) && r.value.kind == kind && r.value.Valid()
      && r.value.values == values && r.value.View() == Loaded(kind, values)
  {
    var t := NewTransport(kind);
    if !val.Unknown? {
      var err := t.FromTerraform5Value(val);
      if err.Some? { return Err(err.value); }
    }
    return Ok(t);
  }

  // ---------------------------------------------------------------------------------------------
  // The helpers of transport_resource_util.go

  /**
   Copy first, then default: what the plan, apply and read helpers do. The resource's own value is
   what it was, the provider is untouched, and the copy carries the resolved configuration.
   */
  method CopyThenDefault(own: Embedded, provider: Embedded) returns (r: Result<Embedded, string>)
    requires own.Valid() && provider.Valid() && provider != own && Unresolved(own.Snap())
    modifies own`resolved
    ensures own.Valid() && own.Snap() == old(own.Snap())
    ensures own.Terraform5Value() == old(own.Terraform5Value())
    ensures provider.Valid() && provider.Snap() == old(provider.Snap())
    ensures r.Ok? <==> Resolve(own.Snap(), provider.Snap()).Ok?
    ensures r.Ok? ==> fresh(r.value) && r.value.Valid() && r.value.Snap() == Resolve(own.Snap(), provider.Snap()).value
    ensures r.Ok? ==> own.resolved != null && r.value.transports == map[own.resolved.kind := own.resolved]
  {
    hide Unresolved;
    hide TFValue, Known, Merged, Loaded, Loadable, Resolve, HasValue, Prefer, FieldsOf;
    hide Transport.Valid, Transport.View, Transport.Terraform5Value;
    hide Embedded.Valid, Embedded.Terraform5Value, Embedded.Snap;
    r := ExactCopy(own);
    var t := r.value.ApplyDefaults(provider);
    if t.Err? { return Err(t.error); }
    own.resolved := t.value;
  }

  /** A copy of an embedded transport that has not been resolved has the same configuration. */
  method ExactCopy(own: Embedded) returns (r: Result<Embedded, string>)
    requires own.Valid() && Unresolved(own.Snap())
    ensures r.Ok? && fresh(r.value) && fresh(r.value.cells) && r.value.Valid()
    ensures forall k :: k in r.value.transports ==> fresh(r.value.transports[k])
    ensures r.value.Snap() == own.Snap()
  {
    hide Unresolved, Loaded, Loadable, Transport.Valid, Embedded.Terraform5Value, Embedded.Snap;
    CanReload(own.Snap());
    r := own.Copy();
    SameConfig(own.Snap(), r.value.Snap());
  }

  lemma CanReload(c: Config)
    requires Unresolved(c)
    ensures forall k :: k in c ==> c[k].values == map[] || Loadable(k, c[k].values)
  {
  }

  lemma SameConfig(c: Config, d: Config)
    requires Unresolved(c) && Unresolved(d) && c.Keys == d.Keys && forall k :: k in c ==> c[k].values == d[k].values
    ensures c == d
  {
  }

  /** A configuration whose attributes are those of its kinds. */
  ghost predicate Shaped(c: Config) {
    forall k :: k in c ==> c[k].view.Keys == Known(k)
  }

  /**
   The resolved value of an attribute is the first of: the resource's value if it has one, the
   provider's value if it has one, what the resource has. Resolving a second time changes nothing.
   */
  lemma Precedence(own: Config, provider: Config)
    requires Shaped(own) && Shaped(provider) && (|own| == 1 || (|own| == 0 && |provider| == 1))
    ensures Resolve(own, provider).Ok?
    ensures var c := Resolve(own, provider).value;
            && |c.Keys| == 1 && (own.Keys == {} ==> c.Keys == provider.Keys) && (own.Keys != {} ==> c.Keys == own.Keys)
            && (forall k, a :: k in c && a in Known(k) ==>
                  a in c[k].view &&
                  c[k].view[a] ==
                    if k in own && !own[k].view[a].Null? && !own[k].view[a].Unknown? then own[k].view[a]
                    else if k in provider && !provider[k].view[a].Null? && !provider[k].view[a].Unknown?
                    then provider[k].view[a]
                    else if k in own then own[k].view[a] else Null(TyStr))
            && (forall k :: k in c ==> c[k].values == if k in own then own[k].values else map[])
            && Resolve(c, provider) == Ok(c)
  {
    assert |own.Keys| == |own| && |provider.Keys| == |provider|;
    ResolveCases(own, provider);
    hide Known, HasValue, Prefer, TFValue, StrFrom;
    var k := if own.Keys == {} then Only(provider.Keys) else Only(own.Keys);
    var view := if k in own then own[k].view else Loaded(k, map[]);
    assert view.Keys == Known(k);
    if k in provider {
      MergedAt(view, provider[k].view);
    }
    hide Merged, Loaded, Resolve;
    var c := Resolve(own, provider).value;
    if k !in own { assert forall a :: a in view ==> view[a] == Null(TyStr) by { NothingLoaded(k); } }
    assert c.Keys == {k} && c[k].view == if k in provider then Merged(view, provider[k].view) else view;
    ResolveCases(c, provider);
  }

  lemma NothingLoaded(k: Kind)
    ensures Loaded(k, map[]).Keys == Known(k) && forall a :: a in Known(k) ==> Loaded(k, map[])[a] == Null(TyStr)
  {
  }

  function Only(s: set<Kind>): (k: Kind)
    requires |s| == 1
    ensures s == {k}
  {
    assert s != {};
    assert forall j, k :: j in s && k in s ==> j == k by {
      forall j, k | j in s && k in s ensures j == k {
        assert {j, k} <= s && |s - {j, k}| == |s| - |{j, k}|;
      }
    }
    var k :| k in s;
    k
  }

  lemma MergedAt(own: map<string, Wire>, defaults: map<string, Wire>)
    ensures Merged(own, defaults).Keys == own.Keys
    ensures forall a :: a in own ==>
      Merged(own, defaults)[a] ==
        (if !own[a].Null? && !own[a].Unknown? then own[a]
         else if a in defaults && !defaults[a].Null? && !defaults[a].Unknown? then defaults[a]
         else own[a])
    ensures Merged(Merged(own, defaults), defaults) == Merged(own, defaults)
  {
  }
}
