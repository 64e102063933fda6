/**
 The Terraform value layer (internal/plugin/tftypes.go): wire values in, tf* wrappers in the
 middle, wire values out.
 */
module TfValues {
  import opened Wrappers

  // ---------------------------------------------------------------------------------------------
  // Wire values

  /** tftypes.Type; sets and tuples are `TyOther`, the provider supports neither. */
  datatype Ty =
    | TyBool | TyNum | TyStr | TyDyn
    | TyList(elem: Ty) | TyMap(elem: Ty) | TyObj(attrs: map<string, Ty>) | TyOther(name: string)

  /** tftypes.Value */
  datatype Wire =
    | Null(ty: Ty) | Unknown(ty: Ty)
    | Bool(b: bool) | Num(n: real) | Str(s: string)
    | List(elem: Ty, items: seq<Wire>) | Map(elem: Ty, entries: map<string, Wire>)
    | Obj(fields: map<string, Wire>) | Other(name: string)

  function TypeOf(w: Wire): Ty {
    match w
    case Null(ty) => ty
    case Unknown(ty) => ty
    case Bool(_) => TyBool
    case Num(_) => TyNum
    case Str(_) => TyStr
    case List(elem, _) => TyList(elem)
    case Map(elem, _) => TyMap(elem)
    case Obj(fields) => TyObj(map k | k in fields :: TypeOf(fields[k]))
    case Other(name) => TyOther(name)
  }

  /** Collection elements have the declared element type, so tftypes.NewValue takes the value. */
  ghost predicate WellFormed(w: Wire) {
    match w
    case List(elem, items) => forall i :: 0 <= i < |items| ==> TypeOf(items[i]) == elem && WellFormed(items[i])
    case Map(elem, entries) => forall k :: k in entries ==> TypeOf(entries[k]) == elem && WellFormed(entries[k])
    case Obj(fields) => forall k :: k in fields ==> WellFormed(fields[k])
    case _ => true
  }

  /**
   What the default case of tfObject treats as an object. It names lists of objects too, but every
   list has been taken by an earlier case: Is compares the kind of a list or map, not its elements.
   */
  predicate ObjectLike(ty: Ty) {
    ty.TyObj? || (ty.TyList? && ty.elem.TyObj?)
  }

  // ---------------------------------------------------------------------------------------------
  // Wrappers

  /** The tf* wrappers with their flags as the source sets them; Raw is an unconverted value. */
  datatype Tf =
    | TfBool(unknown: bool, isNull: bool, bval: bool)
    | TfNum(unknown: bool, isNull: bool, nval: int)
    | TfStr(unknown: bool, isNull: bool, sval: string)
    | TfList(unknown: bool, isNull: bool, items: seq<Tf>)
    | TfMap(unknown: bool, isNull: bool, entries: map<string, Tf>)
    | TfObj(unknown: bool, isNull: bool, attrs: map<string, Tf>)
    | TfRaw(raw: Wire)

  const MAX_INT64: int := 0x7fff_ffff_ffff_ffff
  const MIN_INT64: int := -0x8000_0000_0000_0000

  /** big.Float.Int64: truncation toward zero, saturating at the ends of int64. */
  function ToInt64(r: real): int {
    var t := if r >= 0.0 then r.Floor else -((-r).Floor);
    if t > MAX_INT64 then MAX_INT64 else if t < MIN_INT64 then MIN_INT64 else t
  }

  /** The fraction is cut off, and a number beyond int64 becomes the end that is nearer. */
  lemma ToInt64Is(r: real)
    ensures r >= 9_223_372_036_854_775_807.0 ==> ToInt64(r) == 9_223_372_036_854_775_807
    ensures r <= -9_223_372_036_854_775_808.0 ==> ToInt64(r) == -9_223_372_036_854_775_808
    ensures 0.0 <= r < 9_223_372_036_854_775_807.0 ==> ToInt64(r) as real <= r < ToInt64(r) as real + 1.0
    ensures -9_223_372_036_854_775_808.0 < r < 0.0 ==> ToInt64(r) as real - 1.0 < r <= ToInt64(r) as real
  {
  }

  predicate IsUnknown(w: Wire, ty: Ty) { w == Unknown(TyDyn) || w == Unknown(ty) }

  predicate IsNull(w: Wire, ty: Ty) { w == Null(TyDyn) || w == Null(ty) }

  function TypeMismatch<T>(): Result<T, string> { Err("can't unmarshal into the wrapper's type") }

  // Each FromTFValue on a fresh wrapper. Value.As turns a null of another type into a zero value.

  function BoolFrom(w: Wire): Result<Tf, string> {
    if IsUnknown(w, TyBool) then Ok(TfBool(true, true, false))
    else if IsNull(w, TyBool) then Ok(TfBool(false, true, false))
    else match w
      case Null(_) => Ok(TfBool(false, false, false))
      case Bool(b) => Ok(TfBool(false, false, b))
      case _ => TypeMismatch()
  }

  function NumFrom(w: Wire): Result<Tf, string> {
    if IsUnknown(w, TyNum) then Ok(TfNum(true, true, 0))
    else if IsNull(w, TyNum) then Ok(TfNum(false, true, 0))
    else match w
      case Null(_) => Ok(TfNum(false, false, 0))
      case Num(n) => Ok(TfNum(false, false, ToInt64(n)))
      case _ => TypeMismatch()
  }

  function StrFrom(w: Wire): Result<Tf, string> {
    if IsUnknown(w, TyStr) then Ok(TfStr(true, true, ""))
    else if IsNull(w, TyStr) then Ok(TfStr(false, true, ""))
    else match w
      case Null(_) => Ok(TfStr(false, false, ""))
      case Str(s) => Ok(TfStr(false, false, s))
      case _ => TypeMismatch()
  }

  ghost predicate AllOk(ws: seq<Wire>) {
    forall i :: 0 <= i < |ws| ==> StrFrom(ws[i]).Ok?
  }

  ghost function ListFrom(w: Wire): Result<Tf, string> {
    if IsUnknown(w, TyList(TyStr)) then Ok(TfList(true, true, []))
    else if IsNull(w, TyList(TyStr)) then Ok(TfList(false, true, []))
    else match w
      case Null(_) => Ok(TfList(false, false, []))
      case List(_, items) =>
        if AllOk(items) then
          Ok(TfList(false, false, seq(|items|, i requires 0 <= i < |items| => StrFrom(items[i]).value)))
        else TypeMismatch()
      case _ => TypeMismatch()
  }

  ghost function MapFrom(w: Wire): Result<Tf, string> {
    if IsUnknown(w, TyMap(TyStr)) then Ok(TfMap(true, true, map[]))
    else if IsNull(w, TyMap(TyStr)) then Ok(TfMap(false, true, map[]))
    else match w
      case Null(_) => Ok(TfMap(false, false, map[]))
      case Map(_, entries) => StrEntriesFrom(entries)
      case Obj(fields) => StrEntriesFrom(fields)
      case _ => TypeMismatch()
  }

  ghost function StrEntriesFrom(m: map<string, Wire>): Result<Tf, string> {
    if forall k :: k in m ==> StrFrom(m[k]).Ok? then
      Ok(TfMap(false, false, map k | k in m :: StrFrom(m[k]).value))
    else TypeMismatch()
  }

  /** One attribute inside tfObject.FromTFValue: the wrapper is chosen by the wire type. */
  ghost function AttrFrom(w: Wire): Result<Tf, string>
    decreases w, 1
  {
    var ty := TypeOf(w);
    if ty == TyBool then BoolFrom(w)
    else if ty == TyStr then StrFrom(w)
    else if ty == TyNum then NumFrom(w)
    else if ty.TyList? then ListFrom(w)
    else if ty.TyMap? then MapFrom(w)
    else if ty == TyDyn && w.Unknown? then Ok(TfRaw(w))
    else if ObjectLike(ty) then ObjFrom(w)
    else Err("marshaling of the type has not been implemented")
  }

  ghost function ObjFrom(w: Wire): Result<Tf, string>
    decreases w, 0
  {
    match w
    case Unknown(_) => Ok(TfObj(true, true, map[]))
    case Null(ty) => Ok(TfObj(false, ty == TyDyn, map[]))
    case Obj(fields) =>
      if forall k :: k in fields ==> AttrFrom(fields[k]).Ok? then
        Ok(TfObj(false, false, map k | k in fields :: AttrFrom(fields[k]).value))
      else Err("an attribute cannot be converted")
    case Map(_, entries) =>
      if forall k :: k in entries ==> AttrFrom(entries[k]).Ok? then
        Ok(TfObj(false, false, map k | k in entries :: AttrFrom(entries[k]).value))
      else Err("an attribute cannot be converted")
    case _ => TypeMismatch()
  }

  /** TFType; a tfObject derives its attribute types from its values. */
  function TFType(v: Tf): Ty {
    match v
    case TfBool(_, _, _) => TyBool
    case TfNum(_, _, _) => TyNum
    case TfStr(_, _, _) => TyStr
    case TfList(_, _, _) => TyList(TyStr)
    case TfMap(_, _, _) => TyMap(TyStr)
    case TfObj(_, _, attrs) => TyObj(map k | k in attrs :: TFType(attrs[k]))
    case TfRaw(w) => TypeOf(w)
  }

  /** TFValue */
  function TFValue(v: Tf): Wire {
    match v
    case TfBool(u, n, b) => if u then Unknown(TyBool) else if n then Null(TyBool) else Bool(b)
    case TfNum(u, n, i) => if u then Unknown(TyNum) else if n then Null(TyNum) else Num(i as real)
    case TfStr(u, n, s) => if u then Unknown(TyStr) else if n then Null(TyStr) else Str(s)
    case TfList(u, n, items) =>
      if u then Unknown(TyList(TyStr)) else if n || items == [] then Null(TyList(TyStr))
      else List(TyStr, seq(|items|, i requires 0 <= i < |items| => TFValue(items[i])))
    case TfMap(u, n, entries) =>
      if u then Unknown(TyMap(TyStr)) else if n || entries == map[] then Null(TyMap(TyStr))
      else Map(TyStr, map k | k in entries :: TFValue(entries[k]))
    case TfObj(u, n, attrs) =>
      if u then Unknown(TFType(v)) else if n || attrs == map[] then Null(TFType(v))
      else Obj(map k | k in attrs :: TFValue(attrs[k]))
    case TfRaw(w) => w
  }

  // ---------------------------------------------------------------------------------------------
  // The round trip

  /** An element that a string wrapper takes: a string, a null of any type, an unknown string. */
  predicate StringLike(w: Wire) {
    w.Str? || w.Null? || IsUnknown(w, TyStr)
  }

  /** The shapes an attribute may have for FromTFValue to accept it. */
  ghost predicate SupportedAttr(w: Wire) {
    match w
    case Null(ty) => ty.TyBool? || ty.TyNum? || ty.TyStr? || ty.TyList? || ty.TyMap? || ty.TyObj?
    case Unknown(ty) => ty.TyBool? || ty.TyNum? || ty.TyStr? || ty.TyDyn? || ty.TyObj?
                     || ty == TyList(TyStr) || ty == TyMap(TyStr)
    case List(_, items) => forall i :: 0 <= i < |items| ==> StringLike(items[i])
    case Map(_, entries) => forall k :: k in entries ==> StringLike(entries[k])
    case Obj(fields) => forall k :: k in fields ==> SupportedAttr(fields[k])
    case Other(_) => false
    case _ => true
  }

  /** The shapes a whole object may have; a map value is read as an object. */
  ghost predicate Supported(w: Wire) {
    match w
    case Null(_) => true
    case Unknown(_) => true
    case Obj(fields) => forall k :: k in fields ==> SupportedAttr(fields[k])
    case Map(_, entries) => forall k :: k in entries ==> SupportedAttr(entries[k])
    case _ => false
  }

  const EMPTY_OBJECT := TyObj(map[])

  /** An element of a list or map as a string: a null of another type has become the empty string. */
  function NormStr(w: Wire): Wire {
    match w
    case Unknown(_) => Unknown(TyStr)
    case Null(ty) => if ty == TyStr || ty == TyDyn then Null(TyStr) else Str("")
    case _ => w
  }

  /**
   The normal form of an attribute: collections are of strings, empty ones are null, null and
   unknown objects lose their type, numbers are int64; everything else is kept.
   */
  function NormAttr(w: Wire): Wire {
    match w
    case Null(ty) =>
      if ty.TyObj? then Null(EMPTY_OBJECT)
      else if ty.TyList? then Null(TyList(TyStr)) else if ty.TyMap? then Null(TyMap(TyStr)) else w
    case Unknown(ty) => if ty.TyObj? then Unknown(EMPTY_OBJECT) else w
    case Num(n) => Num(ToInt64(n) as real)
    case List(_, items) =>
      if items == [] then Null(TyList(TyStr))
      else List(TyStr, seq(|items|, i requires 0 <= i < |items| => NormStr(items[i])))
    case Map(_, entries) =>
      if entries == map[] then Null(TyMap(TyStr)) else Map(TyStr, map k | k in entries :: NormStr(entries[k]))
    case Obj(fields) =>
      if fields == map[] then Null(EMPTY_OBJECT) else Obj(map k | k in fields :: NormAttr(fields[k]))
    case _ => w
  }

  function Norm(w: Wire): Wire {
    match w
    case Null(_) => Null(EMPTY_OBJECT)
    case Unknown(_) => Unknown(EMPTY_OBJECT)
    case Map(_, entries) => NormAttr(Obj(entries))
    case _ => NormAttr(w)
  }

  lemma StrRoundTrip(w: Wire)
    ensures StrFrom(w).Ok? <==> StringLike(w)
    ensures StringLike(w) ==> TFValue(StrFrom(w).value) == NormStr(w)
  {
  }

  lemma ListRoundTrip(w: Wire)
    requires TypeOf(w).TyList?
    ensures ListFrom(w).Ok? <==> SupportedAttr(w)
    ensures SupportedAttr(w) ==> TFValue(ListFrom(w).value) == NormAttr(w)
  {
    if w.List? {
      forall i | 0 <= i < |w.items|
        ensures StrFrom(w.items[i]).Ok? <==> StringLike(w.items[i])
        ensures StringLike(w.items[i]) ==> TFValue(StrFrom(w.items[i]).value) == NormStr(w.items[i])
      {
        StrRoundTrip(w.items[i]);
      }
      hide StrFrom, NormStr, StringLike;
      if SupportedAttr(w) && w.items != [] {
        assert TFValue(ListFrom(w).value).items == NormAttr(w).items;
      }
    }
  }

  lemma StrEntriesRoundTrip(m: map<string, Wire>)
    ensures StrEntriesFrom(m).Ok? <==> forall k :: k in m ==> StringLike(m[k])
    ensures StrEntriesFrom(m).Ok? ==>
              TFValue(StrEntriesFrom(m).value) ==
              if m == map[] then Null(TyMap(TyStr)) else Map(TyStr, map k | k in m :: NormStr(m[k]))
  {
    forall k | k in m
      ensures StrFrom(m[k]).Ok? <==> StringLike(m[k])
      ensures StringLike(m[k]) ==> TFValue(StrFrom(m[k]).value) == NormStr(m[k])
    {
      StrRoundTrip(m[k]);
    }
    hide StrFrom, NormStr, StringLike;
    if StrEntriesFrom(m).Ok? {
      var strs := StrEntriesFrom(m).value;
      assert strs.entries.Keys == m.Keys;
      if m != map[] {
        var k :| k in m;
        assert k in strs.entries;
        assert TFValue(strs).entries == map k | k in m :: NormStr(m[k]);
      } else {
        assert strs.entries == map[];
      }
    }
  }

  lemma MapRoundTrip(w: Wire)
    requires TypeOf(w).TyMap?
    ensures MapFrom(w).Ok? <==> SupportedAttr(w)
    ensures SupportedAttr(w) ==> TFValue(MapFrom(w).value) == NormAttr(w)
  {
    hide StrEntriesFrom, StringLike, NormStr;
    if w.Map? {
      StrEntriesRoundTrip(w.entries);
    }
  }

  lemma {:induction false} AttrRoundTrip(w: Wire)
    requires SupportedAttr(w)
    ensures AttrFrom(w).Ok? && TFValue(AttrFrom(w).value) == NormAttr(w)
    decreases w, 1
  {
    if TypeOf(w).TyList? {
      ListRoundTrip(w);
    } else if TypeOf(w).TyMap? {
      MapRoundTrip(w);
    } else if w.Obj? {
      FieldsRoundTrip(w.fields, w);
    }
  }

  lemma AttrsRoundTrip(fields: map<string, Wire>, attrs: map<string, Tf>)
    requires attrs.Keys == fields.Keys
    requires forall k :: k in fields ==> TFValue(attrs[k]) == NormAttr(fields[k])
    ensures TFValue(TfObj(false, false, attrs)) == NormAttr(Obj(fields))
  {
    hide NormStr;
    if fields != map[] {
      var k :| k in fields;
      assert k in attrs;
      assert TFValue(TfObj(false, false, attrs)).fields == NormAttr(Obj(fields)).fields;
    } else {
      assert attrs == map[] && TFType(TfObj(false, false, attrs)) == EMPTY_OBJECT;
    }
  }

  lemma {:induction false} FieldsRoundTrip(fields: map<string, Wire>, w: Wire)
    requires forall k :: k in fields ==> fields[k] < w && SupportedAttr(fields[k])
    ensures ObjFrom(Obj(fields)).Ok? && TFValue(ObjFrom(Obj(fields)).value) == NormAttr(Obj(fields))
    decreases w, 0
  {
    hide TFValue, NormAttr;
    forall k | k in fields
      ensures AttrFrom(fields[k]).Ok? && TFValue(AttrFrom(fields[k]).value) == NormAttr(fields[k])
    {
      AttrRoundTrip(fields[k]);
    }
    AttrsRoundTrip(fields, ObjFrom(Obj(fields)).value.attrs);
  }

  /**
   FromTFValue on a fresh tfObject followed by TFValue is the normal form, for every wire tree
   that FromTFValue can take.
   */
  lemma {:induction false} RoundTrip(w: Wire)
    requires Supported(w)
    ensures ObjFrom(w).Ok? && TFValue(ObjFrom(w).value) == Norm(w)
  {
    match w
    case Obj(fields) => FieldsRoundTrip(fields, w);
    case Map(_, entries) =>
      FieldsRoundTrip(entries, w);
      assert ObjFrom(w) == ObjFrom(Obj(entries));
    case Null(_) =>
    case Unknown(_) =>
    case _ =>
  }

  lemma {:induction false} AttrOk(w: Wire)
    ensures AttrFrom(w).Ok? <==> SupportedAttr(w)
    decreases w
  {
    if SupportedAttr(w) {
      AttrRoundTrip(w);
    } else if TypeOf(w).TyList? {
      ListRoundTrip(w);
    } else if TypeOf(w).TyMap? {
      MapRoundTrip(w);
    } else if w.Obj? {
      var k :| k in w.fields && !SupportedAttr(w.fields[k]);
      AttrOk(w.fields[k]);
    }
  }

  /** Exactly which wire trees FromTFValue takes. */
  lemma {:induction false} AcceptedIff(w: Wire)
    ensures ObjFrom(w).Ok? <==> Supported(w)
  {
    if Supported(w) {
      RoundTrip(w);
    } else if w.Obj? || w.Map? {
      var m := if w.Obj? then w.fields else w.entries;
      var k :| k in m && !SupportedAttr(m[k]);
      AttrOk(m[k]);
    }
  }

  lemma NormStrStable(w: Wire)
    requires StringLike(w)
    ensures var s := NormStr(w); TypeOf(s) == TyStr && WellFormed(s) && StringLike(s) && NormStr(s) == s
  {
  }

  lemma CollectionStable(w: Wire)
    requires (w.List? || w.Map?) && SupportedAttr(w)
    ensures WellFormed(NormAttr(w)) && SupportedAttr(NormAttr(w)) && NormAttr(NormAttr(w)) == NormAttr(w)
  {
    if w.List? {
      forall i | 0 <= i < |w.items| {
        NormStrStable(w.items[i]);
      }
      hide NormStr, StringLike, TypeOf;
      if w.items != [] { assert NormAttr(NormAttr(w)).items == NormAttr(w).items; }
    } else {
      forall k | k in w.entries {
        NormStrStable(w.entries[k]);
      }
      hide NormStr, StringLike, TypeOf;
      if w.entries != map[] {
        var k :| k in w.entries;
        assert k in NormAttr(w).entries;
        assert NormAttr(NormAttr(w)).entries == NormAttr(w).entries;
      }
    }
  }

  lemma {:induction false} NormAttrStable(w: Wire)
    requires SupportedAttr(w)
    ensures WellFormed(NormAttr(w)) && SupportedAttr(NormAttr(w)) && NormAttr(NormAttr(w)) == NormAttr(w)
    decreases w
  {
    if w.List? || w.Map? {
      CollectionStable(w);
    } else if w.Obj? {
      forall k | k in w.fields {
        NormAttrStable(w.fields[k]);
      }
      FieldsStable(w.fields);
    } else {
      ScalarStable(w);
    }
  }

  lemma ScalarStable(w: Wire)
    requires SupportedAttr(w) && !w.List? && !w.Map? && !w.Obj?
    ensures WellFormed(NormAttr(w)) && SupportedAttr(NormAttr(w)) && NormAttr(NormAttr(w)) == NormAttr(w)
  {
  }

  lemma FieldsStable(fields: map<string, Wire>)
    requires forall k :: k in fields ==>
      var n := NormAttr(fields[k]); WellFormed(n) && SupportedAttr(n) && NormAttr(n) == n
    ensures var n := NormAttr(Obj(fields)); WellFormed(n) && SupportedAttr(n) && NormAttr(n) == n
  {
    hide NormStr, StringLike;
    if fields != map[] {
      var m := map k | k in fields :: NormAttr(fields[k]);
      assert NormAttr(Obj(fields)) == Obj(m);
      var k :| k in fields;
      assert k in m;
      assert NormAttr(Obj(m)).fields == m;
    }
  }

  /** A second round trip changes nothing. */
  lemma {:induction false} SecondRoundTrip(w: Wire)
    requires Supported(w)
    ensures ObjFrom(w).Ok?
    ensures var once := TFValue(ObjFrom(w).value);
            ObjFrom(once).Ok? && TFValue(ObjFrom(once).value) == once
  {
    RoundTrip(w);
    var once := Norm(w);
    if w.Obj? || w.Map? {
      var o := Obj(if w.Obj? then w.fields else w.entries);
      assert SupportedAttr(o);
      NormAttrStable(o);
    }
    assert Norm(once) == once;
    RoundTrip(once);
  }

  predicate KeptStr(w: Wire) {
    w.Str? || w == Null(TyStr) || w == Unknown(TyStr)
  }

  /** Attributes that are written back as they were read. */
  ghost predicate KeptAttr(w: Wire) {
    match w
    case Null(ty) => (ty.TyObj? ==> ty == EMPTY_OBJECT) && (ty.TyList? || ty.TyMap? ==> ty.elem == TyStr)
    case Unknown(ty) => ty.TyObj? ==> ty == EMPTY_OBJECT
    case Num(n) => MIN_INT64 <= n.Floor <= MAX_INT64 && n == n.Floor as real
    case List(elem, items) => elem == TyStr && items != [] && forall i :: 0 <= i < |items| ==> KeptStr(items[i])
    case Map(elem, entries) => elem == TyStr && entries != map[] && forall k :: k in entries ==> KeptStr(entries[k])
    case Obj(fields) => fields != map[] && forall k :: k in fields ==> KeptAttr(fields[k])
    case _ => true
  }

  /** Whole objects that are; a map is read as an object. */
  ghost predicate Kept(w: Wire) {
    match w
    case Null(ty) => ty == EMPTY_OBJECT
    case Unknown(ty) => ty == EMPTY_OBJECT
    case Map(_, _) => false
    case _ => KeptAttr(w)
  }

  lemma KeptStrIff(w: Wire)
    requires StringLike(w)
    ensures NormStr(w) == w <==> KeptStr(w)
  {
  }

  lemma KeptNumIff(n: real)
    ensures ToInt64(n) as real == n <==> MIN_INT64 <= n.Floor <= MAX_INT64 && n == n.Floor as real
  {
    if n == n.Floor as real {
      var i := n.Floor;
      assert (-n).Floor == -i;
    } else {
      assert ToInt64(n) as real != n;
    }
  }

  lemma KeptListIff(w: Wire)
    requires w.List? && SupportedAttr(w)
    ensures NormAttr(w) == w <==> KeptAttr(w)
  {
    forall i | 0 <= i < |w.items| ensures NormStr(w.items[i]) == w.items[i] <==> KeptStr(w.items[i]) {
      KeptStrIff(w.items[i]);
    }
    hide NormStr, KeptStr, StringLike;
    if w.items != [] {
      var items := NormAttr(w).items;
      assert items == w.items <==> forall i :: 0 <= i < |items| ==> items[i] == w.items[i];
    }
  }

  lemma KeptMapIff(w: Wire)
    requires w.Map? && SupportedAttr(w)
    ensures NormAttr(w) == w <==> KeptAttr(w)
  {
    forall k | k in w.entries ensures NormStr(w.entries[k]) == w.entries[k] <==> KeptStr(w.entries[k]) {
      KeptStrIff(w.entries[k]);
    }
    hide NormStr, KeptStr, StringLike;
    if w.entries != map[] {
      SameEntries(w.entries, NormAttr(w).entries);
    }
  }

  lemma SameEntries(m: map<string, Wire>, m': map<string, Wire>)
    requires m.Keys == m'.Keys
    ensures m == m' <==> forall k :: k in m ==> m'[k] == m[k]
  {
  }

  lemma {:induction false} KeptAttrIff(w: Wire)
    requires SupportedAttr(w)
    ensures NormAttr(w) == w <==> KeptAttr(w)
    decreases w
  {
    if w.Num? {
      KeptNumIff(w.n);
    } else if w.List? {
      KeptListIff(w);
    } else if w.Map? {
      KeptMapIff(w);
    } else if w.Obj? && w.fields != map[] {
      forall k | k in w.fields ensures NormAttr(w.fields[k]) == w.fields[k] <==> KeptAttr(w.fields[k]) {
        KeptAttrIff(w.fields[k]);
      }
      SameEntries(w.fields, map k | k in w.fields :: NormAttr(w.fields[k]));
    }
  }

  /** Exactly which trees come back from a round trip as they went in. */
  lemma UnchangedIff(w: Wire)
    requires Supported(w)
    ensures ObjFrom(w).Ok? && (TFValue(ObjFrom(w).value) == w <==> Kept(w))
  {
    RoundTrip(w);
    hide TFValue, ObjFrom;
    if w.Obj? { KeptAttrIff(w); }
  }

  /** Wrappers built by FromTFValue keep string wrappers inside lists and maps. */
  ghost predicate Typed(v: Tf) {
    match v
    case TfList(_, _, items) => forall i :: 0 <= i < |items| ==> items[i].TfStr?
    case TfMap(_, _, entries) => forall k :: k in entries ==> entries[k].TfStr?
    case TfObj(_, _, attrs) => forall k :: k in attrs ==> Typed(attrs[k])
    case TfRaw(w) => WellFormed(w)
    case _ => true
  }

  lemma ObjMatchesType(v: Tf)
    requires v.TfObj?
    requires forall k :: k in v.attrs ==>
      WellFormed(TFValue(v.attrs[k])) && TypeOf(TFValue(v.attrs[k])) == TFType(v.attrs[k])
    ensures WellFormed(TFValue(v)) && TypeOf(TFValue(v)) == TFType(v)
  {
    if !v.unknown && !v.isNull && v.attrs != map[] {
      assert TypeOf(TFValue(v)).attrs == TFType(v).attrs;
    }
  }

  lemma CollectionMatchesType(v: Tf)
    requires (v.TfList? || v.TfMap?) && Typed(v)
    ensures WellFormed(TFValue(v)) && TypeOf(TFValue(v)) == TFType(v)
  {
  }

  /**
   TFValue never builds a value that NewValue would refuse: it is well formed and has exactly the
   type that TFType announces.
   */
  lemma {:induction false} ValueMatchesType(v: Tf)
    requires Typed(v)
    ensures WellFormed(TFValue(v)) && TypeOf(TFValue(v)) == TFType(v)
    decreases v
  {
    if v.TfObj? {
      forall k | k in v.attrs
        ensures WellFormed(TFValue(v.attrs[k])) && TypeOf(TFValue(v.attrs[k])) == TFType(v.attrs[k])
      {
        ValueMatchesType(v.attrs[k]);
      }
      ObjMatchesType(v);
    } else if v.TfList? || v.TfMap? {
      CollectionMatchesType(v);
    }
  }

  // ---------------------------------------------------------------------------------------------
  // GetObject

  /** Native Go values, as GetObject hands them out. */
  datatype Native =
    | GoBool(b: bool) | GoInt(n: int) | GoString(s: string)
    | GoStrings(items: seq<string>) | GoStringMap(entries: map<string, string>)
    | GoObject(fields: map<string, Native>) | GoRaw(raw: Wire)

  predicate KnownStr(v: Tf) {
    v.TfStr? && !v.unknown && !v.isNull
  }

  /** GetObject on one attribute: None when a part of it is null or unknown. */
  ghost function ToNative(v: Tf): Option<Native> {
    match v
    case TfBool(u, n, b) => if u || n then None else Some(GoBool(b))
    case TfNum(u, n, i) => if u || n then None else Some(GoInt(i))
    case TfStr(u, n, s) => if u || n then None else Some(GoString(s))
    case TfList(u, n, items) =>
      if u || n || !(forall i :: 0 <= i < |items| ==> KnownStr(items[i])) then None
      else Some(GoStrings(seq(|items|, i requires 0 <= i < |items| => items[i].sval)))
    case TfMap(u, n, entries) =>
      if u || n || !(forall k :: k in entries ==> KnownStr(entries[k])) then None
      else Some(GoStringMap(map k | k in entries :: entries[k].sval))
    case TfObj(u, n, attrs) =>
      if u || n || !(forall k :: k in attrs ==> ToNative(attrs[k]).Some?) then None
      else Some(GoObject(map k | k in attrs :: ToNative(attrs[k]).value))
    case TfRaw(w) => Some(GoRaw(w))
  }

  /** The wire value that spells a native value. */
  function WireOf(n: Native): Wire {
    match n
    case GoBool(b) => Bool(b)
    case GoInt(i) => Num(i as real)
    case GoString(s) => Str(s)
    case GoStrings(items) =>
      if items == [] then Null(TyList(TyStr))
      else List(TyStr, seq(|items|, i requires 0 <= i < |items| => Str(items[i])))
    case GoStringMap(entries) =>
      if entries == map[] then Null(TyMap(TyStr)) else Map(TyStr, map k | k in entries :: Str(entries[k]))
    case GoObject(fields) =>
      if fields == map[] then Null(EMPTY_OBJECT) else Obj(map k | k in fields :: WireOf(fields[k]))
    case GoRaw(w) => w
  }

  /** A string, or a null of another type, which reads as the empty string. */
  predicate SettledStr(w: Wire) {
    w.Str? || (w.Null? && w.ty != TyStr && w.ty != TyDyn)
  }

  /**
   No part is null or unknown, with three exceptions in the code: a null of an object type reads as
   an empty object, a null of a type that its wrapper does not expect (a list or map of anything but
   strings, or an element that is not a string) reads as an empty one, and an unknown of dynamic
   type is handed out as it is.
   */
  ghost predicate Settled(w: Wire) {
    match w
    case Null(ty) => ty.TyObj? || (ty.TyList? && ty != TyList(TyStr)) || (ty.TyMap? && ty != TyMap(TyStr))
    case Unknown(ty) => ty == TyDyn
    case List(_, items) => forall i :: 0 <= i < |items| ==> SettledStr(items[i])
    case Map(_, entries) => forall k :: k in entries ==> SettledStr(entries[k])
    case Obj(fields) => forall k :: k in fields ==> Settled(fields[k])
    case _ => true
  }

  lemma NativeList(w: Wire)
    requires w.List? && SupportedAttr(w)
    ensures ListFrom(w).Ok?
    ensures var n := ToNative(ListFrom(w).value);
            (n.Some? <==> Settled(w)) && (n.Some? ==> WireOf(n.value) == NormAttr(w))
  {
    ListRoundTrip(w);
    var v := ListFrom(w).value;
    forall i | 0 <= i < |w.items|
      ensures KnownStr(v.items[i]) <==> SettledStr(w.items[i])
      ensures SettledStr(w.items[i]) ==> Str(v.items[i].sval) == NormStr(w.items[i])
    {
      assert v.items[i] == StrFrom(w.items[i]).value;
    }
    hide StrFrom, NormStr, SettledStr, StringLike, TFValue;
    if Settled(w) && w.items != [] {
      assert WireOf(ToNative(v).value).items == NormAttr(w).items;
    }
  }

  lemma StrKnownIff(w: Wire)
    requires StrFrom(w).Ok?
    ensures KnownStr(StrFrom(w).value) <==> SettledStr(w)
  {
  }

  lemma NativeEntries(entries: map<string, Tf>)
    requires forall k :: k in entries ==> entries[k].TfStr?
    requires forall k :: k in entries ==> KnownStr(entries[k])
    ensures var n := ToNative(TfMap(false, false, entries));
            n.Some? && WireOf(n.value) == TFValue(TfMap(false, false, entries))
  {
    var n := ToNative(TfMap(false, false, entries)).value;
    assert n.entries.Keys == entries.Keys;
    if entries != map[] {
      var k :| k in entries;
      assert k in n.entries;
      assert WireOf(n).entries == TFValue(TfMap(false, false, entries)).entries;
    } else {
      assert n.entries == map[];
    }
  }

  lemma NativeMap(w: Wire)
    requires w.Map? && SupportedAttr(w)
    ensures MapFrom(w).Ok?
    ensures var n := ToNative(MapFrom(w).value);
            (n.Some? <==> Settled(w)) && (n.Some? ==> WireOf(n.value) == NormAttr(w))
  {
    hide NormAttr, NormStr, StringLike, WireOf, TFValue;
    MapRoundTrip(w);
    var v := MapFrom(w).value;
    assert v.entries.Keys == w.entries.Keys;
    forall k | k in w.entries ensures KnownStr(v.entries[k]) <==> SettledStr(w.entries[k]) {
      StrKnownIff(w.entries[k]);
    }
    hide StrFrom, SettledStr;
    if Settled(w) {
      NativeEntries(v.entries);
    }
  }

  ghost predicate NativeFaithful(w: Wire) {
    && AttrFrom(w).Ok?
    && var n := ToNative(AttrFrom(w).value);
       (n.Some? <==> Settled(w)) && (n.Some? ==> WireOf(n.value) == NormAttr(w))
  }

  lemma NativeAttrs(fields: map<string, Wire>, attrs: map<string, Tf>)
    requires attrs.Keys == fields.Keys
    requires forall k :: k in fields ==> (ToNative(attrs[k]).Some? <==> Settled(fields[k]))
    requires forall k :: k in fields && Settled(fields[k]) ==> WireOf(ToNative(attrs[k]).value) == NormAttr(fields[k])
    ensures var n := ToNative(TfObj(false, false, attrs));
            (n.Some? <==> Settled(Obj(fields))) && (n.Some? ==> WireOf(n.value) == NormAttr(Obj(fields)))
  {
    if Settled(Obj(fields)) {
      var natives := map k | k in attrs :: ToNative(attrs[k]).value;
      assert ToNative(TfObj(false, false, attrs)) == Some(GoObject(natives));
      hide ToNative;
      WireOfFields(fields, natives);
    }
  }

  lemma WireOfFields(fields: map<string, Wire>, natives: map<string, Native>)
    requires natives.Keys == fields.Keys
    requires forall k :: k in fields ==> WireOf(natives[k]) == NormAttr(fields[k])
    ensures WireOf(GoObject(natives)) == NormAttr(Obj(fields))
  {
    if fields != map[] {
      var k :| k in fields;
      assert k in natives;
      assert WireOf(GoObject(natives)).fields == NormAttr(Obj(fields)).fields;
    } else {
      assert natives == map[];
    }
  }

  lemma NativeFields(fields: map<string, Wire>)
    requires forall k :: k in fields ==> NativeFaithful(fields[k])
    ensures NativeFaithful(Obj(fields))
  {
    hide ToNative, NormAttr, Settled, WireOf;
    forall k | k in fields ensures AttrFrom(fields[k]).Ok? {
      assert NativeFaithful(fields[k]);
    }
    var attrs := map k | k in fields :: AttrFrom(fields[k]).value;
    assert AttrFrom(Obj(fields)) == ObjFrom(Obj(fields)) == Ok(TfObj(false, false, attrs));
    NativeAttrs(fields, attrs);
  }

  lemma NativeScalar(w: Wire)
    requires SupportedAttr(w) && !w.Obj? && !w.List? && !w.Map?
    ensures NativeFaithful(w)
  {
  }

  lemma NativeLeaf(w: Wire)
    requires SupportedAttr(w) && !w.Obj?
    ensures NativeFaithful(w)
  {
    if w.List? || w.Map? {
      assert AttrFrom(w) == if w.List? then ListFrom(w) else MapFrom(w);
      hide ToNative, NormAttr, Settled, WireOf, AttrFrom, ListFrom, MapFrom;
      if w.List? { NativeList(w); } else { NativeMap(w); }
    } else {
      NativeScalar(w);
    }
  }

  /**
   GetObject succeeds exactly on settled wire trees, and what it hands out spells the same normal
   form that TFValue writes back.
   */
  lemma {:induction false} GetObjectFaithful(w: Wire)
    requires SupportedAttr(w)
    ensures NativeFaithful(w)
    decreases w
  {
    hide NativeFaithful;
    if !w.Obj? {
      NativeLeaf(w);
    } else {
      forall k | k in w.fields ensures NativeFaithful(w.fields[k]) {
        GetObjectFaithful(w.fields[k]);
      }
      NativeFields(w.fields);
    }
  }
}
