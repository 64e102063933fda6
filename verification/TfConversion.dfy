/**
 The conversion loops of internal/plugin/tftypes.go over Go slices and maps. A map is visited in
 an arbitrary order, and the first attribute that cannot be converted ends the loop; the methods
 are proved against the order-free functions of TfValues.
 */
module TfConversion {
  import opened Wrappers
  import opened TfValues

  method ListFromTFValue(val: Wire) returns (r: Result<Tf, string>)
    ensures r.Ok? <==> ListFrom(val).Ok?
    ensures r.Ok? ==> r == ListFrom(val)
  {
    if IsUnknown(val, TyList(TyStr)) { return Ok(TfList(true, true, [])); }
    if IsNull(val, TyList(TyStr)) { return Ok(TfList(false, true, [])); }
    if val.Null? { return Ok(TfList(false, false, [])); }
    if !val.List? { return TypeMismatch(); }
    var strs := [];
    for i := 0 to |val.items|
      invariant |strs| == i
      invariant forall j :: 0 <= j < i ==> StrFrom(val.items[j]) == Ok(strs[j])
    {
      var str := StrFrom(val.items[i]);
      if str.Err? { return str; }
      strs := strs + [str.value];
    }
    assert strs == seq(|val.items|, i requires 0 <= i < |val.items| => StrFrom(val.items[i]).value);
    return Ok(TfList(false, false, strs));
  }

  method StrEntries(vals: map<string, Wire>) returns (r: Result<Tf, string>)
    ensures r.Ok? <==> StrEntriesFrom(vals).Ok?
    ensures r.Ok? ==> r == StrEntriesFrom(vals)
  {
    var strs: map<string, Tf> := map[];
    var todo := vals.Keys;
    while todo != {}
      invariant todo <= vals.Keys && strs.Keys == vals.Keys - todo
      invariant forall k :: k in strs ==> StrFrom(vals[k]) == Ok(strs[k])
    {
      var k :| k in todo;
      var str := StrFrom(vals[k]);
      if str.Err? { return str; }
      strs := strs[k := str.value];
      todo := todo - {k};
    }
    assert strs == map k | k in vals :: StrFrom(vals[k]).value;
    return Ok(TfMap(false, false, strs));
  }

  method MapFromTFValue(val: Wire) returns (r: Result<Tf, string>)
    ensures r.Ok? <==> MapFrom(val).Ok?
    ensures r.Ok? ==> r == MapFrom(val)
  {
    if IsUnknown(val, TyMap(TyStr)) { return Ok(TfMap(true, true, map[])); }
    if IsNull(val, TyMap(TyStr)) { return Ok(TfMap(false, true, map[])); }
    match val {
      case Null(_) => return Ok(TfMap(false, false, map[]));
      case Map(_, entries) => r := StrEntries(entries);
      case Obj(fields) => r := StrEntries(fields);
      case _ => return TypeMismatch();
    }
  }

  method AttrFromTFValue(val: Wire) returns (r: Result<Tf, string>)
    ensures r.Ok? <==> AttrFrom(val).Ok?
    ensures r.Ok? ==> r == AttrFrom(val)
    decreases val, 1
  {
    var ty := TypeOf(val);
    if ty == TyBool { return BoolFrom(val); }
    if ty == TyStr { return StrFrom(val); }
    if ty == TyNum { return NumFrom(val); }
    if ty.TyList? {
      r := ListFromTFValue(val);
    } else if ty.TyMap? {
      r := MapFromTFValue(val);
    } else if ty == TyDyn && val.Unknown? {
      r := Ok(TfRaw(val));
    } else if ObjectLike(ty) {
      r := ObjFromTFValue(val);
    } else {
      r := Err("marshaling of the type has not been implemented");
    }
  }

  method ObjFromTFValue(val: Wire) returns (r: Result<Tf, string>)
    ensures r.Ok? <==> ObjFrom(val).Ok?
    ensures r.Ok? ==> r == ObjFrom(val)
    decreases val, 0
  {
    if val.Unknown? { return Ok(TfObj(true, true, map[])); }
    if val == Null(TyDyn) { return Ok(TfObj(false, true, map[])); }
    if val.Null? { return Ok(TfObj(false, false, map[])); }
    if !val.Obj? && !val.Map? { return TypeMismatch(); }
    var vals := if val.Obj? then val.fields else val.entries;
    var res: map<string, Tf> := map[];
    var todo := vals.Keys;
    while todo != {}
      invariant todo <= vals.Keys && res.Keys == vals.Keys - todo
      invariant forall k :: k in res ==> AttrFrom(vals[k]) == Ok(res[k])
    {
      var k :| k in todo;
      var attr := AttrFromTFValue(vals[k]);
      if attr.Err? { return attr; }
      res := res[k := attr.value];
      todo := todo - {k};
    }
    assert res == map k | k in vals :: AttrFrom(vals[k]).value;
    return Ok(TfObj(false, false, res));
  }

  method GetStrings(items: seq<Tf>) returns (strs: seq<string>, ok: bool)
    requires forall i :: 0 <= i < |items| ==> items[i].TfStr?
    ensures ok <==> forall i :: 0 <= i < |items| ==> KnownStr(items[i])
    ensures ok ==> |strs| == |items| && forall i :: 0 <= i < |items| ==> strs[i] == items[i].sval
    ensures !ok ==> |strs| < |items| && !KnownStr(items[|strs|])
  {
    strs := [];
    for i := 0 to |items|
      invariant |strs| == i
      invariant forall j :: 0 <= j < i ==> KnownStr(items[j]) && strs[j] == items[j].sval
    {
      if !KnownStr(items[i]) { return strs, false; }
      strs := strs + [items[i].sval];
    }
    return strs, true;
  }

  method NativeOf(attr: Tf) returns (r: Option<Native>)
    requires Typed(attr)
    ensures r == ToNative(attr)
    decreases attr, 1
  {
    match attr {
      case TfBool(u, n, b) => return if u || n then None else Some(GoBool(b));
      case TfNum(u, n, i) => return if u || n then None else Some(GoInt(i));
      case TfStr(u, n, s) => return if u || n then None else Some(GoString(s));
      case TfList(u, n, items) =>
        if u || n { return None; }
        var strs, known := GetStrings(items);
        if !known { return None; }
        assert strs == seq(|items|, i requires 0 <= i < |items| => items[i].sval);
        return Some(GoStrings(strs));
      case TfMap(u, n, entries) =>
        if u || n || exists e :: e in entries && !KnownStr(entries[e]) { return None; }
        return Some(GoStringMap(map e | e in entries :: entries[e].sval));
      case TfObj(_, _, _) =>
        var obj, known := GetObject(attr);
        return if known then Some(GoObject(obj)) else None;
      case TfRaw(w) => return Some(GoRaw(w));
    }
  }

  method GetObject(v: Tf) returns (obj: map<string, Native>, ok: bool)
    requires v.TfObj? && Typed(v)
    ensures ToNative(v) == if ok then Some(GoObject(obj)) else None
    ensures !ok ==> obj == map[]
    decreases v, 0
  {
    obj := map[];
    if v.unknown || v.isNull { return obj, false; }
    var attrs := v.attrs;
    var todo := attrs.Keys;
    while todo != {}
      invariant todo <= attrs.Keys && obj.Keys == attrs.Keys - todo
      invariant forall k :: k in obj ==> ToNative(attrs[k]) == Some(obj[k])
    {
      var k :| k in todo;
      var native := NativeOf(attrs[k]);
      if native.None? { return map[], false; }
      obj := obj[k := native.value];
      todo := todo - {k};
    }
    assert ToNative(v).Some? && ToNative(v).value.fields == obj;
    return obj, true;
  }
}
