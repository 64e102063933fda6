/**
 The digest of an exec configuration (internal/plugin/exec_config.go). SHA-256 (section 6.2 of
 FIPS 180-4, printed as 64 hexadecimal digits) is a function parameter: the digest is shown to
 identify the hashed items unless two different strings that were hashed collide.
 */
module ExecDigest {
  import opened Wrappers
  import opened Orders

  type Hash = string -> string

  ghost predicate Hex64(h: Hash) {
    forall s :: |h(s)| == 64
  }

  /** The set and fully known parts of an execConfig; scripts are paths. */
  datatype ExecConfig = ExecConfig(
    env: Option<map<string, string>>,
    content: Option<string>,
    inline: Option<seq<string>>,
    scripts: Option<seq<string>>)

  type Files = map<string, string>

  // ---------------------------------------------------------------------------------------------
  // The order of sort.Strings

  predicate LexLe(a: string, b: string) {
    a == "" || (b != "" && (a[0] < b[0] || (a[0] == b[0] && LexLe(a[1..], b[1..]))))
  }

  lemma LexTotal(a: string, b: string)
    ensures LexLe(a, b) || LexLe(b, a)
    ensures LexLe(a, b) && LexLe(b, a) ==> a == b
  {
    if a != "" && b != "" && a[0] == b[0] {
      LexTotal(a[1..], b[1..]);
      assert a == [a[0]] + a[1..] && b == [b[0]] + b[1..];
    }
  }

  lemma LexTransitive(a: string, b: string, c: string)
    requires LexLe(a, b) && LexLe(b, c)
    ensures LexLe(a, c)
  {
    if a != "" && b != "" && c != "" && a[0] == b[0] == c[0] {
      LexTransitive(a[1..], b[1..], c[1..]);
    }
  }

  /** A prefix comes first; otherwise the first place where the two differ decides. */
  ghost predicate Before(a: string, b: string) {
    || (a <= b && a != b)
    || exists i :: 0 <= i < |a| && i < |b| && a[..i] == b[..i] && a[i] < b[i]
  }

  /** The order by characters is the dictionary order. */
  lemma {:induction false} LexIff(a: string, b: string)
    ensures LexLe(a, b) <==> a == b || Before(a, b)
  {
    if a != "" && b != "" && a[0] == b[0] {
      var a', b' := a[1..], b[1..];
      LexIff(a', b');
      assert a == [a[0]] + a' && b == [b[0]] + b';
      if i :| 0 <= i < |a'| && i < |b'| && a'[..i] == b'[..i] && a'[i] < b'[i] {
        assert a[..i + 1] == [a[0]] + a'[..i] && b[..i + 1] == [b[0]] + b'[..i] && a[i + 1] < b[i + 1];
      }
      if i :| 0 <= i < |a| && i < |b| && a[..i] == b[..i] && a[i] < b[i] {
        assert a'[..i - 1] == a[..i][1..] && b'[..i - 1] == b[..i][1..] && a'[i - 1] < b'[i - 1];
      }
    } else if a != "" && b != "" {
      assert a[..0] == b[..0];
      DifferAtOnce(a, b);
    }
  }

  lemma DifferAtOnce(a: string, b: string)
    requires a != "" && b != "" && a[0] != b[0]
    ensures forall i :: 0 < i <= |a| && i <= |b| ==> a[..i] != b[..i]
  {
    forall i | 0 < i <= |a| && i <= |b| ensures a[..i] != b[..i] {
      assert a[..i][0] == a[0] && b[..i][0] == b[0];
    }
  }

  lemma LexIsStrict(s: seq<string>)
    requires Sorted(s) && Distinct(s)
    ensures Ascending(s)
  {
    forall i, j | 0 <= i < j < |s| ensures Before(s[i], s[j]) { LexIff(s[i], s[j]); }
  }

  ghost predicate Ascending(s: seq<string>) {
    forall i, j :: 0 <= i < j < |s| ==> Before(s[i], s[j])
  }

  ghost predicate Sorted(s: seq<string>) {
    forall i, j :: 0 <= i < j < |s| ==> LexLe(s[i], s[j])
  }

  ghost predicate IsLeast(k: string, keys: set<string>) {
    k in keys && forall j :: j in keys ==> LexLe(k, j)
  }

  lemma LeastExists(keys: set<string>)
    requires keys != {}
    ensures exists k :: IsLeast(k, keys)
  {
    var k :| k in keys;
    LexTotal(k, k);
    if keys == {k} {
      assert IsLeast(k, keys);
    } else {
      LeastExists(keys - {k});
      var m :| IsLeast(m, keys - {k});
      LexTotal(k, m);
      if LexLe(k, m) {
        forall j | j in keys ensures LexLe(k, j) {
          if j != k { LexTransitive(k, m, j); }
        }
        assert IsLeast(k, keys);
      } else {
        assert IsLeast(m, keys);
      }
    }
  }

  /** The keys of a map in ascending order: the one order sort.Strings can leave them in. */
  ghost function SortedKeys(keys: set<string>): (s: seq<string>)
    ensures Permutes(s, keys)
  {
    if keys == {} then []
    else
      LeastExists(keys);
      var k :| IsLeast(k, keys);
      [k] + SortedKeys(keys - {k})
  }

  lemma {:induction false} SortedUnique(s: seq<string>, keys: set<string>)
    requires Sorted(s) && Permutes(s, keys)
    ensures s == SortedKeys(keys)
  {
    if s == [] {
      assert forall k :: k in keys ==> k in s;
    } else {
      assert s[0] in keys;
      LexTotal(s[0], s[0]);
      forall j | j in keys ensures LexLe(s[0], j) { assert j in s; }
      var k := SortedKeys(keys)[0];
      assert IsLeast(k, keys);
      LexTotal(s[0], k);
      var rest := s[1..];
      forall j ensures j in rest <==> j in keys - {s[0]} {
        assert j in s <==> j == s[0] || j in rest;
      }
      SortedUnique(rest, keys - {s[0]});
    }
  }

  /** sort.Strings, as an insertion sort. */
  method SortStrings(keys: seq<string>) returns (r: seq<string>)
    requires Distinct(keys)
    ensures Sorted(r) && Distinct(r) && forall k :: k in r <==> k in keys
    ensures Ascending(r)
  {
    r := [];
    for i := 0 to |keys|
      invariant Sorted(r) && Distinct(r)
      invariant forall k :: k in r <==> k in keys[..i]
    {
      var k := keys[i];
      var at := 0;
      while at < |r| && LexLe(r[at], k)
        invariant 0 <= at <= |r|
        invariant forall j :: 0 <= j < at ==> LexLe(r[j], k)
      {
        at := at + 1;
      }
      assert forall j :: 0 <= j < i ==> keys[j] != k;
      InsertSorted(r, at, k);
      r := r[..at] + [k] + r[at..];
    }
    assert keys[..|keys|] == keys;
    LexIsStrict(r);
  }

  lemma InsertSorted(r: seq<string>, at: nat, k: string)
    requires Sorted(r) && Distinct(r) && at <= |r| && k !in r
    requires forall j :: 0 <= j < at ==> LexLe(r[j], k)
    requires at < |r| ==> !LexLe(r[at], k)
    ensures Sorted(r[..at] + [k] + r[at..]) && Distinct(r[..at] + [k] + r[at..])
    ensures forall j :: j in r[..at] + [k] + r[at..] <==> j == k || j in r
  {
    var s := r[..at] + [k] + r[at..];
    forall j | at <= j < |r| ensures LexLe(k, r[j]) {
      LexTotal(k, r[at]);
      if j > at { LexTransitive(k, r[at], r[j]); }
    }
    assert r == r[..at] + r[at..];
  }

  // ---------------------------------------------------------------------------------------------
  // The digest

  function EnvItem(k: string, v: string): string {
    k + ":" + v
  }

  ghost function EnvItems(env: map<string, string>): (items: seq<string>)
    ensures |items| == |env|
  {
    var keys := SortedKeys(env.Keys);
    PermutesLength(keys, env.Keys);
    assert |env.Keys| == |env|;
    seq(|keys|, i requires 0 <= i < |keys| => assert keys[i] in env.Keys; EnvItem(keys[i], env[keys[i]]))
  }

  lemma {:induction false} PermutesLength(s: seq<string>, keys: set<string>)
    requires Permutes(s, keys)
    ensures |s| == |keys|
  {
    if s == [] {
      assert forall k :: k in keys ==> k in s;
    } else {
      assert s[0] in keys;
      forall j ensures j in s[1..] <==> j in keys - {s[0]} {
        assert j in s <==> j == s[0] || j in s[1..];
      }
      PermutesLength(s[1..], keys - {s[0]});
    }
  }

  ghost predicate Readable(c: ExecConfig, fs: Files) {
    c.scripts.Some? ==> forall i :: 0 <= i < |c.scripts.value| ==> c.scripts.value[i] in fs
  }

  ghost function Bodies(paths: seq<string>, fs: Files): seq<string>
    requires forall i :: 0 <= i < |paths| ==> paths[i] in fs
  {
    seq(|paths|, i requires 0 <= i < |paths| => fs[paths[i]])
  }

  /** Everything that is hashed, in the order in which it is hashed. */
  ghost function Items(c: ExecConfig, fs: Files): seq<string>
    requires Readable(c, fs)
  {
    (if c.content.Some? then [c.content.value] else [])
    + (if c.inline.Some? then c.inline.value else [])
    + (if c.scripts.Some? then Bodies(c.scripts.value, fs) else [])
    + (if c.env.Some? then EnvItems(c.env.value) else [])
  }

  function Aggregate(h: Hash, items: seq<string>): string {
    if items == [] then "" else h(items[0]) + Aggregate(h, items[1..])
  }

  ghost function Digest(h: Hash, c: ExecConfig, fs: Files): string
    requires Readable(c, fs)
  {
    h(Aggregate(h, Items(c, fs)))
  }

  lemma {:induction false} AggregateSnoc(h: Hash, items: seq<string>, item: string)
    ensures Aggregate(h, items + [item]) == Aggregate(h, items) + h(item)
  {
    if items == [] {
      assert [item][1..] == [];
    } else {
      assert (items + [item])[1..] == items[1..] + [item];
      AggregateSnoc(h, items[1..], item);
    }
  }

  lemma {:induction false} AggregateAll(h: Hash, s: seq<string>, t: seq<string>)
    ensures Aggregate(h, s + t) == Aggregate(h, s) + Aggregate(h, t)
  {
    if s == [] {
      assert s + t == t;
    } else {
      assert (s + t)[1..] == s[1..] + t;
      AggregateAll(h, s[1..], t);
    }
  }

  datatype DigestError = ContextDone | CannotOpen(path: string)

  method HashAll(h: Hash, parts: seq<string>) returns (ag: string)
    ensures ag == Aggregate(h, parts)
  {
    ag := "";
    for i := 0 to |parts|
      invariant ag == Aggregate(h, parts[..i])
    {
      AggregateSnoc(h, parts[..i], parts[i]);
      assert parts[..i + 1] == parts[..i] + [parts[i]];
      ag := ag + h(parts[i]);
    }
    assert parts[..|parts|] == parts;
  }

  /** The script part: the context is polled before each file is opened. */
  method HashScripts(h: Hash, paths: seq<string>, fs: Files, doneAt: nat) returns (r: Result<string, DigestError>)
    requires doneAt > 0
    ensures r.Ok? <==> (forall i :: 0 <= i < |paths| ==> paths[i] in fs) && doneAt > |paths|
    ensures r.Ok? ==> r.value == Aggregate(h, Bodies(paths, fs))
  {
    var ag := "";
    for i := 0 to |paths|
      invariant doneAt > i
      invariant forall j :: 0 <= j < i ==> paths[j] in fs
      invariant ag == Aggregate(h, Bodies(paths[..i], fs))
    {
      if doneAt <= i + 1 { return Err(ContextDone); }
      if paths[i] !in fs { return Err(CannotOpen(paths[i])); }
      AggregateSnoc(h, Bodies(paths[..i], fs), fs[paths[i]]);
      assert Bodies(paths[..i + 1], fs) == Bodies(paths[..i], fs) + [fs[paths[i]]];
      ag := ag + h(fs[paths[i]]);
    }
    assert paths[..|paths|] == paths;
    return Ok(ag);
  }

  /** The environment part: keys are collected in an arbitrary order and then sorted. */
  method HashEnv(h: Hash, env: map<string, string>) returns (ag: string)
    ensures ag == Aggregate(h, EnvItems(env))
    ensures exists keys ::
              && Permutes(keys, env.Keys) && Ascending(keys) && |keys| == |EnvItems(env)|
              && forall i :: 0 <= i < |keys| ==> keys[i] in env && EnvItems(env)[i] == keys[i] + ":" + env[keys[i]]
  {
    hide Aggregate, EnvItems, Permutes, Sorted, SortedKeys, EnvItem, LexLe, Ascending;
    var keys := CollectKeys(env);
    keys := SortStrings(keys);
    SortedUnique(keys, env.Keys);
    ag := "";
    NothingHashed(h, EnvItems(env));
    for i := 0 to |keys|
      invariant i <= |EnvItems(env)| && ag == Aggregate(h, EnvItems(env)[..i])
    {
      EnvItemAt(env, i);
      AggregateSnoc(h, EnvItems(env)[..i], EnvItem(keys[i], env[keys[i]]));
      assert EnvItems(env)[..i + 1] == EnvItems(env)[..i] + [EnvItem(keys[i], env[keys[i]])];
      ag := ag + h(EnvItem(keys[i], env[keys[i]]));
    }
    EnvItemCount(env);
    assert EnvItems(env)[..|keys|] == EnvItems(env);
    EnvInOrder(env);
  }

  lemma EnvInOrder(env: map<string, string>)
    ensures exists keys ::
              && Permutes(keys, env.Keys) && Ascending(keys) && |keys| == |EnvItems(env)|
              && forall i :: 0 <= i < |keys| ==> keys[i] in env && EnvItems(env)[i] == keys[i] + ":" + env[keys[i]]
  {
    SortedKeysSorted(env.Keys);
    EnvItemsAt(env);
    hide EnvItems, SortedKeys, Ascending, Permutes;
    var keys := SortedKeys(env.Keys);
    assert Permutes(keys, env.Keys) && Ascending(keys);
  }

  lemma NothingHashed(h: Hash, items: seq<string>)
    ensures Aggregate(h, items[..0]) == ""
  {
  }

  lemma EnvItemCount(env: map<string, string>)
    ensures |EnvItems(env)| == |SortedKeys(env.Keys)|
  {
  }

  lemma EnvItemAt(env: map<string, string>, i: nat)
    requires i < |SortedKeys(env.Keys)|
    ensures SortedKeys(env.Keys)[i] in env && i < |EnvItems(env)|
    ensures EnvItems(env)[i] == EnvItem(SortedKeys(env.Keys)[i], env[SortedKeys(env.Keys)[i]])
  {
    assert SortedKeys(env.Keys)[i] in env.Keys;
  }

  /**
   computeSHA256. The context is polled once at the start and once for each script; it is done
   from the poll numbered `doneAt` on.
   */
  method ComputeSHA256(h: Hash, c: ExecConfig, fs: Files, doneAt: nat) returns (r: Result<string, DigestError>)
    ensures r.Ok? <==> Readable(c, fs) && doneAt > (if c.scripts.Some? then |c.scripts.value| else 0)
    ensures r.Ok? ==> r.value == Digest(h, c, fs)
  {
    if doneAt == 0 { return Err(ContextDone); }
    var content := if c.content.Some? then h(c.content.value) else "";
    var inline := "";
    if c.inline.Some? { inline := HashAll(h, c.inline.value); }
    var scripts := "";
    if c.scripts.Some? {
      r := HashScripts(h, c.scripts.value, fs, doneAt);
      if r.Err? { return r; }
      scripts := r.value;
    }
    var env := "";
    if c.env.Some? && |c.env.value| > 0 { env := HashEnv(h, c.env.value); }
    ItemsAggregate(h, c, fs);
    return Ok(h(content + inline + scripts + env));
  }

  lemma ItemsAggregate(h: Hash, c: ExecConfig, fs: Files)
    requires Readable(c, fs)
    ensures Aggregate(h, Items(c, fs)) ==
            (if c.content.Some? then h(c.content.value) else "")
            + (if c.inline.Some? then Aggregate(h, c.inline.value) else "")
            + (if c.scripts.Some? then Aggregate(h, Bodies(c.scripts.value, fs)) else "")
            + (if c.env.Some? then Aggregate(h, EnvItems(c.env.value)) else "")
  {
    var p1 := if c.content.Some? then [c.content.value] else [];
    var p2 := if c.inline.Some? then c.inline.value else [];
    var p3 := if c.scripts.Some? then Bodies(c.scripts.value, fs) else [];
    var p4 := if c.env.Some? then EnvItems(c.env.value) else [];
    AggregateAll(h, p1 + p2 + p3, p4);
    AggregateAll(h, p1 + p2, p3);
    AggregateAll(h, p1, p2);
    if c.content.Some? { assert Aggregate(h, p1) == h(c.content.value) + Aggregate(h, []); }
  }

  lemma SortedKeysSorted(keys: set<string>)
    ensures Sorted(SortedKeys(keys)) && Ascending(SortedKeys(keys))
  {
    SortedKeysInOrder(keys);
    LexIsStrict(SortedKeys(keys));
  }

  lemma {:induction false} SortedKeysInOrder(keys: set<string>)
    ensures Sorted(SortedKeys(keys))
  {
    if keys != {} {
      var s := SortedKeys(keys);
      assert IsLeast(s[0], keys);
      SortedKeysInOrder(keys - {s[0]});
      forall j | 0 < j < |s| ensures LexLe(s[0], s[j]) { assert s[j] in keys; }
      assert s[1..] == SortedKeys(keys - {s[0]});
      forall i, j | 0 < i < j < |s| ensures LexLe(s[i], s[j]) { assert s[i] == s[1..][i - 1] && s[j] == s[1..][j - 1]; }
    }
  }

  /**
   What is hashed, and where it stands: the content, the inline commands, the bodies of the scripts,
   and key and value of each variable joined by a colon, the keys in dictionary order.
   */
  lemma HashedInOrder(h: Hash, c: ExecConfig, fs: Files)
    returns (bodies: seq<string>, pairs: seq<string>, keys: seq<string>)
    requires Readable(c, fs)
    ensures Digest(h, c, fs) ==
            h(Aggregate(h, (if c.content.Some? then [c.content.value] else []) + c.inline.GetOr([]) + bodies + pairs))
    ensures var scripts := c.scripts.GetOr([]);
            |bodies| == |scripts| &&
            forall i :: 0 <= i < |scripts| ==> scripts[i] in fs && bodies[i] == fs[scripts[i]]
    ensures var env := c.env.GetOr(map[]);
            && Permutes(keys, env.Keys) && Ascending(keys) && |pairs| == |keys|
            && forall i :: 0 <= i < |keys| ==> keys[i] in env && pairs[i] == keys[i] + ":" + env[keys[i]]
  {
    hide SortedKeys, Aggregate, Ascending, EnvItems, Bodies, Permutes, Items;
    var env, scripts := c.env.GetOr(map[]), c.scripts.GetOr([]);
    bodies, pairs, keys := Bodies(scripts, fs), EnvItems(env), SortedKeys(env.Keys);
    SortedKeysSorted(env.Keys);
    EnvItemsAt(env);
    BodiesAt(scripts, fs);
    ItemsAre(c, fs);
  }

  lemma EnvItemsAt(env: map<string, string>)
    ensures env == map[] ==> EnvItems(env) == []
    ensures |EnvItems(env)| == |SortedKeys(env.Keys)|
    ensures forall i :: 0 <= i < |SortedKeys(env.Keys)| ==>
      var k := SortedKeys(env.Keys)[i]; k in env && EnvItems(env)[i] == k + ":" + env[k]
  {
    hide SortedKeys;
    var keys := SortedKeys(env.Keys);
    forall i | 0 <= i < |keys| ensures keys[i] in env && EnvItems(env)[i] == keys[i] + ":" + env[keys[i]] {
      EnvItemAt(env, i);
    }
  }

  lemma ItemsAre(c: ExecConfig, fs: Files)
    requires Readable(c, fs)
    ensures Items(c, fs) ==
            (if c.content.Some? then [c.content.value] else []) + c.inline.GetOr([])
            + Bodies(c.scripts.GetOr([]), fs) + EnvItems(c.env.GetOr(map[]))
  {
    hide Bodies, EnvItems;
    BodiesAt([], fs);
    EnvItemsAt(map[]);
  }

  lemma BodiesAt(paths: seq<string>, fs: Files)
    requires forall i :: 0 <= i < |paths| ==> paths[i] in fs
    ensures |Bodies(paths, fs)| == |paths| && forall i :: 0 <= i < |paths| ==> Bodies(paths, fs)[i] == fs[paths[i]]
  {
  }

  /** For instance: one of each and two variables. */
  lemma SumOfEach(h: Hash, content: string, command: string, path: string, body: string, v: string, w: string)
    ensures var c := ExecConfig(Some(map["A" := v, "B" := w]), Some(content), Some([command]), Some([path]));
            var fs := map[path := body];
            Readable(c, fs)
            && Digest(h, c, fs) == h(h(content) + h(command) + h(body) + h("A:" + v) + h("B:" + w))
  {
    var env := map["A" := v, "B" := w];
    var c, fs := ExecConfig(Some(env), Some(content), Some([command]), Some([path])), map[path := body];
    hide Aggregate, Permutes, Ascending, Digest;
    var bodies, pairs, keys := HashedInOrder(h, c, fs);
    assert env.Keys == {"A", "B"};
    assert keys == ["A", "B"] by { TwoKeys(keys); }
    assert pairs[0] == "A" + ":" + v == "A:" + v && pairs[1] == "B" + ":" + w == "B:" + w;
    assert bodies == [body] && pairs == ["A:" + v, "B:" + w];
    assert [content] + [command] + bodies + pairs == [content, command, body, "A:" + v, "B:" + w];
    FiveHashes(h, content, command, body, "A:" + v, "B:" + w);
  }

  lemma TwoKeys(keys: seq<string>)
    requires Permutes(keys, {"A", "B"}) && Ascending(keys)
    ensures keys == ["A", "B"]
  {
    PermutesLength(keys, {"A", "B"});
    assert keys[0] in {"A", "B"} && keys[1] in {"A", "B"} && Before(keys[0], keys[1]);
  }

  lemma FiveHashes(h: Hash, a: string, b: string, c: string, d: string, e: string)
    ensures Aggregate(h, [a, b, c, d, e]) == h(a) + h(b) + h(c) + h(d) + h(e)
  {
    assert Aggregate(h, [e]) == h(e) + Aggregate(h, []);
    assert [d, e][1..] == [e] && [c, d, e][1..] == [d, e] && [b, c, d, e][1..] == [c, d, e];
    assert Aggregate(h, [d, e]) == h(d) + h(e);
    assert Aggregate(h, [c, d, e]) == h(c) + (h(d) + h(e)) == h(c) + h(d) + h(e);
    assert Aggregate(h, [b, c, d, e]) == h(b) + (h(c) + h(d) + h(e)) == h(b) + h(c) + h(d) + h(e);
    assert [a, b, c, d, e][1..] == [b, c, d, e];
    assert Aggregate(h, [a, b, c, d, e]) == h(a) + (h(b) + h(c) + h(d) + h(e)) == h(a) + h(b) + h(c) + h(d) + h(e);
  }

  /** The keys of a map in whatever order the iteration yields them. */
  method CollectKeys(m: map<string, string>) returns (keys: seq<string>)
    ensures Permutes(keys, m.Keys)
  {
    keys := [];
    var todo := m.Keys;
    while todo != {}
      invariant todo <= m.Keys && Permutes(keys, m.Keys - todo)
    {
      var k :| k in todo;
      keys := keys + [k];
      todo := todo - {k};
    }
  }

  // ---------------------------------------------------------------------------------------------
  // What a digest identifies

  /** Every string that goes through the hash function for one digest. */
  ghost function Hashed(h: Hash, c: ExecConfig, fs: Files): seq<string>
    requires Readable(c, fs)
  {
    Items(c, fs) + [Aggregate(h, Items(c, fs))]
  }

  ghost predicate Collision(h: Hash, s: seq<string>, t: seq<string>) {
    exists x, y :: x in s && y in t && x != y && h(x) == h(y)
  }

  lemma {:induction false} AggregateLength(h: Hash, s: seq<string>)
    requires Hex64(h)
    ensures |Aggregate(h, s)| == 64 * |s|
  {
    if s != [] {
      AggregateLength(h, s[1..]);
    }
  }

  /** Fixed-width chunks can be told apart, so equal concatenations have equal chunks. */
  lemma {:induction false} AggregateInjective(h: Hash, s: seq<string>, t: seq<string>)
    requires Hex64(h) && Aggregate(h, s) == Aggregate(h, t)
    ensures s == t || Collision(h, s, t)
  {
    AggregateLength(h, s);
    AggregateLength(h, t);
    if s != [] {
      assert |h(s[0])| == |h(t[0])| == 64;
      assert h(s[0]) == Aggregate(h, s)[..64] == Aggregate(h, t)[..64] == h(t[0]);
      assert Aggregate(h, s[1..]) == Aggregate(h, s)[64..] == Aggregate(h, t)[64..] == Aggregate(h, t[1..]);
      AggregateInjective(h, s[1..], t[1..]);
      if s[0] != t[0] {
        assert s[0] in s && t[0] in t;
      } else if s[1..] == t[1..] {
        assert s == [s[0]] + s[1..] && t == [t[0]] + t[1..];
      } else {
        var x, y :| x in s[1..] && y in t[1..] && x != y && h(x) == h(y);
        assert x in s && y in t;
      }
    }
  }

  lemma CollisionWidens(h: Hash, s: seq<string>, t: seq<string>, s': seq<string>, t': seq<string>)
    ensures Collision(h, s, t) ==> Collision(h, s + s', t + t')
  {
    if Collision(h, s, t) {
      var x, y :| x in s && y in t && x != y && h(x) == h(y);
      assert x in s + s' && y in t + t';
    }
  }

  /**
   Two configurations have the same digest exactly when they hash the same items in the same
   order, unless two different strings that were hashed for them collide.
   */
  lemma SumsEqualIff(h: Hash, a: ExecConfig, b: ExecConfig, fs: Files, fs': Files)
    requires Hex64(h) && Readable(a, fs) && Readable(b, fs')
    requires !Collision(h, Hashed(h, a, fs), Hashed(h, b, fs'))
    ensures Digest(h, a, fs) == Digest(h, b, fs') <==> Items(a, fs) == Items(b, fs')
  {
    if Digest(h, a, fs) == Digest(h, b, fs') {
      var x, y := Aggregate(h, Items(a, fs)), Aggregate(h, Items(b, fs'));
      assert x in Hashed(h, a, fs) && y in Hashed(h, b, fs') && h(x) == h(y);
      assert x == y;
      AggregateInjective(h, Items(a, fs), Items(b, fs'));
      CollisionWidens(h, Items(a, fs), Items(b, fs'), [x], [y]);
    }
  }

  ghost predicate NoColonKeys(m: map<string, string>) {
    forall k :: k in m ==> ':' !in k
  }

  lemma EnvItemInjective(k: string, v: string, k': string, v': string)
    requires EnvItem(k, v) == EnvItem(k', v') && ':' !in k && ':' !in k'
    ensures k == k' && v == v'
  {
    var s, s' := EnvItem(k, v), EnvItem(k', v');
    assert s[|k|] == ':' && s'[|k'|] == ':';
    assert forall i :: 0 <= i < |k| ==> s[i] == k[i] != ':';
    assert forall i :: 0 <= i < |k'| ==> s'[i] == k'[i] != ':';
    assert k == s[..|k|] && k' == s'[..|k'|];
    assert v == s[|k| + 1..] && v' == s'[|k'| + 1..];
  }

  lemma EnvIncluded(m: map<string, string>, n: map<string, string>)
    requires EnvItems(m) == EnvItems(n) && NoColonKeys(m) && NoColonKeys(n)
    ensures forall k :: k in m ==> k in n && n[k] == m[k]
  {
    forall k | k in m ensures k in n && n[k] == m[k] {
      assert k in SortedKeys(m.Keys);
      var i :| 0 <= i < |SortedKeys(m.Keys)| && SortedKeys(m.Keys)[i] == k;
      var k' := SortedKeys(n.Keys)[i];
      assert k' in n.Keys;
      assert EnvItems(m)[i] == EnvItem(k, m[k]) && EnvItems(n)[i] == EnvItem(k', n[k']);
      EnvItemInjective(k, m[k], k', n[k']);
    }
  }

  lemma SameParts(p1: seq<string>, q1: seq<string>, p2: seq<string>, q2: seq<string>,
                  p3: seq<string>, q3: seq<string>, p4: seq<string>, q4: seq<string>)
    requires p1 + p2 + p3 + p4 == q1 + q2 + q3 + q4
    requires |p1| == |q1| && |p2| == |q2| && |p3| == |q3|
    ensures p1 == q1 && p2 == q2 && p3 == q3 && p4 == q4
  {
    var p, q := p1 + p2 + p3 + p4, q1 + q2 + q3 + q4;
    assert p1 == p[..|p1|] && q1 == q[..|p1|];
    assert p2 == p[|p1|..|p1| + |p2|] && q2 == q[|p1|..|p1| + |p2|];
    assert p3 == p[|p1| + |p2|..|p1| + |p2| + |p3|] && q3 == q[|p1| + |p2|..|p1| + |p2| + |p3|];
    assert p4 == p[|p1| + |p2| + |p3|..] && q4 == q[|p1| + |p2| + |p3|..];
  }

  /**
   When the items sit at the same positions and no environment key holds a colon, equal digests
   mean equal contents, inline commands, script bodies and environments.
   */
  lemma SumDeterminesConfig(h: Hash, a: ExecConfig, b: ExecConfig, fs: Files, fs': Files)
    requires Hex64(h) && Readable(a, fs) && Readable(b, fs')
    requires !Collision(h, Hashed(h, a, fs), Hashed(h, b, fs'))
    requires Digest(h, a, fs) == Digest(h, b, fs')
    requires a.content.Some? <==> b.content.Some?
    requires |a.inline.GetOr([])| == |b.inline.GetOr([])| && |a.scripts.GetOr([])| == |b.scripts.GetOr([])|
    requires NoColonKeys(a.env.GetOr(map[])) && NoColonKeys(b.env.GetOr(map[]))
    ensures a.content == b.content && a.inline.GetOr([]) == b.inline.GetOr([])
    ensures Bodies(a.scripts.GetOr([]), fs) == Bodies(b.scripts.GetOr([]), fs')
    ensures a.env.GetOr(map[]) == b.env.GetOr(map[])
  {
    hide Hex64, Digest, Aggregate, Hashed, Collision, SortedKeys, EnvItems, NoColonKeys;
    SumsEqualIff(h, a, b, fs, fs');
    NoEnvItems();
    var m, n := a.env.GetOr(map[]), b.env.GetOr(map[]);
    SameParts(if a.content.Some? then [a.content.value] else [], if b.content.Some? then [b.content.value] else [],
              a.inline.GetOr([]), b.inline.GetOr([]), Bodies(a.scripts.GetOr([]), fs), Bodies(b.scripts.GetOr([]), fs'),
              EnvItems(m), EnvItems(n));
    assert a.content.Some? ==> [a.content.value][0] == [b.content.value][0];
    EnvIncluded(m, n);
    EnvIncluded(n, m);
    assert m == n;
  }

  lemma NoEnvItems()
    ensures EnvItems(map[]) == []
  {
  }

  /** Without those conditions the digest cannot tell configurations apart. */
  lemma SumIsAmbiguous(h: Hash, text: string, fs: Files)
    ensures var asContent := ExecConfig(None, Some(text), None, None);
            var asInline := ExecConfig(None, None, Some([text]), None);
            Digest(h, asContent, fs) == Digest(h, asInline, fs)
    ensures var env := ExecConfig(Some(map["a:b" := "c"]), None, None, None);
            var env' := ExecConfig(Some(map["a" := "b:c"]), None, None, None);
            env != env' && Digest(h, env, fs) == Digest(h, env', fs)
  {
    var asContent := ExecConfig(None, Some(text), None, None);
    var asInline := ExecConfig(None, None, Some([text]), None);
    assert Items(asContent, fs) == [text] == Items(asInline, fs);
    var m, m' := map["a:b" := "c"], map["a" := "b:c"];
    OneEnvItem("a:b", "c");
    OneEnvItem("a", "b:c");
    assert "a:b" + ":" + "c" == "a" + ":" + "b:c";
    assert m != m' by { assert "a:b" in m && "a:b" !in m'; }
    var env := ExecConfig(Some(m), None, None, None);
    var env' := ExecConfig(Some(m'), None, None, None);
    assert Items(env, fs) == EnvItems(m) && Items(env', fs) == EnvItems(m');
  }

  lemma OneEnvItem(k: string, v: string)
    ensures EnvItems(map[k := v]) == [EnvItem(k, v)]
  {
    var m := map[k := v];
    var keys := SortedKeys(m.Keys);
    assert m.Keys == {k};
    PermutesLength(keys, m.Keys);
    assert keys[0] in m.Keys;
  }
}
