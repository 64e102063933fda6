/** Builder operations seen as changes of the document they build, up to the order of attributes. */
module HclDocument {
  import opened Wrappers
  import opened TfValues
  import opened Orders
  import opened HclBuilder

  /** A body as what it configures: the order of its entries does not matter. */
  datatype Canon = CAttr(key: string, value: Native) | CBlock(name: string, labels: seq<string>, body: multiset<Canon>)

  function CanonOf(p: seq<Out>): multiset<Canon> {
    if p == [] then multiset{} else
      var last := p[|p| - 1];
      CanonOf(p[..|p| - 1])
      + multiset{if last.OutAttr? then CAttr(last.key, last.value)
                 else CBlock(last.name, last.labels, CanonOf(last.body))}
  }

  function AttrKeys(p: seq<Out>): set<string> {
    if p == [] then {} else
      var last := p[|p| - 1];
      AttrKeys(p[..|p| - 1]) + (if last.OutAttr? then {last.key} else {})
  }

  /** No body has two attributes with the same key, so that writing it out loses nothing. */
  predicate Clean(p: seq<Out>) {
    p == [] ||
    var rest, last := p[..|p| - 1], p[|p| - 1];
    Clean(rest) && (if last.OutAttr? then last.key !in AttrKeys(rest) else Clean(last.body))
  }

  ghost function AttrSet(m: map<string, Native>): multiset<Canon> {
    multiset(set k | k in m :: CAttr(k, m[k]))
  }

  /** A body that holds the attributes of a map and nothing else. */
  ghost predicate Holds(p: seq<Out>, m: map<string, Native>) {
    CanonOf(p) == AttrSet(m) && Clean(p) && AttrKeys(p) == m.Keys
  }

  lemma Snoc(p: seq<Out>, o: Out)
    ensures CanonOf(p + [o]) ==
            CanonOf(p)
            + multiset{if o.OutAttr? then CAttr(o.key, o.value) else CBlock(o.name, o.labels, CanonOf(o.body))}
    ensures AttrKeys(p + [o]) == AttrKeys(p) + (if o.OutAttr? then {o.key} else {})
    ensures Clean(p + [o]) <==> Clean(p) && (if o.OutAttr? then o.key !in AttrKeys(p) else Clean(o.body))
  {
    assert (p + [o])[..|p|] == p;
  }

  lemma {:induction false} Concat(p: seq<Out>, q: seq<Out>)
    ensures CanonOf(p + q) == CanonOf(p) + CanonOf(q)
    ensures AttrKeys(p + q) == AttrKeys(p) + AttrKeys(q)
    ensures Clean(p) && Clean(q) && AttrKeys(p) !! AttrKeys(q) ==> Clean(p + q)
  {
    hide CanonOf, AttrKeys, Clean;
    Nothing();
    if q == [] {
      assert p + q == p;
    } else {
      var rest, o := q[..|q| - 1], q[|q| - 1];
      Concat(p, rest);
      Snoc(p + rest, o);
      Snoc(rest, o);
      assert p + rest + [o] == p + q && rest + [o] == q;
    }
  }

  lemma Nothing()
    ensures CanonOf([]) == multiset{} == AttrSet(map[]) && AttrKeys([]) == {} && Clean([])
  {
  }

  lemma PlainSnoc(t: seq<Node>, node: Node)
    ensures Plain(t + [node]) ==
            Plain(t)
            + [if node.Attr? then OutAttr(node.key, node.value) else OutBlock(node.name, node.labels, Plain(node.body))]
  {
    assert (t + [node])[..|t|] == t;
  }

  lemma {:induction false} PlainAttrKeys(t: seq<Node>)
    ensures forall k :: k in AttrKeys(Plain(t)) <==> exists j :: 0 <= j < |t| && t[j].Attr? && t[j].key == k
  {
    hide AttrKeys, Plain;
    if t == [] {
      assert Plain([]) == [] && AttrKeys([]) == {} by { NothingPlain(); }
    } else {
      var rest, last := t[..|t| - 1], t[|t| - 1];
      PlainAttrKeys(rest);
      assert t == rest + [last];
      PlainSnoc(rest, last);
      Snoc(Plain(rest), if last.Attr? then OutAttr(last.key, last.value)
                        else OutBlock(last.name, last.labels, Plain(last.body)));
    }
  }

  lemma NothingPlain()
    ensures Plain([]) == [] && AttrKeys([]) == {}
  {
  }

  /** A clean document is one that is written out as it stands (EmittedIff). */
  lemma {:induction false} CleanPlain(t: seq<Node>)
    ensures Clean(Plain(t)) <==> NoRepeats(t)
  {
    hide AttrKeys;
    if t != [] {
      var rest, last := t[..|t| - 1], t[|t| - 1];
      CleanPlain(rest);
      if last.Block? { CleanPlain(last.body); }
      PlainAttrKeys(rest);
      assert Plain(t)[..|rest|] == Plain(rest);
    }
  }

  // ---------------------------------------------------------------------------------------------
  // How the document of a builder changes

  ghost function DocAt(s: Items, c: nat): seq<Out>
    requires Ordered(s) && c < |s|
  {
    Plain(Whole(s, c))
  }

  ghost function Doc(b: Builder): seq<Out>
    requires b.Valid()
    reads b.root, b.root.nodes
  {
    DocAt(b.Contents(), b.id)
  }

  /** Only builder c has been appended to, and builders have been added. */
  ghost predicate Extends(s: Items, s': Items, c: nat) {
    && c < |s| <= |s'| && (forall i :: 0 <= i < |s| && i != c ==> s'[i] == s[i]) && s[c] <= s'[c]
  }

  lemma {:induction false} TreeKept(s: Items, s': Items, c: nat, x: nat, n: nat)
    requires Ordered(s) && Ordered(s') && Extends(s, s', c) && c <= x < |s| && n <= |s[x]|
    ensures Tree(s', x, n) == Tree(s, x, n)
    decreases |s| - x, n
  {
    if n > 0 {
      TreeKept(s, s', c, x, n - 1);
      if s[x][n - 1].BlockItem? { TreeKept(s, s', c, s[x][n - 1].child, |s[s[x][n - 1].child]|); }
    }
  }

  /** A new block with whatever its builder holds by now. */
  lemma Grafted(s: Items, s': Items, c: nat, name: string, labels: seq<string>)
    requires Ordered(s) && Ordered(s') && Extends(s, s', c) && |s'| > |s|
    requires s'[c] == s[c] + [BlockItem(name, labels, |s|)]
    ensures DocAt(s', c) == DocAt(s, c) + [OutBlock(name, labels, DocAt(s', |s|))]
  {
    hide Tree, Plain;
    var n := |s[c]|;
    TreeKept(s, s', c, c, n);
    assert s'[c][n] == BlockItem(name, labels, |s|);
    TreeNext(s', c, n);
    PlainSnoc(Tree(s', c, n), NodeOf(s', c, s'[c][n]));
  }

  lemma TreeNext(s: Items, c: nat, n: nat)
    requires Ordered(s) && c < |s| && n < |s[c]|
    ensures Tree(s, c, n + 1) == Tree(s, c, n) + [NodeOf(s, c, s[c][n])]
  {
  }

  lemma AttributePut(s: Items, s': Items, c: nat, key: string, value: Native)
    requires Ordered(s) && Ordered(s') && c < |s| && s' == WithItem(s, c, AttributeItem(key, value))
    ensures DocAt(s', c) == DocAt(s, c) + [OutAttr(key, value)] && Extends(s, s', c)
  {
    hide Tree, Plain;
    var n := |s[c]|;
    TreeKept(s, s', c, c, n);
    assert s'[c][n] == AttributeItem(key, value);
    TreeNext(s', c, n);
    PlainSnoc(Tree(s', c, n), Attr(key, value));
  }

  ghost function AttrOuts(m: map<string, Native>, order: seq<string>): seq<Out>
    requires forall k :: k in order ==> k in m
  {
    seq(|order|, i requires 0 <= i < |order| => OutAttr(order[i], m[order[i]]))
  }

  lemma {:induction false} AttrOutsHold(m: map<string, Native>, order: seq<string>, keys: set<string>)
    requires Permutes(order, keys) && keys <= m.Keys && (forall k :: k in order ==> k in m)
    ensures Holds(AttrOuts(m, order), map k | k in keys :: m[k])
  {
    hide CanonOf, AttrKeys, Clean, AttrSet;
    var n := map k | k in keys :: m[k];
    if order == [] {
      assert keys == {} by { assert forall k :: k in keys ==> k in order; }
      assert n == map[];
      assert AttrOuts(m, order) == [];
      Nothing();
    } else {
      var rest, k := order[..|order| - 1], order[|order| - 1];
      PermutesButLast(order, keys);
      AttrOutsHold(m, rest, keys - {k});
      assert AttrOuts(m, order) == AttrOuts(m, rest) + [OutAttr(k, m[k])];
      Snoc(AttrOuts(m, rest), OutAttr(k, m[k]));
      var n' := map j | j in keys - {k} :: m[j];
      AttrSetNext(n', k, m[k]);
      assert n == n'[k := m[k]];
    }
  }

  lemma AttrSetNext(n: map<string, Native>, k: string, v: Native)
    requires k !in n
    ensures AttrSet(n[k := v]) == AttrSet(n) + multiset{CAttr(k, v)}
  {
    var m := n[k := v];
    var a, b := set j | j in n :: CAttr(j, n[j]), set j | j in m :: CAttr(j, m[j]);
    assert b == a + {CAttr(k, v)} by {
      forall x ensures x in b <==> x in a + {CAttr(k, v)} {
        if x in a { assert x.key in m && x == CAttr(x.key, m[x.key]); }
        if x == CAttr(k, v) { assert k in m; }
      }
    }
    assert CAttr(k, v) !in a;
  }

  lemma {:induction false} AttributesPut(s: Items, s': Items, c: nat, m: map<string, Native>, order: seq<string>)
    requires Ordered(s) && Ordered(s') && c < |s| && (forall k :: k in order ==> k in m)
    requires s' == s[c := s[c] + AttributeItems(m, order)]
    ensures DocAt(s', c) == DocAt(s, c) + AttrOuts(m, order) && Extends(s, s', c)
    decreases order
  {
    hide DocAt;
    if order == [] {
      assert AttributeItems(m, order) == [] && AttrOuts(m, order) == [];
      MoreItems(s, c, []);
      assert DocAt(s, c) + [] == DocAt(s, c);
    } else {
      var rest, k := order[..|order| - 1], order[|order| - 1];
      assert AttributeItems(m, order) == AttributeItems(m, rest) + [AttributeItem(k, m[k])];
      var s1 := s[c := s[c] + AttributeItems(m, rest)];
      assert Ordered(s1);
      AttributesPut(s, s1, c, m, rest);
      MoreItems(s, c, AttributeItems(m, rest));
      assert s' == WithItem(s1, c, AttributeItem(k, m[k]));
      AttributePut(s1, s', c, k, m[k]);
      assert AttrOuts(m, order) == AttrOuts(m, rest) + [OutAttr(k, m[k])];
    }
  }

  /** AppendAttribute in terms of the document. */
  method PutAttribute(b: Builder, key: string, value: Native)
    requires b.Valid()
    modifies b`entries
    ensures b.Valid() && b.root.nodes == old(b.root.nodes) && Extends(old(b.Contents()), b.Contents(), b.id)
    ensures Doc(b) == old(Doc(b)) + [OutAttr(key, value)]
  {
    hide OneTree, Extends, DocAt;
    OneTreeIsOrdered(b.Contents());
    ghost var s := b.Contents();
    var _ := b.AppendAttribute(key, value);
    OneTreeIsOrdered(b.Contents());
    AttributePut(s, b.Contents(), b.id, key, value);
  }

  /** AppendBlock followed by AppendAttributes on the new builder. */
  method AppendFilled(b: Builder, name: string, labels: seq<string>, attrs: map<string, Native>)
    returns (child: Builder)
    requires b.Valid()
    modifies b`entries, b.root`nodes
    ensures b.Valid() && child.Valid() && fresh(child) && child.root == b.root
    ensures child.id == |old(b.root.nodes)| && b.root.nodes == old(b.root.nodes) + [child]
    ensures Extends(old(b.Contents()), b.Contents(), b.id)
    ensures b.Contents()[b.id] == old(b.Contents())[b.id] + [BlockItem(name, labels, child.id)]
    ensures Holds(Doc(child), attrs) && Doc(b) == old(Doc(b)) + [OutBlock(name, labels, Doc(child))]
  {
    hide OneTree, Holds, DocAt, Permutes;
    ghost var s := b.Contents();
    OneTreeIsOrdered(s);
    child := b.AppendBlock(name, labels);
    ghost var s1 := b.Contents();
    OneTreeIsOrdered(s1);
    var _, order := child.AppendAttributes(attrs);
    ghost var s2 := b.Contents();
    OneTreeIsOrdered(s2);
    NewBody(s1, s2, |s|, attrs, order);
    Grafted(s, s2, b.id, name, labels);
  }

  lemma NewBody(s: Items, s': Items, c: nat, m: map<string, Native>, order: seq<string>)
    requires Ordered(s) && Ordered(s') && c < |s| && s[c] == [] && Permutes(order, m.Keys)
    requires forall k :: k in order ==> k in m
    requires s' == s[c := s[c] + AttributeItems(m, order)]
    ensures Holds(DocAt(s', c), m)
  {
    AttributesPut(s, s', c, m, order);
    assert DocAt(s, c) == [];
    AttrOutsHold(m, order, m.Keys);
    assert (map k | k in m.Keys :: m[k]) == m;
    assert [] + AttrOuts(m, order) == AttrOuts(m, order);
  }

  lemma ExtendsBelow(s0: Items, s1: Items, s2: Items, c: nat, n: nat)
    requires Extends(s0, s1, c) && Extends(s1, s2, n) && n >= |s0|
    ensures Extends(s0, s2, c) && s2[c] == s1[c]
  {
  }

  lemma ExtendsAgain(s0: Items, s1: Items, s2: Items, c: nat)
    requires Extends(s0, s1, c) && Extends(s1, s2, c)
    ensures Extends(s0, s2, c)
  {
  }

  /** After more was appended below a block of b, b shows the block with all of it. */
  lemma BlockCompleted(b: Builder, child: Builder, s0: Items, s1: Items, name: string, labels: seq<string>)
    requires child.Valid() && b.root == child.root && b.id < |child.root.nodes| && child.root.nodes[b.id] == b
    requires Ordered(s0) && Extends(s0, s1, b.id) && child.id == |s0|
    requires s1[b.id] == s0[b.id] + [BlockItem(name, labels, child.id)]
    requires Extends(s1, child.Contents(), child.id)
    ensures b.Valid() && Doc(b) == DocAt(s0, b.id) + [OutBlock(name, labels, Doc(child))]
    ensures Extends(s0, b.Contents(), b.id)
  {
    hide Builder.Valid, OneTree, DocAt, Extends;
    SharedValid(child, b);
    ContentsOrdered(b);
    ExtendsBelow(s0, s1, b.Contents(), b.id, child.id);
    child.IdInRange();
    ExtendsInRange(s0, s1, b.id);
    Grafted(s0, b.Contents(), b.id, name, labels);
  }

  lemma ExtendsInRange(s: Items, s': Items, c: nat)
    requires Extends(s, s', c)
    ensures c < |s| <= |s'|
  {
  }

  lemma ContentsOrdered(b: Builder)
    requires b.Valid()
    ensures Ordered(b.Contents()) && b.id < |b.Contents()| && b.id < |b.root.nodes| && b.root.nodes[b.id] == b
  {
    OneTreeIsOrdered(b.Contents());
  }

  /** BuildHCL writes out exactly the document of the builder when that is clean. */
  lemma WrittenOutIff(b: Builder)
    requires b.Valid()
    ensures Emitted(Whole(b.Contents(), b.id)) == Doc(b) <==> Clean(Doc(b))
  {
    hide Emitted, Plain, NoRepeats, Clean;
    EmittedIff(Whole(b.Contents(), b.id));
    CleanPlain(Whole(b.Contents(), b.id));
  }
}
