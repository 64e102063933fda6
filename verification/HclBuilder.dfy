/**
 The HCL builder (internal/remoteflight/hcl/builder.go): builders on the heap that hold attributes
 and blocks, each block with a builder of its own that can be appended to later.
 */
module HclBuilder {
  import opened Wrappers
  import opened TfValues
  import opened Orders

  // ---------------------------------------------------------------------------------------------
  // Documents as values. Builders are numbered in the order of their creation.

  /** One entry of a builder; a block refers to its builder by number. */
  datatype Item = AttributeItem(key: string, value: Native) | BlockItem(name: string, labels: seq<string>, child: nat)

  type Items = seq<seq<Item>>

  /** A block is created after the builder it is appended to. */
  ghost predicate Ordered(s: Items) {
    forall i, k :: 0 <= i < |s| && 0 <= k < |s[i]| && s[i][k].BlockItem? ==> i < s[i][k].child < |s|
  }

  datatype Node = Attr(key: string, value: Native) | Block(id: nat, name: string, labels: seq<string>, body: seq<Node>)

  ghost function NodeOf(s: Items, x: nat, item: Item): Node
    requires Ordered(s) && x < |s| && (item.BlockItem? ==> x < item.child < |s|)
    decreases |s| - x, 0
  {
    match item
    case AttributeItem(key, value) => Attr(key, value)
    case BlockItem(name, labels, child) => Block(child, name, labels, Tree(s, child, |s[child]|))
  }

  /** The first n entries of builder x with everything below them. */
  ghost function Tree(s: Items, x: nat, n: nat): (t: seq<Node>)
    requires Ordered(s) && x < |s| && n <= |s[x]|
    ensures |t| == n
    decreases |s| - x, n + 1
  {
    if n == 0 then [] else Tree(s, x, n - 1) + [NodeOf(s, x, s[x][n - 1])]
  }

  ghost function Whole(s: Items, x: nat): seq<Node>
    requires Ordered(s) && x < |s|
  {
    Tree(s, x, |s[x]|)
  }

  /** `node` appended to the body of builder c, wherever that is in the body of builder x. */
  function AppendTo(x: nat, body: seq<Node>, c: nat, node: Node): seq<Node> {
    if x == c then Below(body, c, node) + [node] else Below(body, c, node)
  }

  function Below(body: seq<Node>, c: nat, node: Node): (b: seq<Node>)
    ensures |b| == |body|
  {
    if body == [] then [] else
      var last := body[|body| - 1];
      var below := if last.Attr? then [] else Below(last.body, c, node);
      Below(body[..|body| - 1], c, node)
      + [if last.Attr? then last
         else Block(last.id, last.name, last.labels, if last.id == c then below + [node] else below)]
  }

  /** How many blocks in a body belong to builder c. */
  function Count(body: seq<Node>, c: nat): nat {
    if body == [] then 0 else
      var last := body[|body| - 1];
      Count(body[..|body| - 1], c)
      + (if last.Attr? then 0 else (if last.id == c then 1 else 0) + Count(last.body, c))
  }

  function Size(body: seq<Node>): nat {
    if body == [] then 0 else
      var last := body[|body| - 1];
      Size(body[..|body| - 1]) + 1 + (if last.Attr? then 0 else Size(last.body))
  }

  function Total(s: Items): nat {
    if s == [] then 0 else Total(s[..|s| - 1]) + |s[|s| - 1]|
  }

  // ---------------------------------------------------------------------------------------------
  // What appending does to the document

  function WithItem(s: Items, c: nat, item: Item): Items
    requires c < |s|
  {
    s[c := s[c] + [item]]
  }

  function WithBlock(s: Items, c: nat, name: string, labels: seq<string>): Items
    requires c < |s|
  {
    WithItem(s, c, BlockItem(name, labels, |s|)) + [[]]
  }

  /** The document is one tree: every builder but the first is the body of exactly one block. */
  ghost predicate OneTree(s: Items) {
    && s != [] && Ordered(s)
    && (forall c :: 0 < c < |s| ==> Count(Whole(s, 0), c) == 1)
    && (forall c: nat :: c == 0 || c >= |s| ==> Count(Whole(s, 0), c) == 0)
    && Size(Whole(s, 0)) == Total(s)
  }

  /** s' is s with one more entry in builder c, which shows as `node`. */
  ghost predicate Grows(s: Items, s': Items, c: nat, item: Item, node: Node) {
    && Ordered(s) && Ordered(s') && c < |s| <= |s'|
    && (forall i :: 0 <= i < |s| ==> s'[i] == if i == c then s[i] + [item] else s[i])
    && (item.BlockItem? ==> c < item.child < |s'|) && NodeOf(s', c, item) == node
  }

  /** The document changes by that one node, appended to the body of builder c. */
  lemma {:induction false} TreeGrows(s: Items, s': Items, c: nat, item: Item, node: Node, x: nat, n: nat)
    requires Grows(s, s', c, item, node) && x < |s| && n <= |s[x]|
    ensures Tree(s', x, n) == Below(Tree(s, x, n), c, node)
    decreases |s| - x, n
  {
    if n > 0 {
      TreeGrows(s, s', c, item, node, x, n - 1);
      var it := s[x][n - 1];
      assert s'[x][n - 1] == it;
      var t := Tree(s, x, n);
      assert t[..n - 1] == Tree(s, x, n - 1);
      if it.BlockItem? {
        WholeGrows(s, s', c, item, node, it.child);
      }
    }
  }

  lemma {:induction false} WholeGrows(s: Items, s': Items, c: nat, item: Item, node: Node, x: nat)
    requires Grows(s, s', c, item, node) && x < |s|
    ensures Whole(s', x) == AppendTo(x, Whole(s, x), c, node)
    decreases |s| - x, |s[x]| + 1
  {
    TreeGrows(s, s', c, item, node, x, |s[x]|);
    if x == c {
      assert s'[c][|s[c]|] == item;
    }
  }

  lemma {:induction false} CountBelow(body: seq<Node>, c: nat, node: Node, d: nat)
    ensures Count(Below(body, c, node), d) == Count(body, d) + Count(body, c) * Count([node], d)
    ensures Size(Below(body, c, node)) == Size(body) + Count(body, c) * Size([node])
  {
    hide Below, Count, Size;
    if body == [] {
      NothingBelow(c, node, d);
    } else {
      var rest, last := body[..|body| - 1], body[|body| - 1];
      CountBelow(rest, c, node, d);
      CountLast(body, c);
      CountLast(body, d);
      var one := if last.Block? && last.id == c then 1 else 0;
      var below := if last.Block? then Count(last.body, c) else 0;
      Distribute(Count(rest, c), one, below, Count([node], d));
      Distribute(Count(rest, c), one, below, Size([node]));
      LastBelow(body, c, node, d);
      if last.Block? {
        CountBelow(last.body, c, node, d);
      }
    }
  }

  lemma NothingBelow(c: nat, node: Node, d: nat)
    ensures Below([], c, node) == [] && Count([], c) == Count([], d) == Size([]) == 0
  {
  }

  lemma CountLast(body: seq<Node>, c: nat)
    requires body != []
    ensures var rest, last := body[..|body| - 1], body[|body| - 1];
            && Count(body, c) == Count(rest, c)
                 + (if last.Block? && last.id == c then 1 else 0) + (if last.Block? then Count(last.body, c) else 0)
            && Size(body) == Size(rest) + 1 + (if last.Block? then Size(last.body) else 0)
  {
  }

  lemma LastBelow(body: seq<Node>, c: nat, node: Node, d: nat)
    requires body != []
    ensures var rest, last := body[..|body| - 1], body[|body| - 1];
            var one := if last.Block? && last.id == c then 1 else 0;
            && Count(Below(body, c, node), d) ==
               Count(Below(rest, c, node), d)
               + (if last.Attr? then 0
                  else (if last.id == d then 1 else 0) + Count(Below(last.body, c, node), d) + one * Count([node], d))
            && Size(Below(body, c, node)) ==
               Size(Below(rest, c, node)) + 1
               + (if last.Attr? then 0 else Size(Below(last.body, c, node)) + one * Size([node]))
  {
    var rest, last := body[..|body| - 1], body[|body| - 1];
    var b := Below(body, c, node);
    assert b[..|b| - 1] == Below(rest, c, node);
    if last.Block? && last.id == c { CountSnoc(Below(last.body, c, node), node, d); }
  }

  lemma Distribute(p: nat, q: nat, r: nat, x: nat)
    ensures (p + q + r) * x == p * x + q * x + r * x
  {
  }

  lemma CountSnoc(body: seq<Node>, node: Node, d: nat)
    ensures Count(body + [node], d) == Count(body, d) + Count([node], d)
    ensures Size(body + [node]) == Size(body) + Size([node])
  {
    assert (body + [node])[..|body|] == body && [node][..0] == [];
  }

  /** An attribute appended to builder c: one more node, in that body, and still one tree. */
  lemma AppendsAttribute(s: Items, c: nat, key: string, value: Native)
    requires OneTree(s) && c < |s|
    ensures var s' := WithItem(s, c, AttributeItem(key, value));
            && Ordered(s') && Whole(s', 0) == AppendTo(0, Whole(s, 0), c, Attr(key, value))
            && OneTree(s')
  {
    var s', node := WithItem(s, c, AttributeItem(key, value)), Attr(key, value);
    assert Grows(s, s', c, AttributeItem(key, value), node);
    StaysOneTree(s, s', c, AttributeItem(key, value), node);
  }

  /** A block appended to builder c: one empty block under c with a new builder as its body. */
  lemma AppendsBlock(s: Items, c: nat, name: string, labels: seq<string>)
    requires OneTree(s) && c < |s|
    ensures var s' := WithBlock(s, c, name, labels);
            && Ordered(s') && Whole(s', 0) == AppendTo(0, Whole(s, 0), c, Block(|s|, name, labels, []))
            && OneTree(s')
  {
    var s', node, item := WithBlock(s, c, name, labels), Block(|s|, name, labels, []), BlockItem(name, labels, |s|);
    assert s'[|s|] == [];
    assert Grows(s, s', c, item, node);
    StaysOneTree(s, s', c, item, node);
  }

  lemma CountAppended(t: seq<Node>, c: nat, node: Node, d: nat)
    requires Count(t, c) == if c == 0 then 0 else 1
    ensures Count(AppendTo(0, t, c, node), d) == Count(t, d) + Count([node], d)
    ensures Size(AppendTo(0, t, c, node)) == Size(t) + Size([node])
  {
    hide Count, Below, Size;
    CountBelow(t, c, node, d);
    CountSnoc(Below(t, c, node), node, d);
    TimesBit(Count(t, c), Count([node], d));
    TimesBit(Count(t, c), Size([node]));
  }

  lemma NewNode(s: Items, s': Items, c: nat, item: Item, node: Node)
    requires Grows(s, s', c, item, node) && (item.BlockItem? ==> s'[item.child] == [])
    ensures item.AttributeItem? <==> node.Attr?
    ensures item.BlockItem? ==> node.id == item.child && node.body == []
  {
  }

  lemma TimesBit(bit: nat, n: nat)
    requires bit <= 1
    ensures bit * n == if bit == 0 then 0 else n
  {
  }

  lemma StaysOneTree(s: Items, s': Items, c: nat, item: Item, node: Node)
    requires OneTree(s) && Grows(s, s', c, item, node)
    requires (item.AttributeItem? && |s'| == |s|) ||
             (item.BlockItem? && item.child == |s| && |s'| == |s| + 1 && s'[|s|] == [])
    ensures Whole(s', 0) == AppendTo(0, Whole(s, 0), c, node) && OneTree(s')
  {
    NewNode(s, s', c, item, node);
    WholeGrows(s, s', c, item, node, 0);
    hide Count, Below, Tree, NodeOf, Size, Total, AppendTo;
    var t := Whole(s, 0);
    forall d: nat ensures Count(Whole(s', 0), d) == Count(t, d) + Count([node], d) {
      CountAppended(t, c, node, d);
    }
    CountAppended(t, c, node, 0);
    OneNode(node);
    TotalGrows(s, s', c, item);
  }

  lemma OneNode(node: Node)
    requires node.Block? ==> node.body == []
    ensures Size([node]) == 1
    ensures forall d: nat :: Count([node], d) == if node.Block? && node.id == d then 1 else 0
  {
    assert [node][..0] == [];
  }

  lemma {:induction false} TotalGrows(s: Items, s': Items, c: nat, item: Item)
    requires c < |s| <= |s'| && (forall i :: 0 <= i < |s| ==> s'[i] == if i == c then s[i] + [item] else s[i])
    requires |s'| == |s| || (|s'| == |s| + 1 && s'[|s|] == [])
    ensures Total(s') == Total(s) + 1
    decreases |s'|
  {
    if |s'| > |s| {
      TotalGrows(s, s'[..|s|], c, item);
    } else if c == |s| - 1 {
      assert s'[..|s| - 1] == s[..|s| - 1];
    } else {
      TotalGrows(s[..|s| - 1], s'[..|s| - 1], c, item);
    }
  }

  // ---------------------------------------------------------------------------------------------
  // What is written out

  /** An HCL body as hclwrite holds it. */
  datatype Out = OutAttr(key: string, value: Native) | OutBlock(name: string, labels: seq<string>, body: seq<Out>)

  /** The document without the numbers of its builders. */
  function Plain(t: seq<Node>): (p: seq<Out>)
    ensures |p| == |t|
  {
    if t == [] then [] else
      var last := t[|t| - 1];
      Plain(t[..|t| - 1])
      + [if last.Attr? then OutAttr(last.key, last.value) else OutBlock(last.name, last.labels, Plain(last.body))]
  }

  /** Where a body has an attribute, or its length. */
  function FindAttr(body: seq<Out>, key: string): (i: nat)
    ensures i <= |body| && (i < |body| ==> body[i].OutAttr? && body[i].key == key)
    ensures i == |body| <==> forall j :: 0 <= j < |body| ==> !(body[j].OutAttr? && body[j].key == key)
  {
    if body == [] || (body[0].OutAttr? && body[0].key == key) then 0 else 1 + FindAttr(body[1..], key)
  }

  /** SetAttributeValue replaces the value of an attribute that is there; a block is always added. */
  function Put(body: seq<Out>, o: Out): (r: seq<Out>)
    ensures |r| <= |body| + 1
  {
    if o.OutAttr? && FindAttr(body, o.key) < |body| then body[FindAttr(body, o.key) := o] else body + [o]
  }

  function Emitted(t: seq<Node>): (r: seq<Out>)
    ensures |r| <= |t|
  {
    if t == [] then [] else
      var last := t[|t| - 1];
      Put(Emitted(t[..|t| - 1]),
          if last.Attr? then OutAttr(last.key, last.value) else OutBlock(last.name, last.labels, Emitted(last.body)))
  }

  predicate AllEncode(t: seq<Node>, encodes: Native -> bool) {
    t == [] ||
    var last := t[|t| - 1];
    AllEncode(t[..|t| - 1], encodes) && (if last.Attr? then encodes(last.value) else AllEncode(last.body, encodes))
  }

  /** No body anywhere has two attributes with the same key. */
  predicate NoRepeats(t: seq<Node>) {
    t == [] ||
    var rest, last := t[..|t| - 1], t[|t| - 1];
    && NoRepeats(rest)
    && (if last.Attr? then forall j :: 0 <= j < |rest| ==> !(rest[j].Attr? && rest[j].key == last.key)
        else NoRepeats(last.body))
  }

  /** Every entry is written exactly once, in order and in its own body, unless an attribute is repeated. */
  lemma {:induction false} EmittedIff(t: seq<Node>)
    ensures Emitted(t) == Plain(t) <==> NoRepeats(t)
  {
    if t != [] {
      var rest, last := t[..|t| - 1], t[|t| - 1];
      EmittedIff(rest);
      PlainKeys(rest);
      if last.Block? { EmittedIff(last.body); }
      var o := if last.Attr? then OutAttr(last.key, last.value)
               else OutBlock(last.name, last.labels, Emitted(last.body));
      if Emitted(t) == Plain(t) {
        assert |Put(Emitted(rest), o)| == |rest| + 1;
        assert Emitted(t)[..|rest|] == Emitted(rest) && Plain(t)[..|rest|] == Plain(rest);
        assert Emitted(t)[|rest|] == o == Plain(t)[|rest|];
      }
    }
  }

  lemma PutFacts(body: seq<Out>, o: Out)
    requires KeysDiffer(body)
    ensures var r := Put(body, o);
            && KeysDiffer(r) && o in r
            && (forall x :: x in body && !(o.OutAttr? && x.OutAttr? && x.key == o.key) ==> x in r)
            && (forall x :: x in r ==> x == o || (x in body && !(o.OutAttr? && x.OutAttr? && x.key == o.key)))
  {
    if o.OutAttr? && FindAttr(body, o.key) < |body| {
      var i := FindAttr(body, o.key);
      var r := body[i := o];
      assert r[i] == o;
      forall x | x in body && !(x.OutAttr? && x.key == o.key) ensures x in r {
        var j :| 0 <= j < |body| && body[j] == x;
        assert j != i && r[j] == x;
      }
      forall x | x in r && x != o ensures x in body && !(x.OutAttr? && x.key == o.key) {
        var j :| 0 <= j < |r| && r[j] == x;
        assert j != i && body[j] == x;
      }
    } else {
      assert (body + [o])[|body|] == o;
      forall x | x in body ensures x in body + [o] {}
    }
  }

  /** No two attributes of a body have the same key. */
  ghost predicate KeysDiffer(body: seq<Out>) {
    forall j, k :: 0 <= j < k < |body| && body[j].OutAttr? && body[k].OutAttr? ==> body[j].key != body[k].key
  }

  /**
   What is written of repeated attributes: each key once, with the value that was appended last;
   and every block.
   */
  lemma {:induction false} LastValueCounts(t: seq<Node>, i: nat)
    requires i < |t|
    ensures KeysDiffer(Emitted(t))
    ensures t[i].Attr? && (forall j :: i < j < |t| && t[j].Attr? ==> t[j].key != t[i].key) ==>
              OutAttr(t[i].key, t[i].value) in Emitted(t)
    ensures t[i].Block? ==> OutBlock(t[i].name, t[i].labels, Emitted(t[i].body)) in Emitted(t)
  {
    hide Put, KeysDiffer;
    var rest, last := t[..|t| - 1], t[|t| - 1];
    var o := if last.Attr? then OutAttr(last.key, last.value)
             else OutBlock(last.name, last.labels, Emitted(last.body));
    if rest == [] {
      assert Emitted(rest) == [] && KeysDiffer([]) by { NoKeysDiffer(); }
    } else {
      LastValueCounts(rest, if i < |rest| then i else 0);
    }
    PutFacts(Emitted(rest), o);
    if i < |rest| { assert rest[i] == t[i]; }
  }

  lemma NoKeysDiffer()
    ensures KeysDiffer([])
  {
  }

  lemma {:induction false} PlainKeys(t: seq<Node>)
    ensures forall j :: 0 <= j < |t| ==>
              Plain(t)[j].OutAttr? == t[j].Attr? && (t[j].Attr? ==> Plain(t)[j].key == t[j].key)
  {
    if t != [] {
      PlainKeys(t[..|t| - 1]);
    }
  }

  lemma {:induction false} PrefixEncodes(s: Items, x: nat, i: nat, n: nat, encodes: Native -> bool)
    requires Ordered(s) && x < |s| && i <= n <= |s[x]| && AllEncode(Tree(s, x, n), encodes)
    ensures AllEncode(Tree(s, x, i), encodes)
    decreases n
  {
    if i < n {
      assert Tree(s, x, n)[..n - 1] == Tree(s, x, n - 1);
      PrefixEncodes(s, x, i, n - 1, encodes);
    }
  }

  // ---------------------------------------------------------------------------------------------
  // Builders

  datatype Entry =
    | Attribute(key: string, value: Native)
    | BlockEntry(name: string, labels: seq<string>, builder: Builder)

  class Builder {
    var entries: seq<Entry>
    ghost const root: Builder
    ghost const id: nat
    ghost var nodes: seq<Builder>  // on the root: every builder of the document in order of creation

    /** This builder belongs to a well-formed document. */
    ghost predicate Valid()
      reads root, root.nodes
    {
      && root.id == 0 && root.root == root && id < |root.nodes| && root.nodes[id] == this && root.nodes[0] == root
      && (forall i :: 0 <= i < |root.nodes| ==> root.nodes[i].id == i && root.nodes[i].root == root)
      && (forall i :: 0 <= i < |root.nodes| ==> Listed(root.nodes[i].entries, root))
      && OneTree(Contents())
    }

    ghost function Contents(): (s: Items)
      reads root, root.nodes
      ensures |s| == |root.nodes|
    {
      seq(|root.nodes|, i requires 0 <= i < |root.nodes| reads root, root.nodes => ItemsOf(root.nodes[i].entries))
    }

    constructor ()
      ensures Valid() && root == this && id == 0 && Contents() == [[]]
      ensures nodes == [this]
    {
      entries, root, id, nodes := [], this, 0, [this];
      new;
      assert Contents() == [[]];
      EmptyDocument();
    }

    constructor Child(ghost root: Builder, ghost id: nat)
      ensures this.root == root && this.id == id && entries == []
    {
      entries, nodes := [], [];
      this.root, this.id := root, id;
    }

    method AppendAttribute(key: string, value: Native) returns (b: Builder)
      requires Valid()
      modifies `entries
      ensures b == this && Valid() && root.nodes == old(root.nodes)
      ensures Contents() == WithItem(old(Contents()), id, AttributeItem(key, value))
    {
      hide OneTree;
      entries := entries + [Attribute(key, value)];
      assert ItemsOf(entries) == ItemsOf(old(entries)) + [AttributeItem(key, value)];
      assert Contents() == WithItem(old(Contents()), id, AttributeItem(key, value));
      AppendsAttribute(old(Contents()), id, key, value);
      return this;
    }

    method AppendBlock(name: string, labels: seq<string>) returns (b: Builder)
      requires Valid()
      modifies `entries, root`nodes
      ensures Valid() && fresh(b) && b.root == root && b.id == |old(root.nodes)| && root.nodes == old(root.nodes) + [b]
      ensures b.Valid() && Contents() == WithBlock(old(Contents()), id, name, labels)
    {
      hide OneTree;
      b := new Builder.Child(root, |root.nodes|);
      entries := entries + [BlockEntry(name, labels, b)];
      root.nodes := root.nodes + [b];
      assert ItemsOf(entries) == ItemsOf(old(entries)) + [BlockItem(name, labels, b.id)];
      forall i | 0 <= i < |root.nodes| ensures Contents()[i] == WithBlock(old(Contents()), id, name, labels)[i] {
        if i < |old(root.nodes)| && i != id {
          assert root.nodes[i] != this && root.nodes[i].entries == old(root.nodes[i].entries);
        }
      }
      assert Contents() == WithBlock(old(Contents()), id, name, labels);
      AppendsBlock(old(Contents()), id, name, labels);
      assert Valid();
      hide Valid, Contents;
      SharedValid(this, b);
    }

    /** The attributes are appended in an arbitrary order. */
    method AppendAttributes(attributes: map<string, Native>) returns (b: Builder, ghost order: seq<string>)
      requires Valid()
      modifies `entries
      ensures b == this && Valid() && root.nodes == old(root.nodes)
      ensures Permutes(order, attributes.Keys) && (forall k :: k in order ==> k in attributes)
      ensures Contents() == old(Contents())[id := old(Contents())[id] + AttributeItems(attributes, order)]
    {
      hide Valid, OneTree, Permutes;
      order := [];
      var todo := attributes.Keys;
      PermutesNext(order, attributes.Keys - todo, "");
      IdInRange();
      ghost var s := Contents();
      assert AttributeItems(attributes, []) == [];
      MoreItems(s, id, []);
      while todo != {}
        invariant todo <= attributes.Keys && Permutes(order, attributes.Keys - todo)
        invariant Valid() && root.nodes == old(root.nodes)
        invariant forall k :: k in order ==> k in attributes
        invariant Contents() == s[id := s[id] + AttributeItems(attributes, order)]
      {
        var k :| k in todo;
        var _ := AppendAttribute(k, attributes[k]);
        PermutesNext(order, attributes.Keys - todo, k);
        assert AttributeItems(attributes, order + [k]) ==
                 AttributeItems(attributes, order) + [AttributeItem(k, attributes[k])];
        MoreItems(s, id, AttributeItems(attributes, order));
        assert attributes.Keys - todo + {k} == attributes.Keys - (todo - {k});
        order, todo := order + [k], todo - {k};
      }
      assert attributes.Keys - todo == attributes.Keys;
      return this, order;
    }

    lemma IdInRange()
      requires Valid()
      ensures id < |root.nodes|
    {
    }

    /**
     BuildHCL: the builders below this one are walked depth first. Setting an attribute that a body
     already has replaces its value in place; a value without a cty type is an error.
     */
    method BuildHCL(encodes: Native -> bool) returns (r: Result<seq<Out>, string>)
      requires Valid()
      ensures r.Ok? <==> AllEncode(Whole(Contents(), id), encodes)
      ensures r.Ok? ==> r.value == Emitted(Whole(Contents(), id))
      decreases |root.nodes| - id
    {
      hide Valid, Tree, NodeOf, Emitted, AllEncode, Put, FindAttr;
      var body: seq<Out> := [];
      ghost var s := Contents();
      Known();
      NothingEmitted(s, id, encodes);
      for i := 0 to |entries|
        invariant AllEncode(Tree(s, id, i), encodes) && body == Emitted(Tree(s, id, i))
      {
        EntryKnown(i);
        OneMore(s, id, i, encodes);
        if AllEncode(Whole(s, id), encodes) { PrefixEncodes(s, id, i + 1, |s[id]|, encodes); }
        match entries[i] {
          case Attribute(key, value) =>
            if !encodes(value) { return Err("failed to append attribute"); }
            body := Put(body, OutAttr(key, value));
          case BlockEntry(name, labels, builder) =>
            var nested := builder.BuildHCL(encodes);
            if nested.Err? { return nested; }
            body := Put(body, OutBlock(name, labels, nested.value));
        }
      }
      return Ok(body);
    }

    lemma Known()
      requires Valid()
      ensures id < |Contents()| && Ordered(Contents()) && |Contents()[id]| == |entries|
    {
    }

    lemma EntryKnown(i: nat)
      requires Valid() && i < |entries|
      ensures id < |Contents()| && |Contents()[id]| == |entries| && Contents()[id][i] == ItemOf(entries[i])
      ensures entries[i].BlockEntry? ==>
              var b := entries[i].builder;
              b.root == root && b.Valid() && b.Contents() == Contents() && id < b.id < |root.nodes|
    {
      hide OneTree;
      OneTreeIsOrdered(Contents());
      assert Contents()[id][i] == ItemOf(entries[i]);
    }
  }

  /** Builders of one document are well formed together. */
  lemma SharedValid(x: Builder, y: Builder)
    requires x.Valid() && y.root == x.root && y.id < |x.root.nodes| && x.root.nodes[y.id] == y
    ensures y.Valid() && y.Contents() == x.Contents()
  {
  }

  lemma OneTreeIsOrdered(s: Items)
    requires OneTree(s)
    ensures Ordered(s)
  {
  }

  lemma NothingEmitted(s: Items, x: nat, encodes: Native -> bool)
    requires Ordered(s) && x < |s|
    ensures Emitted(Tree(s, x, 0)) == [] && AllEncode(Tree(s, x, 0), encodes)
  {
  }

  lemma OneMore(s: Items, x: nat, i: nat, encodes: Native -> bool)
    requires Ordered(s) && x < |s| && i < |s[x]|
    ensures match s[x][i]
            case AttributeItem(key, value) =>
              && Emitted(Tree(s, x, i + 1)) == Put(Emitted(Tree(s, x, i)), OutAttr(key, value))
              && (AllEncode(Tree(s, x, i + 1), encodes) <==> AllEncode(Tree(s, x, i), encodes) && encodes(value))
            case BlockItem(name, labels, child) =>
              && Emitted(Tree(s, x, i + 1)) ==
                 Put(Emitted(Tree(s, x, i)), OutBlock(name, labels, Emitted(Whole(s, child))))
              && (AllEncode(Tree(s, x, i + 1), encodes) <==>
                    AllEncode(Tree(s, x, i), encodes) && AllEncode(Whole(s, child), encodes))
  {
    hide Put;
    assert Tree(s, x, i + 1)[..i] == Tree(s, x, i);
  }

  lemma MoreItems(s: Items, c: nat, items: seq<Item>)
    requires c < |s|
    ensures s[c := s[c] + []] == s
    ensures forall item :: WithItem(s[c := s[c] + items], c, item) == s[c := s[c] + (items + [item])]
  {
    assert s[c] + [] == s[c];
    assert forall item :: s[c] + items + [item] == s[c] + (items + [item]);
  }

  lemma EmptyDocument()
    ensures OneTree([[]])
  {
    var s: Items := [[]];
    assert s[..0] == [];
    assert Whole(s, 0) == [];
  }

  ghost function ItemOf(e: Entry): Item {
    match e
    case Attribute(key, value) => AttributeItem(key, value)
    case BlockEntry(name, labels, builder) => BlockItem(name, labels, builder.id)
  }

  ghost function ItemsOf(entries: seq<Entry>): seq<Item> {
    seq(|entries|, i requires 0 <= i < |entries| => ItemOf(entries[i]))
  }

  /** The builders of the blocks are builders of this document. */
  ghost predicate Listed(entries: seq<Entry>, root: Builder)
    reads root
  {
    forall k :: 0 <= k < |entries| && entries[k].BlockEntry? ==>
      var b := entries[k].builder;
      b.root == root && b.id < |root.nodes| && root.nodes[b.id] == b
  }

  ghost function AttributeItems(attributes: map<string, Native>, order: seq<string>): seq<Item>
    requires forall k :: k in order ==> k in attributes
  {
    seq(|order|, i requires 0 <= i < |order| => AttributeItem(order[i], attributes[order[i]]))
  }
}
