/** Builders for ttk elements: an image element with its ordered state
    images, and a layout assembled from a nested list of layout nodes. */
module Elements {
  import opened Base
  import opened Native

  // ---------------------------------------------------------------------------
  // Image elements
  // ---------------------------------------------------------------------------

  class ElementImageBuilder {
    const name: string
    /** the image shown when no state entry matches */
    const image: Image
    const kwargs: map<string, Value>
    /** `(state, image)` entries, in the order they were mapped */
    var stateSpec: seq<(string, Image)>

    constructor (name: string, image: Image, kwargs: map<string, Value>)
      ensures this.name == name && this.image == image && this.kwargs == kwargs
      ensures stateSpec == []
    {
      this.name := name;
      this.image := image;
      this.kwargs := kwargs;
      stateSpec := [];
    }

    /** Add a state entry after the ones already mapped. */
    method Map(state: string, img: Image)
      modifies this
      ensures stateSpec == old(stateSpec) + [(state, img)]
    {
      stateSpec := stateSpec + [(state, img)];
    }

    /** Create the element: the default image, then the state entries in
        mapping order, then the options. */
    method Build(native: NativeStyle)
      modifies native
      ensures native.log == old(native.log) + [ElementCreate(name, image, stateSpec, kwargs)]
      ensures native.themes == old(native.themes) && native.current == old(native.current)
      ensures native.imageCount == old(native.imageCount)
    {
      native.Submit(ElementCreate(name, image, stateSpec, kwargs));
    }
  }

  /** `ElementImageBuilder(name, image, **kwargs)`, then `.map(state, img)`
      for each entry in turn, then `.build()`: the element is created with
      exactly those entries, in that order. */
  method CreateImageElement(native: NativeStyle, name: string, image: Image, spec: seq<(string, Image)>, kwargs: map<string, Value>)
    modifies native
    ensures native.log == old(native.log) + [ElementCreate(name, image, spec, kwargs)]
    ensures native.themes == old(native.themes) && native.current == old(native.current)
    ensures native.imageCount == old(native.imageCount)
  {
    var builder := new ElementImageBuilder(name, image, kwargs);
    for k := 0 to |spec|
      invariant builder.stateSpec == spec[..k]
      invariant native.log == old(native.log) && native.imageCount == old(native.imageCount)
      invariant native.themes == old(native.themes) && native.current == old(native.current)
    {
      builder.Map(spec[k].0, spec[k].1);
    }
    assert spec[..|spec|] == spec;
    builder.Build(native);
  }

  // ---------------------------------------------------------------------------
  // Layout nodes and the nested lists that arrange them
  // ---------------------------------------------------------------------------

  class ElementLayout {
    const name: string
    const kwargs: map<string, Value>
    var children: seq<ElementLayout>

    constructor (name: string, kwargs: map<string, Value>)
      ensures this.name == name && this.kwargs == kwargs && children == []
    {
      this.name := name;
      this.kwargs := kwargs;
      children := [];
    }
  }

  /** An entry of a layout description: a node, or a nested list. */
  datatype Item = Leaf(node: ElementLayout) | Group(items: seq<Item>)

  /** A parent-child link made by the parent assignment. */
  type Link = (ElementLayout, ElementLayout)

  /** The links made, in order, and whether the assignment ran to the end. */
  datatype Trace = Trace(links: seq<Link>, ok: bool)

  function Then(done: seq<Link>, t: Trace): Trace
  {
    Trace(done + t.links, t.ok)
  }

  /** Every node of a layout description, however deeply nested. */
  function Nodes(items: seq<Item>): set<ElementLayout>
    decreases items
  {
    if items == [] then {} else NodesOf(items[0]) + Nodes(items[1..])
  }

  function NodesOf(item: Item): set<ElementLayout>
    decreases item
  {
    match item
    case Leaf(n) => {n}
    case Group(sub) => Nodes(sub)
  }

  lemma NodesCons(x: Item, rest: seq<Item>)
    ensures Nodes([x] + rest) == NodesOf(x) + Nodes(rest)
  {
    assert ([x] + rest)[1..] == rest;
  }

  /** The node a parent stands for, if it is one. */
  function ParentNodes(parent: Option<Item>): set<ElementLayout>
  {
    if parent.Some? && parent.value.Leaf? then {parent.value.node} else {}
  }

  /** The nodes whose children the assignment may change. */
  function Frame(items: seq<Item>, parent: Option<Item>): set<ElementLayout>
  {
    Nodes(items) + ParentNodes(parent)
  }

  /** The links `assign_parent(items[i:], parent)` makes: a node is appended
      to the parent's children when there is a parent; a nested list is
      assigned with the first entry of the list enclosing it as its parent.
      A parent that is itself a list has no children to append to, which
      stops the assignment. */
  function LinksFrom(items: seq<Item>, i: nat, parent: Option<Item>): (t: Trace)
    requires i <= |items|
    decreases items, |items| - i
  {
    if i == |items| then Trace([], true)
    else match items[i]
      case Leaf(node) =>
        (match parent
         case None => LinksFrom(items, i + 1, parent)
         case Some(Leaf(p)) => Then([(p, node)], LinksFrom(items, i + 1, parent))
         case Some(Group(_)) => Trace([], false))
      case Group(sub) =>
        assert items[i] in items;
        var t := LinksFrom(sub, 0, Some(items[0]));
        if !t.ok then t else Then(t.links, LinksFrom(items, i + 1, parent))
  }

  function Links(items: seq<Item>, parent: Option<Item>): Trace
  {
    LinksFrom(items, 0, parent)
  }

  /** The children a trace gives `n`, in order. */
  function KidsIn(links: seq<Link>, n: ElementLayout): seq<ElementLayout>
  {
    if links == [] then []
    else (if links[0].0 == n then [links[0].1] else []) + KidsIn(links[1..], n)
  }

  lemma KidsInOne(link: Link, n: ElementLayout)
    ensures KidsIn([link], n) == if link.0 == n then [link.1] else []
  {
    assert [link][1..] == [];
  }

  lemma {:induction false} KidsInAppend(a: seq<Link>, b: seq<Link>, n: ElementLayout)
    ensures KidsIn(a + b, n) == KidsIn(a, n) + KidsIn(b, n)
  {
    if a == [] {
      assert a + b == b;
    } else {
      KidsInAppend(a[1..], b, n);
      assert (a + b)[0] == a[0] && (a + b)[1..] == a[1..] + b;
      assert KidsIn(a + b, n) == (if a[0].0 == n then [a[0].1] else []) + KidsIn(a[1..] + b, n);
    }
  }

  lemma {:induction false} NodesContain(items: seq<Item>, i: nat)
    requires i < |items|
    ensures NodesOf(items[i]) <= Nodes(items)
  {
    if i > 0 {
      NodesContain(items[1..], i - 1);
    }
  }

  /** Every link goes from a node of the frame to a node of the description. */
  lemma {:induction false} LinksWithin(items: seq<Item>, i: nat, parent: Option<Item>)
    requires i <= |items|
    ensures forall l :: l in LinksFrom(items, i, parent).links ==> l.0 in Frame(items, parent) && l.1 in Nodes(items)
    decreases items, |items| - i
  {
    if i < |items| {
      NodesContain(items, i);
      match items[i]
      case Leaf(node) =>
        if parent.Some? && parent.value.Leaf? {
          LinksWithin(items, i + 1, parent);
        } else if parent.None? {
          LinksWithin(items, i + 1, parent);
        }
      case Group(sub) =>
        assert items[i] in items;
        LinksWithin(sub, 0, Some(items[0]));
        LinksWithin(items, i + 1, parent);
        NodesContain(items, 0);
    }
  }

  /** Nodes outside the frame gain no children. */
  lemma KidsOutside(links: seq<Link>, frame: set<ElementLayout>, n: ElementLayout)
    requires forall l :: l in links ==> l.0 in frame
    requires n !in frame
    ensures KidsIn(links, n) == []
  {
    if links != [] {
      assert links[0] in links;
      KidsOutside(links[1..], frame, n);
    }
  }

  /** The links made for entry `i` alone. */
  function Step(items: seq<Item>, i: nat, parent: Option<Item>): Trace
    requires i < |items|
    decreases items, 0
  {
    match items[i]
    case Leaf(node) =>
      (match parent
       case None => Trace([], true)
       case Some(Leaf(p)) => Trace([(p, node)], true)
       case Some(Group(_)) => Trace([], false))
    case Group(sub) =>
      assert items[i] in items;
      Links(sub, Some(items[0]))
  }

  lemma StepThenRest(items: seq<Item>, i: nat, parent: Option<Item>)
    requires i < |items|
    ensures var s := Step(items, i, parent);
            LinksFrom(items, i, parent) == if s.ok then Then(s.links, LinksFrom(items, i + 1, parent)) else s
  {
  }

  /** The children lists of the nodes of `frame`, as they stand. */
  ghost function Snapshot(frame: set<ElementLayout>): (m: map<ElementLayout, seq<ElementLayout>>)
    reads frame
    ensures m.Keys == frame
  {
    map n | n in frame :: n.children
  }

  /** The children lists `m` with the links `links` applied. */
  ghost function Apply(m: map<ElementLayout, seq<ElementLayout>>, links: seq<Link>): (r: map<ElementLayout, seq<ElementLayout>>)
    ensures r.Keys == m.Keys
  {
    map n | n in m :: m[n] + KidsIn(links, n)
  }

  /** Applying two runs of links one after the other applies them joined. */
  lemma ApplyThen(m: map<ElementLayout, seq<ElementLayout>>, a: seq<Link>, b: seq<Link>)
    ensures Apply(Apply(m, a), b) == Apply(m, a + b)
  {
    forall n | n in m
      ensures Apply(Apply(m, a), b)[n] == Apply(m, a + b)[n]
    {
      KidsInAppend(a, b, n);
    }
  }

  lemma ThenThen(a: seq<Link>, b: seq<Link>, t: Trace)
    ensures Then(a, Then(b, t)) == Then(a + b, t)
  {
    assert a + (b + t.links) == (a + b) + t.links;
  }

  /** `assign_parent(items, parent)`: append every node to its parent's
      children, recursing into nested lists. */
  method AssignParent(items: seq<Item>, parent: Option<Item>) returns (ok: bool)
    modifies Frame(items, parent)
    decreases items, 1
    ensures ok == Links(items, parent).ok
    ensures forall n :: n in Frame(items, parent) && old(allocated(n)) ==>
              n.children == old(n.children) + KidsIn(Links(items, parent).links, n)
  {
    ghost var frame := Frame(items, parent);
    ghost var start := Snapshot(frame);
    ghost var done: seq<Link> := [];
    forall n | n in start
      ensures Apply(start, done)[n] == start[n]
    {
      assert start[n] + [] == start[n];
    }
    var i := 0;
    while i < |items|
      invariant 0 <= i <= |items|
      invariant Links(items, parent) == Then(done, LinksFrom(items, i, parent))
      invariant Snapshot(frame) == Apply(start, done)
    {
      ghost var s := Step(items, i, parent);
      StepThenRest(items, i, parent);
      var stepOk := AssignEntry(items, i, parent);
      ApplyThen(start, done, s.links);
      if stepOk {
        ThenThen(done, s.links, LinksFrom(items, i + 1, parent));
      }
      done := done + s.links;
      if !stepOk {
        assert Links(items, parent).links == done;
        break;
      }
      assert Links(items, parent) == Then(done, LinksFrom(items, i + 1, parent));
      i := i + 1;
    }
    ok := Links(items, parent).ok;
    assert Links(items, parent).links == done by {
      if i == |items| {
        assert done + [] == done;
      }
    }
  }

  /** One iteration of the loop of `assign_parent`. */
  method AssignEntry(items: seq<Item>, i: nat, parent: Option<Item>) returns (ok: bool)
    requires i < |items|
    modifies Frame(items, parent)
    decreases items, 0
    ensures ok == Step(items, i, parent).ok
    ensures Snapshot(Frame(items, parent)) == Apply(old(Snapshot(Frame(items, parent))), Step(items, i, parent).links)
  {
    ghost var frame := Frame(items, parent);
    ghost var start := Snapshot(frame);
    NodesContain(items, i);
    ghost var links := Step(items, i, parent).links;
    match items[i] {
      case Leaf(node) =>
        if parent.None? || parent.value.Group? {
          ok := parent.None?;
          forall n | n in start
            ensures Snapshot(frame)[n] == Apply(start, links)[n]
          {
            assert start[n] + [] == start[n];
          }
          return;
        }
        var p := parent.value.node;
        p.children := p.children + [node];
        forall n | n in start
          ensures Snapshot(frame)[n] == Apply(start, links)[n]
        {
          KidsInOne((p, node), n);
          if n != p {
            assert start[n] + [] == start[n];
          }
        }
        return true;
      case Group(sub) =>
        assert items[i] in items;
        NodesContain(items, 0);
        ghost var inner := Frame(sub, Some(items[0]));
        ok := AssignParent(sub, Some(items[0]));
        LinksWithin(sub, 0, Some(items[0]));
        forall n | n in start
          ensures Snapshot(frame)[n] == Apply(start, links)[n]
        {
          if n !in inner {
            KidsOutside(links, inner, n);
            assert start[n] + [] == start[n];
          }
        }
    }
  }

  // ---------------------------------------------------------------------------
  // Turning the linked nodes into a ttk layout
  // ---------------------------------------------------------------------------

  /** A set of nodes that holds the children of each of its nodes. */
  ghost predicate Closed(U: set<ElementLayout>)
    reads U
  {
    forall n, c :: n in U && c in n.children ==> c in U
  }

  /** The nesting depth at which building gives up; it stands for Python's
      recursion limit. */
  const RECURSION_LIMIT: nat := 1000

  /** `node.build()`: the node's name and options, with a `children` entry
      holding the children's layouts, in order, when it has children. */
  function BuildSpec(n: ElementLayout, depth: nat, U: set<ElementLayout>): (r: Result<LayoutSpec>)
    requires n in U && Closed(U)
    reads U
    ensures r.Ok? ==> r.value.name == n.name
    ensures r.Err? ==> r.error == RecursionError
    decreases depth, 0
  {
    if depth == 0 then Err(RecursionError)
    else if n.children == [] then Ok(LayoutSpec(n.name, n.kwargs))
    else
      match BuildAll(n.children, depth - 1, U)
      case Err(e) => Err(e)
      case Ok(specs) => Ok(LayoutSpec(n.name, n.kwargs["children" := Specs(specs)]))
  }

  /** `[c.build() for c in children]` */
  function BuildAll(cs: seq<ElementLayout>, depth: nat, U: set<ElementLayout>): (r: Result<seq<LayoutSpec>>)
    requires Closed(U) && forall c :: c in cs ==> c in U
    reads U
    ensures r.Err? ==> r.error == RecursionError
    decreases depth, 1, |cs|
  {
    if cs == [] then Ok([])
    else
      match BuildSpec(cs[0], depth, U)
      case Err(e) => Err(e)
      case Ok(head) =>
        match BuildAll(cs[1..], depth, U)
        case Err(e) => Err(e)
        case Ok(tail) => Ok([head] + tail)
  }

  /** The built children line up with the children: one layout each, in
      order, under the child's name. */
  lemma {:induction false} BuildAllNames(cs: seq<ElementLayout>, depth: nat, U: set<ElementLayout>)
    requires Closed(U) && forall c :: c in cs ==> c in U
    ensures var r := BuildAll(cs, depth, U);
            r.Ok? ==> |r.value| == |cs| && forall i :: 0 <= i < |cs| ==> r.value[i].name == cs[i].name
    decreases |cs|
  {
    if cs != [] {
      BuildAllNames(cs[1..], depth, U);
    }
  }

  /** A built layout carries the node's own options, plus a `children` entry
      exactly when the node has children. */
  lemma BuildShape(n: ElementLayout, depth: nat, U: set<ElementLayout>)
    requires n in U && Closed(U)
    ensures var r := BuildSpec(n, depth, U);
            (r.Ok? && n.children == [] ==> r.value.opts == n.kwargs) &&
            (r.Ok? && n.children != [] ==>
              r.value.opts.Keys == n.kwargs.Keys + {"children"} &&
              (forall k :: k in n.kwargs && k != "children" ==> r.value.opts[k] == n.kwargs[k]) &&
              r.value.opts["children"].Specs? &&
              |r.value.opts["children"].specs| == |n.children| &&
              (forall i :: 0 <= i < |n.children| ==> r.value.opts["children"].specs[i].name == n.children[i].name))
  {
    if depth > 0 && n.children != [] {
      BuildAllNames(n.children, depth - 1, U);
    }
  }

  /** A node that is its own first child never builds: the recursion runs
      out whatever the depth. */
  lemma {:induction false} OwnChildNeverBuilds(n: ElementLayout, depth: nat, U: set<ElementLayout>)
    requires n in U && Closed(U)
    requires |n.children| > 0 && n.children[0] == n
    ensures BuildSpec(n, depth, U) == Err(RecursionError)
    decreases depth
  {
    if depth > 0 {
      OwnChildNeverBuilds(n, depth - 1, U);
    }
  }

  /** Prepend layouts already built to the result of building the rest. */
  function Prefixed(done: seq<LayoutSpec>, r: Result<seq<LayoutSpec>>): Result<seq<LayoutSpec>>
  {
    if r.Err? then r else Ok(done + r.value)
  }

  lemma PrefixedTwice(a: seq<LayoutSpec>, b: seq<LayoutSpec>, r: Result<seq<LayoutSpec>>)
    ensures Prefixed(a, Prefixed(b, r)) == Prefixed(a + b, r)
  {
    if r.Ok? {
      assert a + (b + r.value) == (a + b) + r.value;
    }
  }

  /** Building the children from the `i`-th on: the `i`-th first, then the rest. */
  lemma BuildAllAt(cs: seq<ElementLayout>, i: nat, depth: nat, U: set<ElementLayout>)
    requires i < |cs| && Closed(U) && forall c :: c in cs ==> c in U
    ensures var h := BuildSpec(cs[i], depth, U);
            BuildAll(cs[i..], depth, U) == if h.Err? then Err(h.error) else Prefixed([h.value], BuildAll(cs[i + 1..], depth, U))
  {
    var rest := cs[i..];
    assert rest[0] == cs[i] && rest[1..] == cs[i + 1..];
  }

  /** `node.build()`, one child after the other. */
  method BuildNode(n: ElementLayout, depth: nat, ghost U: set<ElementLayout>) returns (r: Result<LayoutSpec>)
    requires n in U && Closed(U)
    ensures r == BuildSpec(n, depth, U)
    decreases depth
  {
    if depth == 0 {
      return Err(RecursionError);
    }
    if n.children == [] {
      return Ok(LayoutSpec(n.name, n.kwargs));
    }
    var specs: seq<LayoutSpec> := [];
    var i := 0;
    assert n.children[0..] == n.children;
    ghost var all := BuildAll(n.children, depth - 1, U);
    if all.Ok? {
      assert [] + all.value == all.value;
    }
    while i < |n.children|
      invariant 0 <= i <= |n.children|
      invariant all == Prefixed(specs, BuildAll(n.children[i..], depth - 1, U))
    {
      BuildAllAt(n.children, i, depth - 1, U);
      var c := BuildNode(n.children[i], depth - 1, U);
      if c.Err? {
        assert all == Err(c.error);
        return Err(c.error);
      }
      PrefixedTwice(specs, [c.value], BuildAll(n.children[i + 1..], depth - 1, U));
      specs := specs + [c.value];
      i := i + 1;
    }
    assert n.children[i..] == [];
    assert specs + [] == specs;
    assert all == Ok(specs);
    r := Ok(LayoutSpec(n.name, n.kwargs["children" := Specs(specs)]));
  }

  lemma {:induction false} KidsAmong(links: seq<Link>, n: ElementLayout, S: set<ElementLayout>)
    requires forall l :: l in links ==> l.1 in S
    ensures forall c :: c in KidsIn(links, n) ==> c in S
  {
    if links != [] {
      assert links[0] in links;
      KidsAmong(links[1..], n, S);
    }
  }

  class ElementLayoutBuilder {
    const ttkstyle: string

    constructor (ttkstyle: string)
      ensures this.ttkstyle == ttkstyle
    {
      this.ttkstyle := ttkstyle;
    }

    /** Link the nodes of `layout`, then submit the layout of its first
        entry alone: entries after the first reach the layout only as
        children of it.  `U` is any closed set of nodes that holds every
        node of `layout`. */
    method Build(native: NativeStyle, layout: seq<Item>, ghost U: set<ElementLayout>) returns (r: Result<()>)
      requires Closed(U) && Nodes(layout) <= U
      modifies Nodes(layout), native
      ensures Closed(U)
      ensures forall n :: n in Nodes(layout) && old(allocated(n)) ==>
                n.children == old(n.children) + KidsIn(Links(layout, None).links, n)
      ensures native.themes == old(native.themes) && native.current == old(native.current)
      ensures native.imageCount == old(native.imageCount)
      ensures !Links(layout, None).ok ==> r == Err(AttributeError("children")) && native.log == old(native.log)
      ensures Links(layout, None).ok && layout == [] ==> r == Err(IndexError) && native.log == old(native.log)
      ensures Links(layout, None).ok && layout != [] && layout[0].Group? ==>
                r == Err(AttributeError("build")) && native.log == old(native.log)
      ensures Links(layout, None).ok && layout != [] && layout[0].Leaf? ==>
                var b := (NodesContain(layout, 0); BuildSpec(layout[0].node, RECURSION_LIMIT, U));
                (b.Err? ==> r == Err(b.error) && native.log == old(native.log)) &&
                (b.Ok? ==> r == Ok(()) && native.log == old(native.log) + [Layout(ttkstyle, [b.value])])
    {
      var ok := AssignParent(layout, None);
      LinksWithin(layout, 0, None);
      forall n, c | n in U && c in n.children
        ensures c in U
      {
        if n in Nodes(layout) {
          KidsAmong(Links(layout, None).links, n, Nodes(layout));
        }
      }
      if !ok {
        return Err(AttributeError("children"));
      }
      if layout == [] {
        return Err(IndexError);
      }
      if layout[0].Group? {
        return Err(AttributeError("build"));
      }
      NodesContain(layout, 0);
      var b := BuildNode(layout[0].node, RECURSION_LIMIT, U);
      if b.Err? {
        return Err(b.error);
      }
      native.Submit(Layout(ttkstyle, [b.value]));
      r := Ok(());
    }
  }

  // ---------------------------------------------------------------------------
  // The layout shapes the theme engines use
  // ---------------------------------------------------------------------------

  /** A layout entry with the given children. */
  function WithChildren(spec: LayoutSpec, kids: seq<LayoutSpec>): LayoutSpec
  {
    LayoutSpec(spec.name, spec.opts["children" := Specs(kids)])
  }

  /** `[a, [b, [c]]]`: `b` becomes a child of `a`, and `c` of `b`. */
  lemma ChainLinks(a: ElementLayout, b: ElementLayout, c: ElementLayout)
    ensures Links([Leaf(a), Group([Leaf(b), Group([Leaf(c)])])], None) == Trace([(a, b), (b, c)], true)
  {
    var inner := [Leaf(c)];
    assert LinksFrom(inner, 1, Some(Leaf(b))) == Trace([], true);
    assert LinksFrom(inner, 0, Some(Leaf(b))) == Trace([(b, c)], true);
    var mid := [Leaf(b), Group(inner)];
    assert LinksFrom(mid, 2, Some(Leaf(a))) == Trace([], true);
    assert LinksFrom(mid, 1, Some(Leaf(a))) == Trace([(b, c)], true);
    assert LinksFrom(mid, 0, Some(Leaf(a))) == Trace([(a, b), (b, c)], true);
    var top := [Leaf(a), Group(mid)];
    assert LinksFrom(top, 2, None) == Trace([], true);
    assert LinksFrom(top, 1, None) == Trace([(a, b), (b, c)], true);
  }

  /** `[p, [i, f], [l]]`: all three become children of `p`, in that order. */
  lemma IndicatorLinks(p: ElementLayout, i: ElementLayout, f: ElementLayout, l: ElementLayout)
    ensures Links([Leaf(p), Group([Leaf(i), Leaf(f)]), Group([Leaf(l)])], None) == Trace([(p, i), (p, f), (p, l)], true)
  {
    var pair := [Leaf(i), Leaf(f)];
    assert LinksFrom(pair, 2, Some(Leaf(p))) == Trace([], true);
    assert LinksFrom(pair, 1, Some(Leaf(p))) == Trace([(p, f)], true);
    assert LinksFrom(pair, 0, Some(Leaf(p))) == Trace([(p, i), (p, f)], true);
    var last := [Leaf(l)];
    assert LinksFrom(last, 1, Some(Leaf(p))) == Trace([], true);
    assert LinksFrom(last, 0, Some(Leaf(p))) == Trace([(p, l)], true);
    var top := [Leaf(p), Group(pair), Group(last)];
    assert LinksFrom(top, 3, None) == Trace([], true);
    assert LinksFrom(top, 2, None) == Trace([(p, l)], true);
    assert LinksFrom(top, 1, None) == Trace([(p, i), (p, f), (p, l)], true);
  }

  /** `[b, [p, [i, l]]]`: `p` becomes a child of `b`; `i` and `l` of `p`. */
  lemma SwitchLinks(b: ElementLayout, p: ElementLayout, i: ElementLayout, l: ElementLayout)
    ensures Links([Leaf(b), Group([Leaf(p), Group([Leaf(i), Leaf(l)])])], None) == Trace([(b, p), (p, i), (p, l)], true)
  {
    var inner := [Leaf(i), Leaf(l)];
    assert LinksFrom(inner, 2, Some(Leaf(p))) == Trace([], true);
    assert LinksFrom(inner, 1, Some(Leaf(p))) == Trace([(p, l)], true);
    assert LinksFrom(inner, 0, Some(Leaf(p))) == Trace([(p, i), (p, l)], true);
    var mid := [Leaf(p), Group(inner)];
    assert LinksFrom(mid, 2, Some(Leaf(b))) == Trace([], true);
    assert LinksFrom(mid, 1, Some(Leaf(b))) == Trace([(p, i), (p, l)], true);
    assert LinksFrom(mid, 0, Some(Leaf(b))) == Trace([(b, p), (p, i), (p, l)], true);
    var top := [Leaf(b), Group(mid)];
    assert LinksFrom(top, 2, None) == Trace([], true);
    assert LinksFrom(top, 1, None) == Trace([(b, p), (p, i), (p, l)], true);
  }

  /** `[t, [h]]`: `h` becomes a child of `t`. */
  lemma PairLinks(t: ElementLayout, h: ElementLayout)
    ensures Links([Leaf(t), Group([Leaf(h)])], None) == Trace([(t, h)], true)
  {
    var inner := [Leaf(h)];
    assert LinksFrom(inner, 1, Some(Leaf(t))) == Trace([], true);
    assert LinksFrom(inner, 0, Some(Leaf(t))) == Trace([(t, h)], true);
    var top := [Leaf(t), Group(inner)];
    assert LinksFrom(top, 2, None) == Trace([], true);
    assert LinksFrom(top, 1, None) == Trace([(t, h)], true);
  }

  /** `[f, [d, u], p, [t]]`: `d`, `u` and `t` all become children of `f`,
      because a nested list takes the first entry of the top list as its
      parent; `p`, a top-level entry after the first, gets no parent and no
      place in the tree. */
  lemma SpinboxLinks(f: ElementLayout, d: ElementLayout, u: ElementLayout, p: ElementLayout, t: ElementLayout)
    ensures Links([Leaf(f), Group([Leaf(d), Leaf(u)]), Leaf(p), Group([Leaf(t)])], None) ==
            Trace([(f, d), (f, u), (f, t)], true)
  {
    var pair := [Leaf(d), Leaf(u)];
    assert LinksFrom(pair, 2, Some(Leaf(f))) == Trace([], true);
    assert LinksFrom(pair, 1, Some(Leaf(f))) == Trace([(f, u)], true);
    assert LinksFrom(pair, 0, Some(Leaf(f))) == Trace([(f, d), (f, u)], true);
    var last := [Leaf(t)];
    assert LinksFrom(last, 1, Some(Leaf(f))) == Trace([], true);
    assert LinksFrom(last, 0, Some(Leaf(f))) == Trace([(f, t)], true);
    var top := [Leaf(f), Group(pair), Leaf(p), Group(last)];
    assert LinksFrom(top, 4, None) == Trace([], true);
    assert LinksFrom(top, 3, None) == Trace([(f, t)], true);
    assert LinksFrom(top, 2, None) == Trace([(f, t)], true);
    assert LinksFrom(top, 1, None) == Trace([(f, d), (f, u), (f, t)], true);
  }

  /** The layout entries of nodes without children. */
  function Entries(cs: seq<ElementLayout>): (r: seq<LayoutSpec>)
    ensures |r| == |cs| && forall i :: 0 <= i < |cs| ==> r[i] == LayoutSpec(cs[i].name, cs[i].kwargs)
  {
    if cs == [] then [] else [LayoutSpec(cs[0].name, cs[0].kwargs)] + Entries(cs[1..])
  }

  /** A node whose children have no children of their own builds to its
      entry holding theirs. */
  lemma BuildFlat(n: ElementLayout, depth: nat, U: set<ElementLayout>)
    requires n in U && Closed(U) && depth > 1 && n.children != []
    requires forall c :: c in n.children ==> c.children == []
    ensures BuildSpec(n, depth, U) == Ok(WithChildren(LayoutSpec(n.name, n.kwargs), Entries(n.children)))
  {
    BuildFlatAll(n.children, depth - 1, U);
  }

  lemma {:induction false} BuildFlatAll(cs: seq<ElementLayout>, depth: nat, U: set<ElementLayout>)
    requires Closed(U) && depth > 0 && forall c :: c in cs ==> c in U && c.children == []
    ensures BuildAll(cs, depth, U) == Ok(Entries(cs))
    decreases |cs|
  {
    if cs != [] {
      assert cs[0] in cs;
      assert forall c :: c in cs[1..] ==> c in cs;
      BuildFlatAll(cs[1..], depth, U);
    }
  }

  function Chain(na: ElementLayout, nb: ElementLayout, nc: ElementLayout): seq<Item>
  {
    [Leaf(na), Group([Leaf(nb), Group([Leaf(nc)])])]
  }

  lemma ChainNodes(na: ElementLayout, nb: ElementLayout, nc: ElementLayout)
    ensures Nodes(Chain(na, nb, nc)) == {na, nb, nc}
  {
    var inner := [Leaf(nc)];
    assert Nodes(inner) == {nc} by { NodesCons(Leaf(nc), []); assert inner == [Leaf(nc)] + []; }
    var mid := [Leaf(nb), Group(inner)];
    assert Nodes([Group(inner)]) == {nc} by { NodesCons(Group(inner), []); assert [Group(inner)] == [Group(inner)] + []; }
    assert Nodes(mid) == {nb, nc} by { NodesCons(Leaf(nb), [Group(inner)]); }
    assert Nodes([Group(mid)]) == {nb, nc} by { NodesCons(Group(mid), []); assert [Group(mid)] == [Group(mid)] + []; }
    NodesCons(Leaf(na), [Group(mid)]);
  }

  /** Built after the links of the chain, `a` holds `b` holding `c`. */
  lemma ChainBuilds(na: ElementLayout, nb: ElementLayout, nc: ElementLayout, U: set<ElementLayout>)
    requires U == {na, nb, nc} && na.children == [nb] && nb.children == [nc] && nc.children == []
    ensures Closed(U)
    ensures BuildSpec(na, RECURSION_LIMIT, U) ==
            Ok(WithChildren(LayoutSpec(na.name, na.kwargs), [WithChildren(LayoutSpec(nb.name, nb.kwargs), [LayoutSpec(nc.name, nc.kwargs)])]))
  {
    var c := LayoutSpec(nc.name, nc.kwargs);
    var b := WithChildren(LayoutSpec(nb.name, nb.kwargs), [c]);
    BuildFlatAll([nc], RECURSION_LIMIT - 2, U);
    assert Entries([nc]) == [c];
    assert BuildSpec(nb, RECURSION_LIMIT - 1, U) == Ok(b);
    assert [nb][1..] == [];
    assert BuildAll([], RECURSION_LIMIT - 1, U) == Ok([]);
    assert [b] + [] == [b];
    assert BuildAll([nb], RECURSION_LIMIT - 1, U) == Ok([b]);
  }

  /** The children each node of the chain gets from the links. */
  lemma ChainKids(na: ElementLayout, nb: ElementLayout, nc: ElementLayout)
    requires na != nb && nb != nc && na != nc
    ensures var links := [(na, nb), (nb, nc)];
            KidsIn(links, na) == [nb] && KidsIn(links, nb) == [nc] && KidsIn(links, nc) == []
  {
    KidsInAppend([(na, nb)], [(nb, nc)], na);
    KidsInAppend([(na, nb)], [(nb, nc)], nb);
    KidsInAppend([(na, nb)], [(nb, nc)], nc);
    KidsInOne((na, nb), na);
    KidsInOne((na, nb), nb);
    KidsInOne((na, nb), nc);
    KidsInOne((nb, nc), na);
    KidsInOne((nb, nc), nb);
    KidsInOne((nb, nc), nc);
    assert [(na, nb)] + [(nb, nc)] == [(na, nb), (nb, nc)];
  }

  /** `layout.build([a, [b, [c]]])` on fresh nodes: Tk receives `a` holding
      `b` holding `c`. */
  method LayoutChain(native: NativeStyle, ttkstyle: string, a: LayoutSpec, b: LayoutSpec, c: LayoutSpec)
    modifies native
    ensures native.log == old(native.log) + [Layout(ttkstyle, [WithChildren(a, [WithChildren(b, [c])])])]
    ensures native.themes == old(native.themes) && native.current == old(native.current)
    ensures native.imageCount == old(native.imageCount)
  {
    var na := new ElementLayout(a.name, a.opts);
    var nb := new ElementLayout(b.name, b.opts);
    var nc := new ElementLayout(c.name, c.opts);
    ghost var U := {na, nb, nc};
    ChainNodes(na, nb, nc);
    ChainLinks(na, nb, nc);
    ChainKids(na, nb, nc);
    var builder := new ElementLayoutBuilder(ttkstyle);
    var r := builder.Build(native, Chain(na, nb, nc), U);
    ChainBuilds(na, nb, nc, U);
  }

  lemma NodesOne(x: Item)
    ensures Nodes([x]) == NodesOf(x)
  {
    NodesCons(x, []);
    assert [x] + [] == [x];
  }

  /** The links a parent makes to each of `xs`, in order. */
  function Fan(p: ElementLayout, xs: seq<ElementLayout>): seq<Link>
  {
    if xs == [] then [] else [(p, xs[0])] + Fan(p, xs[1..])
  }

  lemma {:induction false} KidsOfFan(p: ElementLayout, xs: seq<ElementLayout>, n: ElementLayout)
    ensures KidsIn(Fan(p, xs), n) == if n == p then xs else []
  {
    if xs != [] {
      KidsOfFan(p, xs[1..], n);
      KidsInAppend([(p, xs[0])], Fan(p, xs[1..]), n);
      KidsInOne((p, xs[0]), n);
      assert [xs[0]] + xs[1..] == xs;
    }
  }

  lemma FanThree(p: ElementLayout, x: ElementLayout, y: ElementLayout, z: ElementLayout)
    ensures Fan(p, [x, y, z]) == [(p, x), (p, y), (p, z)]
  {
    assert [x, y, z][1..] == [y, z];
    FanTwo(p, y, z);
  }

  lemma FanTwo(p: ElementLayout, x: ElementLayout, y: ElementLayout)
    ensures Fan(p, [x, y]) == [(p, x), (p, y)]
  {
    assert [x, y][1..] == [y];
    FanOne(p, y);
  }

  lemma FanOne(p: ElementLayout, x: ElementLayout)
    ensures Fan(p, [x]) == [(p, x)]
  {
    assert [x][1..] == [];
  }

  // --- [p, [i, f], [l]] -------------------------------------------------------

  function Indicator(np: ElementLayout, ni: ElementLayout, nf: ElementLayout, nl: ElementLayout): seq<Item>
  {
    [Leaf(np), Group([Leaf(ni), Leaf(nf)]), Group([Leaf(nl)])]
  }

  lemma IndicatorNodes(np: ElementLayout, ni: ElementLayout, nf: ElementLayout, nl: ElementLayout)
    ensures Nodes(Indicator(np, ni, nf, nl)) == {np, ni, nf, nl}
  {
    NodesOne(Leaf(nf));
    NodesCons(Leaf(ni), [Leaf(nf)]);
    NodesOne(Leaf(nl));
    NodesOne(Group([Leaf(nl)]));
    NodesCons(Group([Leaf(ni), Leaf(nf)]), [Group([Leaf(nl)])]);
    NodesCons(Leaf(np), [Group([Leaf(ni), Leaf(nf)]), Group([Leaf(nl)])]);
  }

  /** `layout.build([p, [i, f], [l]])` on fresh nodes: Tk receives `p`
      holding `i`, `f` and `l`. */
  method LayoutIndicator(native: NativeStyle, ttkstyle: string, p: LayoutSpec, i: LayoutSpec, f: LayoutSpec, l: LayoutSpec)
    modifies native
    ensures native.log == old(native.log) + [Layout(ttkstyle, [WithChildren(p, [i, f, l])])]
    ensures native.themes == old(native.themes) && native.current == old(native.current)
    ensures native.imageCount == old(native.imageCount)
  {
    var np := new ElementLayout(p.name, p.opts);
    var ni := new ElementLayout(i.name, i.opts);
    var nf := new ElementLayout(f.name, f.opts);
    var nl := new ElementLayout(l.name, l.opts);
    ghost var U := {np, ni, nf, nl};
    IndicatorNodes(np, ni, nf, nl);
    IndicatorLinks(np, ni, nf, nl);
    FanThree(np, ni, nf, nl);
    KidsOfFan(np, [ni, nf, nl], np);
    KidsOfFan(np, [ni, nf, nl], ni);
    KidsOfFan(np, [ni, nf, nl], nf);
    KidsOfFan(np, [ni, nf, nl], nl);
    var builder := new ElementLayoutBuilder(ttkstyle);
    var r := builder.Build(native, Indicator(np, ni, nf, nl), U);
    assert np.children == [ni, nf, nl];
    BuildFlat(np, RECURSION_LIMIT, U);
    assert Entries([ni, nf, nl]) == [i, f, l];
  }

  // --- [t, [h]] ---------------------------------------------------------------

  function Pair(nt: ElementLayout, nh: ElementLayout): seq<Item>
  {
    [Leaf(nt), Group([Leaf(nh)])]
  }

  lemma PairNodes(nt: ElementLayout, nh: ElementLayout)
    ensures Nodes(Pair(nt, nh)) == {nt, nh}
  {
    NodesOne(Leaf(nh));
    NodesOne(Group([Leaf(nh)]));
    NodesCons(Leaf(nt), [Group([Leaf(nh)])]);
  }

  /** `layout.build([t, [h]])` on fresh nodes: Tk receives `t` holding `h`. */
  method LayoutPair(native: NativeStyle, ttkstyle: string, t: LayoutSpec, h: LayoutSpec)
    modifies native
    ensures native.log == old(native.log) + [Layout(ttkstyle, [WithChildren(t, [h])])]
    ensures native.themes == old(native.themes) && native.current == old(native.current)
    ensures native.imageCount == old(native.imageCount)
  {
    var nt := new ElementLayout(t.name, t.opts);
    var nh := new ElementLayout(h.name, h.opts);
    ghost var U := {nt, nh};
    PairNodes(nt, nh);
    PairLinks(nt, nh);
    FanOne(nt, nh);
    KidsOfFan(nt, [nh], nt);
    KidsOfFan(nt, [nh], nh);
    var builder := new ElementLayoutBuilder(ttkstyle);
    var r := builder.Build(native, Pair(nt, nh), U);
    assert nt.children == [nh];
    BuildFlat(nt, RECURSION_LIMIT, U);
    assert Entries([nh]) == [h];
  }

  // --- [f, [d, u], p, [t]] ----------------------------------------------------

  function SpinboxShape(nf: ElementLayout, nd: ElementLayout, nu: ElementLayout, np: ElementLayout, nt: ElementLayout): seq<Item>
  {
    [Leaf(nf), Group([Leaf(nd), Leaf(nu)]), Leaf(np), Group([Leaf(nt)])]
  }

  lemma SpinboxNodes(nf: ElementLayout, nd: ElementLayout, nu: ElementLayout, np: ElementLayout, nt: ElementLayout)
    ensures Nodes(SpinboxShape(nf, nd, nu, np, nt)) == {nf, nd, nu, np, nt}
  {
    NodesOne(Leaf(nu));
    NodesCons(Leaf(nd), [Leaf(nu)]);
    NodesOne(Leaf(nt));
    NodesOne(Group([Leaf(nt)]));
    NodesCons(Leaf(np), [Group([Leaf(nt)])]);
    NodesCons(Group([Leaf(nd), Leaf(nu)]), [Leaf(np), Group([Leaf(nt)])]);
    NodesCons(Leaf(nf), [Group([Leaf(nd), Leaf(nu)]), Leaf(np), Group([Leaf(nt)])]);
  }

  /** `layout.build([f, [d, u], p, [t]])` on fresh nodes: Tk receives `f`
      holding `d`, `u` and `t`; `p` is left out of the layout. */
  method LayoutSpinbox(native: NativeStyle, ttkstyle: string, f: LayoutSpec, d: LayoutSpec, u: LayoutSpec, p: LayoutSpec, t: LayoutSpec)
    modifies native
    ensures native.log == old(native.log) + [Layout(ttkstyle, [WithChildren(f, [d, u, t])])]
    ensures native.themes == old(native.themes) && native.current == old(native.current)
    ensures native.imageCount == old(native.imageCount)
  {
    var nf := new ElementLayout(f.name, f.opts);
    var nd := new ElementLayout(d.name, d.opts);
    var nu := new ElementLayout(u.name, u.opts);
    var np := new ElementLayout(p.name, p.opts);
    var nt := new ElementLayout(t.name, t.opts);
    ghost var U := {nf, nd, nu, np, nt};
    SpinboxNodes(nf, nd, nu, np, nt);
    SpinboxLinks(nf, nd, nu, np, nt);
    FanThree(nf, nd, nu, nt);
    KidsOfFan(nf, [nd, nu, nt], nf);
    KidsOfFan(nf, [nd, nu, nt], nd);
    KidsOfFan(nf, [nd, nu, nt], nu);
    KidsOfFan(nf, [nd, nu, nt], nt);
    var builder := new ElementLayoutBuilder(ttkstyle);
    var r := builder.Build(native, SpinboxShape(nf, nd, nu, np, nt), U);
    assert nf.children == [nd, nu, nt];
    BuildFlat(nf, RECURSION_LIMIT, U);
    assert Entries([nd, nu, nt]) == [d, u, t];
  }

  // --- [b, [p, [i, l]]] -------------------------------------------------------

  function SwitchShape(nb: ElementLayout, np: ElementLayout, ni: ElementLayout, nl: ElementLayout): seq<Item>
  {
    [Leaf(nb), Group([Leaf(np), Group([Leaf(ni), Leaf(nl)])])]
  }

  lemma SwitchNodes(nb: ElementLayout, np: ElementLayout, ni: ElementLayout, nl: ElementLayout)
    ensures Nodes(SwitchShape(nb, np, ni, nl)) == {nb, np, ni, nl}
  {
    NodesOne(Leaf(nl));
    NodesCons(Leaf(ni), [Leaf(nl)]);
    NodesOne(Group([Leaf(ni), Leaf(nl)]));
    NodesCons(Leaf(np), [Group([Leaf(ni), Leaf(nl)])]);
    NodesOne(Group([Leaf(np), Group([Leaf(ni), Leaf(nl)])]));
    NodesCons(Leaf(nb), [Group([Leaf(np), Group([Leaf(ni), Leaf(nl)])])]);
  }

  lemma SwitchKids(nb: ElementLayout, np: ElementLayout, ni: ElementLayout, nl: ElementLayout, n: ElementLayout)
    requires nb != np
    ensures KidsIn([(nb, np), (np, ni), (np, nl)], n) ==
            if n == nb then [np] else if n == np then [ni, nl] else []
  {
    FanTwo(np, ni, nl);
    KidsOfFan(np, [ni, nl], n);
    KidsInAppend([(nb, np)], Fan(np, [ni, nl]), n);
    KidsInOne((nb, np), n);
    assert [(nb, np)] + [(np, ni), (np, nl)] == [(nb, np), (np, ni), (np, nl)];
  }

  /** `layout.build([b, [p, [i, l]]])` on fresh nodes: Tk receives `b`
      holding `p` holding `i` and `l`. */
  method LayoutSwitch(native: NativeStyle, ttkstyle: string, b: LayoutSpec, p: LayoutSpec, i: LayoutSpec, l: LayoutSpec)
    modifies native
    ensures native.log == old(native.log) + [Layout(ttkstyle, [WithChildren(b, [WithChildren(p, [i, l])])])]
    ensures native.themes == old(native.themes) && native.current == old(native.current)
    ensures native.imageCount == old(native.imageCount)
  {
    var nb := new ElementLayout(b.name, b.opts);
    var np := new ElementLayout(p.name, p.opts);
    var ni := new ElementLayout(i.name, i.opts);
    var nl := new ElementLayout(l.name, l.opts);
    ghost var U := {nb, np, ni, nl};
    SwitchNodes(nb, np, ni, nl);
    SwitchLinks(nb, np, ni, nl);
    SwitchKids(nb, np, ni, nl, nb);
    SwitchKids(nb, np, ni, nl, np);
    SwitchKids(nb, np, ni, nl, ni);
    SwitchKids(nb, np, ni, nl, nl);
    var builder := new ElementLayoutBuilder(ttkstyle);
    var r := builder.Build(native, SwitchShape(nb, np, ni, nl), U);
    SwitchBuilds(nb, np, ni, nl, U);
  }

  lemma SwitchBuilds(nb: ElementLayout, np: ElementLayout, ni: ElementLayout, nl: ElementLayout, U: set<ElementLayout>)
    requires U == {nb, np, ni, nl} && nb.children == [np] && np.children == [ni, nl] && ni.children == [] && nl.children == []
    ensures Closed(U)
    ensures BuildSpec(nb, RECURSION_LIMIT, U) ==
            Ok(WithChildren(LayoutSpec(nb.name, nb.kwargs),
                            [WithChildren(LayoutSpec(np.name, np.kwargs), [LayoutSpec(ni.name, ni.kwargs), LayoutSpec(nl.name, nl.kwargs)])]))
  {
    var p := WithChildren(LayoutSpec(np.name, np.kwargs), [LayoutSpec(ni.name, ni.kwargs), LayoutSpec(nl.name, nl.kwargs)]);
    BuildFlat(np, RECURSION_LIMIT - 1, U);
    assert Entries([ni, nl]) == [LayoutSpec(ni.name, ni.kwargs), LayoutSpec(nl.name, nl.kwargs)];
    assert [np][1..] == [];
    assert BuildAll([], RECURSION_LIMIT - 1, U) == Ok([]);
    assert [p] + [] == [p];
    assert BuildAll([np], RECURSION_LIMIT - 1, U) == Ok([p]);
  }
}
