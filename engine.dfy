/** The state every theme engine keeps: which styles it has already built
    for which scheme, which builder answers which style keyword, and the
    images it holds on to per scheme. */
module Engines {
  import opened Base
  import opened Schemes
  import opened Native
  import opened Publishing
  import opened Messages

  // ---------------------------------------------------------------------------
  // Ordering of keywords: `sorted(keys, key=len, reverse=True)`
  // ---------------------------------------------------------------------------

  /** Longest first. */
  predicate LongestFirst(s: seq<string>)
  {
    forall i, j :: 0 <= i < j < |s| ==> |s[i]| >= |s[j]|
  }

  /** The keys of a given length, in their order in `s`. */
  function OfLength(s: seq<string>, n: nat): seq<string>
  {
    if s == [] then []
    else (if |s[0]| == n then [s[0]] else []) + OfLength(s[1..], n)
  }

  /** Put `x` in front of the first key that is not longer than it. */
  function InsertByLength(x: string, s: seq<string>): (r: seq<string>)
    ensures multiset(r) == multiset(s) + multiset{x}
  {
    if s == [] then [x]
    else if |s[0]| > |x| then
      assert s == [s[0]] + s[1..];
      [s[0]] + InsertByLength(x, s[1..])
    else [x] + s
  }

  /** A stable sort, longest key first. */
  function SortByLength(s: seq<string>): (r: seq<string>)
    ensures multiset(r) == multiset(s)
  {
    if s == [] then []
    else
      assert s == [s[0]] + s[1..];
      InsertByLength(s[0], SortByLength(s[1..]))
  }

  lemma {:induction false} InsertKeepsOrder(x: string, s: seq<string>)
    requires LongestFirst(s)
    ensures LongestFirst(InsertByLength(x, s))
  {
    if s != [] && |s[0]| > |x| {
      InsertKeepsOrder(x, s[1..]);
      var r := InsertByLength(x, s[1..]);
      assert multiset(r) == multiset(s[1..]) + multiset{x};
      forall k | 0 <= k < |r|
        ensures |s[0]| >= |r[k]|
      {
        assert r[k] in multiset(r);
        if r[k] != x {
          assert r[k] in multiset(s[1..]);
          var j :| 0 <= j < |s[1..]| && s[1..][j] == r[k];
          assert s[j + 1] == r[k];
        }
      }
      var t := [s[0]] + r;
      forall i, j | 0 <= i < j < |t|
        ensures |t[i]| >= |t[j]|
      {
        assert t[j] == r[j - 1];
        if i > 0 {
          assert t[i] == r[i - 1];
        }
      }
      assert InsertByLength(x, s) == t;
    }
  }

  /** The sorted keys are longest first. */
  lemma {:induction false} SortIsLongestFirst(s: seq<string>)
    ensures LongestFirst(SortByLength(s))
  {
    if s != [] {
      SortIsLongestFirst(s[1..]);
      InsertKeepsOrder(s[0], SortByLength(s[1..]));
    }
  }

  lemma {:induction false} OfLengthAppend(a: seq<string>, b: seq<string>, n: nat)
    ensures OfLength(a + b, n) == OfLength(a, n) + OfLength(b, n)
  {
    if a == [] {
      assert a + b == b;
    } else {
      OfLengthAppend(a[1..], b, n);
      var head := if |a[0]| == n then [a[0]] else [];
      calc {
        OfLength(a + b, n);
        head + OfLength((a + b)[1..], n);
        { assert (a + b)[1..] == a[1..] + b; }
        head + OfLength(a[1..] + b, n);
        head + (OfLength(a[1..], n) + OfLength(b, n));
        (head + OfLength(a[1..], n)) + OfLength(b, n);
      }
    }
  }

  lemma {:induction false} InsertIsStable(x: string, s: seq<string>, n: nat)
    ensures OfLength(InsertByLength(x, s), n) == OfLength([x], n) + OfLength(s, n)
  {
    if s != [] && |s[0]| > |x| {
      InsertIsStable(x, s[1..], n);
      OfLengthAppend([s[0]], InsertByLength(x, s[1..]), n);
      OfLengthAppend([s[0]], s[1..], n);
      assert [s[0]] + s[1..] == s;
      if |x| == n {
        assert OfLength([s[0]], n) == [];
      } else {
        assert OfLength([x], n) == [];
      }
    } else {
      OfLengthAppend([x], s, n);
    }
  }

  /** Stability: keys of equal length keep their relative order. */
  lemma {:induction false} SortIsStable(s: seq<string>, n: nat)
    ensures OfLength(SortByLength(s), n) == OfLength(s, n)
  {
    if s != [] {
      SortIsStable(s[1..], n);
      InsertIsStable(s[0], SortByLength(s[1..]), n);
    }
  }

  class ThemeEngine {
    const name: string
    /** the native theme a theme of this engine is derived from */
    const base: string
    /** scheme -> the names of the styles already built for it */
    var styles: map<Scheme, set<string>>
    /** style keyword -> builder */
    var handlers: map<string, Callback>
    /** the keywords in the order they were first set (dictionary order) */
    var handlerOrder: seq<string>
    /** scheme name -> the images kept alive for it */
    var assets: map<string, set<Image>>

    ghost predicate Valid()
      reads this
    {
      (forall k :: k in handlers <==> k in handlerOrder) &&
      (forall i, j :: 0 <= i < j < |handlerOrder| ==> handlerOrder[i] != handlerOrder[j])
    }

    constructor (name: string, base: string)
      ensures Valid()
      ensures this.name == name && this.base == base
      ensures styles == map[] && handlers == map[] && handlerOrder == [] && assets == map[]
    {
      this.name := name;
      this.base := base;
      styles := map[];
      handlers := map[];
      handlerOrder := [];
      assets := map[];
    }

    /** Whether the style has been built for the scheme. */
    function StyleExists(styleName: string, scheme: Scheme): (r: bool)
      reads this
      ensures r <==> scheme in styles && styleName in styles[scheme]
    {
      if scheme !in styles || styles[scheme] == {} then false
      else styleName in styles[scheme]
    }

    /** Record that the style has been built for the scheme. */
    method StyleRegister(styleName: string, scheme: Scheme)
      modifies this
      ensures styles == AddTo(old(styles), scheme, {styleName})
      ensures handlers == old(handlers) && handlerOrder == old(handlerOrder) && assets == old(assets)
    {
      if scheme !in styles {
        styles := styles[scheme := {styleName}];
      } else {
        styles := styles[scheme := styles[scheme] + {styleName}];
      }
    }

    /** Make `callback` the builder for `keyword`, and subscribe it on the bus
        under `'{engine name}-{keyword}'`. */
    method HandlerSet(bus: Bus, keyword: string, callback: Callback)
      requires Valid()
      modifies this, bus
      ensures Valid()
      ensures handlers == old(handlers)[keyword := callback]
      ensures handlerOrder == if keyword in old(handlers) then old(handlerOrder) else old(handlerOrder) + [keyword]
      ensures styles == old(styles) && assets == old(assets)
      ensures bus.subscribers == Subscribe(old(bus.subscribers), name + "-" + keyword, callback)
      ensures bus.events == old(bus.events) && bus.deliveries == old(bus.deliveries)
    {
      if keyword !in handlers {
        handlerOrder := handlerOrder + [keyword];
      }
      handlers := handlers[keyword := callback];
      bus.Add(name + "-" + keyword, callback);
    }

    /** The builder for `keyword`, if any. */
    function HandlerGet(keyword: string): (r: Option<Callback>)
      reads this
      ensures r.Some? <==> keyword in handlers
      ensures r.Some? ==> r.value == handlers[keyword]
    {
      if keyword in handlers then Some(handlers[keyword]) else None
    }

    /** The keywords, longest first; keywords of equal length in the order
        they were first set. */
    function Keywords(): (r: seq<string>)
      reads this
      requires Valid()
      ensures multiset(r) == multiset(handlerOrder)
      ensures forall k :: k in r <==> k in handlers
    {
      var r := SortByLength(handlerOrder);
      assert forall k :: k in r <==> k in multiset(handlerOrder);
      r
    }

    /** Keep the images alive for the scheme. */
    method RegisterAssets(schemeName: string, images: seq<Image>)
      modifies this
      ensures assets == AddTo(old(assets), schemeName, set i | i in images)
      ensures styles == old(styles) && handlers == old(handlers) && handlerOrder == old(handlerOrder)
    {
      var added := set i | i in images;
      if schemeName !in assets {
        assets := assets[schemeName := added];
      } else {
        assets := assets[schemeName := assets[schemeName] + added];
      }
    }
  }

  // ---------------------------------------------------------------------------
  // Registering the builders of an engine
  // ---------------------------------------------------------------------------

  /** The subscription table after registering `entries` for `engine`, in
      order. */
  function SubscribeAll(table: map<string, set<Callback>>, engine: string, entries: seq<(string, BuilderFn)>): map<string, set<Callback>>
    decreases |entries|
  {
    if entries == [] then table
    else SubscribeAll(Subscribe(table, engine + "-" + entries[0].0, Builder(engine, entries[0].1)), engine, entries[1..])
  }

  /** The handler table after registering `entries` for `engine`, in order. */
  function HandlersAfter(handlers: map<string, Callback>, engine: string, entries: seq<(string, BuilderFn)>): map<string, Callback>
    decreases |entries|
  {
    if entries == [] then handlers
    else HandlersAfter(handlers[entries[0].0 := Builder(engine, entries[0].1)], engine, entries[1..])
  }

  /** Register the builders of `entries`, in order, through `handler_set`. */
  method RegisterKeywords(engine: ThemeEngine, bus: Bus, entries: seq<(string, BuilderFn)>)
    requires engine.Valid()
    requires forall i, j :: 0 <= i < j < |entries| ==> entries[i].0 != entries[j].0
    requires forall i :: 0 <= i < |entries| ==> entries[i].0 !in engine.handlers
    modifies engine, bus
    ensures engine.Valid()
    ensures engine.handlers == HandlersAfter(old(engine.handlers), engine.name, entries)
    ensures engine.handlerOrder == old(engine.handlerOrder) + seq(|entries|, i requires 0 <= i < |entries| => entries[i].0)
    ensures engine.styles == old(engine.styles) && engine.assets == old(engine.assets)
    ensures bus.subscribers == SubscribeAll(old(bus.subscribers), engine.name, entries)
    ensures bus.events == old(bus.events) && bus.deliveries == old(bus.deliveries)
  {
    var k := 0;
    while k < |entries|
      invariant 0 <= k <= |entries|
      invariant engine.Valid()
      invariant forall i :: k <= i < |entries| ==> entries[i].0 !in engine.handlers
      invariant HandlersAfter(old(engine.handlers), engine.name, entries) == HandlersAfter(engine.handlers, engine.name, entries[k..])
      invariant engine.handlerOrder == old(engine.handlerOrder) + seq(k, i requires 0 <= i < k => entries[i].0)
      invariant engine.styles == old(engine.styles) && engine.assets == old(engine.assets)
      invariant SubscribeAll(old(bus.subscribers), engine.name, entries) == SubscribeAll(bus.subscribers, engine.name, entries[k..])
      invariant bus.events == old(bus.events) && bus.deliveries == old(bus.deliveries)
    {
      assert entries[k..][1..] == entries[k + 1..];
      engine.HandlerSet(bus, entries[k].0, Builder(engine.name, entries[k].1));
      KeywordsStep(entries, k);
      k := k + 1;
    }
  }

  /** The first `k + 1` keywords are the first `k` and the next one. */
  lemma KeywordsStep(entries: seq<(string, BuilderFn)>, k: nat)
    requires k < |entries|
    ensures seq(k + 1, i requires 0 <= i < k + 1 => entries[i].0) == seq(k, i requires 0 <= i < k => entries[i].0) + [entries[k].0]
  {
  }

  /** Whether a style is built after registering one: exactly the ones
      that were, plus the registered one. */
  lemma RegisterThenExists(styles: map<Scheme, set<string>>, name: string, scheme: Scheme, other: string, otherScheme: Scheme)
    ensures var t := AddTo(styles, scheme, {name});
            (otherScheme in t && other in t[otherScheme]) <==>
            (otherScheme in styles && other in styles[otherScheme]) || (other == name && otherScheme == scheme)
  {
    AddToFrame(styles, scheme, {name});
  }

  /** The keywords of an engine are sorted longest first, and stable. */
  lemma KeywordsOrder(e: ThemeEngine, n: nat)
    requires e.Valid()
    ensures LongestFirst(e.Keywords())
    ensures OfLength(e.Keywords(), n) == OfLength(e.handlerOrder, n)
  {
    SortIsLongestFirst(e.handlerOrder);
    SortIsStable(e.handlerOrder, n);
  }

  /** Setting the same keyword twice keeps the later callback. */
  lemma HandlerOverwrite(handlers: map<string, Callback>, k: string, f: Callback, g: Callback)
    ensures handlers[k := f][k := g] == handlers[k := g]
  {
  }
}
