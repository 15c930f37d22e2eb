/**
 Plugin configs: each is parsed on the Go side when it is first needed, merged with its parent, and
 both ids are remembered in the config object. Parse and Merge belong to the user; here they are free
 constructors, so what is proved holds for any of them.
 */
module ConfigMerge {
  import opened StreamTypes

  /** What the config cache holds: a parsed config, a merged one, or nil for an id that is not there. */
  datatype Conf = Parsed(raw: Bytes) | Merged(parent: Conf, child: Conf) | Nil

  /** FilterConfig and RoutePluginConfig: the proto, config_id_ and merged_config_id_. */
  datatype Node = Node(raw: Bytes, id: nat, merged: nat)

  /** Config objects are named: None is the filter's own, Some(n) the one of a route or virtual host. */
  type Name = Option<nat>

  datatype World = World(
    hasParser: bool,
    generator: nat,
    cache: map<nat, Conf>,
    root: Node,
    nodes: seq<Node>,
    parsed: multiset<Name>)
  {
    function Load(id: nat): Conf {
      if id in cache then cache[id] else Nil
    }

    function Store(conf: Conf): World {
      this.(generator := generator + 1, cache := cache[generator + 1 := conf])
    }
  }

  // ---------- the Go side ----------

  /** moeNewHttpPluginConfig, for the config object of that name. */
  function NewConfig(w: World, name: Name, raw: Bytes): (World, nat) {
    (w.Store(Parsed(raw)).(parsed := w.parsed + multiset{name}), w.generator + 1)
  }

  /** moeMergeHttpPluginConfig: without a parser the child overrides the parent. */
  function MergeConfig(w: World, parent: nat, child: nat): (World, nat) {
    if w.hasParser then (w.Store(Merged(w.Load(parent), w.Load(child))), w.generator + 1) else (w, child)
  }

  // ---------- the Envoy side ----------

  /** FilterConfig::getConfigId. */
  function RootId(w: World): (World, nat) {
    if w.root.id != 0 then (w, w.root.id)
    else
      var (w, id) := NewConfig(w, None, w.root.raw);
      (w.(root := w.root.(id := id)), id)
  }

  /** RoutePluginConfig::getMergedConfigId, before the merge: the config's own id. */
  function OwnId(w: World, n: nat): (World, nat)
    requires n < |w.nodes|
  {
    if w.nodes[n].id != 0 then (w, w.nodes[n].id)
    else
      var (w, id) := NewConfig(w, Some(n), w.nodes[n].raw);
      (w.(nodes := w.nodes[n := w.nodes[n].(id := id)]), id)
  }

  /** RoutePluginConfig::getMergedConfigId. */
  function NodeId(w: World, n: nat, parent: nat): (World, nat)
    requires n < |w.nodes|
  {
    if w.nodes[n].merged > 0 then (w, w.nodes[n].merged)
    else
      var (w, id) := OwnId(w, n);
      var (w, merged) := MergeConfig(w, parent, id);
      (w.(nodes := w.nodes[n := w.nodes[n].(merged := merged)]), merged)
  }

  /** FilterConfigPerRoute::getPluginConfigId: no config for this plugin leaves the parent's id. */
  function PluginId(w: World, route: Option<nat>, parent: nat): (World, nat)
    requires route.Some? ==> route.value < |w.nodes|
  {
    if route.Some? then NodeId(w, route.value, parent) else (w, parent)
  }

  predicate InRange(path: seq<Option<nat>>, n: nat) {
    forall k :: 0 <= k < |path| && path[k].Some? ==> path[k].value < n
  }

  /** The loop of Filter::getMergedConfigId over the route configs, from the outermost in. */
  function Walk(w: World, path: seq<Option<nat>>): (r: (World, nat))
    requires InRange(path, |w.nodes|)
    ensures |r.0.nodes| == |w.nodes|
  {
    if path == [] then RootId(w)
    else
      var (w, id) := Walk(w, path[..|path| - 1]);
      PluginId(w, path[|path| - 1], id)
  }

  /** The config objects of the process, with their memo fields, and the Go side's id generator and cache. */
  class PluginConfigs {
    const hasParser: bool
    var generator: nat
    var cache: map<nat, Conf>
    var root: Node
    var nodes: seq<Node>
    ghost var parsed: multiset<Name>

    ghost function View(): World
      reads this
    {
      World(hasParser, generator, cache, root, nodes, parsed)
    }

    constructor (hasParser: bool, root: Bytes, routes: seq<Bytes>)
      ensures View() == Start(hasParser, root, routes)
    {
      this.hasParser := hasParser;
      generator, cache, this.root, parsed := 0, map[], Node(root, 0, 0), multiset{};
      nodes := seq(|routes|, i requires 0 <= i < |routes| => Node(routes[i], 0, 0));
    }

    method NewHttpPluginConfig(ghost name: Name, raw: Bytes) returns (id: nat)
      modifies `generator, `cache, `parsed
      ensures (View(), id) == NewConfig(old(View()), name, raw)
    {
      generator := generator + 1;
      id := generator;
      cache := cache[id := Parsed(raw)];
      parsed := parsed + multiset{name};
    }

    method MergeHttpPluginConfig(parent: nat, child: nat) returns (id: nat)
      modifies `generator, `cache
      ensures (View(), id) == MergeConfig(old(View()), parent, child)
    {
      if hasParser {
        var p := if parent in cache then cache[parent] else Nil;
        var c := if child in cache then cache[child] else Nil;
        generator := generator + 1;
        id := generator;
        cache := cache[id := Merged(p, c)];
      } else {
        id := child;
      }
    }

    method GetConfigId() returns (id: nat)
      modifies this
      ensures (View(), id) == RootId(old(View()))
    {
      if root.id != 0 {
        return root.id;
      }
      id := NewHttpPluginConfig(None, root.raw);
      root := root.(id := id);
    }

    method GetPluginConfigId(n: nat, parent: nat) returns (id: nat)
      requires n < |nodes|
      modifies this
      ensures (View(), id) == NodeId(old(View()), n, parent)
    {
      if nodes[n].merged > 0 {
        return nodes[n].merged;
      }
      if nodes[n].id == 0 {
        var own := NewHttpPluginConfig(Some(n), nodes[n].raw);
        nodes := nodes[n := nodes[n].(id := own)];
      }
      id := MergeHttpPluginConfig(parent, nodes[n].id);
      nodes := nodes[n := nodes[n].(merged := id)];
    }

    method GetMergedConfigId(path: seq<Option<nat>>) returns (id: nat)
      requires InRange(path, |nodes|)
      modifies this
      ensures (View(), id) == Walk(old(View()), path)
    {
      hide RootId, NodeId;
      ghost var w := View();
      assert path[..0] == [];
      id := GetConfigId();
      for k := 0 to |path|
        invariant InRange(path[..k], |w.nodes|) && (View(), id) == Walk(w, path[..k])
      {
        assert path[..k + 1][..k] == path[..k];
        if path[k].Some? {
          id := GetPluginConfigId(path[k].value, id);
        }
      }
      assert path[..|path|] == path;
    }
  }

  function Start(hasParser: bool, root: Bytes, routes: seq<Bytes>): World {
    World(hasParser, 0, map[], Node(root, 0, 0),
          seq(|routes|, i requires 0 <= i < |routes| => Node(routes[i], 0, 0)), multiset{})
  }

  // ---------- what the ids stand for ----------

  /** A route's config on top of its parent's. */
  function Over(hasParser: bool, parent: Conf, raw: Bytes): Conf {
    if hasParser then Merged(parent, Parsed(raw)) else Parsed(raw)
  }

  /** The plain fold over the filter's config and those of a path. */
  function Fold(w: World, path: seq<Option<nat>>): Conf
    requires InRange(path, |w.nodes|)
  {
    if path == [] then Parsed(w.root.raw)
    else
      var parent := Fold(w, path[..|path| - 1]);
      var route := path[|path| - 1];
      if route.Some? then Over(w.hasParser, parent, w.nodes[route.value].raw) else parent
  }

  /** The memo fields mean what they should; parent(n) is the config route n was first merged with. */
  ghost predicate Inv(w: World, parent: nat -> Conf) {
    && (forall id: nat :: id in w.cache <==> 1 <= id <= w.generator)
    && (w.root.id != 0 ==> w.root.id in w.cache && w.cache[w.root.id] == Parsed(w.root.raw))
    && w.parsed[None] == (if w.root.id != 0 then 1 else 0)
    && (forall n :: 0 <= n < |w.nodes| ==> NodeInv(w, n, parent(n)))
  }

  ghost predicate NodeInv(w: World, n: nat, parent: Conf)
    requires n < |w.nodes|
  {
    var node := w.nodes[n];
    && (node.id != 0 ==> node.id in w.cache && w.cache[node.id] == Parsed(node.raw))
    && (node.merged != 0 ==> node.merged in w.cache && w.cache[node.merged] == Over(w.hasParser, parent, node.raw))
    && w.parsed[Some(n)] == (if node.id != 0 then 1 else 0)
  }

  /** Ids once given out keep their meaning, new ones are fresh, and the configs themselves do not change. */
  ghost predicate Extends(w: World, x: World) {
    && x.hasParser == w.hasParser && x.root.raw == w.root.raw && |x.nodes| == |w.nodes|
    && (forall n :: 0 <= n < |w.nodes| ==> x.nodes[n].raw == w.nodes[n].raw)
    && w.generator <= x.generator
    && (forall id :: id in w.cache ==> id in x.cache && x.cache[id] == w.cache[id])
    && (forall id :: id in x.cache && id !in w.cache ==> id > w.generator)
  }

  lemma RootKeeps(w: World, parent: nat -> Conf)
    requires Inv(w, parent)
    ensures var (x, id) := RootId(w);
            Inv(x, parent) && Extends(w, x) && id != 0 && id in x.cache && x.cache[id] == Parsed(w.root.raw)
  {
    var (x, id) := RootId(w);
    forall n | 0 <= n < |x.nodes|
      ensures NodeInv(x, n, parent(n))
    {
      assert NodeInv(w, n, parent(n));
    }
  }

  lemma OwnKeeps(w: World, n: nat, parent: nat -> Conf)
    requires Inv(w, parent) && n < |w.nodes|
    ensures var (x, id) := OwnId(w, n);
            && Inv(x, parent) && Extends(w, x) && id != 0 && id in x.cache && x.cache[id] == Parsed(w.nodes[n].raw)
            && x.nodes[n].merged == w.nodes[n].merged
  {
    var (x, id) := OwnId(w, n);
    assert NodeInv(w, n, parent(n));
    forall k | 0 <= k < |x.nodes|
      ensures NodeInv(x, k, parent(k))
    {
      assert NodeInv(w, k, parent(k));
    }
  }

  lemma MergeKeeps(w: World, p: nat, c: nat, parent: nat -> Conf)
    requires Inv(w, parent) && p in w.cache && c in w.cache && c != 0
    ensures var (x, id) := MergeConfig(w, p, c);
            && Inv(x, parent) && Extends(w, x) && x.nodes == w.nodes && id != 0 && id in x.cache
            && x.cache[id] == if w.hasParser then Merged(w.cache[p], w.cache[c]) else w.cache[c]
  {
    var (x, id) := MergeConfig(w, p, c);
    forall k | 0 <= k < |x.nodes|
      ensures NodeInv(x, k, parent(k))
    {
      assert NodeInv(w, k, parent(k));
    }
  }

  lemma NodeKeeps(w: World, n: nat, p: nat, parent: nat -> Conf)
    requires Inv(w, parent) && n < |w.nodes| && p in w.cache && w.cache[p] == parent(n)
    ensures var (x, id) := NodeId(w, n, p);
            && Inv(x, parent) && Extends(w, x) && id != 0 && id in x.cache
            && x.cache[id] == Over(w.hasParser, parent(n), w.nodes[n].raw)
  {
    hide OwnId, MergeConfig;
    assert NodeInv(w, n, parent(n));
    if w.nodes[n].merged == 0 {
      OwnKeeps(w, n, parent);
      var (x, own) := OwnId(w, n);
      MergeKeeps(x, p, own, parent);
      var (y, merged) := MergeConfig(x, p, own);
      var z := NodeId(w, n, p).0;
      forall k | 0 <= k < |z.nodes|
        ensures NodeInv(z, k, parent(k))
      {
        assert NodeInv(y, k, parent(k));
      }
    }
  }

  // ---------- requests ----------

  /** Every route on the path sees the parent config it is first merged with. */
  ghost predicate SameParent(w: World, path: seq<Option<nat>>, parent: nat -> Conf)
    requires InRange(path, |w.nodes|)
  {
    forall k :: 0 <= k < |path| && path[k].Some? ==> Fold(w, path[..k]) == parent(path[k].value)
  }

  lemma {:induction false} FoldExtends(w: World, x: World, path: seq<Option<nat>>)
    requires Extends(w, x) && InRange(path, |w.nodes|)
    ensures Fold(x, path) == Fold(w, path)
  {
    if path != [] {
      FoldExtends(w, x, path[..|path| - 1]);
    }
  }

  lemma ExtendsTrans(w: World, x: World, y: World)
    requires Extends(w, x) && Extends(x, y)
    ensures Extends(w, y)
  {
  }

  lemma {:induction false} WalkFolds(w: World, path: seq<Option<nat>>, parent: nat -> Conf)
    requires Inv(w, parent) && InRange(path, |w.nodes|) && SameParent(w, path, parent)
    ensures var (x, id) := Walk(w, path);
            Inv(x, parent) && Extends(w, x) && id != 0 && id in x.cache && x.cache[id] == Fold(w, path)
  {
    hide Inv, Extends, RootId, NodeId;
    if path == [] {
      RootKeeps(w, parent);
    } else {
      var before, route := path[..|path| - 1], path[|path| - 1];
      forall k | 0 <= k < |before| && before[k].Some?
        ensures Fold(w, before[..k]) == parent(before[k].value)
      {
        assert before[..k] == path[..k] && path[k] == before[k];
      }
      WalkFolds(w, before, parent);
      var (x, id) := Walk(w, before);
      if route.Some? {
        NodeKeeps(x, route.value, id, parent);
        ExtendsTrans(w, x, Walk(w, path).0);
        SameRaws(w, x);
      }
    }
  }

  lemma SameRaws(w: World, x: World)
    requires Extends(w, x)
    ensures x.hasParser == w.hasParser && |x.nodes| == |w.nodes|
    ensures forall n :: 0 <= n < |w.nodes| ==> x.nodes[n].raw == w.nodes[n].raw
  {
  }

  /** The requests served so far, one after the other. */
  ghost function Serve(w: World, requests: seq<seq<Option<nat>>>): (x: World)
    requires forall i :: 0 <= i < |requests| ==> InRange(requests[i], |w.nodes|)
    ensures |x.nodes| == |w.nodes|
  {
    if requests == [] then w
    else Walk(Serve(w, requests[..|requests| - 1]), requests[|requests| - 1]).0
  }

  lemma {:induction false} ServeKeeps(w: World, requests: seq<seq<Option<nat>>>, parent: nat -> Conf)
    requires Inv(w, parent)
    requires forall i :: 0 <= i < |requests| ==> InRange(requests[i], |w.nodes|) && SameParent(w, requests[i], parent)
    ensures Inv(Serve(w, requests), parent) && Extends(w, Serve(w, requests))
  {
    hide Inv, Walk;
    if requests != [] {
      var before, path := requests[..|requests| - 1], requests[|requests| - 1];
      ServeKeeps(w, before, parent);
      var x := Serve(w, before);
      SameParentExtends(w, x, path, parent);
      WalkFolds(x, path, parent);
      ExtendsTrans(w, x, Walk(x, path).0);
    }
  }

  lemma SameParentExtends(w: World, x: World, path: seq<Option<nat>>, parent: nat -> Conf)
    requires Extends(w, x) && InRange(path, |w.nodes|) && SameParent(w, path, parent)
    ensures SameParent(x, path, parent)
  {
    forall k | 0 <= k < |path| && path[k].Some?
      ensures Fold(x, path[..k]) == parent(path[k].value)
    {
      FoldExtends(w, x, path[..k]);
    }
  }

  /**
   Over any sequence of requests in which each route always sees the same parent config, the id a
   request gets is not 0, and the config cached under it is the plain left fold over the filter's
   config and those on the request's path; earlier ids keep their meaning, new ones are fresh; and each
   config object is parsed at most once.
   */
  lemma RunFolds(hasParser: bool, root: Bytes, routes: seq<Bytes>, requests: seq<seq<Option<nat>>>,
                 path: seq<Option<nat>>, parent: nat -> Conf, name: Name)
    requires forall i :: 0 <= i < |requests| ==>
               InRange(requests[i], |routes|) && SameParent(Start(hasParser, root, routes), requests[i], parent)
    requires InRange(path, |routes|) && SameParent(Start(hasParser, root, routes), path, parent)
    ensures var w := Serve(Start(hasParser, root, routes), requests);
            var (x, id) := Walk(w, path);
            && id != 0 && id in x.cache && x.cache[id] == Fold(Start(hasParser, root, routes), path)
            && Extends(w, x)
            && (name.None? || name.value < |routes| ==> x.parsed[name] <= 1)
  {
    hide Walk, Serve;
    var w0 := Start(hasParser, root, routes);
    ServeKeeps(w0, requests, parent);
    var w := Serve(w0, requests);
    SameParentExtends(w0, w, path, parent);
    WalkFolds(w, path, parent);
    FoldExtends(w0, w, path);
    var x := Walk(w, path).0;
    if name.Some? && name.value < |routes| {
      assert NodeInv(x, name.value, parent(name.value));
    }
  }

  // ---------- the edge: a route under another parent ----------

  ghost predicate Memoised(w: World, path: seq<Option<nat>>)
    requires InRange(path, |w.nodes|)
  {
    w.root.id != 0 && forall k :: 0 <= k < |path| && path[k].Some? ==> w.nodes[path[k].value].merged != 0
  }

  lemma {:induction false} MemoisedWalk(w: World, path: seq<Option<nat>>)
    requires InRange(path, |w.nodes|) && Memoised(w, path)
    ensures Walk(w, path).0 == w
  {
    if path != [] {
      MemoisedWalk(w, path[..|path| - 1]);
    }
  }

  /**
   Once everything on a path is remembered, the answer is the fold if and only if the last route sees
   the parent it was first merged with, or there is no parser and the parent does not matter.
   */
  lemma StaleExactly(w: World, before: seq<Option<nat>>, n: nat, parent: nat -> Conf)
    requires Inv(w, parent) && InRange(before, |w.nodes|) && n < |w.nodes|
    requires Memoised(w, before + [Some(n)])
    ensures var path := before + [Some(n)];
            var (x, id) := Walk(w, path);
            && x == w && id in w.cache
            && (w.cache[id] == Fold(w, path) <==> !w.hasParser || Fold(w, before) == parent(n))
  {
    var path := before + [Some(n)];
    assert path[..|before|] == before && path[|before|] == Some(n);
    assert Memoised(w, before) by {
      assert forall k :: 0 <= k < |before| ==> path[k] == before[k];
    }
    MemoisedWalk(w, before);
    assert NodeInv(w, n, parent(n));
  }

  /** What one request for the first route and one for the second leave behind. */
  function Warm(root: Bytes, a: Bytes, b: Bytes): World {
    var first, second := Merged(Parsed(root), Parsed(a)), Merged(Parsed(root), Parsed(b));
    World(true, 5, map[1 := Parsed(root), 2 := Parsed(a), 3 := first, 4 := Parsed(b), 5 := second],
          Node(root, 1, 0), [Node(a, 2, 3), Node(b, 4, 5)], multiset{None, Some(0), Some(1)})
  }

  /** The same after the first of the two. */
  function HalfWarm(root: Bytes, a: Bytes, b: Bytes): World {
    World(true, 3, map[1 := Parsed(root), 2 := Parsed(a), 3 := Merged(Parsed(root), Parsed(a))],
          Node(root, 1, 0), [Node(a, 2, 3), Node(b, 0, 0)], multiset{None, Some(0)})
  }

  lemma WarmsFirst(root: Bytes, a: Bytes, b: Bytes)
    ensures Walk(Start(true, root, [a, b]), [Some(0)]).0 == HalfWarm(root, a, b)
  {
    var w := Start(true, root, [a, b]);
    assert [Some(0)][..0] == [];
    assert w.nodes == [Node(a, 0, 0), Node(b, 0, 0)] && w.parsed + multiset{None} == multiset{None};
  }

  lemma WarmsSecond(root: Bytes, a: Bytes, b: Bytes)
    ensures Walk(HalfWarm(root, a, b), [Some(1)]).0 == Warm(root, a, b)
  {
    assert [Some(1)][..0] == [];
    assert Walk(HalfWarm(root, a, b), []) == (HalfWarm(root, a, b), 1);
  }

  /**
   A route that was first used on its own, and then below another one, keeps the config it had on its own:
   what its new parent says is lost.
   */
  lemma StaleRoute(root: Bytes, a: Bytes, b: Bytes)
    ensures var w := Serve(Start(true, root, [a, b]), [[Some(0)], [Some(1)]]);
            var (x, id) := Walk(w, [Some(0), Some(1)]);
            && id in x.cache && x.cache[id] == Merged(Parsed(root), Parsed(b))
            && Fold(w, [Some(0), Some(1)]) == Merged(Merged(Parsed(root), Parsed(a)), Parsed(b))
  {
    hide RootId, NodeId, Extends;
    var w0 := Start(true, root, [a, b]);
    WarmsFirst(root, a, b);
    WarmsSecond(root, a, b);
    assert [[Some(0)], [Some(1)]][..1] == [[Some(0)]] && [[Some(0)]][..0] == [];
    assert Serve(w0, [[Some(0)]]) == Walk(w0, [Some(0)]).0;
    var w := Serve(w0, [[Some(0)], [Some(1)]]);
    assert w == Warm(root, a, b);
    WarmAnswers(root, a, b);
  }

  lemma WarmAnswers(root: Bytes, a: Bytes, b: Bytes)
    ensures var w, path := Warm(root, a, b), [Some(0), Some(1)];
            && Walk(w, path) == (w, 5) && 5 in w.cache && w.cache[5] == Merged(Parsed(root), Parsed(b))
            && Fold(w, path) == Merged(Merged(Parsed(root), Parsed(a)), Parsed(b))
  {
    var w := Warm(root, a, b);
    assert [Some(0), Some(1)][..1] == [Some(0)] && [Some(0)][..0] == [];
    assert Walk(w, []) == (w, 1) && Walk(w, [Some(0)]) == (w, 3);
    assert Fold(w, []) == Parsed(root) && Fold(w, [Some(0)]) == Merged(Parsed(root), Parsed(a));
  }
}
