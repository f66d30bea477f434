/**
 The page-script registry as a transition system. One action is one uninterrupted turn of the
 browser's event loop: an attribute callback, a disconnect callback, the settling of one dynamic
 import, or an `enhancedload` event.
 */
module PageScripts {
  import opened Prelude

  datatype Fetch = Pending | Fulfilled | Rejected

  /** A `pageScriptInfo` object. Its identity is its index in `State.infos`; `loaded` says whether
      its `module` field is non-null, `fetch` what has become of its own `import(src)`. */
  datatype Info = Info(src: string, referenceCount: int, loaded: bool, fetch: Fetch)

  datatype Hook = OnLoad | OnUpdate | OnDispose

  /** The module hook call sites reached, in order. */
  datatype Call = Call(info: nat, src: string, hook: Hook)

  /** A `page-script` element: the value of `this.src` (null is the empty string), and whether the element is
      in the page. One that comes into the page with its `src` is connected first and then given the `src`. */
  datatype Element = Element(src: string, connected: bool)

  /** The script's own state. `order` and `bySrc` are its Map: the keys in insertion order, and the
      contents; `infos` are all objects ever made for it, in the order of their making. */
  datatype Registry = Registry(
    infos: seq<Info>,
    order: seq<string>,
    bySrc: map<string, nat>,
    calls: seq<Call>)

  datatype State = State(registry: Registry, elements: map<nat, Element>)

  datatype Action =
    | SetSrc(element: nat, src: string)
    | Connect(element: nat)
    | Disconnect(element: nat)
    | ImportResolves(info: nat)
    | ImportFails(info: nat)
    | EnhancedLoad

  const EMPTY := Registry([], [], map[], [])

  /** The Map holds each of its keys once, and under each key an object made for that key. */
  ghost predicate Wf(g: Registry) {
    && NoDuplicates(g.order)
    && (forall src :: src in g.order <==> src in g.bySrc)
    && (forall src | src in g.bySrc :: g.bySrc[src] < |g.infos| && g.infos[g.bySrc[src]].src == src)
    && "" !in g.bySrc
  }

  ghost predicate Current(g: Registry, i: nat)
    requires i < |g.infos|
  {
    g.infos[i].src in g.bySrc && g.bySrc[g.infos[i].src] == i
  }

  /** The stored count of a key; a key the Map does not hold counts zero. */
  function Count(g: Registry, src: string): int
    requires Wf(g)
  {
    if src in g.bySrc then g.infos[g.bySrc[src]].referenceCount else 0
  }

  function AddToCount(g: Registry, src: string, delta: int): (r: Registry)
    requires Wf(g) && src in g.bySrc
    ensures Wf(r)
  {
    var i := g.bySrc[src];
    g.(infos := g.infos[i := g.infos[i].(referenceCount := g.infos[i].referenceCount + delta)])
  }

  /** An empty `src` makes the function throw before it touches the Map. */
  function Register(g: Registry, src: string): (r: Registry)
    requires Wf(g)
    ensures Wf(r)
  {
    if src == "" then g
    else if src in g.bySrc then AddToCount(g, src, 1)
    else Registry(g.infos + [Info(src, 1, false, Pending)], g.order + [src], g.bySrc[src := |g.infos|], g.calls)
  }

  function Unregister(g: Registry, src: string): (r: Registry)
    requires Wf(g)
    ensures Wf(r)
  {
    if src in g.bySrc then AddToCount(g, src, -1) else g
  }

  /** The continuation of `initializePageScriptModule` after its `await`. */
  function Loaded(g: Registry, i: nat): (r: Registry)
    requires Wf(g) && i < |g.infos|
    ensures Wf(r)
  {
    var info := g.infos[i].(fetch := Fulfilled);
    if info.referenceCount <= 0 then g.(infos := g.infos[i := info])
    else g.(infos := g.infos[i := info.(loaded := true)],
            calls := g.calls + [Call(i, info.src, OnLoad), Call(i, info.src, OnUpdate)])
  }

  /** A rejected import leaves the `async` function without touching the object. */
  function Failed(g: Registry, i: nat): (r: Registry)
    requires Wf(g) && i < |g.infos|
    ensures Wf(r)
  {
    g.(infos := g.infos[i := g.infos[i].(fetch := Rejected)])
  }

  /** The keys among `keys` that a sweep keeps. */
  function Kept(g: Registry, keys: seq<string>): seq<string>
    requires Wf(g)
  {
    if keys == [] then []
    else
      var (init, last) := (keys[..|keys| - 1], keys[|keys| - 1]);
      Kept(g, init) + if Count(g, last) > 0 then [last] else []
  }

  /** The calls of `hook` made while walking `keys`: on loaded modules whose key is kept or not. */
  function HookCalls(g: Registry, keys: seq<string>, kept: bool, hook: Hook): seq<Call>
    requires Wf(g)
  {
    if keys == [] then []
    else
      var (init, last) := (keys[..|keys| - 1], keys[|keys| - 1]);
      HookCalls(g, init, kept, hook) +
      if last in g.bySrc && (Count(g, last) > 0) == kept && g.infos[g.bySrc[last]].loaded
      then [Call(g.bySrc[last], last, hook)] else []
  }

  function Disposals(g: Registry): seq<Call>
    requires Wf(g)
  {
    HookCalls(g, g.order, false, OnDispose)
  }

  function Updates(g: Registry): seq<Call>
    requires Wf(g)
  {
    HookCalls(g, g.order, true, OnUpdate)
  }

  /** `onEnhancedLoad`. */
  function Sweep(g: Registry): (r: Registry)
    requires Wf(g)
    ensures Wf(r)
  {
    KeptKeys(g, g.order);
    Registry(g.infos, Kept(g, g.order), map src | src in g.bySrc && Count(g, src) > 0 :: g.bySrc[src],
             g.calls + Disposals(g) + Updates(g))
  }

  /** What `this.src` holds before the first attribute callback is undefined: nothing to give back. */
  function SrcOf(s: State, element: nat): string {
    if element in s.elements then s.elements[element].src else ""
  }

  predicate IsConnected(s: State, element: nat) {
    element in s.elements && s.elements[element].connected
  }

  /** Only the settling of an object's own pending import does anything to it. */
  predicate Settles(g: Registry, i: nat) {
    i < |g.infos| && g.infos[i].fetch == Pending
  }

  /** The browser calls the attribute callback of an element in the page or out of it, and the disconnect callback of
      one that was in it. The script has no callback for an element that is put into the page, and so does
      nothing then. */
  function Step(s: State, a: Action): (r: State)
    requires Wf(s.registry)
    ensures Wf(r.registry)
  {
    var g := s.registry;
    match a
    case SetSrc(el, src) =>
      State(Register(Unregister(g, SrcOf(s, el)), src), s.elements[el := Element(src, IsConnected(s, el))])
    case Connect(el) =>
      State(g, s.elements[el := Element(SrcOf(s, el), true)])
    case Disconnect(el) =>
      if !IsConnected(s, el) then s
      else State(Unregister(g, SrcOf(s, el)), s.elements[el := Element(SrcOf(s, el), false)])
    case ImportResolves(i) =>
      if Settles(g, i) then State(Loaded(g, i), s.elements) else s
    case ImportFails(i) =>
      if Settles(g, i) then State(Failed(g, i), s.elements) else s
    case EnhancedLoad =>
      State(Sweep(g), s.elements)
  }

  /** The state a whole run leads to, from the empty registry and a page without elements. */
  function Run(run: seq<Action>): (s: State)
    ensures Wf(s.registry)
  {
    if run == [] then State(EMPTY, map[]) else Step(Run(run[..|run| - 1]), run[|run| - 1])
  }

  lemma {:induction false} KeptKeys(g: Registry, keys: seq<string>)
    requires Wf(g) && NoDuplicates(keys)
    ensures NoDuplicates(Kept(g, keys))
    ensures forall src :: src in Kept(g, keys) <==> src in keys && Count(g, src) > 0
  {
    if keys != [] {
      var (init, last) := (keys[..|keys| - 1], keys[|keys| - 1]);
      KeptKeys(g, init);
      assert forall src :: src in keys <==> src in init || src == last;
    }
  }
}
