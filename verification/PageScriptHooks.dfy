/** The order in which the registry calls a module's hooks, and what that gives the home page. */
module PageScriptHooks {
  import opened Prelude
  import opened PageScripts
  import opened PageScriptProofs

  datatype Phase = Idle | Entered | Active | Broken

  /** A deterministic automaton for the prefixes of `(onLoad onUpdate onUpdate* onDispose)*`. */
  function After(p: Phase, h: Hook): Phase {
    match (p, h)
    case (Idle, OnLoad) => Entered
    case (Entered, OnUpdate) => Active
    case (Active, OnUpdate) => Active
    case (Active, OnDispose) => Idle
    case _ => Broken
  }

  function PhaseOf(hooks: seq<Hook>): Phase {
    if hooks == [] then Idle else After(PhaseOf(hooks[..|hooks| - 1]), hooks[|hooks| - 1])
  }

  /** The same language by its grammar, read from the front: what may follow in each phase. */
  predicate Follows(p: Phase, hooks: seq<Hook>)
    decreases hooks
  {
    || hooks == []
    || (p == Idle && hooks[0] == OnLoad && Follows(Entered, hooks[1..]))
    || (p == Entered && hooks[0] == OnUpdate && Follows(Active, hooks[1..]))
    || (p == Active && hooks[0] == OnUpdate && Follows(Active, hooks[1..]))
    || (p == Active && hooks[0] == OnDispose && Follows(Idle, hooks[1..]))
  }

  lemma {:induction false} PhaseOfConcat(front: seq<Hook>, back: seq<Hook>)
    requires PhaseOf(front) != Broken
    ensures Follows(PhaseOf(front), back) <==> PhaseOf(front + back) != Broken
    decreases back
  {
    if back == [] {
      assert front + back == front;
    } else {
      OneMoreHook(front, back[0]);
      assert front + back == (front + [back[0]]) + back[1..];
      if PhaseOf(front + [back[0]]) == Broken { BrokenStays(front + [back[0]], back[1..]); }
      else { PhaseOfConcat(front + [back[0]], back[1..]); }
    }
  }

  lemma {:induction false} BrokenStays(front: seq<Hook>, back: seq<Hook>)
    requires PhaseOf(front) == Broken
    ensures PhaseOf(front + back) == Broken
  {
    if back == [] {
      assert front + back == front;
    } else {
      BrokenStays(front, back[..|back| - 1]);
      OneMoreHook(front + back[..|back| - 1], back[|back| - 1]);
      assert front + back == front + back[..|back| - 1] + [back[|back| - 1]];
    }
  }

  lemma OneMoreHook(hooks: seq<Hook>, h: Hook)
    ensures PhaseOf(hooks + [h]) == After(PhaseOf(hooks), h)
  {
    assert (hooks + [h])[..|hooks + [h]| - 1] == hooks;
  }

  /** The hooks called for one key, in order. */
  function HooksOf(calls: seq<Call>, src: string): seq<Hook> {
    if calls == [] then []
    else
      var (init, last) := (calls[..|calls| - 1], calls[|calls| - 1]);
      HooksOf(init, src) + if last.src == src then [last.hook] else []
  }

  lemma {:induction false} HooksOfConcat(a: seq<Call>, b: seq<Call>, src: string)
    ensures HooksOf(a + b, src) == HooksOf(a, src) + HooksOf(b, src)
  {
    if b == [] {
      assert a + b == a;
    } else {
      HooksOfConcat(a, b[..|b| - 1], src);
      assert (a + b)[..|a + b| - 1] == a + b[..|b| - 1];
    }
  }

  lemma HooksOfSnoc(calls: seq<Call>, c: Call, src: string)
    ensures HooksOf(calls + [c], src) == HooksOf(calls, src) + if c.src == src then [c.hook] else []
  {
    assert (calls + [c])[..|calls + [c]| - 1] == calls;
  }

  predicate CalledInWalk(g: Registry, kept: bool, src: string)
    requires Wf(g)
  {
    src in g.bySrc && (Count(g, src) > 0) == kept && g.infos[g.bySrc[src]].loaded
  }

  /** A walk calls its hook once for each key it concerns and for no other. */
  lemma {:induction false} HooksOfWalk(g: Registry, keys: seq<string>, kept: bool, hook: Hook, src: string)
    requires Wf(g) && NoDuplicates(keys)
    ensures HooksOf(HookCalls(g, keys, kept, hook), src) ==
              if src in keys && CalledInWalk(g, kept, src) then [hook] else []
  {
    if keys != [] {
      var (init, last) := (keys[..|keys| - 1], keys[|keys| - 1]);
      HooksOfWalk(g, init, kept, hook, src);
      assert src in keys <==> src in init || src == last;
      if CalledInWalk(g, kept, last) {
        HooksOfSnoc(HookCalls(g, init, kept, hook), Call(g.bySrc[last], last, hook), src);
      } else {
        assert HookCalls(g, keys, kept, hook) == HookCalls(g, init, kept, hook);
      }
    }
  }

  /** The calls a sweep adds for one key. */
  lemma HooksOfSweep(g: Registry, src: string)
    requires Wf(g)
    ensures HooksOf(Disposals(g) + Updates(g), src) ==
              if CalledInWalk(g, false, src) then [OnDispose]
              else if CalledInWalk(g, true, src) then [OnUpdate]
              else []
  {
    HooksOfWalk(g, g.order, false, OnDispose, src);
    HooksOfWalk(g, g.order, true, OnUpdate, src);
    HooksOfConcat(Disposals(g), Updates(g), src);
  }

  // ---------- The hook discipline of one key ----------

  function PhaseOfKey(g: Registry, src: string): Phase {
    PhaseOf(HooksOf(g.calls, src))
  }

  predicate LoadedKey(g: Registry, src: string)
    requires Wf(g)
  {
    src in g.bySrc && g.infos[g.bySrc[src]].loaded
  }

  /** A key stands inside a life exactly while the object the Map holds for it is loaded. */
  predicate PhaseInv(g: Registry, src: string)
    requires Wf(g)
  {
    PhaseOfKey(g, src) == if LoadedKey(g, src) then Active else Idle
  }

  lemma HooksAfterSweep(g: Registry, src: string)
    requires Wf(g)
    ensures PhaseOfKey(Sweep(g), src) ==
              if !LoadedKey(g, src) then PhaseOfKey(g, src)
              else After(PhaseOfKey(g, src), if Count(g, src) <= 0 then OnDispose else OnUpdate)
  {
    var (hooks, added) := (HooksOf(g.calls, src), Disposals(g) + Updates(g));
    HooksOfConcat(g.calls, added, src);
    assert Sweep(g).calls == g.calls + added;
    HooksOfSweep(g, src);
    if LoadedKey(g, src) {
      OneMoreHook(hooks, if Count(g, src) <= 0 then OnDispose else OnUpdate);
    } else {
      assert hooks + [] == hooks;
    }
  }

  lemma SweepKeepsPhase(g: Registry, src: string)
    requires Wf(g) && PhaseInv(g, src)
    ensures PhaseInv(Sweep(g), src)
  {
    HooksAfterSweep(g, src);
  }

  lemma HooksAfterLoad(calls: seq<Call>, i: nat, key: string, src: string)
    ensures PhaseOf(HooksOf(calls + [Call(i, key, OnLoad), Call(i, key, OnUpdate)], src)) ==
              if key == src then After(After(PhaseOf(HooksOf(calls, src)), OnLoad), OnUpdate)
              else PhaseOf(HooksOf(calls, src))
  {
    var (hooks, c1, c2) := (HooksOf(calls, src), Call(i, key, OnLoad), Call(i, key, OnUpdate));
    HooksOfSnoc(calls, c1, src);
    HooksOfSnoc(calls + [c1], c2, src);
    assert calls + [c1, c2] == calls + [c1] + [c2];
    if key == src {
      OneMoreHook(hooks, OnLoad);
      OneMoreHook(hooks + [OnLoad], OnUpdate);
    } else {
      assert hooks + [] + [] == hooks;
    }
  }

  lemma LoadedKeyAfter(g: Registry, i: nat, src: string)
    requires Wf(g) && InfoInv(g) && Settles(g, i) && g.infos[i].referenceCount > 0
    ensures LoadedKey(Loaded(g, i), src) <==> LoadedKey(g, src) || src == g.infos[i].src
    ensures !LoadedKey(g, g.infos[i].src)
  {
    assert Current(g, i);
  }

  lemma UnloadedKeyAfter(g: Registry, i: nat, src: string)
    requires Wf(g) && i < |g.infos| && g.infos[i].referenceCount <= 0
    ensures LoadedKey(Loaded(g, i), src) <==> LoadedKey(g, src)
  {
  }

  lemma PhaseKept(g: Registry, r: Registry, src: string)
    requires Wf(g) && Wf(r) && r.calls == g.calls && LoadedKey(r, src) == LoadedKey(g, src)
    requires PhaseInv(g, src)
    ensures PhaseInv(r, src)
  {
  }

  lemma PhaseAfterLoad(g: Registry, r: Registry, i: nat, key: string, src: string)
    requires Wf(g) && Wf(r) && r.calls == g.calls + [Call(i, key, OnLoad), Call(i, key, OnUpdate)]
    requires PhaseInv(g, src) && !LoadedKey(g, key) && (LoadedKey(r, src) <==> LoadedKey(g, src) || src == key)
    ensures PhaseInv(r, src)
  {
    HooksAfterLoad(g.calls, i, key, src);
  }

  lemma LoadedKeepsPhase(g: Registry, i: nat, src: string)
    requires Wf(g) && InfoInv(g) && Settles(g, i) && PhaseInv(g, src)
    ensures PhaseInv(Loaded(g, i), src)
  {
    if g.infos[i].referenceCount > 0 {
      LoadedKeyAfter(g, i, src);
      PhaseAfterLoad(g, Loaded(g, i), i, g.infos[i].src, src);
    } else {
      UnloadedKeyAfter(g, i, src);
      PhaseKept(g, Loaded(g, i), src);
    }
  }

  lemma CountingKeepsPhase(g: Registry, k: string, src: string)
    requires Wf(g) && PhaseInv(g, src)
    ensures PhaseInv(Register(g, k), src) && PhaseInv(Unregister(g, k), src)
  {
  }

  lemma FailedKeepsPhase(g: Registry, i: nat, src: string)
    requires Wf(g) && Settles(g, i) && PhaseInv(g, src)
    ensures PhaseInv(Failed(g, i), src)
  {
  }

  lemma {:induction false} StepKeepsPhase(s: State, a: Action, src: string)
    requires Wf(s.registry) && InfoInv(s.registry) && PhaseInv(s.registry, src)
    ensures PhaseInv(Step(s, a).registry, src)
  {
    var g := s.registry;
    match a
    case SetSrc(el, k) =>
      CountingKeepsPhase(g, SrcOf(s, el), src);
      CountingKeepsPhase(Unregister(g, SrcOf(s, el)), k, src);
    case Connect(el) =>
    case Disconnect(el) => CountingKeepsPhase(g, SrcOf(s, el), src);
    case ImportResolves(i) => if Settles(g, i) { LoadedKeepsPhase(g, i, src); }
    case ImportFails(i) => if Settles(g, i) { FailedKeepsPhase(g, i, src); }
    case EnhancedLoad => SweepKeepsPhase(g, src);
  }

  lemma {:induction false} RunKeepsPhase(run: seq<Action>, src: string)
    ensures PhaseInv(Run(run).registry, src)
  {
    if run != [] {
      var before := run[..|run| - 1];
      RunKeepsPhase(before, src);
      RunKeepsInfoInv(before);
      StepKeepsPhase(Run(before), run[|run| - 1], src);
    }
  }

  /** On every run, whatever the import timing, the hooks called for a key follow the grammar
      `(onLoad onUpdate onUpdate* onDispose)*`, up to where the run stops. */
  lemma HookDiscipline(run: seq<Action>, src: string)
    ensures Follows(Idle, HooksOf(Run(run).registry.calls, src))
  {
    var hooks := HooksOf(Run(run).registry.calls, src);
    RunKeepsPhase(run, src);
    PhaseOfConcat([], hooks);
    assert [] + hooks == hooks;
  }

  // ---------- The sweep ----------

  lemma {:induction false} KeptInOrder(g: Registry, keys: seq<string>, a: string, b: string)
    requires Wf(g) && Before(Kept(g, keys), a, b)
    ensures Before(keys, a, b)
  {
    var (init, last) := (keys[..|keys| - 1], keys[|keys| - 1]);
    var i, j :| 0 <= i < j < |Kept(g, keys)| && Kept(g, keys)[i] == a && Kept(g, keys)[j] == b;
    if j < |Kept(g, init)| {
      assert Kept(g, init)[i] == a && Kept(g, init)[j] == b;
      KeptInOrder(g, init, a, b);
      var m, n :| 0 <= m < n < |init| && init[m] == a && init[n] == b;
      assert keys[m] == a && keys[n] == b;
    } else {
      KeptAreKeys(g, init);
      assert Kept(g, init)[i] == a && a in init;
      var m :| 0 <= m < |init| && init[m] == a;
      assert keys[m] == a && keys[|keys| - 1] == b;
    }
  }

  lemma {:induction false} KeptAreKeys(g: Registry, keys: seq<string>)
    requires Wf(g)
    ensures forall src | src in Kept(g, keys) :: src in keys
  {
    if keys != [] { KeptAreKeys(g, keys[..|keys| - 1]); }
  }

  /** After `onEnhancedLoad` the Map holds exactly the earlier keys with a positive count, each with its
      object, in the same order; every loaded object it dropped got one more `onDispose`, every loaded
      one it kept one more `onUpdate`, all disposals before all updates, and nothing else was called. */
  lemma SweepExact(g: Registry)
    requires Wf(g)
    ensures forall src :: src in Sweep(g).bySrc <==> src in g.bySrc && Count(g, src) > 0
    ensures forall src | src in Sweep(g).bySrc :: Sweep(g).bySrc[src] == g.bySrc[src]
    ensures Sweep(g).infos == g.infos
    ensures forall a, b | Before(Sweep(g).order, a, b) :: Before(g.order, a, b)
    ensures exists disposals, updates ::
              && Sweep(g).calls == g.calls + disposals + updates
              && (forall c | c in disposals :: c.hook == OnDispose)
              && (forall c | c in updates :: c.hook == OnUpdate)
              && (forall src :: HooksOf(disposals + updates, src) ==
                                  if !LoadedKey(g, src) then []
                                  else if Count(g, src) <= 0 then [OnDispose] else [OnUpdate])
  {
    forall a, b | Before(Sweep(g).order, a, b) ensures Before(g.order, a, b) {
      KeptInOrder(g, g.order, a, b);
    }
    forall src ensures HooksOf(Disposals(g) + Updates(g), src) ==
                         if !LoadedKey(g, src) then []
                         else if Count(g, src) <= 0 then [OnDispose] else [OnUpdate]
    {
      HooksOfSweep(g, src);
    }
    forall c ensures (c in Disposals(g) ==> c.hook == OnDispose) && (c in Updates(g) ==> c.hook == OnUpdate) {
      HookCallsAt(g, g.order, false, OnDispose, c);
      HookCallsAt(g, g.order, true, OnUpdate, c);
    }
    assert Sweep(g).calls == g.calls + Disposals(g) + Updates(g);
  }

  // ---------- The home page's event source ----------

  /** The home page's module: `open` says of each EventSource ever made whether it is open, `source` is
      the one the module variable holds. */
  datatype Home = Home(open: seq<bool>, source: Option<nat>)

  function Close(h: Home): Home {
    match h.source
    case Some(i) => if i < |h.open| then h.(open := h.open[i := false]) else h
    case None => h
  }

  /** The module exports `onLoad` and `onDispose`, and no `onUpdate`. */
  function HomeAfter(h: Home, hook: Hook): Home {
    match hook
    case OnLoad => Home(Close(h).open + [true], Some(|h.open|))
    case OnUpdate => h
    case OnDispose => Home(Close(h).open, None)
  }

  function HomeOf(hooks: seq<Hook>): Home {
    if hooks == [] then Home([], None) else HomeAfter(HomeOf(hooks[..|hooks| - 1]), hooks[|hooks| - 1])
  }

  /** Whatever the calls, the only source that can be open is the one the variable holds. */
  lemma {:induction false} OnlyTheHeldSourceIsOpen(hooks: seq<Hook>)
    ensures var h := HomeOf(hooks);
            && (h.source.Some? ==> h.source.value < |h.open|)
            && forall i | 0 <= i < |h.open| :: h.open[i] <==> h.source == Some(i)
  {
    if hooks != [] { OnlyTheHeldSourceIsOpen(hooks[..|hooks| - 1]); }
  }

  /** Each load makes one more source, which is the one that the variable then holds and the only one open; after a
      disposal none is. */
  lemma {:induction false} LoadHoldsTheNewest(hooks: seq<Hook>)
    ensures var (h, loaded) := (HomeOf(hooks), HomeOf(hooks + [OnLoad]));
            && |loaded.open| == |h.open| + 1 && loaded.source == Some(|h.open|)
            && forall i | 0 <= i < |loaded.open| :: loaded.open[i] <==> i == |h.open|
    ensures var (h, disposed) := (HomeOf(hooks), HomeOf(hooks + [OnDispose]));
            && |disposed.open| == |h.open| && disposed.source.None?
            && forall i | 0 <= i < |disposed.open| :: !disposed.open[i]
    ensures HomeOf(hooks + [OnUpdate]) == HomeOf(hooks)
  {
    OnlyTheHeldSourceIsOpen(hooks);
    assert (hooks + [OnLoad])[..|hooks|] == hooks;
    assert (hooks + [OnDispose])[..|hooks|] == hooks;
    assert (hooks + [OnUpdate])[..|hooks|] == hooks;
  }

  lemma {:induction false} HeldInsideALife(hooks: seq<Hook>)
    requires PhaseOf(hooks) != Broken
    ensures HomeOf(hooks).source.Some? <==> PhaseOf(hooks) != Idle
  {
    if hooks != [] { HeldInsideALife(hooks[..|hooks| - 1]); }
  }

  /** Through the registry and the page module together: at most one EventSource is open in any reachable
      state, and one is open exactly when the page's key has a loaded object in the Map. */
  lemma {:induction false} OwnedEventSource(run: seq<Action>, src: string)
    ensures var (g, home) := (Run(run).registry, HomeOf(HooksOf(Run(run).registry.calls, src)));
            && (forall i, j | 0 <= i < |home.open| && 0 <= j < |home.open| && home.open[i] && home.open[j] :: i == j)
            && ((exists i :: 0 <= i < |home.open| && home.open[i]) <==> LoadedKey(g, src))
  {
    var hooks := HooksOf(Run(run).registry.calls, src);
    RunKeepsPhase(run, src);
    OnlyTheHeldSourceIsOpen(hooks);
    HeldInsideALife(hooks);
    var home := HomeOf(hooks);
    if home.source.Some? { assert home.open[home.source.value]; }
  }
}
