/** What every run of the page-script registry keeps: stale objects, loads, and reference counts. */
module PageScriptProofs {
  import opened PageScripts

  // ---------- Objects that have left the Map ----------

  ghost predicate Disposed(g: Registry, i: nat) {
    exists c :: c in g.calls && c.info == i && c.hook == OnDispose
  }

  ghost predicate InfoInv(g: Registry)
    requires Wf(g)
  {
    && (forall i | 0 <= i < |g.infos| ::
         && g.infos[i].src != ""
         && (!Current(g, i) ==> g.infos[i].referenceCount <= 0)
         && (g.infos[i].loaded ==> g.infos[i].fetch == Fulfilled)
         && (Current(g, i) ==> !Disposed(g, i))
         && (g.infos[i].loaded && !Current(g, i) ==> Disposed(g, i)))
    && (forall c | c in g.calls :: c.info < |g.infos| && c.src == g.infos[c.info].src)
  }

  /** Which objects a sweep's walk makes a call for: the ones current under a walked key. */
  lemma {:induction false} HookCallsAt(g: Registry, keys: seq<string>, kept: bool, hook: Hook, c: Call)
    requires Wf(g)
    ensures c in HookCalls(g, keys, kept, hook) <==>
              && c.hook == hook && c.src in keys && c.src in g.bySrc && c.info == g.bySrc[c.src]
              && (Count(g, c.src) > 0) == kept && g.infos[c.info].loaded
  {
    if keys != [] {
      var (init, last) := (keys[..|keys| - 1], keys[|keys| - 1]);
      HookCallsAt(g, init, kept, hook, c);
      assert c.src in keys <==> c.src in init || c.src == last;
    }
  }

  lemma SweepKeepsInfoInv(g: Registry)
    requires Wf(g) && InfoInv(g)
    ensures InfoInv(Sweep(g))
  {
    var r := Sweep(g);
    forall c ensures c in Disposals(g) <==>
                       && c.hook == OnDispose && c.src in g.bySrc && c.info == g.bySrc[c.src]
                       && Count(g, c.src) <= 0 && g.infos[c.info].loaded
             ensures c in Updates(g) ==> c.hook == OnUpdate && c.src in g.bySrc && c.info == g.bySrc[c.src]
    {
      HookCallsAt(g, g.order, false, OnDispose, c);
      HookCallsAt(g, g.order, true, OnUpdate, c);
    }
    forall i: nat | i < |g.infos|
      ensures Disposed(r, i) <==>
                Disposed(g, i) || (Current(g, i) && Count(g, g.infos[i].src) <= 0 && g.infos[i].loaded)
    {
      var c := Call(i, g.infos[i].src, OnDispose);
      if Current(g, i) && Count(g, g.infos[i].src) <= 0 && g.infos[i].loaded {
        assert c in Disposals(g) && c in r.calls;
      }
      if Disposed(g, i) {
        var d :| d in g.calls && d.info == i && d.hook == OnDispose;
        assert d in r.calls;
      }
    }
  }

  lemma RegisterKeepsInfoInv(g: Registry, src: string)
    requires Wf(g) && InfoInv(g)
    ensures InfoInv(Register(g, src))
  {
    var r := Register(g, src);
    forall i: nat | i < |r.infos| ensures Disposed(r, i) == (i < |g.infos| && Disposed(g, i)) {}
  }

  lemma UnregisterKeepsInfoInv(g: Registry, src: string)
    requires Wf(g) && InfoInv(g)
    ensures InfoInv(Unregister(g, src))
  {
    var r := Unregister(g, src);
    forall i: nat | i < |r.infos| ensures Disposed(r, i) == Disposed(g, i) {}
  }

  lemma LoadedKeepsInfoInv(g: Registry, i: nat)
    requires Wf(g) && InfoInv(g) && Settles(g, i)
    ensures InfoInv(Loaded(g, i))
  {
    var r := Loaded(g, i);
    assert g.calls <= r.calls && forall c | c in r.calls && c.hook == OnDispose :: c in g.calls;
    forall j: nat | j < |r.infos| ensures Disposed(r, j) == Disposed(g, j) {
      if Disposed(g, j) {
        var d :| d in g.calls && d.info == j && d.hook == OnDispose;
        assert d in r.calls;
      }
    }
  }

  lemma FailedKeepsInfoInv(g: Registry, i: nat)
    requires Wf(g) && InfoInv(g) && Settles(g, i)
    ensures InfoInv(Failed(g, i))
  {
    var r := Failed(g, i);
    forall j: nat | j < |r.infos| ensures Disposed(r, j) == Disposed(g, j) {}
  }

  lemma {:induction false} StepKeepsInfoInv(s: State, a: Action)
    requires Wf(s.registry) && InfoInv(s.registry)
    ensures InfoInv(Step(s, a).registry)
  {
    var g := s.registry;
    match a
    case SetSrc(el, src) =>
      UnregisterKeepsInfoInv(g, SrcOf(s, el));
      RegisterKeepsInfoInv(Unregister(g, SrcOf(s, el)), src);
    case Connect(el) =>
    case Disconnect(el) => UnregisterKeepsInfoInv(g, SrcOf(s, el));
    case ImportResolves(i) => if Settles(g, i) { LoadedKeepsInfoInv(g, i); }
    case ImportFails(i) => if Settles(g, i) { FailedKeepsInfoInv(g, i); }
    case EnhancedLoad => SweepKeepsInfoInv(g);
  }

  lemma {:induction false} RunKeepsInfoInv(run: seq<Action>)
    ensures InfoInv(Run(run).registry)
  {
    if run != [] {
      RunKeepsInfoInv(run[..|run| - 1]);
      StepKeepsInfoInv(Run(run[..|run| - 1]), run[|run| - 1]);
    }
  }

  lemma OtherInfosKept(g: Registry, src: string, i: nat)
    requires Wf(g) && i < |g.infos| && !Current(g, i)
    ensures var r := Unregister(g, src); i < |r.infos| && !Current(r, i) && r.infos[i] == g.infos[i]
    ensures var r := Register(g, src); i < |r.infos| && !Current(r, i) && r.infos[i] == g.infos[i]
  {
  }

  /** An object that was dropped from the Map stays out of it and keeps a count of at most zero, even
      after its key is registered again. */
  lemma {:induction false} StaleStaysStale(s: State, a: Action, i: nat)
    requires Wf(s.registry) && InfoInv(s.registry) && i < |s.registry.infos| && !Current(s.registry, i)
    ensures var r := Step(s, a).registry;
            && i < |r.infos| && !Current(r, i)
            && r.infos[i].referenceCount == s.registry.infos[i].referenceCount <= 0
            && r.infos[i].loaded == s.registry.infos[i].loaded
  {
    var g := s.registry;
    match a
    case SetSrc(el, src) =>
      OtherInfosKept(g, SrcOf(s, el), i);
      OtherInfosKept(Unregister(g, SrcOf(s, el)), src, i);
    case Connect(el) =>
    case Disconnect(el) => OtherInfosKept(g, SrcOf(s, el), i);
    case EnhancedLoad => assert Sweep(g).infos == g.infos;
    case ImportResolves(j) =>
    case ImportFails(j) =>
  }

  /** From the moment an object is dropped it is out of the Map for good, with the count and module it had, however
      the run goes on and whatever keys are registered again. */
  lemma {:induction false} DroppedForGood(run: seq<Action>, n: nat, i: nat)
    requires n <= |run| && i < |Run(run[..n]).registry.infos| && !Current(Run(run[..n]).registry, i)
    ensures var (g, r) := (Run(run[..n]).registry, Run(run).registry);
            && i < |r.infos| && !Current(r, i)
            && r.infos[i].referenceCount == g.infos[i].referenceCount <= 0
            && r.infos[i].loaded == g.infos[i].loaded
  {
    if n == |run| {
      assert run[..n] == run;
      RunKeepsInfoInv(run);
    } else {
      var before := run[..|run| - 1];
      assert before[..n] == run[..n];
      DroppedForGood(before, n, i);
      RunKeepsInfoInv(before);
      StaleStaysStale(Run(before), run[|run| - 1], i);
    }
  }

  /** So when the import of an object that was dropped at some time resolves later, that is recorded in the object
      and nothing else happens: no module is set and no hook is called. */
  lemma {:induction false} StaleImportIsHarmless(run: seq<Action>, n: nat, i: nat)
    requires n <= |run| && i < |Run(run[..n]).registry.infos| && !Current(Run(run[..n]).registry, i)
    requires Settles(Run(run).registry, i)
    ensures var (s, r) := (Run(run), Step(Run(run), ImportResolves(i)));
            && r == s.(registry := r.registry)
            && r.registry == s.registry.(infos := s.registry.infos[i := s.registry.infos[i].(fetch := Fulfilled)])
            && !r.registry.infos[i].loaded
  {
    DroppedForGood(run, n, i);
    RunKeepsInfoInv(run);
  }

  /** At most one object per key is ever loaded and not disposed: the one the Map holds. */
  lemma {:induction false} OneLoadedPerKey(run: seq<Action>, i: nat, j: nat)
    requires var g := Run(run).registry;
             && i < |g.infos| && j < |g.infos| && g.infos[i].src == g.infos[j].src
             && g.infos[i].loaded && !Disposed(g, i) && g.infos[j].loaded && !Disposed(g, j)
    ensures i == j && Current(Run(run).registry, i)
  {
    RunKeepsInfoInv(run);
  }

  // ---------- Exactly when an object gets its module ----------

  /** The n-th action of the run settles this object's import successfully. */
  predicate ResolvesAt(run: seq<Action>, n: nat, i: nat)
    requires n < |run|
  {
    run[n] == ImportResolves(i) && Settles(Run(run[..n]).registry, i)
  }

  ghost predicate KeepsSettled(g: Registry, r: Registry, i: nat)
    requires i < |g.infos|
  {
    && i < |r.infos|
    && r.infos[i].src == g.infos[i].src
    && r.infos[i].loaded == g.infos[i].loaded
    && r.infos[i].fetch == g.infos[i].fetch
  }

  lemma CountingKeepsSettled(g: Registry, src: string, i: nat)
    requires Wf(g) && i < |g.infos|
    ensures KeepsSettled(g, Register(g, src), i) && KeepsSettled(g, Unregister(g, src), i)
  {
  }

  /** Only the settling of its own pending import changes whether an object is loaded or fetched. */
  lemma StepKeepsSettled(s: State, a: Action, i: nat)
    requires Wf(s.registry) && i < |s.registry.infos|
    requires Settles(s.registry, i) ==> a != ImportResolves(i) && a != ImportFails(i)
    ensures KeepsSettled(s.registry, Step(s, a).registry, i)
  {
    var g := s.registry;
    match a
    case SetSrc(el, src) =>
      CountingKeepsSettled(g, SrcOf(s, el), i);
      CountingKeepsSettled(Unregister(g, SrcOf(s, el)), src, i);
    case Connect(el) =>
    case Disconnect(el) => CountingKeepsSettled(g, SrcOf(s, el), i);
    case EnhancedLoad => assert Sweep(g).infos == g.infos;
    case ImportResolves(j) =>
    case ImportFails(j) =>
  }

  lemma {:induction false} SettledStays(run: seq<Action>, n: nat, i: nat)
    requires n <= |run| && i < |Run(run[..n]).registry.infos| && Run(run[..n]).registry.infos[i].fetch != Pending
    ensures KeepsSettled(Run(run[..n]).registry, Run(run).registry, i)
  {
    if n == |run| {
      assert run[..n] == run;
    } else {
      var before := run[..|run| - 1];
      assert before[..n] == run[..n];
      SettledStays(before, n, i);
      StepKeepsSettled(Run(before), run[|run| - 1], i);
    }
  }

  lemma {:induction false} OneStep(run: seq<Action>, n: nat)
    requires n < |run|
    ensures Run(run[..n + 1]) == Step(Run(run[..n]), run[n])
  {
    assert run[..n + 1][..n] == run[..n];
  }

  lemma Resolution(s: State, i: nat)
    requires Wf(s.registry) && Settles(s.registry, i)
    ensures var r := Step(s, ImportResolves(i)).registry;
            i < |r.infos| && r.infos[i].fetch == Fulfilled
    ensures !s.registry.infos[i].loaded ==>
              (Step(s, ImportResolves(i)).registry.infos[i].loaded <==> s.registry.infos[i].referenceCount > 0)
  {
  }

  lemma NotAgain(run: seq<Action>, m: nat, n: nat, i: nat)
    requires m < n < |run| && ResolvesAt(run, m, i)
    ensures !ResolvesAt(run, n, i)
  {
    var before := run[..n];
    assert before[..m + 1] == run[..m + 1];
    OneStep(run, m);
    Resolution(Run(run[..m]), i);
    SettledStays(before, m + 1, i);
  }

  /** No object's import completes twice: each is started once, and `import` settles once. */
  lemma ResolvesOnce(run: seq<Action>, m: nat, n: nat, i: nat)
    requires m < |run| && n < |run| && ResolvesAt(run, m, i) && ResolvesAt(run, n, i)
    ensures m == n
  {
    if m < n { NotAgain(run, m, n, i); }
    if n < m { NotAgain(run, n, m, i); }
  }

  /** Once its import has resolved, an object has its module if and only if its count was positive at
      that very moment. */
  lemma LoadedIff(run: seq<Action>, n: nat, i: nat)
    requires n < |run| && ResolvesAt(run, n, i)
    ensures i < |Run(run).registry.infos| && Run(run).registry.infos[i].fetch == Fulfilled
    ensures Run(run).registry.infos[i].loaded <==> Run(run[..n]).registry.infos[i].referenceCount > 0
  {
    RunKeepsInfoInv(run[..n]);
    OneStep(run, n);
    Resolution(Run(run[..n]), i);
    SettledStays(run, n + 1, i);
  }

  /** Every resolved import did resolve at some action, so an object that is left unloaded has been at
      or below zero while its import completed. */
  lemma {:induction false} UnloadedWasAtZero(run: seq<Action>, i: nat) returns (n: nat)
    requires i < |Run(run).registry.infos| && Run(run).registry.infos[i].fetch == Fulfilled
    ensures n < |run| && ResolvesAt(run, n, i)
    ensures !Run(run).registry.infos[i].loaded ==> Run(run[..n]).registry.infos[i].referenceCount <= 0
  {
    n := |run| - 1;
    var (before, a) := (run[..n], run[n]);
    if !ResolvesAt(run, n, i) {
      if i >= |Run(before).registry.infos| { NewInfosArePending(Run(before), a, i); }
      if Settles(Run(before).registry, i) { assert a != ImportFails(i); }
      StepKeepsSettled(Run(before), a, i);
      n := UnloadedWasAtZero(before, i);
      assert before[..n] == run[..n];
    }
    LoadedIff(run, n, i);
  }

  lemma NewInfosArePending(s: State, a: Action, i: nat)
    requires Wf(s.registry) && |s.registry.infos| <= i < |Step(s, a).registry.infos|
    ensures Step(s, a).registry.infos[i].fetch == Pending
  {
    if a.SetSrc? {
      assert |Unregister(s.registry, SrcOf(s, a.element)).infos| == |s.registry.infos|;
    }
  }

  /** The n-th action settles this object's import with a failure. */
  predicate FailsAt(run: seq<Action>, n: nat, i: nat)
    requires n < |run|
  {
    run[n] == ImportFails(i) && Settles(Run(run[..n]).registry, i)
  }

  lemma Failure(s: State, i: nat)
    requires Wf(s.registry) && Settles(s.registry, i)
    ensures var r := Step(s, ImportFails(i)).registry;
            i < |r.infos| && r.infos[i].fetch == Rejected && r.infos[i].loaded == s.registry.infos[i].loaded
  {
  }

  /** An object whose import has failed never gets a module: its import does not settle again. */
  lemma {:induction false} FailedForGood(run: seq<Action>, n: nat, i: nat)
    requires n < |run| && FailsAt(run, n, i)
    ensures i < |Run(run).registry.infos| && Run(run).registry.infos[i].fetch == Rejected
    ensures !Run(run).registry.infos[i].loaded
  {
    RunKeepsInfoInv(run[..n]);
    OneStep(run, n);
    Failure(Run(run[..n]), i);
    SettledStays(run, n + 1, i);
  }

  // ---------- Elements and keys over whole runs ----------

  /** The `src` an element was last given. */
  function LastSrc(run: seq<Action>, el: nat): string {
    if run == [] then ""
    else
      var (before, last) := (run[..|run| - 1], run[|run| - 1]);
      if last.SetSrc? && last.element == el then last.src else LastSrc(before, el)
  }

  /** Whether it was last put into the page. */
  predicate LastConnected(run: seq<Action>, el: nat) {
    run != [] &&
    (var (before, last) := (run[..|run| - 1], run[|run| - 1]);
     if last.Connect? && last.element == el then true
     else if last.Disconnect? && last.element == el then false
     else LastConnected(before, el))
  }

  lemma ElementAfter(s: State, a: Action, el: nat)
    requires Wf(s.registry)
    ensures SrcOf(Step(s, a), el) == if a.SetSrc? && a.element == el then a.src else SrcOf(s, el)
    ensures IsConnected(Step(s, a), el) <==>
              (a.Connect? && a.element == el) || (IsConnected(s, el) && !(a.Disconnect? && a.element == el))
  {
  }

  /** An element has the `src` that it was last given, also after it has left the page or when registering threw; and
      it is in the page when it was last put there. */
  lemma {:induction false} ElementsAreAsSet(run: seq<Action>, el: nat)
    ensures SrcOf(Run(run), el) == LastSrc(run, el)
    ensures IsConnected(Run(run), el) <==> LastConnected(run, el)
  {
    if run != [] {
      ElementsAreAsSet(run[..|run| - 1], el);
      ElementAfter(Run(run[..|run| - 1]), run[|run| - 1], el);
    }
  }

  /** The Map's keys stand in the order in which their objects were made. */
  ghost predicate InMakingOrder(g: Registry, keys: seq<string>) {
    && (forall k | k in keys :: k in g.bySrc)
    && forall i, j | 0 <= i < j < |keys| :: g.bySrc[keys[i]] < g.bySrc[keys[j]]
  }

  lemma {:induction false} KeptInMakingOrder(g: Registry, keys: seq<string>)
    requires Wf(g) && InMakingOrder(g, keys)
    ensures InMakingOrder(g, Kept(g, keys)) && forall k | k in Kept(g, keys) :: k in keys && Count(g, k) > 0
  {
    if keys != [] {
      var (init, last) := (keys[..|keys| - 1], keys[|keys| - 1]);
      assert InMakingOrder(g, init);
      KeptInMakingOrder(g, init);
      forall k | k in Kept(g, init) ensures g.bySrc[k] < g.bySrc[last] {
        var i :| 0 <= i < |init| && init[i] == k;
        assert keys[i] == k;
      }
    }
  }

  lemma RegisterInMakingOrder(g: Registry, src: string)
    requires Wf(g) && InMakingOrder(g, g.order)
    ensures InMakingOrder(Register(g, src), Register(g, src).order)
  {
    forall i | 0 <= i < |g.order| ensures g.bySrc[g.order[i]] < |g.infos| {}
  }

  lemma SweepInMakingOrder(g: Registry)
    requires Wf(g) && InMakingOrder(g, g.order)
    ensures InMakingOrder(Sweep(g), Sweep(g).order)
  {
    KeptInMakingOrder(g, g.order);
  }

  lemma StepInMakingOrder(s: State, a: Action)
    requires Wf(s.registry) && InMakingOrder(s.registry, s.registry.order)
    ensures InMakingOrder(Step(s, a).registry, Step(s, a).registry.order)
  {
    match a
    case SetSrc(el, src) => RegisterInMakingOrder(Unregister(s.registry, SrcOf(s, el)), src);
    case EnhancedLoad => SweepInMakingOrder(s.registry);
    case _ =>
  }

  /** So a sweep walks the scripts in the order in which they were registered, whatever was dropped in between. */
  lemma {:induction false} KeysInMakingOrder(run: seq<Action>)
    ensures InMakingOrder(Run(run).registry, Run(run).registry.order)
  {
    if run != [] {
      KeysInMakingOrder(run[..|run| - 1]);
      StepInMakingOrder(Run(run[..|run| - 1]), run[|run| - 1]);
    }
  }

  ghost predicate CallsOf(g: Registry, calls: seq<Call>, keys: seq<string>, hook: Hook) {
    && (forall c | c in calls :: c.hook == hook && c.src in keys && c.src in g.bySrc && c.info == g.bySrc[c.src])
    && forall i, j | 0 <= i < j < |calls| :: calls[i].info < calls[j].info
  }

  lemma LastKeyIsNewest(g: Registry, init: seq<string>, last: string)
    requires InMakingOrder(g, init + [last])
    ensures InMakingOrder(g, init) && last in g.bySrc && forall k | k in init :: g.bySrc[k] < g.bySrc[last]
  {
    var keys := init + [last];
    assert keys[|init|] == last && last in keys && forall i | 0 <= i < |init| :: keys[i] == init[i];
    forall k | k in init ensures k in keys && g.bySrc[k] < g.bySrc[last] {
      var i :| 0 <= i < |init| && init[i] == k;
      assert keys[i] == k;
    }
  }

  /** The calls that a walk makes, in the order of the keys, each on the object that the Map holds under the key. */
  lemma {:induction false} WalkInMakingOrder(g: Registry, keys: seq<string>, kept: bool, hook: Hook)
    requires Wf(g) && InMakingOrder(g, keys)
    ensures CallsOf(g, HookCalls(g, keys, kept, hook), keys, hook)
  {
    if keys != [] {
      var (init, last) := (keys[..|keys| - 1], keys[|keys| - 1]);
      assert init + [last] == keys;
      LastKeyIsNewest(g, init, last);
      WalkInMakingOrder(g, init, kept, hook);
      OneMoreCall(g, HookCalls(g, init, kept, hook), init, last, hook);
    }
  }

  lemma OneMoreCall(g: Registry, calls: seq<Call>, init: seq<string>, last: string, hook: Hook)
    requires CallsOf(g, calls, init, hook) && last in g.bySrc
    requires forall k | k in init && k in g.bySrc :: g.bySrc[k] < g.bySrc[last]
    ensures CallsOf(g, calls + [Call(g.bySrc[last], last, hook)], init + [last], hook)
    ensures CallsOf(g, calls + [], init + [last], hook)
  {
    assert calls + [] == calls;
    forall i | 0 <= i < |calls| ensures calls[i].info < g.bySrc[last] { assert calls[i] in calls; }
  }

  predicate OneHookInOrder(calls: seq<Call>, hook: Hook) {
    && (forall i | 0 <= i < |calls| :: calls[i].hook == hook)
    && forall i, j | 0 <= i < j < |calls| :: calls[i].info < calls[j].info
  }

  lemma SweepCalls(g: Registry)
    requires Wf(g) && InMakingOrder(g, g.order)
    ensures Sweep(g).calls == g.calls + Disposals(g) + Updates(g)
    ensures OneHookInOrder(Disposals(g), OnDispose) && OneHookInOrder(Updates(g), OnUpdate)
  {
    WalkInMakingOrder(g, g.order, false, OnDispose);
    WalkInMakingOrder(g, g.order, true, OnUpdate);
  }

  /** A sweep disposes of scripts, and then updates the others, in the order in which they were registered. */
  lemma {:induction false} SweepsInMakingOrder(run: seq<Action>) returns (disposals: seq<Call>, updates: seq<Call>)
    ensures Step(Run(run), EnhancedLoad).registry.calls == Run(run).registry.calls + disposals + updates
    ensures OneHookInOrder(disposals, OnDispose) && OneHookInOrder(updates, OnUpdate)
  {
    KeysInMakingOrder(run);
    disposals, updates := Disposals(Run(run).registry), Updates(Run(run).registry);
    SweepCalls(Run(run).registry);
  }

  // ---------- Reference counts ----------

  /** The live elements of a key: those in the page with that `src`. */
  function Live(s: State, src: string): set<nat> {
    set el | el in s.elements && s.elements[el].connected && s.elements[el].src == src
  }

  /** Every key counts its live elements; in particular a key the Map lacks has none. */
  ghost predicate CountsLive(s: State)
    requires Wf(s.registry)
  {
    forall src | src != "" :: Count(s.registry, src) == |Live(s, src)|
  }

  /** The attribute callback of an element gives back its old key if the Map has it, and takes the new one if it is
      not empty. */
  predicate ChangesNothing(s: State, el: nat, src: string) {
    var former := SrcOf(s, el);
    (former in s.registry.bySrc <==> src != "") && (src != "" ==> src == former)
  }

  /** What makes a count wrong: putting an element with a `src` into the page, which no callback registers, and
      changing the `src` of an element out of the page, which is registered all the same. */
  predicate Miscounts(s: State, a: Action) {
    || (a.Connect? && !IsConnected(s, a.element) && SrcOf(s, a.element) != "")
    || (a.SetSrc? && !IsConnected(s, a.element) && !ChangesNothing(s, a.element, a.src))
  }

  predicate IsLive(s: State, el: nat, src: string) {
    el in s.elements && s.elements[el].connected && s.elements[el].src == src
  }

  lemma SizesDiffer(xs: set<nat>, ys: set<nat>, el: nat)
    requires xs - {el} == ys - {el}
    ensures |ys| == |xs| + (if el in ys then 1 else 0) - (if el in xs then 1 else 0)
  {
    assert xs == xs - {el} + if el in xs then {el} else {};
    assert ys == ys - {el} + if el in ys then {el} else {};
  }

  lemma LiveAfter(s: State, r: State, el: nat, src: string)
    requires forall e :: e != el ==> IsLive(r, e, src) == IsLive(s, e, src)
    ensures |Live(r, src)| ==
            |Live(s, src)| + (if IsLive(r, el, src) then 1 else 0) - (if IsLive(s, el, src) then 1 else 0)
  {
    forall e ensures (e in Live(s, src) <==> IsLive(s, e, src)) && (e in Live(r, src) <==> IsLive(r, e, src)) {}
    SizesDiffer(Live(s, src), Live(r, src), el);
  }

  lemma RegisterCounts(g: Registry, src: string, k: string)
    requires Wf(g) && src != ""
    ensures Count(Register(g, k), src) == Count(g, src) + if src == k then 1 else 0
  {
  }

  lemma UnregisterCounts(g: Registry, src: string, k: string)
    requires Wf(g)
    ensures Count(Unregister(g, k), src) == Count(g, src) - if src == k && src in g.bySrc then 1 else 0
  {
  }

  lemma SettlingAndSweepingCount(g: Registry, src: string)
    requires Wf(g)
    ensures Count(Sweep(g), src) == if Count(g, src) > 0 then Count(g, src) else 0
    ensures forall i | Settles(g, i) :: Count(Loaded(g, i), src) == Count(Failed(g, i), src) == Count(g, src)
  {
  }

  /** How far an action moves a key's count ahead of its live elements. */
  function Ahead(s: State, a: Action, src: string): int {
    if (a.SetSrc? || a.Connect?) && !IsConnected(s, a.element) then
      var former := SrcOf(s, a.element);
      if a.Connect? then if src == former then -1 else 0
      else (if src == a.src then 1 else 0) - (if src == former && src in s.registry.bySrc then 1 else 0)
    else 0
  }

  /** The key of a live element is in the Map. */
  lemma LiveIsHeld(s: State, el: nat)
    requires Wf(s.registry) && CountsLive(s) && IsConnected(s, el) && SrcOf(s, el) != ""
    ensures SrcOf(s, el) in s.registry.bySrc
  {
    assert el in Live(s, SrcOf(s, el));
  }

  lemma ElementCounts(s: State, a: Action, src: string)
    requires Wf(s.registry) && CountsLive(s) && src != ""
    requires a.SetSrc? || a.Connect? || a.Disconnect?
    ensures Count(Step(s, a).registry, src) - |Live(Step(s, a), src)| == Ahead(s, a, src)
  {
    var (el, r) := (a.element, Step(s, a));
    UnregisterCounts(s.registry, src, SrcOf(s, el));
    if a.SetSrc? { RegisterCounts(Unregister(s.registry, SrcOf(s, el)), src, a.src); }
    LiveAfter(s, r, el, src);
    if IsConnected(s, el) && SrcOf(s, el) != "" { LiveIsHeld(s, el); }
  }

  lemma AheadIff(s: State, a: Action)
    requires Wf(s.registry) && (a.SetSrc? || a.Connect? || a.Disconnect?)
    ensures (forall src | src != "" :: Ahead(s, a, src) == 0) <==> !Miscounts(s, a)
  {
    if Miscounts(s, a) {
      var former := SrcOf(s, a.element);
      assert Ahead(s, a, former) != 0 || (a.SetSrc? && Ahead(s, a, a.src) != 0);
    }
  }

  /** Exactly when an action keeps the counts right. */
  lemma {:induction false} CountsKeptIff(s: State, a: Action)
    requires Wf(s.registry) && CountsLive(s)
    ensures CountsLive(Step(s, a)) <==> !Miscounts(s, a)
  {
    if a.SetSrc? || a.Connect? || a.Disconnect? {
      ElementKeepsCountsIff(s, a);
    } else {
      OthersKeepCounts(s, a);
    }
  }

  lemma OtherCounts(s: State, a: Action, src: string, n: nat)
    requires Wf(s.registry) && Count(s.registry, src) == n && !(a.SetSrc? || a.Connect? || a.Disconnect?)
    ensures Count(Step(s, a).registry, src) == n
  {
    SettlingAndSweepingCount(s.registry, src);
  }

  lemma {:induction false} OthersKeepCounts(s: State, a: Action)
    requires Wf(s.registry) && CountsLive(s) && !(a.SetSrc? || a.Connect? || a.Disconnect?)
    ensures CountsLive(Step(s, a))
  {
    var r := Step(s, a);
    assert r.elements == s.elements;
    forall src | src != "" ensures Count(r.registry, src) == |Live(r, src)| {
      assert Live(r, src) == Live(s, src);
      OtherCounts(s, a, src, |Live(s, src)|);
    }
  }

  lemma {:induction false} ElementKeepsCountsIff(s: State, a: Action)
    requires Wf(s.registry) && CountsLive(s) && (a.SetSrc? || a.Connect? || a.Disconnect?)
    ensures CountsLive(Step(s, a)) <==> !Miscounts(s, a)
  {
    var r := Step(s, a);
    forall src | src != "" ensures Count(r.registry, src) - |Live(r, src)| == Ahead(s, a, src) {
      ElementCounts(s, a, src);
    }
    AheadIff(s, a);
    CountsAreAhead(s, a);
  }

  lemma CountsAreAhead(s: State, a: Action)
    requires Wf(s.registry)
    requires forall src | src != "" ::
               Count(Step(s, a).registry, src) - |Live(Step(s, a), src)| == Ahead(s, a, src)
    ensures CountsLive(Step(s, a)) <==> forall src | src != "" :: Ahead(s, a, src) == 0
  {
    var r := Step(s, a);
    if CountsLive(r) {
      forall src | src != "" ensures Ahead(s, a, src) == 0 { assert Count(r.registry, src) == |Live(r, src)|; }
    }
  }

  /** No action of the run miscounts. */
  predicate WellUsed(run: seq<Action>) {
    run == [] || (var before := run[..|run| - 1]; WellUsed(before) && !Miscounts(Run(before), run[|before|]))
  }

  /** The counts are right in every state along the run. */
  ghost predicate AlwaysCountsLive(run: seq<Action>) {
    CountsLive(Run(run)) && (run == [] || AlwaysCountsLive(run[..|run| - 1]))
  }

  /** In every state of a run every key counts its live elements if and only if in the run no element is put into the
      page with a `src`, and none out of the page has its `src` changed. */
  lemma {:induction false} CountsRightIff(run: seq<Action>)
    ensures AlwaysCountsLive(run) <==> WellUsed(run)
  {
    if run == [] {
      EmptyPageCounts();
    } else {
      var before := run[..|run| - 1];
      CountsRightIff(before);
      CountsRightNext(run, before);
    }
  }

  /** One more action: the counts have been right before, and it does not miscount. */
  lemma {:induction false} CountsRightNext(run: seq<Action>, before: seq<Action>)
    requires run != [] && before == run[..|run| - 1]
    ensures AlwaysCountsLive(run) <==> AlwaysCountsLive(before) && !Miscounts(Run(before), run[|before|])
  {
    if AlwaysCountsLive(before) {
      LastCountsLive(before);
      CountsKeptBy(before, run[|before|], run);
    }
  }

  lemma {:induction false} LastCountsLive(run: seq<Action>)
    requires AlwaysCountsLive(run)
    ensures CountsLive(Run(run))
  {
  }

  lemma {:induction false} CountsKeptBy(before: seq<Action>, a: Action, run: seq<Action>)
    requires run != [] && before == run[..|run| - 1] && a == run[|run| - 1] && CountsLive(Run(before))
    ensures CountsLive(Run(run)) <==> !Miscounts(Run(before), a)
  {
    CountsKeptIff(Run(before), a);
  }

  lemma EmptyPageCounts()
    ensures CountsLive(State(EMPTY, map[]))
  {
    var s := State(EMPTY, map[]);
    forall src ensures Live(s, src) == {} {}
  }

  /** The script is not called when an element comes into the page, so it is one whether it has its `src` before. */
  lemma ConnectAndSetSrcCommute(s: State, el: nat, src: string)
    requires Wf(s.registry)
    ensures Step(Step(s, Connect(el)), SetSrc(el, src)) == Step(Step(s, SetSrc(el, src)), Connect(el))
  {
    assert s.elements[el := Element(SrcOf(s, el), true)][el := Element(src, true)] ==
           s.elements[el := Element(src, IsConnected(s, el))][el := Element(src, true)];
  }

  // ---------- What does not hold ----------

  lemma RunSnoc(run: seq<Action>, a: Action)
    ensures Run(run + [a]) == Step(Run(run), a)
  {
    assert (run + [a])[..|run|] == run;
  }

  /** A registry that has one object, in the Map. */
  function OneInfo(src: string, count: int, loaded: bool, fetch: Fetch, calls: seq<Call>): Registry {
    Registry([Info(src, count, loaded, fetch)], [src], map[src := 0], calls)
  }

  function OneElement(src: string, connected: bool): map<nat, Element> {
    map[0 := Element(src, connected)]
  }

  lemma RegisterFirst(src: string)
    requires src != ""
    ensures Step(Step(State(EMPTY, map[]), Connect(0)), SetSrc(0, src)) ==
            State(OneInfo(src, 1, false, Pending, []), OneElement(src, true))
  {
  }

  lemma DisconnectOne(src: string, count: int, loaded: bool, fetch: Fetch, calls: seq<Call>)
    requires src != ""
    ensures Step(State(OneInfo(src, count, loaded, fetch, calls), OneElement(src, true)), Disconnect(0)) ==
            State(OneInfo(src, count - 1, loaded, fetch, calls), OneElement(src, false))
  {
  }

  lemma ResolveOne(src: string, count: int, elements: map<nat, Element>)
    requires src != ""
    ensures Step(State(OneInfo(src, count, false, Pending, []), elements), ImportResolves(0)) ==
            if count > 0
            then State(OneInfo(src, count, true, Fulfilled, [Call(0, src, OnLoad), Call(0, src, OnUpdate)]), elements)
            else State(OneInfo(src, count, false, Fulfilled, []), elements)
  {
  }

  /** An element that is put into the page and then given its `src`. */
  lemma FirstRegistration(src: string)
    requires src != ""
    ensures Run([Connect(0)] + [SetSrc(0, src)]) == State(OneInfo(src, 1, false, Pending, []), OneElement(src, true))
  {
    RunSnoc([], Connect(0));
    assert [] + [Connect(0)] == [Connect(0)];
    RunSnoc([Connect(0)], SetSrc(0, src));
    RegisterFirst(src);
  }

  lemma GivenBack(src: string)
    requires src != ""
    ensures Run([Connect(0)] + [SetSrc(0, src)] + [Disconnect(0)]) ==
            State(OneInfo(src, 0, false, Pending, []), OneElement(src, false))
  {
    FirstRegistration(src);
    RunSnoc([Connect(0)] + [SetSrc(0, src)], Disconnect(0));
    DisconnectOne(src, 1, false, Pending, []);
  }

  lemma ResolvedAtZero(src: string)
    requires src != ""
    ensures Run([Connect(0)] + [SetSrc(0, src)] + [Disconnect(0)] + [ImportResolves(0)]) ==
            State(OneInfo(src, 0, false, Fulfilled, []), OneElement(src, false))
  {
    GivenBack(src);
    RunSnoc([Connect(0)] + [SetSrc(0, src)] + [Disconnect(0)], ImportResolves(0));
    ResolveOne(src, 0, OneElement(src, false));
  }

  lemma AnotherElement(s: State, src: string)
    requires src != "" && s == State(OneInfo(src, 0, false, Fulfilled, []), OneElement(src, false))
    ensures Step(Step(s, Connect(1)), SetSrc(1, src)) ==
            State(OneInfo(src, 1, false, Fulfilled, []), map[0 := Element(src, false), 1 := Element(src, true)])
  {
  }

  /** Registered, given back, import resolved, registered again by another element: the key has a live element and
      its import is over, yet the module is never loaded. */
  lemma LiveEntryMayStayUnloaded(src: string)
    requires src != ""
    ensures Run([Connect(0)] + [SetSrc(0, src)] + [Disconnect(0)] + [ImportResolves(0)]
                + [Connect(1)] + [SetSrc(1, src)]) ==
            State(OneInfo(src, 1, false, Fulfilled, []), map[0 := Element(src, false), 1 := Element(src, true)])
  {
    var run := [Connect(0)] + [SetSrc(0, src)] + [Disconnect(0)] + [ImportResolves(0)];
    ResolvedAtZero(src);
    RunSnoc(run, Connect(1));
    RunSnoc(run + [Connect(1)], SetSrc(1, src));
    AnotherElement(Run(run), src);
  }

  /** The state of a loaded script whose element has been moved: disconnected, and connected again. */
  function Moved(src: string): State {
    State(OneInfo(src, 0, true, Fulfilled, [Call(0, src, OnLoad), Call(0, src, OnUpdate)]), OneElement(src, true))
  }

  lemma LoadedOnce(src: string)
    requires src != ""
    ensures Run([Connect(0)] + [SetSrc(0, src)] + [ImportResolves(0)]) ==
            State(OneInfo(src, 1, true, Fulfilled, [Call(0, src, OnLoad), Call(0, src, OnUpdate)]),
                OneElement(src, true))
  {
    FirstRegistration(src);
    RunSnoc([Connect(0)] + [SetSrc(0, src)], ImportResolves(0));
    ResolveOne(src, 1, OneElement(src, true));
  }

  lemma MoveOne(src: string, calls: seq<Call>)
    requires src != ""
    ensures var s := State(OneInfo(src, 1, true, Fulfilled, calls), OneElement(src, true));
            Step(Step(s, Disconnect(0)), Connect(0)) ==
            State(OneInfo(src, 0, true, Fulfilled, calls), OneElement(src, true))
  {
    DisconnectOne(src, 1, true, Fulfilled, calls);
  }

  lemma MoveLoaded(src: string)
    requires src != ""
    ensures Run([Connect(0)] + [SetSrc(0, src)] + [ImportResolves(0)] + [Disconnect(0)] + [Connect(0)]) == Moved(src)
  {
    var run := [Connect(0)] + [SetSrc(0, src)] + [ImportResolves(0)];
    LoadedOnce(src);
    RunSnoc(run, Disconnect(0));
    RunSnoc(run + [Disconnect(0)], Connect(0));
    MoveOne(src, [Call(0, src, OnLoad), Call(0, src, OnUpdate)]);
  }

  lemma MovedIsSwept(src: string)
    requires src != ""
    ensures var s := Moved(src);
            && Wf(s.registry) && !CountsLive(s)
            && Sweep(s.registry).bySrc == map[] && Call(0, src, OnDispose) in Sweep(s.registry).calls
  {
    var s := Moved(src);
    assert 0 in Live(s, src) && Count(s.registry, src) == 0;
    HookCallsAt(s.registry, s.registry.order, false, OnDispose, Call(0, src, OnDispose));
  }

  /** An element that is moved is disconnected and connected again: it is in the page, yet nothing counts it, and the
      next sweep disposes of its module. */
  lemma MovedElementLosesItsModule(src: string)
    requires src != ""
    ensures var s := Run([Connect(0)] + [SetSrc(0, src)] + [ImportResolves(0)] + [Disconnect(0)] + [Connect(0)]);
            && s == Moved(src) && !CountsLive(s)
            && Sweep(s.registry).bySrc == map[] && Call(0, src, OnDispose) in Sweep(s.registry).calls
  {
    MoveLoaded(src);
    MovedIsSwept(src);
  }

  lemma SweptAndChanged(a: string, b: string)
    requires a != "" && b != "" && a != b
    ensures var s := Step(State(OneInfo(a, 0, false, Pending, []), OneElement(a, false)), EnhancedLoad);
            && s.registry.bySrc == map[] && s.elements == OneElement(a, false)
    ensures var s := Step(State(OneInfo(a, 0, false, Pending, []), OneElement(a, false)), EnhancedLoad);
            && Count(Step(s, SetSrc(0, b)).registry, b) == 1 && Step(s, SetSrc(0, b)).elements == OneElement(b, false)
  {
    var g := OneInfo(a, 0, false, Pending, []);
    assert Sweep(g).bySrc == map[];
  }

  /** An element out of the page that is given another `src` counts for it. */
  lemma DetachedElementCounts(a: string, b: string)
    requires a != "" && b != "" && a != b
    ensures var s := Run([Connect(0)] + [SetSrc(0, a)] + [Disconnect(0)] + [EnhancedLoad] + [SetSrc(0, b)]);
            Count(s.registry, b) == 1 && Live(s, b) == {} && !CountsLive(s)
  {
    var run := [Connect(0)] + [SetSrc(0, a)] + [Disconnect(0)];
    GivenBack(a);
    RunSnoc(run, EnhancedLoad);
    RunSnoc(run + [EnhancedLoad], SetSrc(0, b));
    SweptAndChanged(a, b);
    NoneLive(Run(run + [EnhancedLoad] + [SetSrc(0, b)]), b);
  }

  lemma NoneLive(s: State, b: string)
    requires Wf(s.registry) && b != "" && s.elements == OneElement(b, false) && Count(s.registry, b) == 1
    ensures Live(s, b) == {} && !CountsLive(s)
  {
    assert Live(s, b) == {};
    assert |Live(s, b)| == 0;
  }
}
