/**
 The script itself: objects updated in place, and a Map walked while entries are deleted from it.
 Every method is proved against the transition system of `PageScripts`.
 */
module PageScriptRegistry {
  import opened Prelude
  import opened PageScripts

  /** A `{ referenceCount, module }` object. `src`, `id` and `fetch` record which key it was made for, its
      place among the objects made, and what has become of its import. */
  class PageScriptInfo {
    ghost const id: nat
    const src: string
    var referenceCount: int
    var hasModule: bool
    ghost var fetch: Fetch

    constructor (ghost id: nat, src: string)
      ensures this.id == id && this.src == src
      ensures referenceCount == 1 && !hasModule && fetch == Pending
    {
      this.id, this.src := id, src;
      referenceCount, hasModule, fetch := 1, false, Pending;
    }

    ghost function View(): Info
      reads this
    {
      Info(src, referenceCount, hasModule, fetch)
    }
  }

  datatype Entry = Entry(key: string, info: PageScriptInfo)

  /** The keys of a Map's entry list, in order; a deleted entry leaves an empty place behind. */
  ghost function Keys(slots: seq<Option<Entry>>): seq<string> {
    if slots == [] then []
    else
      var (init, last) := (slots[..|slots| - 1], slots[|slots| - 1]);
      if last.Some? then Keys(init) + [last.value.key] else Keys(init)
  }

  ghost function Contents(slots: seq<Option<Entry>>): map<string, nat> {
    if slots == [] then map[]
    else
      var (init, last) := (slots[..|slots| - 1], slots[|slots| - 1]);
      if last.Some? then Contents(init)[last.value.key := last.value.info.id] else Contents(init)
  }

  ghost predicate DistinctKeys(slots: seq<Option<Entry>>) {
    forall i, j | 0 <= i < j < |slots| && slots[i].Some? && slots[j].Some? :: slots[i].value.key != slots[j].value.key
  }

  ghost predicate HasKey(slots: seq<Option<Entry>>, key: string) {
    exists i :: 0 <= i < |slots| && slots[i].Some? && slots[i].value.key == key
  }

  lemma {:induction false} KeysAreThoseHeld(slots: seq<Option<Entry>>)
    requires DistinctKeys(slots)
    ensures NoDuplicates(Keys(slots))
    ensures forall key :: key in Keys(slots) <==> HasKey(slots, key)
    ensures forall key :: key in Contents(slots) <==> HasKey(slots, key)
  {
    if slots != [] {
      var (init, last) := (slots[..|slots| - 1], slots[|slots| - 1]);
      KeysAreThoseHeld(init);
      forall key ensures HasKey(slots, key) <==> HasKey(init, key) || (last.Some? && last.value.key == key) {
        if HasKey(init, key) {
          var i :| 0 <= i < |init| && init[i].Some? && init[i].value.key == key;
          assert slots[i].Some? && slots[i].value.key == key;
        }
      }
      if last.Some? { assert !HasKey(init, last.value.key); }
    }
  }

  lemma {:induction false} ContentsAt(slots: seq<Option<Entry>>, i: nat)
    requires DistinctKeys(slots) && i < |slots| && slots[i].Some?
    ensures slots[i].value.key in Contents(slots) && Contents(slots)[slots[i].value.key] == slots[i].value.info.id
  {
    if i < |slots| - 1 { ContentsAt(slots[..|slots| - 1], i); }
  }

  ghost function Views(infos: seq<PageScriptInfo>): (vs: seq<Info>)
    reads infos
    ensures |vs| == |infos| && forall i | 0 <= i < |vs| :: vs[i] == infos[i].View()
  {
    seq(|infos|, i requires 0 <= i < |infos| reads infos => infos[i].View())
  }

  lemma ViewsAdded(infos: seq<PageScriptInfo>, info: PageScriptInfo)
    ensures Views(infos + [info]) == Views(infos) + [info.View()]
  {
  }

  /** One more entry, of a key that the list lacks. */
  lemma SlotAdded(slots: seq<Option<Entry>>, e: Entry)
    requires DistinctKeys(slots) && !HasKey(slots, e.key)
    ensures DistinctKeys(slots + [Some(e)])
    ensures Keys(slots + [Some(e)]) == Keys(slots) + [e.key]
    ensures Contents(slots + [Some(e)]) == Contents(slots)[e.key := e.info.id]
  {
    var all := slots + [Some(e)];
    assert all[..|all| - 1] == slots;
    forall i | 0 <= i < |slots| && all[i].Some? ensures all[i].value.key != e.key {
      assert slots[i].Some? && !(slots[i].value.key == e.key);
    }
  }

  /** What a sweep makes of one place of the entry list. */
  ghost function AfterSweep(g: Registry, slot: Option<Entry>): Option<Entry> {
    if slot.Some? && slot.value.info.id < |g.infos| && g.infos[slot.value.info.id].referenceCount <= 0
    then None else slot
  }

  /** The first loop has passed the first `n` places. */
  ghost predicate SweptTo(g: Registry, was: seq<Option<Entry>>, slots: seq<Option<Entry>>, n: nat) {
    && n <= |was| == |slots|
    && (forall j | 0 <= j < n :: slots[j] == AfterSweep(g, was[j]))
    && (forall j | n <= j < |was| :: slots[j] == was[j])
  }

  /** What a walk does at one place of the entry list. */
  ghost function CallsAt(g: Registry, slot: Option<Entry>, kept: bool, hook: Hook): seq<Call>
    requires slot.Some? ==> slot.value.info.id < |g.infos|
  {
    if slot.None? then []
    else
      var info := g.infos[slot.value.info.id];
      if (info.referenceCount > 0) == kept && info.loaded then [Call(slot.value.info.id, slot.value.key, hook)] else []
  }

  /** The entry list and the registry it stands for, as a walk finds them. */
  ghost predicate Walked(g: Registry, slots: seq<Option<Entry>>) {
    && Wf(g) && DistinctKeys(slots) && g.bySrc == Contents(slots)
    && forall i | 0 <= i < |slots| && slots[i].Some? :: slots[i].value.info.id < |g.infos|
  }

  lemma WalkOneMore(g: Registry, was: seq<Option<Entry>>, i: nat, kept: bool, hook: Hook, before: seq<Call>)
    requires i < |was| && Walked(g, was)
    ensures before + HookCalls(g, Keys(was[..i + 1]), kept, hook) ==
              before + HookCalls(g, Keys(was[..i]), kept, hook) + CallsAt(g, was[i], kept, hook)
  {
    assert was[..i + 1][..i] == was[..i];
    if was[i].Some? {
      ContentsAt(was, i);
      var keys := Keys(was[..i]);
      assert (keys + [was[i].value.key])[..|keys|] == keys;
    }
  }

  lemma KeepOneMore(g: Registry, keys: seq<string>, key: string)
    requires Wf(g)
    ensures PageScripts.Kept(g, keys + [key]) ==
              if Count(g, key) > 0 then PageScripts.Kept(g, keys) + [key] else PageScripts.Kept(g, keys)
  {
    assert (keys + [key])[..|keys + [key]| - 1] == keys;
    assert PageScripts.Kept(g, keys) + [] == PageScripts.Kept(g, keys);
  }

  predicate KeptSlot(g: Registry, slot: Option<Entry>)
    requires Wf(g)
  {
    slot.Some? && Count(g, slot.value.key) > 0
  }

  /** Emptying the places of the keys that count at most zero leaves what a sweep keeps. */
  lemma {:induction false} SweptKeys(g: Registry, was: seq<Option<Entry>>, now: seq<Option<Entry>>)
    requires Wf(g) && |now| == |was|
    requires forall i | 0 <= i < |was| :: now[i] == if KeptSlot(g, was[i]) then was[i] else None
    ensures Keys(now) == PageScripts.Kept(g, Keys(was))
  {
    if was != [] {
      var (init, last) := (was[..|was| - 1], was[|was| - 1]);
      SweptKeys(g, init, now[..|now| - 1]);
      if last.Some? { KeepOneMore(g, Keys(init), last.value.key); }
    }
  }

  /** The entries of the keys that count more than zero. */
  ghost function Counted(g: Registry, contents: map<string, nat>): map<string, nat>
    requires Wf(g)
  {
    map key | key in contents && Count(g, key) > 0 :: contents[key]
  }

  lemma CountedOneMore(g: Registry, contents: map<string, nat>, key: string, id: nat)
    requires Wf(g) && key !in contents
    ensures Counted(g, contents[key := id]) ==
              if Count(g, key) > 0 then Counted(g, contents)[key := id] else Counted(g, contents)
  {
  }

  lemma {:induction false} SweptContents(g: Registry, was: seq<Option<Entry>>, now: seq<Option<Entry>>)
    requires Wf(g) && DistinctKeys(was) && |now| == |was|
    requires forall i | 0 <= i < |was| :: now[i] == if KeptSlot(g, was[i]) then was[i] else None
    ensures Contents(now) == Counted(g, Contents(was))
  {
    if was != [] {
      var (init, last) := (was[..|was| - 1], was[|was| - 1]);
      SweptContents(g, init, now[..|now| - 1]);
      if last.Some? {
        KeysAreThoseHeld(init);
        assert !HasKey(init, last.value.key);
        CountedOneMore(g, Contents(init), last.value.key, last.value.info.id);
      }
    }
  }

  class PageScriptMap {
    /** The Map's entry list. */
    var slots: seq<Option<Entry>>
    ghost var infos: seq<PageScriptInfo>
    ghost var calls: seq<Call>

    ghost predicate Valid()
      reads this
    {
      && (forall i | 0 <= i < |infos| :: infos[i].id == i && infos[i].src != "")
      && (forall i | 0 <= i < |slots| && slots[i].Some? ::
            && slots[i].value.info in infos
            && slots[i].value.key == slots[i].value.info.src)
      && DistinctKeys(slots)
    }

    ghost function View(): (g: Registry)
      requires Valid()
      reads this, infos
      ensures Wf(g)
    {
      KeysAreThoseHeld(slots);
      forall key | HasKey(slots, key) ensures Contents(slots)[key] < |infos| && infos[Contents(slots)[key]].src == key {
        var i :| 0 <= i < |slots| && slots[i].Some? && slots[i].value.key == key;
        ContentsAt(slots, i);
      }
      Registry(Views(infos), Keys(slots), Contents(slots), calls)
    }

    constructor ()
      ensures Valid() && View() == EMPTY && infos == []
    {
      slots, infos, calls := [], [], [];
    }

    /** `Map.prototype.get`. */
    method Get(key: string) returns (info: PageScriptInfo?)
      requires Valid()
      ensures info == null <==> key !in View().bySrc
      ensures info != null ==> info in infos && info.src == key && info.id == View().bySrc[key]
    {
      for i := 0 to |slots|
        invariant forall j | 0 <= j < i && slots[j].Some? :: slots[j].value.key != key
      {
        if slots[i].Some? && slots[i].value.key == key {
          ContentsAt(slots, i);
          return slots[i].value.info;
        }
      }
      KeysAreThoseHeld(slots);
      return null;
    }

    /** `Map.prototype.delete`: the entry's place becomes empty, the places of the others stay. */
    method Delete(key: string, ghost at: nat)
      requires Valid() && at < |slots| && slots[at].Some? && slots[at].value.key == key
      modifies this`slots
      ensures slots == old(slots)[at := None]
    {
      for i := 0 to |slots|
        invariant slots == old(slots) && i <= at
      {
        if slots[i].Some? && slots[i].value.key == key {
          slots := slots[i := None];
          return;
        }
      }
    }

    /** Makes the object of a key the Map lacks, and sets it under that key. */
    method Add(src: string)
      requires Valid() && src != "" && !HasKey(slots, src)
      modifies this
      ensures Valid() && calls == old(calls)
      ensures Keys(slots) == old(Keys(slots)) + [src]
      ensures Contents(slots) == old(Contents(slots))[src := |old(infos)|]
      ensures Views(infos) == old(Views(infos)) + [Info(src, 1, false, Pending)]
      ensures |infos| == |old(infos)| + 1 && infos[..|old(infos)|] == old(infos) && fresh(infos[|old(infos)|])
    {
      ghost var views := Views(infos);
      var info := new PageScriptInfo(|infos|, src);
      assert Views(infos) == views;
      ViewsAdded(infos, info);
      SlotAdded(slots, Entry(src, info));
      slots := slots + [Some(Entry(src, info))];
      infos := infos + [info];
    }

    /** `pageScriptInfo.referenceCount += delta` on the object the Map holds under its key. */
    method Count(info: PageScriptInfo, delta: int)
      requires Valid() && info in infos && info.src in View().bySrc && View().bySrc[info.src] == info.id
      modifies info`referenceCount
      ensures Valid() && View() == AddToCount(old(View()), info.src, delta)
    {
      info.referenceCount := info.referenceCount + delta;
      assert Views(infos) == old(Views(infos))[info.id := info.View()];
    }

    method Register(src: string) returns (threw: bool)
      requires Valid()
      modifies this, infos
      ensures threw <==> src == ""
      ensures Valid() && View() == PageScripts.Register(old(View()), src)
    {
      if src == "" {
        return true;
      }
      threw := false;
      var info := Get(src);
      if info != null {
        Count(info, 1);
      } else {
        KeysAreThoseHeld(slots);
        Add(src);
      }
    }

    method Unregister(src: string)
      requires Valid()
      modifies infos
      ensures Valid() && View() == PageScripts.Unregister(old(View()), src)
    {
      if src == "" {
        return;
      }
      var info := Get(src);
      if info == null {
        return;
      }
      Count(info, -1);
    }

    /** What runs after the `await` of an object's own import: with its module, or not at all. */
    method ImportSettles(info: PageScriptInfo, ok: bool)
      requires Valid() && info in infos && info.fetch == Pending
      modifies this`calls, info
      ensures Valid()
      ensures View() == if ok then Loaded(old(View()), info.id) else Failed(old(View()), info.id)
    {
      info.fetch := if ok then Fulfilled else Rejected;
      if ok {
        if info.referenceCount <= 0 {
          return;
        }
        info.hasModule := true;
        calls := calls + [Call(info.id, info.src, OnLoad)];
        calls := calls + [Call(info.id, info.src, OnUpdate)];
        assert calls == old(calls) + [Call(info.id, info.src, OnLoad), Call(info.id, info.src, OnUpdate)];
      }
    }

    /** The body of the first loop of `onEnhancedLoad`, at one place; an empty one is passed over. */
    method DisposeIfUnused(ghost g: Registry, i: nat)
      requires Valid() && i < |slots| && g.infos == Views(infos)
      modifies this`slots, this`calls
      ensures Valid() && slots == old(slots)[i := AfterSweep(g, old(slots)[i])]
      ensures calls == old(calls) + CallsAt(g, old(slots)[i], false, OnDispose)
    {
      if slots[i].None? {
        return;
      }
      var (key, info) := (slots[i].value.key, slots[i].value.info);
      if info.referenceCount <= 0 {
        if info.hasModule {
          calls := calls + [Call(info.id, key, OnDispose)];
        }
        Delete(key, i);
      }
    }

    /** The first loop of `onEnhancedLoad`: it deletes from the Map it walks. */
    method DisposeDropped(ghost g: Registry)
      requires Valid() && Walked(g, slots) && g.infos == Views(infos)
      modifies this`slots, this`calls
      ensures Valid() && SweptTo(g, old(slots), slots, |slots|)
      ensures calls == old(calls) + HookCalls(g, Keys(old(slots)), false, OnDispose)
    {
      ghost var (was, before) := (slots, calls);
      for i := 0 to |slots|
        invariant Valid() && SweptTo(g, was, slots, i)
        invariant calls == before + HookCalls(g, Keys(was[..i]), false, OnDispose)
      {
        WalkOneMore(g, was, i, false, OnDispose, before);
        assert slots[i] == was[i];
        DisposeIfUnused(g, i);
      }
      assert was[..|was|] == was;
    }

    /** The second loop of `onEnhancedLoad`: it walks the entries that are left. */
    method UpdateKept(ghost g: Registry, ghost was: seq<Option<Entry>>)
      requires Valid() && Walked(g, was) && g.infos == Views(infos) && SweptTo(g, was, slots, |slots|)
      modifies this`calls
      ensures Valid() && calls == old(calls) + HookCalls(g, Keys(was), true, OnUpdate)
    {
      ghost var before := calls;
      for i := 0 to |slots|
        invariant Valid()
        invariant calls == before + HookCalls(g, Keys(was[..i]), true, OnUpdate)
      {
        WalkOneMore(g, was, i, true, OnUpdate, before);
        ghost var so := calls;
        if slots[i].Some? {
          var info := slots[i].value.info;
          if info.hasModule {
            calls := calls + [Call(info.id, info.src, OnUpdate)];
          }
        }
        assert calls == so + CallsAt(g, was[i], true, OnUpdate);
      }
      assert was[..|was|] == was;
    }

    /** `onEnhancedLoad`. */
    method EnhancedLoad()
      requires Valid()
      modifies this`slots, this`calls
      ensures Valid() && View() == Sweep(old(View()))
    {
      ghost var (g, was) := (View(), slots);
      assert Walked(g, was);
      DisposeDropped(g);
      UpdateKept(g, was);
      forall i | 0 <= i < |was| ensures slots[i] == if KeptSlot(g, was[i]) then was[i] else None {
        if was[i].Some? { ContentsAt(was, i); }
      }
      SweptKeys(g, was, slots);
      SweptContents(g, was, slots);
    }
  }

  /** A `page-script` element. */
  class PageScriptElement {
    var src: string

    constructor ()
      ensures src == ""
    {
      src := "";
    }

    /** `attributeChangedCallback`; the browser hands over the value the attribute had, which the previous
        callback left in `src`. */
    method SrcChanged(scripts: PageScriptMap, oldValue: string, newValue: string) returns (threw: bool)
      requires scripts.Valid() && oldValue == src
      modifies this, scripts, scripts.infos
      ensures scripts.Valid() && src == newValue && (threw <==> newValue == "")
      ensures scripts.View() == Register(Unregister(old(scripts.View()), old(src)), newValue)
    {
      src := newValue;
      scripts.Unregister(oldValue);
      threw := scripts.Register(newValue);
    }

    /** `disconnectedCallback`. */
    method Disconnected(scripts: PageScriptMap)
      requires scripts.Valid()
      modifies scripts.infos
      ensures scripts.Valid() && scripts.View() == Unregister(old(scripts.View()), src)
    {
      scripts.Unregister(src);
    }
  }
}
