/** The home page's script module, updated in place, against its view in `PageScriptHooks`. */
module HomePage {
  import opened Prelude
  import opened PageScripts
  import opened PageScriptHooks

  class EventSource {
    ghost const id: nat
    var open: bool

    constructor (ghost id: nat)
      ensures this.id == id && open
    {
      this.id := id;
      open := true;
    }

    method Close()
      modifies this
      ensures !open
    {
      open := false;
    }
  }

  class HomeModule {
    var source: EventSource?
    ghost var made: seq<EventSource>

    ghost predicate Valid()
      reads this
    {
      && (forall i | 0 <= i < |made| :: made[i].id == i)
      && (source != null ==> source in made)
    }

    ghost function View(): Home
      requires Valid()
      reads this, made
    {
      Home(seq(|made|, i requires 0 <= i < |made| reads this, made => made[i].open),
           if source == null then None else Some(source.id))
    }

    constructor ()
      ensures Valid() && View() == HomeOf([])
    {
      source, made := null, [];
    }

    method OnLoad()
      requires Valid()
      modifies this, made
      ensures Valid() && View() == HomeAfter(old(View()), Hook.OnLoad)
    {
      if source != null {
        source.Close();
      }
      source := new EventSource(|made|);
      made := made + [source];
    }

    method OnDispose()
      requires Valid()
      modifies this, made
      ensures Valid() && View() == HomeAfter(old(View()), Hook.OnDispose)
    {
      if source != null {
        source.Close();
        source := null;
      }
    }
  }
}
