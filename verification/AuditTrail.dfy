/**
 The audit row of one tracked entity: which columns it names as changed, and the old and new values it
 records. Columns and values are left abstract; the values are kept as maps, before their encoding as text.
 */
module AuditTrail {
  /** The change tracker's states of an entry. */
  datatype EntryState = Added | Modified | Unchanged | Deleted

  /** A property entry as the pass finds it; `modified` is the flag of the last change detection. */
  datatype Property<C, V> = Property(name: C, isKey: bool, isTemporary: bool, modified: bool, original: V, current: V)

  datatype Trail = Create | Edit | Delete | Undefined

  datatype Row<!C, V> = Row(trail: Trail, affected: set<C>, oldValues: map<C, V>, newValues: map<C, V>, key: map<C, V>)

  function TrailOf(state: EntryState): Trail {
    match state
    case Added => Create
    case Modified => Edit
    case _ => Undefined
  }

  /** The row after one more property: temporary ones are skipped, keys go to the primary key only, and the
      others are recorded as the entry's state asks. */
  function Recorded<C, V>(row: Row<C, V>, state: EntryState, p: Property<C, V>): Row<C, V> {
    if p.isTemporary then row
    else if p.isKey then row.(key := row.key[p.name := p.current])
    else
      match state
      case Added => row.(newValues := row.newValues[p.name := p.current])
      case Modified =>
        if p.modified
        then row.(affected := row.affected + {p.name},
                  oldValues := row.oldValues[p.name := p.original],
                  newValues := row.newValues[p.name := p.current])
        else row
      case _ => row
  }

  function RowOf<C, V>(state: EntryState, properties: seq<Property<C, V>>): Row<C, V> {
    if properties == [] then Row(TrailOf(state), {}, map[], map[], map[])
    else Recorded(RowOf(state, properties[..|properties| - 1]), state, properties[|properties| - 1])
  }

  /** `ToEntity`. */
  method ToEntity<C(==), V>(state: EntryState, properties: seq<Property<C, V>>) returns (row: Row<C, V>)
    ensures row == RowOf(state, properties)
  {
    var keyValues: map<C, V> := map[];
    var oldValues: map<C, V> := map[];
    var newValues: map<C, V> := map[];
    var changedColumns: set<C> := {};
    var trail := match state case Added => Create case Modified => Edit case _ => Undefined;
    for i := 0 to |properties|
      invariant Row(trail, changedColumns, oldValues, newValues, keyValues) == RowOf(state, properties[..i])
    {
      assert properties[..i + 1][..i] == properties[..i];
      var p := properties[i];
      if p.isTemporary {
        continue;
      }
      if p.isKey {
        keyValues := keyValues[p.name := p.current];
        continue;
      }
      match state
      case Added =>
        newValues := newValues[p.name := p.current];
      case Modified =>
        if p.modified {
          changedColumns := changedColumns + {p.name};
          oldValues := oldValues[p.name := p.original];
          newValues := newValues[p.name := p.current];
        }
      case _ =>
    }
    assert properties[..|properties|] == properties;
    row := Row(trail, changedColumns, oldValues, newValues, keyValues);
  }

  /** An entity type has one property of each name. */
  predicate UniqueNames<C(==), V>(properties: seq<Property<C, V>>) {
    forall i, j | 0 <= i < j < |properties| :: properties[i].name != properties[j].name
  }

  lemma {:induction false} TrailIsOfState<C, V>(state: EntryState, ps: seq<Property<C, V>>)
    ensures RowOf(state, ps).trail == if state == Added then Create else if state == Modified then Edit else Undefined
  {
    if ps != [] { TrailIsOfState(state, ps[..|ps| - 1]); }
  }

  /** The audit pass is exact. The row is of the kind that the entry's state calls for. Key columns go only to the
      primary key; old values and affected columns belong to modified entries, and there they have one and the same
      domain as the new values: exactly the modified columns that are neither keys nor temporary. */
  lemma {:induction false} RowIsExact<C, V>(state: EntryState, properties: seq<Property<C, V>>, i: nat)
    requires UniqueNames(properties) && i < |properties|
    ensures var (row, p) := (RowOf(state, properties), properties[i]);
            && row.trail == (if state == Added then Create else if state == Modified then Edit else Undefined)
            && (p.name in row.newValues <==>
                  !p.isTemporary && !p.isKey && (state == Added || (state == Modified && p.modified)))
            && (p.name in row.oldValues <==> !p.isTemporary && !p.isKey && state == Modified && p.modified)
            && (p.name in row.affected <==> !p.isTemporary && !p.isKey && state == Modified && p.modified)
            && (p.name in row.key <==> p.isKey && !p.isTemporary)
            && (p.name in row.newValues ==> row.newValues[p.name] == p.current)
            && (p.name in row.oldValues ==> row.oldValues[p.name] == p.original)
            && (p.name in row.key ==> row.key[p.name] == p.current)
  {
    var (init, last) := (properties[..|properties| - 1], properties[|properties| - 1]);
    TrailIsOfState(state, properties);
    if i < |init| {
      RowIsExact(state, init, i);
      assert properties[i] == init[i] && properties[i].name != last.name;
    } else {
      NamesAreThoseGiven(state, init, last.name);
    }
  }

  /** A row names no column that the entity does not have. */
  lemma {:induction false} NamesAreThoseGiven<C, V>(state: EntryState, properties: seq<Property<C, V>>, name: C)
    requires forall i | 0 <= i < |properties| :: properties[i].name != name
    ensures var row := RowOf(state, properties);
            name !in row.newValues && name !in row.oldValues && name !in row.affected && name !in row.key
  {
    if properties != [] { NamesAreThoseGiven(state, properties[..|properties| - 1], name); }
  }
}
