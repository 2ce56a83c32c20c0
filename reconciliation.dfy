/** The add-on's own effects on an actor, and how `setEffect` replaces them. */
module Reconciliation {
  import opened Documents
  import opened Seqs

  /** `actor.itemTypes.effect.filter(e => e.flags[moduleID])`. */
  function FlaggedEffects(items: seq<Item>): seq<Item>
  {
    Filter(IsDarknessEffect, items)
  }

  /** `darknessEffects.map(e => e.id)`. */
  function FlaggedEffectIds(items: seq<Item>): seq<string>
  {
    Map(ItemId, FlaggedEffects(items))
  }

  function NotListed(ids: seq<string>): Item -> bool
  {
    (e: Item) => e.id !in ids
  }

  /** What `deleteEmbeddedDocuments('Item', ids)` leaves: every item whose id is not listed. */
  function WithoutIds(items: seq<Item>, ids: seq<string>): seq<Item>
  {
    Filter(NotListed(ids), items)
  }

  /** The actor's items once every flagged effect has been deleted. */
  function Stripped(items: seq<Item>): seq<Item>
  {
    WithoutIds(items, FlaggedEffectIds(items))
  }

  /** `darknessEffects.some(e => e.name === targetEffect?.name)`. Item names are strings, so an
      undefined target matches nothing. */
  predicate AlreadyApplied(items: seq<Item>, target: Option<Item>)
  {
    target.Some? && exists e :: e in FlaggedEffects(items) && e.name == target.value.name
  }

  /** `createData`: the target's data with the module flag replaced by `{ [effect]: true }`. */
  function Instantiate(target: Item, effect: Option<EffectKey>): Item
  {
    target.(flag := Some(KeyName(effect)))
  }

  /** The items `createEmbeddedDocuments` adds: the instantiated target under the id the
      database assigns, or nothing when there is no target. */
  function Created(target: Option<Item>, effect: Option<EffectKey>, newId: string): seq<Item>
  {
    match target
    case Some(t) => [Instantiate(t, effect).(id := newId)]
    case None => []
  }

  /** The reconciliation step of `setEffect` on the actor's items. */
  function Reconciled(items: seq<Item>, target: Option<Item>, effect: Option<EffectKey>,
                      newId: string): seq<Item>
  {
    if AlreadyApplied(items, target) then items
    else Stripped(items) + Created(target, effect, newId)
  }

  ghost predicate AtMostOneDarknessEffect(items: seq<Item>)
  {
    |FlaggedEffects(items)| <= 1
  }

  // ---------------------------------------------------------------------------
  // The actor

  /** The actor whose embedded item list the add-on edits. */
  class Actor {
    var items: seq<Item>

    ghost predicate Valid()
      reads this
    {
      IdsIdentify(items)
    }

    constructor (items0: seq<Item>)
      requires IdsIdentify(items0)
      ensures Valid() && items == items0
    {
      items := items0;
    }

    /** `deleteEmbeddedDocuments('Item', ids)`. */
    method DeleteEmbeddedItems(ids: seq<string>)
      requires Valid()
      modifies this
      ensures Valid()
      ensures items == WithoutIds(old(items), ids)
    {
      FilterSatisfies(NotListed(ids), items);
      items := WithoutIds(items, ids);
    }

    /** `createEmbeddedDocuments('Item', [data])`: the database stores the data under a
        fresh id. */
    method CreateEmbeddedItem(data: Item, newId: string)
      requires Valid()
      requires newId !in IdSet(items)
      modifies this
      ensures Valid()
      ensures items == old(items) + [data.(id := newId)]
    {
      items := items + [data.(id := newId)];
    }
  }

  // ---------------------------------------------------------------------------
  // Properties

  /** Deleting by the flagged effects' ids removes exactly the flagged effects: every other
      item stays, in its place in the order. */
  lemma {:induction false} StrippedKeepsExactlyTheOthers(items: seq<Item>)
    requires IdsIdentify(items)
    ensures Stripped(items) == Filter(IsKept, items)
  {
    var ids := FlaggedEffectIds(items);
    var effects := FlaggedEffects(items);
    forall x | x in items ensures NotListed(ids)(x) == IsKept(x) {
      FilterMembership(IsDarknessEffect, items, x);
      if IsDarknessEffect(x) {
        var k :| 0 <= k < |effects| && effects[k] == x;
        assert ids[k] == x.id;
      } else {
        forall k | 0 <= k < |ids| ensures ids[k] != x.id {
          FilterMembership(IsDarknessEffect, items, effects[k]);
        }
      }
    }
    FilterCongruent(NotListed(ids), IsKept, items);
  }

  /** No flagged effect survives the deletion. */
  lemma StrippedHasNoDarknessEffect(items: seq<Item>)
    requires IdsIdentify(items)
    ensures FlaggedEffects(Stripped(items)) == []
  {
    StrippedKeepsExactlyTheOthers(items);
    FilterSatisfies(IsKept, items);
    FilterDropsAll(IsDarknessEffect, Filter(IsKept, items));
  }

  /** When a flagged effect already carries the target's name, nothing changes. */
  lemma AppliedLeavesItemsAlone(items: seq<Item>, target: Option<Item>, effect: Option<EffectKey>,
                                newId: string)
    requires AlreadyApplied(items, target)
    ensures Reconciled(items, target, effect, newId) == items
  {
  }

  /** Otherwise every flagged effect is deleted, the other items stay in order, at most one
      item is appended (the target, flagged with the outcome's key, under the new id), and
      afterwards at most one flagged effect exists. */
  lemma ReplacementState(items: seq<Item>, target: Option<Item>, effect: Option<EffectKey>,
                         newId: string)
    requires IdsIdentify(items)
    requires !AlreadyApplied(items, target)
    ensures Reconciled(items, target, effect, newId)
         == Filter(IsKept, items) + Created(target, effect, newId)
    ensures |Created(target, effect, newId)| <= 1
    ensures forall e :: e in Created(target, effect, newId)
              ==> e.flag == Some(KeyName(effect)) && e.id == newId
    ensures AtMostOneDarknessEffect(Reconciled(items, target, effect, newId))
  {
    StrippedKeepsExactlyTheOthers(items);
    var kept := Filter(IsKept, items);
    var created := Created(target, effect, newId);
    FilterSatisfies(IsKept, items);
    FilterDropsAll(IsDarknessEffect, kept);
    FilterAppend(IsDarknessEffect, kept, created);
  }

  /** Reconciliation keeps "at most one flagged effect" once it holds. */
  lemma ReconcilePreservesAtMostOne(items: seq<Item>, target: Option<Item>,
                                    effect: Option<EffectKey>, newId: string)
    requires IdsIdentify(items)
    requires AtMostOneDarknessEffect(items)
    ensures AtMostOneDarknessEffect(Reconciled(items, target, effect, newId))
  {
    if !AlreadyApplied(items, target) {
      ReplacementState(items, target, effect, newId);
    }
  }

  /** Reconciliation keeps ids unique when the new id is fresh. */
  lemma ReconcileKeepsIdsUnique(items: seq<Item>, target: Option<Item>,
                                effect: Option<EffectKey>, newId: string)
    requires IdsIdentify(items)
    requires newId !in IdSet(items)
    ensures IdsIdentify(Reconciled(items, target, effect, newId))
  {
    if !AlreadyApplied(items, target) {
      ReplacementState(items, target, effect, newId);
      FilterSatisfies(IsKept, items);
    }
  }

  /** Deleting the flagged effects a second time deletes nothing more. */
  lemma StripIdempotent(items: seq<Item>)
    requires IdsIdentify(items)
    ensures IdsIdentify(Stripped(items))
    ensures Stripped(Stripped(items)) == Stripped(items)
  {
    StrippedKeepsExactlyTheOthers(items);
    FilterSatisfies(IsKept, items);
    StrippedKeepsExactlyTheOthers(Filter(IsKept, items));
    FilterIdempotent(IsKept, items);
  }

  /** Reconciling twice with the same target changes nothing the second time, provided the
      target is an effect (as the bundled compendium documents are): the effect created by
      the first pass is then found by name. */
  lemma ReconcileIdempotent(items: seq<Item>, target: Option<Item>, effect: Option<EffectKey>,
                            newId: string, laterId: string)
    requires IdsIdentify(items)
    requires newId !in IdSet(items)
    requires target.Some? ==> target.value.kind == Effect
    ensures var once := Reconciled(items, target, effect, newId);
            Reconciled(once, target, effect, laterId) == once
  {
    var once := Reconciled(items, target, effect, newId);
    if !AlreadyApplied(items, target) {
      ReplacementState(items, target, effect, newId);
      var kept := Filter(IsKept, items);
      match target
      case Some(t) =>
        var made := Instantiate(t, effect).(id := newId);
        assert once == kept + [made];
        FilterMembership(IsDarknessEffect, once, made);
        assert AlreadyApplied(once, target);
      case None =>
        assert once == kept;
        FilterSatisfies(IsKept, items);
        FilterDropsAll(IsDarknessEffect, kept);
        assert !AlreadyApplied(once, target);
        StripIdempotent(items);
        StrippedKeepsExactlyTheOthers(items);
    }
  }
}
