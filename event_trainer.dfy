/** The event-trainer module's definition store
    (volley-sense/apps/api/app/modules/event_trainer/router.py): `_DEFINITIONS` keyed by id,
    upsert, the preview membership check and the listing in dict order. The preview events
    themselves come from a random generator and are not part of this model. */
module EventTrainer {
  import opened Base
  import opened MockData

  class DefinitionMap {
    /** `_DEFINITIONS`. */
    var defs: map<string, EventDefinition>
    /** Its key order (first insertion). */
    var order: seq<string>

    ghost predicate Valid()
      reads this
    {
      && (forall k :: k in defs <==> k in order)
      && (forall i, j :: 0 <= i < j < |order| ==> order[i] != order[j])
      && (forall k :: k in defs ==> defs[k].id == k)
    }

    /** `{definition.id: definition for definition in DEFAULT_DEFINITIONS}`. */
    constructor (contactCreatedAt: string, injuryCreatedAt: string)
      ensures Valid()
      ensures defs.Keys == {"event-contact", "event-injury"}
      ensures forall i :: 0 <= i < 2 ==>
                defs[DefaultDefinitions(contactCreatedAt, injuryCreatedAt)[i].id]
                  == DefaultDefinitions(contactCreatedAt, injuryCreatedAt)[i]
      ensures order == ["event-contact", "event-injury"]
    {
      var defaults := DefaultDefinitions(contactCreatedAt, injuryCreatedAt);
      defs := map[defaults[0].id := defaults[0], defaults[1].id := defaults[1]];
      order := [defaults[0].id, defaults[1].id];
    }

    /** `list_definitions`: the stored definitions in dict order. */
    function ListDefinitions(): (r: seq<EventDefinition>)
      requires Valid()
      reads this
      ensures |r| == |order| && forall i :: 0 <= i < |order| ==> r[i] == defs[order[i]]
    {
      ValuesOf(defs, order)
    }

    /** `upsert_definition`: stored under its id, replacing any earlier one; nothing else
        changes, and a new id goes last in the listing. */
    method UpsertDefinition(definition: EventDefinition) returns (r: EventDefinition)
      requires Valid()
      modifies this
      ensures Valid() && r == definition
      ensures defs == old(defs)[definition.id := definition]
      ensures order == if definition.id in old(defs) then old(order) else old(order) + [definition.id]
    {
      if definition.id !in defs {
        order := order + [definition.id];
      }
      defs := defs[definition.id := definition];
      return definition;
    }

    /** `preview_events`: 404 for an unknown definition; a known one goes on to the
        generator. */
    function PreviewEvents(eventId: string): (r: Outcome)
      reads this
      ensures r.Pass? <==> eventId in defs
      ensures r.Fail? ==> r.error == HttpError(404, "Definition not found")
    {
      if eventId !in defs then Fail(HttpError(404, "Definition not found")) else Pass
    }
  }

  function ValuesOf(defs: map<string, EventDefinition>, ids: seq<string>): (r: seq<EventDefinition>)
    requires forall k :: k in ids ==> k in defs
    ensures |r| == |ids| && forall i :: 0 <= i < |ids| ==> r[i] == defs[ids[i]]
  {
    if ids == [] then [] else [defs[ids[0]]] + ValuesOf(defs, ids[1..])
  }

  /** The listing holds exactly the stored definitions, each once. */
  lemma ListingIsTheStore(store: DefinitionMap)
    requires store.Valid()
    ensures forall d :: d in store.ListDefinitions() <==> d in store.defs.Values
    ensures |store.ListDefinitions()| == |store.defs|
  {
    var r := store.ListDefinitions();
    forall d | d in store.defs.Values
      ensures d in r
    {
      var k :| k in store.defs && store.defs[k] == d;
      var i :| 0 <= i < |store.order| && store.order[i] == k;
      assert r[i] == d;
    }
    KeysAreOrder(store.defs.Keys, store.order);
  }

  /** A duplicate-free listing of exactly the keys has as many entries as there are keys. */
  lemma {:induction false} KeysAreOrder(keys: set<string>, order: seq<string>)
    requires forall k :: k in keys <==> k in order
    requires forall i, j :: 0 <= i < j < |order| ==> order[i] != order[j]
    ensures |keys| == |order|
  {
    if order != [] {
      var last := order[|order| - 1];
      var front := order[..|order| - 1];
      assert forall k :: k in front ==> k != last by {
        forall k | k in front
          ensures k != last
        {
          var i :| 0 <= i < |front| && front[i] == k;
          assert order[i] == k;
        }
      }
      KeysAreOrder(keys - {last}, front);
    }
  }

  /** After an upsert the definition is listed, and the preview of its id is allowed. */
  lemma UpsertThenList(store: DefinitionMap, d: EventDefinition)
    requires store.Valid() && d.id in store.defs && store.defs[d.id] == d
    ensures d in store.ListDefinitions()
    ensures store.PreviewEvents(d.id).Pass?
  {
    ListingIsTheStore(store);
  }
}
