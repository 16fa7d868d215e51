/** The event-definition list of the trainer routes (volley-sense/apps/api/app/routers/trainer.py):
    `definitions_db` starts as copies of the default definitions; saving replaces every entry
    with the same id in place, or appends. */
module TrainerDefinitions {
  import opened Base
  import opened MockData

  /** The first entry with the given id (`next((item for item in ... if item.id == id), None)`). */
  function FindDefinition(items: seq<EventDefinition>, id: string): (r: Option<EventDefinition>)
    ensures r.None? <==> forall i :: 0 <= i < |items| ==> items[i].id != id
    ensures r.Some? ==> exists i :: 0 <= i < |items| && items[i] == r.value && r.value.id == id
                                    && forall j :: 0 <= j < i ==> items[j].id != id
  {
    if items == [] then None
    else if items[0].id == id then Some(items[0])
    else
      var rest := FindDefinition(items[1..], id);
      assert forall i :: 1 <= i < |items| ==> items[i] == items[1..][i - 1];
      rest
  }

  /** The list after saving `d`: every entry with its id replaced when there is one, `d`
      appended otherwise. */
  function Upsert(items: seq<EventDefinition>, d: EventDefinition): (r: seq<EventDefinition>)
    ensures (exists i :: 0 <= i < |items| && items[i].id == d.id) ==>
              |r| == |items| && forall i :: 0 <= i < |items| ==> r[i] == (if items[i].id == d.id then d else items[i])
    ensures (forall i :: 0 <= i < |items| ==> items[i].id != d.id) ==> r == items + [d]
  {
    if exists i :: 0 <= i < |items| && items[i].id == d.id then
      seq(|items|, i requires 0 <= i < |items| => if items[i].id == d.id then d else items[i])
    else items + [d]
  }

  /** Saving the same definition twice is the same as saving it once, and afterwards the
      saved definition is the one found under its id. */
  lemma UpsertIdempotent(items: seq<EventDefinition>, d: EventDefinition)
    ensures Upsert(Upsert(items, d), d) == Upsert(items, d)
    ensures FindDefinition(Upsert(items, d), d.id) == Some(d)
  {
    var once := Upsert(items, d);
    if forall i :: 0 <= i < |items| ==> items[i].id != d.id {
      assert once[|items|].id == d.id;
    }
  }

  /** When the id is already listed, the replacement is the whole upsert. */
  lemma UpsertReplaces(items: seq<EventDefinition>, d: EventDefinition, updated: seq<EventDefinition>)
    requires exists i :: 0 <= i < |items| && items[i].id == d.id
    requires |updated| == |items|
    requires forall k :: 0 <= k < |items| ==> updated[k] == (if items[k].id == d.id then d else items[k])
    ensures updated == Upsert(items, d)
  {
    var r := Upsert(items, d);
    assert forall k :: 0 <= k < |items| ==> r[k] == updated[k];
  }

  class DefinitionList {
    /** `definitions_db`. */
    var items: seq<EventDefinition>

    /** The module-level copies of the defaults, stamped at import. */
    constructor (contactCreatedAt: string, injuryCreatedAt: string)
      ensures items == DefaultDefinitions(contactCreatedAt, injuryCreatedAt)
    {
      items := DefaultDefinitions(contactCreatedAt, injuryCreatedAt);
    }

    /** `list_definitions`. */
    function ListDefinitions(): (r: seq<EventDefinition>)
      reads this
      ensures r == items
    {
      items
    }

    /** `save_definition`: the payload is the definition itself (a `datetime` is never falsy,
        so `createdAt or now` keeps the given timestamp); it is stored and returned. */
    method SaveDefinition(definition: EventDefinition) returns (r: EventDefinition)
      modifies this
      ensures r == definition
      ensures items == Upsert(old(items), definition)
      ensures FindDefinition(items, definition.id) == Some(definition)
    {
      var existing := FindDefinition(items, definition.id);
      var payload := definition;
      if existing.Some? {
        var updated := ReplaceAll(items, payload);
        var i :| 0 <= i < |items| && items[i] == existing.value && existing.value.id == definition.id;
        UpsertReplaces(items, payload, updated);
        items := updated;
      } else {
        items := items + [payload];
      }
      UpsertIdempotent(old(items), definition);
      return payload;
    }
  }

  /** The replacing comprehension of `save_definition`: every entry with the payload's id
      becomes the payload. */
  method ReplaceAll(items: seq<EventDefinition>, payload: EventDefinition) returns (updated: seq<EventDefinition>)
    ensures |updated| == |items|
    ensures forall k :: 0 <= k < |items| ==> updated[k] == (if items[k].id == payload.id then payload else items[k])
  {
    updated := [];
    var i := 0;
    while i < |items|
      invariant 0 <= i <= |items| && |updated| == i
      invariant forall k :: 0 <= k < i ==> updated[k] == (if items[k].id == payload.id then payload else items[k])
    {
      updated := updated + [if items[i].id == payload.id then payload else items[i]];
      i := i + 1;
    }
  }
}
