/** The entity part of the ecosystem store (src/store/useEcosystemStore.ts):
    the list of entities in the garden and the selected entity, with the
    actions that add, patch and remove entities and the selectors that look
    entities up by id, by status and by distance. */
module Store {
  import opened Common
  import opened Types
  import Behavior

  /** `Partial<Entity>`: the fields an `updateEntity` call overwrites. */
  datatype EntityPatch = EntityPatch(
    id: Option<string>,
    name: Option<string>,
    donorEmail: Option<string>,
    species: Option<string>,
    personality: Option<Personality>,
    appearance: Option<Appearance>,
    position: Option<Position>,
    status: Option<Status>,
    relationships: Option<seq<string>>,
    createdAt: Option<int>,
    lastActive: Option<int>)

  /** The patch that overwrites nothing. */
  const NoChange: EntityPatch :=
    EntityPatch(None, None, None, None, None, None, None, None, None, None, None)

  function Or<T>(o: Option<T>, d: T): T {
    if o.Some? then o.value else d
  }

  /** `{ ...entity, ...updates }`: every field the patch carries replaces
      the entity's, every other field is kept. */
  function Patched(e: Entity, u: EntityPatch): (r: Entity)
    ensures u.id.Some? ==> r.id == u.id.value
    ensures u.id.None? ==> r.id == e.id
    ensures u.name.Some? ==> r.name == u.name.value
    ensures u.name.None? ==> r.name == e.name
    ensures u.donorEmail.Some? ==> r.donorEmail == u.donorEmail.value
    ensures u.donorEmail.None? ==> r.donorEmail == e.donorEmail
    ensures u.species.Some? ==> r.species == u.species.value
    ensures u.species.None? ==> r.species == e.species
    ensures u.personality.Some? ==> r.personality == u.personality.value
    ensures u.personality.None? ==> r.personality == e.personality
    ensures u.appearance.Some? ==> r.appearance == u.appearance.value
    ensures u.appearance.None? ==> r.appearance == e.appearance
    ensures u.position.Some? ==> r.position == u.position.value
    ensures u.position.None? ==> r.position == e.position
    ensures u.status.Some? ==> r.status == u.status.value
    ensures u.status.None? ==> r.status == e.status
    ensures u.relationships.Some? ==> r.relationships == u.relationships.value
    ensures u.relationships.None? ==> r.relationships == e.relationships
    ensures u.createdAt.Some? ==> r.createdAt == u.createdAt.value
    ensures u.createdAt.None? ==> r.createdAt == e.createdAt
    ensures u.lastActive.Some? ==> r.lastActive == u.lastActive.value
    ensures u.lastActive.None? ==> r.lastActive == e.lastActive
  {
    Entity(
      Or(u.id, e.id), Or(u.name, e.name), Or(u.donorEmail, e.donorEmail),
      Or(u.species, e.species), Or(u.personality, e.personality),
      Or(u.appearance, e.appearance), Or(u.position, e.position),
      Or(u.status, e.status), Or(u.relationships, e.relationships),
      Or(u.createdAt, e.createdAt), Or(u.lastActive, e.lastActive))
  }

  /** An empty patch leaves the entity as it was. */
  lemma PatchNothing(e: Entity)
    ensures Patched(e, NoChange) == e
  {
  }

  /** Spreading the same updates twice is the same as spreading them once. */
  lemma PatchIdempotent(e: Entity, u: EntityPatch)
    ensures Patched(Patched(e, u), u) == Patched(e, u)
  {
  }

  /** The entity list after `updateEntity(id, updates)`: every entity with
      that id is patched, every other one is kept, in the same order. */
  function Updated(s: seq<Entity>, id: string, u: EntityPatch): (r: seq<Entity>)
    ensures |r| == |s|
    ensures forall i :: 0 <= i < |s| && s[i].id != id ==> r[i] == s[i]
    ensures forall i :: 0 <= i < |s| && s[i].id == id ==> r[i] == Patched(s[i], u)
  {
    seq(|s|, i requires 0 <= i < |s| => if s[i].id == id then Patched(s[i], u) else s[i])
  }

  /** The entity list after `removeEntity(id)`. */
  function Removed(s: seq<Entity>, id: string): (r: seq<Entity>)
    ensures |r| <= |s|
    ensures forall x :: x in r <==> x in s && x.id != id
  {
    FilterIn((x: Entity) => x.id != id, s);
    Filter((x: Entity) => x.id != id, s)
  }

  /** `entities.find(e => e.id === id)`. */
  function FindById(s: seq<Entity>, id: string): (r: Option<Entity>)
    ensures r.None? <==> forall x :: x in s ==> x.id != id
    ensures r.Some? ==> r.value.id == id
    ensures r.Some? ==> exists i :: (0 <= i < |s| && s[i] == r.value && forall j :: 0 <= j < i ==> s[j].id != id)
  {
    var i := FirstIndex((x: Entity) => x.id == id, s);
    if i == -1 then None else Some(s[i])
  }

  /** `entities.filter(e => e.status === status)`. */
  function WithStatus(s: seq<Entity>, status: Status): (r: seq<Entity>)
    ensures |r| <= |s|
    ensures forall x :: x in r <==> x in s && x.status == status
  {
    FilterIn((x: Entity) => x.status == status, s);
    Filter((x: Entity) => x.status == status, s)
  }

  /** The selection after `removeEntity(id)`: cleared exactly when it was
      the removed entity. */
  function SelectionAfterRemove(selected: Option<Entity>, id: string): (r: Option<Entity>)
    ensures r.None? <==> selected.None? || selected.value.id == id
    ensures r.Some? ==> r == selected
  {
    if selected.Some? && selected.value.id == id then None else selected
  }

  // ---- How the actions and selectors fit together ----

  /** An appended entity is found by its id unless an earlier entity already
      has that id, in which case `find` keeps returning the earlier one. */
  lemma {:induction false} FindAfterAppend(s: seq<Entity>, e: Entity, id: string)
    ensures FindById(s + [e], id) ==
      if FindById(s, id).Some? then FindById(s, id)
      else if e.id == id then Some(e) else None
  {
    var p := (x: Entity) => x.id == id;
    var i := FirstIndex(p, s);
    var k := FirstIndex(p, s + [e]);
    assert forall j :: 0 <= j < |s| ==> (s + [e])[j] == s[j];
    if i != -1 {
      assert p((s + [e])[i]);
      assert k == i;
    } else if e.id == id {
      assert (s + [e])[|s|] == e;
      assert k == |s|;
    } else {
      assert forall j :: 0 <= j < |s + [e]| ==> !p((s + [e])[j]);
    }
  }

  /** Removing an id that no entity has leaves the list as it was. */
  lemma {:induction false} RemoveAbsent(s: seq<Entity>, id: string)
    requires forall x :: x in s ==> x.id != id
    ensures Removed(s, id) == s
  {
    if s != [] {
      var s' := s[..|s| - 1];
      assert s == s' + [s[|s| - 1]];
      RemoveAbsent(s', id);
    }
  }

  /** Patching an id that no entity has leaves the list as it was. */
  lemma UpdateAbsent(s: seq<Entity>, id: string, u: EntityPatch)
    requires forall x :: x in s ==> x.id != id
    ensures Updated(s, id, u) == s
  {
    assert forall i :: 0 <= i < |s| ==> s[i] in s;
  }

  /** A patch that keeps the id is seen by the next lookup: the first entity
      with that id comes back with the updates spread over it. */
  lemma UpdateThenFind(s: seq<Entity>, id: string, u: EntityPatch)
    requires u.id.None?
    ensures FindById(Updated(s, id, u), id) ==
      if FindById(s, id).Some? then Some(Patched(FindById(s, id).value, u)) else None
  {
    var p := (x: Entity) => x.id == id;
    var r := Updated(s, id, u);
    assert forall j :: 0 <= j < |s| ==> (p(r[j]) <==> p(s[j]));
    var i := FirstIndex(p, s);
    var k := FirstIndex(p, r);
    if i == -1 {
      assert k == -1;
    } else {
      assert p(r[i]) && forall j :: 0 <= j < i ==> !p(r[j]);
      assert k == i;
    }
  }

  /** Patching changes neither how many entities there are nor which ids
      other entities carry. */
  lemma UpdateKeepsOthersFindable(s: seq<Entity>, id: string, u: EntityPatch, other: string)
    requires other != id && (u.id.None? || u.id.value != other)
    ensures FindById(Updated(s, id, u), other) == FindById(s, other)
  {
    var p := (x: Entity) => x.id == other;
    var r := Updated(s, id, u);
    assert forall j :: 0 <= j < |s| ==> r[j] == s[j] || (!p(r[j]) && !p(s[j]));
    var i := FirstIndex(p, s);
    var k := FirstIndex(p, r);
    if i == -1 {
      assert k == -1;
    } else {
      assert r[i] == s[i];
      assert p(r[i]) && forall j :: 0 <= j < i ==> !p(r[j]);
      assert k == i;
    }
  }

  /** The store's state: `entities` and `selectedEntity`. */
  class EcosystemStore {
    var entities: seq<Entity>
    var selectedEntity: Option<Entity>

    /** The initial state: no entities, nothing selected. */
    constructor()
      ensures entities == [] && selectedEntity == None
    {
      entities := [];
      selectedEntity := None;
    }

    /** `setEntities(entities)`: the selection is left as it was. */
    method SetEntities(list: seq<Entity>)
      modifies this
      ensures entities == list && selectedEntity == old(selectedEntity)
    {
      entities := list;
    }

    /** `selectEntity(entity)` */
    method SelectEntity(entity: Option<Entity>)
      modifies this
      ensures entities == old(entities) && selectedEntity == entity
    {
      selectedEntity := entity;
    }

    /** `addEntity(entity)`: appended at the end, ids not checked. */
    method AddEntity(entity: Entity)
      modifies this
      ensures entities == old(entities) + [entity]
      ensures selectedEntity == old(selectedEntity)
      ensures GetEntityById(entity.id) ==
        if old(FindById(entities, entity.id)).Some? then old(FindById(entities, entity.id))
        else Some(entity)
    {
      FindAfterAppend(entities, entity, entity.id);
      entities := entities + [entity];
    }

    /** `updateEntity(id, updates)`: the selected entity is a separate copy
        and is not patched. */
    method UpdateEntity(id: string, updates: EntityPatch)
      modifies this
      ensures entities == Updated(old(entities), id, updates)
      ensures selectedEntity == old(selectedEntity)
    {
      entities := Updated(entities, id, updates);
    }

    /** `removeEntity(id)`: drops every entity with that id and clears the
        selection if it was one of them. */
    method RemoveEntity(id: string)
      modifies this
      ensures entities == Removed(old(entities), id)
      ensures selectedEntity == SelectionAfterRemove(old(selectedEntity), id)
      ensures GetEntityById(id).None?
    {
      entities := Removed(entities, id);
      selectedEntity := SelectionAfterRemove(selectedEntity, id);
    }

    /** `getEntityById(id)` */
    function GetEntityById(id: string): (r: Option<Entity>)
      reads this
      ensures r.None? <==> forall x :: x in entities ==> x.id != id
      ensures r.Some? ==> r.value in entities && r.value.id == id
    {
      FindById(entities, id)
    }

    /** `getEntitiesByStatus(status)` */
    function GetEntitiesByStatus(status: Status): (r: seq<Entity>)
      reads this
      ensures forall x :: x in r <==> x in entities && x.status == status
    {
      WithStatus(entities, status)
    }

    /** `getNearbyEntities(entity, radius)`: every other entity within the
        radius, the same selection the behaviour engine makes. */
    function GetNearbyEntities(entity: Entity, radius: real): (r: seq<Entity>)
      reads this
      ensures forall x :: x in r <==>
        x in entities && x.id != entity.id && WithinDistance(x.position, entity.position, radius)
    {
      Behavior.NearbyEntities(entity, entities, radius)
    }
  }
}
