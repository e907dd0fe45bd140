/** UniqueEntity: a move-only owner of one GL object name that destroys it on
    Reset (and so on destruction). */
module Unique {
  import opened Wrappers

  /** The Traits of one kind of GL object, as the model sees them. Create and
      Destroy are GL calls and are not modelled; instead a ghost record keeps
      every value Traits::Create handed out, every value passed to
      Traits::Destroy, and which handle owns each value still alive. */
  /** How many times `v` occurs in `s`. */
  ghost function Occurrences(s: seq<int>, v: int): nat
  {
    multiset(s)[v]
  }

  class EntityTraits {
    ghost var created: seq<int>
    ghost var destroyed: seq<int>
    ghost var owner: map<int, UniqueEntity>

    /** Every creation of a value ends in exactly one Destroy, unless a handle
        still owns it. */
    ghost predicate Valid()
      reads this
    {
      forall v :: Occurrences(destroyed, v) + (if v in owner then 1 else 0) == Occurrences(created, v)
    }

    constructor ()
      ensures Valid()
      ensures created == [] && destroyed == [] && owner == map[]
    {
      created := [];
      destroyed := [];
      owner := map[];
    }

    /** No value is ever destroyed more often than it was created: a GL name is
        released at most once per time GL handed it out. */
    lemma DestroyedAtMostOncePerCreation(v: int)
      requires Valid()
      ensures Occurrences(destroyed, v) <= Occurrences(created, v)
      ensures v in owner ==> Occurrences(destroyed, v) < Occurrences(created, v)
    {
    }
  }

  /** Each of `entities` is a handle of `traits` holding the matching value of
      `values`. */
  ghost predicate HoldsEach(traits: EntityTraits, entities: seq<UniqueEntity>, values: seq<int>)
    reads set j | 0 <= j < |entities| :: entities[j]
  {
    && |entities| == |values|
    && forall j :: 0 <= j < |entities| ==> entities[j].traits == traits && entities[j].value == Some(values[j])
  }

  /** `owner` records each of `entities` as the owner of the matching value. */
  ghost predicate RegisteredOwners(owner: map<int, UniqueEntity>, entities: seq<UniqueEntity>, values: seq<int>)
  {
    && |entities| == |values|
    && forall j :: 0 <= j < |entities| ==> values[j] in owner && owner[values[j]] == entities[j]
  }

  /** Registering the owner of one more, new, value keeps the earlier ones. */
  lemma RegisteredOwnersExtended(owner: map<int, UniqueEntity>, entities: seq<UniqueEntity>, values: seq<int>,
                                 entity: UniqueEntity, v: int)
    requires RegisteredOwners(owner, entities, values) && v !in values
    ensures RegisteredOwners(owner[v := entity], entities + [entity], values + [v])
  {
  }

  /** One more handle holding one more value. */
  lemma HoldsEachExtended(traits: EntityTraits, entities: seq<UniqueEntity>, values: seq<int>, entity: UniqueEntity, v: int)
    requires HoldsEach(traits, entities, values)
    requires entity.traits == traits && entity.value == Some(v)
    ensures HoldsEach(traits, entities + [entity], values + [v])
  {
  }

  /** The values in `values` are pairwise different. */
  ghost predicate Distinct(values: seq<int>)
  {
    forall i, j :: 0 <= i < j < |values| ==> values[i] != values[j]
  }

  /** Taking ownership of `values[i]` leaves the later values unowned. */
  lemma LaterValuesStayUnowned(values: seq<int>, i: nat, before: map<int, UniqueEntity>, after: map<int, UniqueEntity>, entity: UniqueEntity)
    requires Distinct(values) && i < |values|
    requires forall j :: i <= j < |values| ==> values[j] !in before
    requires after == before[values[i] := entity]
    ensures forall j :: i + 1 <= j < |values| ==> values[j] !in after
    ensures values[i] !in values[..i]
  {
  }

  /** The record of created values after one more value of `values`. */
  lemma CreatedExtended(base: seq<int>, values: seq<int>, i: nat)
    requires i < |values|
    ensures base + values[..i + 1] == base + values[..i] + [values[i]]
  {
    assert values[..i + 1] == values[..i] + [values[i]];
  }

  /** Handles recorded as the owners of the values they hold are valid. */
  lemma HandlesValid(traits: EntityTraits, entities: seq<UniqueEntity>, values: seq<int>)
    requires traits.Valid()
    requires HoldsEach(traits, entities, values) && RegisteredOwners(traits.owner, entities, values)
    ensures forall j :: 0 <= j < |entities| ==> entities[j].Valid()
  {
  }

  /** The values a handle holding `value` owns: none or one. */
  function Held(value: Option<int>): (vs: set<int>)
    ensures |vs| <= 1
    ensures forall v :: v in vs <==> value == Some(v)
  {
    if value.Some? then {value.value} else {}
  }

  class UniqueEntity {
    const traits: EntityTraits
    var value: Option<int>

    /** A held value is owned by this handle and by no other. */
    ghost predicate Valid()
      reads this, traits
    {
      && traits.Valid()
      && (value.Some? ==> value.value in traits.owner && traits.owner[value.value] == this)
    }

    /** A default-constructed handle holds nothing. */
    constructor (traits: EntityTraits)
      requires traits.Valid()
      ensures this.traits == traits && value == None
      ensures Valid()
    {
      this.traits := traits;
      value := None;
    }

    /** The private constructor from a value Traits::Create returned. */
    constructor FromValue(traits: EntityTraits, v: int)
      requires traits.Valid() && v !in traits.owner
      modifies traits
      ensures this.traits == traits && value == Some(v)
      ensures Valid()
      ensures traits.created == old(traits.created) + [v]
      ensures traits.destroyed == old(traits.destroyed)
      ensures traits.owner == old(traits.owner)[v := this]
    {
      this.traits := traits;
      value := Some(v);
      new;
      traits.created := traits.created + [v];
      traits.owner := traits.owner[v := this];
    }

    /** Move construction: the new handle takes the value, which the source must
        hold, and the source is left unset. */
    constructor Moved(other: UniqueEntity)
      requires other.Valid() && other.value.Some?
      modifies other, other.traits
      ensures traits == other.traits
      ensures value == old(other.value) && other.value == None
      ensures Valid() && other.Valid()
      ensures traits.created == old(other.traits.created) && traits.destroyed == old(other.traits.destroyed)
      ensures traits.owner == old(other.traits.owner)[value.value := this]
    {
      traits := other.traits;
      value := other.value;
      new;
      other.value := None;
      traits.owner := traits.owner[value.value := this];
    }

    /** Traits::Create's result, wrapped. `v` is the name GL handed out; it is
        never one a live handle already owns. */
    static method Create(traits: EntityTraits, v: int) returns (entity: UniqueEntity)
      requires traits.Valid() && v !in traits.owner
      modifies traits
      ensures fresh(entity) && entity.traits == traits
      ensures entity.Valid() && entity.value == Some(v)
      ensures traits.created == old(traits.created) + [v]
      ensures traits.destroyed == old(traits.destroyed)
      ensures traits.owner == old(traits.owner)[v := entity]
    {
      entity := new UniqueEntity.FromValue(traits, v);
    }

    function IsSet(): (isSet: bool)
      reads this
      ensures isSet <==> value != None
    {
      value.Some?
    }

    /** The implicit conversion to the raw value: only allowed on a set handle. */
    function Get(): (v: int)
      reads this
      requires value.Some?
      ensures Some(v) == value
    {
      value.value
    }

    /** Destroys the held value, if any, exactly once, and leaves the handle unset.
        The destructor is this method. */
    method Reset()
      requires Valid()
      modifies this, traits
      ensures Valid() && value == None
      ensures traits.created == old(traits.created)
      ensures old(value).None? ==> traits.destroyed == old(traits.destroyed) && traits.owner == old(traits.owner)
      ensures old(value).Some? ==>
        && traits.destroyed == old(traits.destroyed) + [old(value).value]
        && traits.owner == old(traits.owner) - {old(value).value}
    {
      if value.None? {
        return;
      }
      traits.destroyed := traits.destroyed + [value.value];
      traits.owner := traits.owner - {value.value};
      value := None;
    }

    /** Move assignment: first destroy what this handle holds, then take the
        source's value and leave the source unset. The source returns no
        reference to this handle. */
    method MoveAssign(other: UniqueEntity)
      requires Valid() && other.Valid() && other.traits == traits
      modifies this, other, traits
      ensures Valid() && other.Valid()
      ensures other.value == None
      ensures other != this ==> value == old(other.value)
      ensures other == this ==> value == None
      ensures traits.created == old(traits.created)
      ensures traits.destroyed == old(traits.destroyed) + (if old(value).Some? then [old(value).value] else [])
      ensures other == this || old(other.value).None? ==> traits.owner == old(traits.owner) - Held(old(value))
      ensures other != this && old(other.value).Some? ==>
        traits.owner == (old(traits.owner) - Held(old(value)))[old(other.value).value := this]
    {
      Reset();
      if other != this {
        value := other.value;
        other.value := None;
        if value.Some? {
          traits.owner := traits.owner[value.value := this];
        }
      }
    }

    /** One step of CreateManyFromRaw: wraps `values[i]` in a new handle. */
    static method WrapNext(traits: EntityTraits, entities: seq<UniqueEntity>, values: seq<int>, i: nat)
      returns (next: seq<UniqueEntity>)
      requires i < |values| && |entities| == i
      requires traits.Valid() && Distinct(values)
      requires forall j :: i <= j < |values| ==> values[j] !in traits.owner
      requires HoldsEach(traits, entities, values[..i]) && RegisteredOwners(traits.owner, entities, values[..i])
      modifies traits
      ensures |next| == i + 1 && next[..i] == entities && fresh(next[i])
      ensures traits.Valid()
      ensures traits.created == old(traits.created) + [values[i]]
      ensures traits.destroyed == old(traits.destroyed)
      ensures forall j :: i + 1 <= j < |values| ==> values[j] !in traits.owner
      ensures HoldsEach(traits, next, values[..i + 1]) && RegisteredOwners(traits.owner, next, values[..i + 1])
    {
      ghost var before := traits.owner;
      var entity := new UniqueEntity.FromValue(traits, values[i]);
      LaterValuesStayUnowned(values, i, before, traits.owner, entity);
      RegisteredOwnersExtended(before, entities, values[..i], entity, values[i]);
      HoldsEachExtended(traits, entities, values[..i], entity, values[i]);
      assert values[..i + 1] == values[..i] + [values[i]];
      next := entities + [entity];
    }

    /** CreateMany for traits with their own CreateMany: GL hands out `raw`,
        which must hold exactly `count` values, and each becomes one handle. */
    static method CreateManyFromRaw(traits: EntityTraits, count: nat, raw: seq<int>) returns (entities: seq<UniqueEntity>)
      requires |raw| == count
      requires traits.Valid()
      requires Distinct(raw)
      requires forall i :: 0 <= i < |raw| ==> raw[i] !in traits.owner
      modifies traits
      ensures |entities| == count
      ensures forall i :: 0 <= i < count ==> fresh(entities[i])
      ensures HoldsEach(traits, entities, raw)
      ensures traits.Valid() && RegisteredOwners(traits.owner, entities, raw)
      ensures traits.created == old(traits.created) + raw
      ensures traits.destroyed == old(traits.destroyed)
    {
      entities := [];
      var i := 0;
      while i < count
        invariant 0 <= i <= count && |entities| == i
        invariant traits.Valid()
        invariant traits.created == old(traits.created) + raw[..i]
        invariant traits.destroyed == old(traits.destroyed)
        invariant forall j :: i <= j < count ==> raw[j] !in traits.owner
        invariant forall j :: 0 <= j < i ==> fresh(entities[j])
        invariant HoldsEach(traits, entities, raw[..i])
        invariant RegisteredOwners(traits.owner, entities, raw[..i])
      {
        entities := WrapNext(traits, entities, raw, i);
        CreatedExtended(old(traits.created), raw, i);
        i := i + 1;
      }
      assert raw[..i] == raw;
    }

    /** One step of CreateMany: Traits::Create hands out `values[i]`. */
    static method CreateNext(traits: EntityTraits, entities: seq<UniqueEntity>, values: seq<int>, i: nat)
      returns (next: seq<UniqueEntity>)
      requires i < |values| && |entities| == i
      requires traits.Valid() && Distinct(values)
      requires forall j :: i <= j < |values| ==> values[j] !in traits.owner
      requires HoldsEach(traits, entities, values[..i]) && RegisteredOwners(traits.owner, entities, values[..i])
      modifies traits
      ensures |next| == i + 1 && next[..i] == entities && fresh(next[i])
      ensures traits.Valid()
      ensures traits.created == old(traits.created) + [values[i]]
      ensures traits.destroyed == old(traits.destroyed)
      ensures forall j :: i + 1 <= j < |values| ==> values[j] !in traits.owner
      ensures HoldsEach(traits, next, values[..i + 1]) && RegisteredOwners(traits.owner, next, values[..i + 1])
    {
      ghost var before := traits.owner;
      var entity := Create(traits, values[i]);
      LaterValuesStayUnowned(values, i, before, traits.owner, entity);
      RegisteredOwnersExtended(before, entities, values[..i], entity, values[i]);
      HoldsEachExtended(traits, entities, values[..i], entity, values[i]);
      assert values[..i + 1] == values[..i] + [values[i]];
      next := entities + [entity];
    }

    /** CreateMany for traits without one: Traits::Create is called `count`
        times; `results` are the values those calls return, in order. */
    static method CreateMany(traits: EntityTraits, count: nat, results: seq<int>) returns (entities: seq<UniqueEntity>)
      requires |results| == count
      requires traits.Valid()
      requires Distinct(results)
      requires forall i :: 0 <= i < |results| ==> results[i] !in traits.owner
      modifies traits
      ensures |entities| == count
      ensures forall i :: 0 <= i < count ==> fresh(entities[i])
      ensures HoldsEach(traits, entities, results)
      ensures traits.Valid() && RegisteredOwners(traits.owner, entities, results)
      ensures traits.created == old(traits.created) + results
      ensures traits.destroyed == old(traits.destroyed)
    {
      entities := [];
      var i := 0;
      while i < count
        invariant 0 <= i <= count && |entities| == i
        invariant traits.Valid()
        invariant traits.created == old(traits.created) + results[..i]
        invariant traits.destroyed == old(traits.destroyed)
        invariant forall j :: i <= j < count ==> results[j] !in traits.owner
        invariant forall j :: 0 <= j < i ==> fresh(entities[j])
        invariant HoldsEach(traits, entities, results[..i])
        invariant RegisteredOwners(traits.owner, entities, results[..i])
      {
        entities := CreateNext(traits, entities, results, i);
        CreatedExtended(old(traits.created), results, i);
        i := i + 1;
      }
      assert results[..i] == results;
    }
  }

  /** A created value handed to another handle by move construction is
      destroyed once, when its new owner is reset; the moved-from handle
      destroys nothing. */
  method MovedValueIsDestroyedOnce(traits: EntityTraits, v: int)
    requires traits.Valid() && v !in traits.owner
    modifies traits
    ensures traits.created == old(traits.created) + [v]
    ensures traits.destroyed == old(traits.destroyed) + [v]
    ensures traits.owner == old(traits.owner)
  {
    ghost var owners := traits.owner;
    var first := UniqueEntity.Create(traits, v);
    var second := new UniqueEntity.Moved(first);
    first.Reset();
    second.Reset();
    assert traits.owner == owners[v := second] - {v} == owners;
  }

  /** Move assignment destroys the target's old value once and hands over the
      source's value, which is then destroyed once with its new owner. */
  method MoveAssignedValuesAreDestroyedOnce(traits: EntityTraits, v: int, w: int)
    requires traits.Valid() && v !in traits.owner && w !in traits.owner && v != w
    modifies traits
    ensures traits.created == old(traits.created) + [v, w]
    ensures traits.destroyed == old(traits.destroyed) + [v, w]
  {
    var target := UniqueEntity.Create(traits, v);
    var source := UniqueEntity.Create(traits, w);
    target.MoveAssign(source);
    source.Reset();
    target.Reset();
  }
}
