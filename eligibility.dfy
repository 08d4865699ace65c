/** The eligibility filter: whether an entity's steps count, against a pair of
    optional restriction sets, and how the global pair is built from the rules. */
module Eligibility {
  import opened Types

  /** `isMatchingEntity`: the entity matches when its id is in a present id set,
      or when it has a spawn group and that group is in a present group set. An
      absent set restricts nothing on its own axis, but with both absent nothing
      matches. */
  function IsMatchingEntity(e: Entity, entityIds: Option<set<EntityId>>, spawnGroups: Option<set<string>>): (r: bool)
    ensures r <==>
              || (entityIds.Some? && e.id in entityIds.value)
              || (spawnGroups.Some? && e.group.Some? && e.group.value in spawnGroups.value)
    ensures entityIds.None? && spawnGroups.None? ==> !r
    ensures entityIds.None? && spawnGroups.Some? ==> (r <==> e.group.Some? && e.group.value in spawnGroups.value)
    ensures entityIds.Some? && spawnGroups.None? ==> (r <==> e.id in entityIds.value)
  {
    if entityIds.Some? && e.id in entityIds.value then true
    else
      match spawnGroups
      case None => false
      case Some(groups) =>
        match e.group
        case None => false
        case Some(g) => g in groups
  }

  /** Every entity id that some rule names. */
  function UnionIds(rules: set<Rule>): set<EntityId>
  {
    set r, id | r in rules && id in r.entityIds :: id
  }

  /** Every spawn group that some rule names. */
  function UnionGroups(rules: set<Rule>): set<string>
  {
    set r, g | r in rules && g in r.spawnGroups :: g
  }

  /** The sentinel of `initBlockConfig`: an empty union becomes absent. */
  function AbsentIfEmpty<T>(s: set<T>): Option<set<T>>
  {
    if s == {} then None else Some(s)
  }

  /** The global id set is absent exactly when no rule names an entity id, and
      when present it contains every id of every rule; likewise for groups. */
  lemma GlobalSetsFromRules(rules: set<Rule>)
    ensures AbsentIfEmpty(UnionIds(rules)).None? <==> forall r :: r in rules ==> r.entityIds == {}
    ensures AbsentIfEmpty(UnionGroups(rules)).None? <==> forall r :: r in rules ==> r.spawnGroups == {}
    ensures forall r :: r in rules ==> r.entityIds <= UnionIds(rules)
    ensures forall r :: r in rules ==> r.spawnGroups <= UnionGroups(rules)
  {
  }

  /** The global check of `entitySteppedOnBlock` never rejects an entity that one
      of the configured rules accepts: the global sets are unions of the rules'
      sets, so the first check is only a fast path. */
  lemma GlobalCheckSubsumed(e: Entity, rules: set<Rule>, r: Rule)
    requires r in rules
    requires IsMatchingEntity(e, Some(r.entityIds), Some(r.spawnGroups))
    ensures IsMatchingEntity(e, AbsentIfEmpty(UnionIds(rules)), AbsentIfEmpty(UnionGroups(rules)))
  {
    if e.id in r.entityIds {
      assert e.id in UnionIds(rules);
    } else {
      assert e.group.value in UnionGroups(rules);
    }
  }

  /** The empty-set sentinel: when no rule names an entity id, the global check
      still decides on the spawn-group axis alone instead of rejecting everyone. */
  lemma EmptyIdUnionLeavesGroupAxis(e: Entity, rules: set<Rule>)
    requires forall r :: r in rules ==> r.entityIds == {}
    ensures IsMatchingEntity(e, AbsentIfEmpty(UnionIds(rules)), AbsentIfEmpty(UnionGroups(rules)))
        <==> e.group.Some? && exists r :: r in rules && e.group.value in r.spawnGroups
  {
    GlobalSetsFromRules(rules);
    if e.group.Some? && e.group.value in UnionGroups(rules) {
      var r, g :| r in rules && g in r.spawnGroups && g == e.group.value;
      assert r in rules && e.group.value in r.spawnGroups;
    }
  }

  /** The empty-set sentinel on the other axis: when no rule names a spawn group,
      the global check still decides on the entity-id axis alone. */
  lemma EmptyGroupUnionLeavesIdAxis(e: Entity, rules: set<Rule>)
    requires forall r :: r in rules ==> r.spawnGroups == {}
    ensures IsMatchingEntity(e, AbsentIfEmpty(UnionIds(rules)), AbsentIfEmpty(UnionGroups(rules)))
        <==> exists r :: r in rules && e.id in r.entityIds
  {
    GlobalSetsFromRules(rules);
    if e.id in UnionIds(rules) {
      var r, id :| r in rules && id in r.entityIds && id == e.id;
      assert r in rules && e.id in r.entityIds;
    }
  }
}
