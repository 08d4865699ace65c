/** The service object: the configuration snapshot, the global eligibility sets and
    the tracking map, updated in place by `initBlockConfig` and
    `entitySteppedOnBlock`. */
module Service {
  import opened Types
  import opened Eligibility
  import opened Trampling

  /** The world an entity stands in: its blocks and its current time. */
  class World {
    var blocks: map<Pos, BlockId>
    var time: int

    constructor (blocks0: map<Pos, BlockId>, time0: int)
      ensures blocks == blocks0 && time == time0
    {
      blocks, time := blocks0, time0;
    }
  }

  class FootpathsService {
    var config: Config
    var spawnGroups: Option<set<string>>
    var entityIds: Option<set<EntityId>>
    var stepCounts: map<Pos, History>

    /** Tracked counts stay in [1, INT_MAX), so incrementing one never wraps. */
    ghost predicate Valid()
      reads this
    {
      Bounded(stepCounts)
    }

    /** A fresh service tracks nothing and, before its configuration is loaded,
        lets no entity through its global check. */
    constructor ()
      ensures Valid()
      ensures stepCounts == map[] && config == map[]
      ensures spawnGroups == None && entityIds == None
    {
      config := map[];
      spawnGroups := None;
      entityIds := None;
      stepCounts := map[];
    }

    /** `initBlockConfig`: keeps the rules and sets each global set to the union of
        the rules' sets, or to absent when that union is empty. */
    method InitBlockConfig(cfg: Config)
      modifies this`config, this`spawnGroups, this`entityIds
      ensures config == cfg
      ensures spawnGroups == AbsentIfEmpty(UnionGroups(cfg.Values))
      ensures entityIds == AbsentIfEmpty(UnionIds(cfg.Values))
    {
      config := cfg;
      var groups: set<string> := {};
      var ids: set<EntityId> := {};
      var rest := cfg.Values;
      while rest != {}
        invariant rest <= cfg.Values
        invariant groups == UnionGroups(cfg.Values - rest)
        invariant ids == UnionIds(cfg.Values - rest)
        decreases rest
      {
        var rbc :| rbc in rest;
        groups := groups + rbc.spawnGroups;
        ids := ids + rbc.entityIds;
        rest := rest - {rbc};
      }
      assert cfg.Values - rest == cfg.Values;
      spawnGroups := if groups == {} then None else Some(groups);
      entityIds := if ids == {} then None else Some(ids);
    }

    /** `entitySteppedOnBlock`: the step of `entity` on the block below it, at the
        world's current time, as `Trampling.Step` describes it. */
    method EntitySteppedOnBlock(entity: Entity, world: World)
      requires Valid()
      modifies this`stepCounts, world`blocks
      ensures Valid()
      ensures State(stepCounts, world.blocks)
           == Step(State(old(stepCounts), old(world.blocks)), config, entityIds, spawnGroups, entity, world.time)
    {
      if !entity.onGrid {
        return;
      }
      if !IsMatchingEntity(entity, entityIds, spawnGroups) {
        return;
      }
      var pos := Down(entity.blockPos);
      var blockId := BlockAt(world.blocks, pos);
      if blockId in config {
        var pc := config[blockId];
        var bh: Option<History> := if pos in stepCounts then Some(stepCounts[pos]) else None;
        var blockStepCount: int32;
        if !IsMatchingEntity(entity, Some(pc.entityIds), Some(pc.spawnGroups)) {
          return;
        }
        if bh == None {
          blockStepCount := 1;
        } else {
          // The record in the map is updated in place.
          var h := bh.value;
          if pc.timeoutTicks > 0 && world.time - h.lastStepTimestamp > pc.timeoutTicks as int {
            blockStepCount := 1;
            h := h.(stepCount := 1);
          } else {
            h := h.(stepCount := h.stepCount + 1);
            blockStepCount := h.stepCount;
          }
          h := h.(lastStepTimestamp := world.time);
          stepCounts := stepCounts[pos := h];
        }
        if blockStepCount >= pc.stepCount {
          world.blocks := world.blocks[pos := pc.nextId];
          if bh != None {
            stepCounts := stepCounts - {pos};
          }
        } else {
          if bh == None {
            stepCounts := stepCounts[pos := History(blockStepCount, world.time)];
          }
        }
      }
    }
  }
}
