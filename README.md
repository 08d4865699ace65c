# Footpaths: the trampling state machine in Dafny

Footpaths wears terrain down where entities walk: every time an eligible entity
steps on a configured block, the service counts the step for that block position,
and once enough steps arrive without too long a pause between them the block is
replaced by the rule's target block (grass becomes a dirt path). This project
models the core of `FootpathsService` and proves its behaviour:

- `types.dfy` (module `Types`): positions, entities, rules (`RuntimeBlockConfig`),
  the per-position `BlockHistory`, and Java's 32-bit `int` as `int32`.
- `eligibility.dfy` (module `Eligibility`): `isMatchingEntity` and the global
  eligibility sets that `initBlockConfig` builds as unions of the rules' sets,
  with an empty union turned into "absent".
- `trampling.dfy` (module `Trampling`): one call of `entitySteppedOnBlock` as a
  function `Step` on the tracking map and the world's blocks, stating the guards,
  the accumulation with timeout reset, the transition and the frame; `Walk` folds
  several steps; the threshold lemma proves that `k` steps transition on the k-th.
- `service.dfy` (module `Service`): the class `FootpathsService` with the fields
  `config`, `spawnGroups`, `entityIds` and `stepCounts`, whose methods
  `InitBlockConfig` (a loop over the rules) and `EntitySteppedOnBlock` (the
  source's branches, updating the map and the world in place) are proved against
  the functions above; the class `World` holds the blocks and the current time.
- `scenarios.dfy` (module `Scenarios`): three verified scenarios on the service
  object: three steps at ticks 0, 10 and 20 transition; steps at 0, 10 and 150 restart the count;
  a one-step rule transitions at once.

Modelling decisions:

- A `BlockHistory` record is never shared, so it is a datatype value: updating it
  in place is modelled by writing the updated value back into the map at the same
  key.
- Step counts and timeouts are `int32`. The class invariant `Valid()` keeps every
  tracked count in `[1, INT_MAX)`, so the increment of a tracked count is proved
  never to wrap around.
- A world cell with no recorded block reads as `minecraft:air`.
- The current time is the `World`'s `time` field; a step reads it, never changes it.
- The per-rule eligibility sets are plain sets, never absent: `initBlockConfig`
  calls `addAll` on every rule's sets, which would fail on a missing set. So in the
  per-rule check an empty set matches nothing on its axis, unlike the global sets,
  where an empty union means "no restriction".
- A rule with a step count of 1 or less transitions on the first qualifying step,
  as the code's `>=` comparison does.

## Model

| member | source | states |
|---|---|---|
| Eligibility.IsMatchingEntity | src/main/java/net/pcal/footpaths/FootpathsService.java:147-157 | true exactly when the id is in a present id set or the entity has a spawn group that is in a present group set; with both sets absent, false; with one absent, decided by the other alone |
| Eligibility.GlobalSetsFromRules | src/main/java/net/pcal/footpaths/FootpathsService.java:77-87 | each global set is absent exactly when no rule names anything on its axis, and contains every rule's set |
| Eligibility.GlobalCheckSubsumed | src/main/java/net/pcal/footpaths/FootpathsService.java:103-118 | an entity accepted by any configured rule is accepted by the global sets built from the rules |
| Eligibility.EmptyIdUnionLeavesGroupAxis | src/main/java/net/pcal/footpaths/FootpathsService.java:79-86 | when no rule names an entity id, the global check accepts exactly the entities whose spawn group some rule names, rather than rejecting everyone |
| Trampling.Step | src/main/java/net/pcal/footpaths/FootpathsService.java:96-144 | each failed guard (off grid, global mismatch, no rule, rule mismatch) leaves map and world unchanged; untracked: count 1, inserted as (1, now) when the threshold exceeds 1, else immediate transition with no entry; tracked past a positive timeout: count restarts at 1 with timestamp now; tracked otherwise (including any gap when the timeout is 0 or less): count + 1 with timestamp now; on reaching the threshold the world holds the target block and the entry is gone; only the entry and block at the position below the entity change; counts stay in [1, INT_MAX); tracked counts stay below their block's threshold |
| Trampling.Walk | src/main/java/net/pcal/footpaths/FootpathsService.java:96-144 | a sequence of steps keeps the count bounds and the per-block threshold invariant and changes nothing outside the position below the entity |
| Trampling.GlobalGuardRedundant | src/main/java/net/pcal/footpaths/FootpathsService.java:103-118 | with the global sets built by initialisation, a step qualifies exactly when it is on the grid, on a configured block and accepted by that block's rule |
| Trampling.CountedStep | src/main/java/net/pcal/footpaths/FootpathsService.java:126-141 | a qualifying step within the timeout on a position tracked with count m yields (m + 1, now), or the transition with the entry removed when m + 1 reaches the threshold |
| Trampling.TransitionOnKthStep | src/main/java/net/pcal/footpaths/FootpathsService.java:108-142 | from an untracked position, k qualifying steps without a timeout gap: after i < k steps the entry is (i, time of step i) and the block unchanged; the k-th step transitions the block and leaves no entry |
| Service.FootpathsService.constructor | src/main/java/net/pcal/footpaths/FootpathsService.java:73-75 | a new service tracks nothing and has no global sets |
| Service.FootpathsService.InitBlockConfig | src/main/java/net/pcal/footpaths/FootpathsService.java:77-87 | keeps the configuration and sets each global set to the union of the rules' sets, absent when empty |
| Service.FootpathsService.EntitySteppedOnBlock | src/main/java/net/pcal/footpaths/FootpathsService.java:96-144 | the new tracking map and world blocks are exactly `Trampling.Step` of the old ones at the world's time, and the count bounds are kept |
| Eligibility.EmptyGroupUnionLeavesIdAxis | src/main/java/net/pcal/footpaths/FootpathsService.java:79-85 | when no rule names a spawn group, the global check accepts exactly the entities whose id some rule names, rather than rejecting everyone |
| Scenarios.ThreeStepsTransition | src/main/java/net/pcal/footpaths/FootpathsService.java:119-141 | three steps at ticks 0, 10, 20 under a three-step, 100-tick rule leave the path block and no entry |
| Scenarios.TimeoutRestartsCount | src/main/java/net/pcal/footpaths/FootpathsService.java:122-131 | steps at ticks 0, 10, 150 under the same rule leave grass and the entry (1, 150) |
| Scenarios.OneStepTransition | src/main/java/net/pcal/footpaths/FootpathsService.java:119-137 | under a one-step rule the first step transitions and nothing is tracked |

## Left out

- The vertical-alignment test `DoubleMath.isMathematicalInteger(entity.getY())` is floating point; the entity carries its outcome as the boolean `onGrid`.
- Registry lookups (`Registry.BLOCK`, `Registry.ENTITY_TYPE`), `Entity`, `World.getBlockState`, `setBlockState` and `getTime` belong to the game engine; they are replaced by identifiers in the entity, the `World` object's block map and its `time` field. Every target block id is taken to resolve.
- Logging and `BlockHistory.toString` only observe; they do not affect behaviour.
- The singleton holder is lifecycle plumbing; the model uses one explicitly constructed service.
- `FootpathsRuntimeConfig` parsing and loading is not part of this model; the configuration is a given map from block id to rule, read only. `getAllConfigs` is taken to be the map's values.
- Timestamps are unbounded integers: the wrap-around of Java's 64-bit `long` in `getTime() - lastStepTimestamp` is not modelled, as game tick counts stay far below it.
- Changes to the world made by anything else than this service are not modelled; they can leave stale entries, which the count bounds still cover but the per-block threshold invariant does not.
- Histories are keyed by position alone, as in the source, so steps in two worlds at the same coordinates share one entry; the per-block threshold invariant `Trampling.Consistent` holds only for a single world, and a step in another world can bring forward or delay a transition.
- Before `InitBlockConfig` the Java `config` field is null; the model starts it as the empty map. Nothing observes the difference, because both global sets start absent and the global check rejects every step before `config` is read.
