/** The trampling state machine on values: one step of `entitySteppedOnBlock` as a
    function of the tracking map and the world's blocks, and what follows from it. */
module Trampling {
  import opened Types
  import opened Eligibility

  /** The block of a world cell that holds nothing else. */
  const AIR: BlockId := "minecraft:air"

  /** The tracking map `stepCounts` together with the blocks of the world. */
  datatype State = State(counts: map<Pos, History>, blocks: map<Pos, BlockId>)

  /** `World.getBlockState(p)`, reduced to the block's identifier. */
  function BlockAt(blocks: map<Pos, BlockId>, p: Pos): BlockId
  {
    if p in blocks then blocks[p] else AIR
  }

  /** Every tracked count is at least 1 and below the largest `int`, so the
      increment of a tracked count cannot wrap around. */
  predicate Bounded(counts: map<Pos, History>)
  {
    forall p :: p in counts ==> 1 <= counts[p].stepCount < INT_MAX
  }

  /** Every tracked position holds a configured block of this world and its count
      is below that block's threshold. Steps in this world keep it. Changes to the
      world made by something else break it, and so do steps in another world at
      the same coordinates, since the tracking map is keyed by position alone. */
  ghost predicate Consistent(st: State, config: Config)
  {
    forall p :: p in st.counts ==>
      && BlockAt(st.blocks, p) in config
      && 1 <= st.counts[p].stepCount < config[BlockAt(st.blocks, p)].stepCount
  }

  /** The step passes all four guards: on the grid, globally eligible, standing on
      a configured block, and eligible for that block's rule. */
  predicate Qualifies(st: State, config: Config, gIds: Option<set<EntityId>>, gGroups: Option<set<string>>, e: Entity)
  {
    && e.onGrid
    && IsMatchingEntity(e, gIds, gGroups)
    && BlockAt(st.blocks, Down(e.blockPos)) in config
    && var rule := config[BlockAt(st.blocks, Down(e.blockPos))];
       IsMatchingEntity(e, Some(rule.entityIds), Some(rule.spawnGroups))
  }

  /** The step arrives more than a positive timeout after the previous one. */
  predicate TimedOut(h: History, rule: Rule, now: int)
  {
    rule.timeoutTicks > 0 && now - h.lastStepTimestamp > rule.timeoutTicks as int
  }

  /** One call of `entitySteppedOnBlock` by entity `e` at world time `now`, with
      `gIds` and `gGroups` the service's global eligibility sets. */
  function Step(st: State, config: Config, gIds: Option<set<EntityId>>, gGroups: Option<set<string>>,
                e: Entity, now: int): (r: State)
    requires Bounded(st.counts)
    // A failed guard changes nothing.
    ensures !e.onGrid ==> r == st
    ensures !IsMatchingEntity(e, gIds, gGroups) ==> r == st
    ensures BlockAt(st.blocks, Down(e.blockPos)) !in config ==> r == st
    ensures BlockAt(st.blocks, Down(e.blockPos)) in config
            && !IsMatchingEntity(e, Some(config[BlockAt(st.blocks, Down(e.blockPos))].entityIds),
                                 Some(config[BlockAt(st.blocks, Down(e.blockPos))].spawnGroups))
            ==> r == st
    // Only the history and the block at the position under the entity can change.
    ensures r.counts - {Down(e.blockPos)} == st.counts - {Down(e.blockPos)}
    ensures r.blocks - {Down(e.blockPos)} == st.blocks - {Down(e.blockPos)}
    // The invariants are kept.
    ensures Bounded(r.counts)
    ensures Consistent(st, config) ==> Consistent(r, config)
    // A qualifying step on an untracked position.
    ensures Qualifies(st, config, gIds, gGroups, e) && Down(e.blockPos) !in st.counts ==>
            var pos := Down(e.blockPos);
            var rule := config[BlockAt(st.blocks, pos)];
            r == if rule.stepCount > 1 then State(st.counts[pos := History(1, now)], st.blocks)
                 else State(st.counts, st.blocks[pos := rule.nextId])
    // A qualifying step after a positive timeout has elapsed restarts the count at 1.
    ensures Qualifies(st, config, gIds, gGroups, e) && Down(e.blockPos) in st.counts
            && TimedOut(st.counts[Down(e.blockPos)], config[BlockAt(st.blocks, Down(e.blockPos))], now) ==>
            var pos := Down(e.blockPos);
            var rule := config[BlockAt(st.blocks, pos)];
            r == if rule.stepCount > 1 then State(st.counts[pos := History(1, now)], st.blocks)
                 else State(st.counts - {pos}, st.blocks[pos := rule.nextId])
    // Otherwise the count goes up by exactly one; without a timeout that holds
    // however long ago the previous step was.
    ensures Qualifies(st, config, gIds, gGroups, e) && Down(e.blockPos) in st.counts
            && (config[BlockAt(st.blocks, Down(e.blockPos))].timeoutTicks <= 0
                || now - st.counts[Down(e.blockPos)].lastStepTimestamp
                   <= config[BlockAt(st.blocks, Down(e.blockPos))].timeoutTicks as int) ==>
            var pos := Down(e.blockPos);
            var rule := config[BlockAt(st.blocks, pos)];
            var n := st.counts[pos].stepCount as int + 1;
            r == if n < rule.stepCount as int then State(st.counts[pos := History(n as int32, now)], st.blocks)
                 else State(st.counts - {pos}, st.blocks[pos := rule.nextId])
    // The block changes only by a transition, which also drops the history.
    ensures r.blocks != st.blocks ==>
            && Qualifies(st, config, gIds, gGroups, e)
            && BlockAt(r.blocks, Down(e.blockPos)) == config[BlockAt(st.blocks, Down(e.blockPos))].nextId
            && Down(e.blockPos) !in r.counts
  {
    var pos := Down(e.blockPos);
    if !e.onGrid || !IsMatchingEntity(e, gIds, gGroups) then st
    else if BlockAt(st.blocks, pos) !in config then st
    else
      var rule := config[BlockAt(st.blocks, pos)];
      if !IsMatchingEntity(e, Some(rule.entityIds), Some(rule.spawnGroups)) then st
      else
        var n: int32 :=
          if pos !in st.counts then 1
          else if TimedOut(st.counts[pos], rule, now) then 1
          else st.counts[pos].stepCount + 1;
        if n >= rule.stepCount then State(st.counts - {pos}, st.blocks[pos := rule.nextId])
        else State(st.counts[pos := History(n, now)], st.blocks)
  }

  /** With the global sets built from the configured rules, a step qualifies
      exactly when it is on the grid, on a configured block, and accepted by that
      block's rule: the global guard only rejects early what the rule would. */
  lemma GlobalGuardRedundant(st: State, config: Config, e: Entity)
    ensures var pos := Down(e.blockPos);
            Qualifies(st, config, AbsentIfEmpty(UnionIds(config.Values)), AbsentIfEmpty(UnionGroups(config.Values)), e)
            <==> && e.onGrid
                 && BlockAt(st.blocks, pos) in config
                 && IsMatchingEntity(e, Some(config[BlockAt(st.blocks, pos)].entityIds),
                                     Some(config[BlockAt(st.blocks, pos)].spawnGroups))
  {
    var pos := Down(e.blockPos);
    if e.onGrid && BlockAt(st.blocks, pos) in config {
      var rule := config[BlockAt(st.blocks, pos)];
      if IsMatchingEntity(e, Some(rule.entityIds), Some(rule.spawnGroups)) {
        GlobalCheckSubsumed(e, config.Values, rule);
      }
    }
  }

  /** Steps by the same entity at the given world times, in order. */
  function Walk(st: State, config: Config, gIds: Option<set<EntityId>>, gGroups: Option<set<string>>,
                e: Entity, times: seq<int>): (r: State)
    requires Bounded(st.counts)
    ensures Bounded(r.counts)
    ensures Consistent(st, config) ==> Consistent(r, config)
    ensures r.counts - {Down(e.blockPos)} == st.counts - {Down(e.blockPos)}
    ensures r.blocks - {Down(e.blockPos)} == st.blocks - {Down(e.blockPos)}
    decreases |times|
  {
    if times == [] then st
    else Step(Walk(st, config, gIds, gGroups, e, times[..|times| - 1]), config, gIds, gGroups, e, times[|times| - 1])
  }

  /** No two consecutive times are further apart than a positive timeout. */
  predicate WithinTimeout(times: seq<int>, timeoutTicks: int32)
  {
    forall i :: 0 < i < |times| ==> timeoutTicks <= 0 || times[i] - times[i - 1] <= timeoutTicks as int
  }

  /** A qualifying step within the timeout on a position tracked with count `m`
      (and otherwise as `st`) counts it up by one, or transitions the block when
      `m + 1` reaches the threshold. */
  lemma CountedStep(st: State, config: Config, gIds: Option<set<EntityId>>, gGroups: Option<set<string>>,
                    e: Entity, m: int, t: int, now: int)
    requires Bounded(st.counts)
    requires Qualifies(st, config, gIds, gGroups, e)
    requires Down(e.blockPos) !in st.counts
    requires 1 <= m < config[BlockAt(st.blocks, Down(e.blockPos))].stepCount as int
    requires var timeout := config[BlockAt(st.blocks, Down(e.blockPos))].timeoutTicks;
             timeout <= 0 || now - t <= timeout as int
    ensures var pos := Down(e.blockPos);
            var rule := config[BlockAt(st.blocks, pos)];
            var mid := State(st.counts[pos := History(m as int32, t)], st.blocks);
            && Bounded(mid.counts)
            && Step(mid, config, gIds, gGroups, e, now)
               == if m + 1 < rule.stepCount as int then State(st.counts[pos := History((m + 1) as int32, now)], st.blocks)
                  else State(st.counts, st.blocks[pos := rule.nextId])
  {
  }

  /** Threshold correctness: from an untracked position whose block has a rule
      needing `k` steps, qualifying steps with no timeout between them are counted
      one by one and the block transitions on the k-th step, not before. */
  lemma {:induction false} TransitionOnKthStep(st: State, config: Config, gIds: Option<set<EntityId>>,
                                               gGroups: Option<set<string>>, e: Entity, times: seq<int>)
    requires Bounded(st.counts)
    requires Qualifies(st, config, gIds, gGroups, e)
    requires Down(e.blockPos) !in st.counts
    requires 1 <= |times| <= config[BlockAt(st.blocks, Down(e.blockPos))].stepCount as int
    requires WithinTimeout(times, config[BlockAt(st.blocks, Down(e.blockPos))].timeoutTicks)
    ensures var pos := Down(e.blockPos);
            var rule := config[BlockAt(st.blocks, pos)];
            var r := Walk(st, config, gIds, gGroups, e, times);
            if |times| < rule.stepCount as int then
              r == State(st.counts[pos := History(|times| as int32, times[|times| - 1])], st.blocks)
            else
              r == State(st.counts, st.blocks[pos := rule.nextId])
    decreases |times|
  {
    var pos := Down(e.blockPos);
    var rule := config[BlockAt(st.blocks, pos)];
    var m := |times| - 1;
    var prefix := times[..m];
    assert Walk(st, config, gIds, gGroups, e, times)
        == Step(Walk(st, config, gIds, gGroups, e, prefix), config, gIds, gGroups, e, times[m]);
    if m == 0 {
      assert Walk(st, config, gIds, gGroups, e, prefix) == st;
    } else {
      assert WithinTimeout(prefix, rule.timeoutTicks) by {
        forall i | 0 < i < |prefix| ensures rule.timeoutTicks <= 0 || prefix[i] - prefix[i - 1] <= rule.timeoutTicks as int {
          assert prefix[i] == times[i] && prefix[i - 1] == times[i - 1];
        }
      }
      TransitionOnKthStep(st, config, gIds, gGroups, e, prefix);
      assert prefix[m - 1] == times[m - 1];
      CountedStep(st, config, gIds, gGroups, e, m, times[m - 1], times[m]);
    }
  }
}
