/** Verified scenarios of the service: a rule that wears grass into dirt after three steps
    within 100 ticks, and a rule that transitions on the first step. */
module Scenarios {
  import opened Types
  import opened Eligibility
  import opened Trampling
  import opened Service

  const GRASS: BlockId := "minecraft:grass_block"
  const DIRT: BlockId := "minecraft:dirt_path"
  const COW: Entity := Entity("minecraft:cow", Some("creature"), true, Pos(0, 65, 0))

  /** A service loaded with the single rule `rule` for grass, and a world whose
      only recorded block is grass under the cow, at time 0. */
  method Setup(rule: Rule) returns (s: FootpathsService, w: World)
    requires rule.entityIds == {COW.id}
    ensures fresh(s) && fresh(w)
    ensures s.Valid() && s.stepCounts == map[] && s.config == map[GRASS := rule]
    ensures w.blocks == map[Down(COW.blockPos) := GRASS] && w.time == 0
    ensures Qualifies(State(s.stepCounts, w.blocks), s.config, s.entityIds, s.spawnGroups, COW)
  {
    s := new FootpathsService();
    var cfg := map[GRASS := rule];
    s.InitBlockConfig(cfg);
    assert cfg[GRASS] == rule;
    GlobalCheckSubsumed(COW, cfg.Values, rule);
    w := new World(map[Down(COW.blockPos) := GRASS], 0);
  }

  /** Three steps at ticks 0, 10 and 20 under a three-step rule with a 100-tick
      timeout wear the grass into a path and leave nothing tracked. */
  method ThreeStepsTransition() returns (block: BlockId, tracked: bool)
    ensures block == DIRT && !tracked
  {
    var rule := Rule(3, 100, DIRT, {COW.id}, {});
    var s, w := Setup(rule);
    var pos := Down(COW.blockPos);
    s.EntitySteppedOnBlock(COW, w);
    assert s.stepCounts == map[pos := History(1, 0)];
    w.time := 10;
    s.EntitySteppedOnBlock(COW, w);
    assert s.stepCounts == map[pos := History(2, 10)];
    w.time := 20;
    s.EntitySteppedOnBlock(COW, w);
    block := BlockAt(w.blocks, pos);
    tracked := pos in s.stepCounts;
  }

  /** Steps at ticks 0, 10 and 150: the gap of 140 ticks exceeds the timeout, so
      the third step restarts the count at 1 and the grass stays. */
  method TimeoutRestartsCount() returns (block: BlockId, history: Option<History>)
    ensures block == GRASS && history == Some(History(1, 150))
  {
    var rule := Rule(3, 100, DIRT, {COW.id}, {});
    var s, w := Setup(rule);
    var pos := Down(COW.blockPos);
    s.EntitySteppedOnBlock(COW, w);
    assert s.stepCounts == map[pos := History(1, 0)];
    w.time := 10;
    s.EntitySteppedOnBlock(COW, w);
    assert s.stepCounts == map[pos := History(2, 10)];
    w.time := 150;
    s.EntitySteppedOnBlock(COW, w);
    block := BlockAt(w.blocks, pos);
    history := if pos in s.stepCounts then Some(s.stepCounts[pos]) else None;
  }

  /** Under a one-step rule the first step transitions at once and the position
      never enters the tracking map. */
  method OneStepTransition() returns (block: BlockId, tracked: bool)
    ensures block == DIRT && !tracked
  {
    var rule := Rule(1, 100, DIRT, {COW.id}, {});
    var s, w := Setup(rule);
    var pos := Down(COW.blockPos);
    s.EntitySteppedOnBlock(COW, w);
    block := BlockAt(w.blocks, pos);
    tracked := pos in s.stepCounts;
  }
}
