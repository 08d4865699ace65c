/** Value types shared by the footpaths model: positions, entities, block rules and
    the per-position step history. */
module Types {

  /** An optional value; `None` stands for the Java `null` the service uses as
      "no restriction" for its global eligibility sets. */
  datatype Option<+T> = None | Some(value: T)

  /** Java's 32-bit `int`, the type of step counts and timeouts. */
  newtype int32 = x: int | -0x8000_0000 <= x < 0x8000_0000

  const INT_MAX: int32 := 0x7fff_ffff

  /** Registry identifiers of entity kinds and of blocks. */
  type EntityId = string
  type BlockId = string

  /** A block position in the world. */
  datatype Pos = Pos(x: int, y: int, z: int)

  /** The position one block below `p` (`BlockPos.down(1)`). */
  function Down(p: Pos): Pos
  {
    Pos(p.x, p.y - 1, p.z)
  }

  /** What the service reads of an entity: its kind's registry id, the name of its
      kind's spawn group (absent when the kind has none), whether its vertical
      coordinate is a whole number, and the block position it occupies. */
  datatype Entity = Entity(id: EntityId, group: Option<string>, onGrid: bool, blockPos: Pos)

  /** The runtime configuration of one source block: steps needed to transition,
      the timeout in ticks (0 or less: no timeout), the block to transition into,
      and the entity ids and spawn groups this rule accepts. */
  datatype Rule = Rule(
    stepCount: int32,
    timeoutTicks: int32,
    nextId: BlockId,
    entityIds: set<EntityId>,
    spawnGroups: set<string>)

  /** The configured rules, keyed by the identifier of the source block. */
  type Config = map<BlockId, Rule>

  /** Accumulated trampling of one position: steps since the last reset and the
      world time of the latest of them. */
  datatype History = History(stepCount: int32, lastStepTimestamp: int)
}
