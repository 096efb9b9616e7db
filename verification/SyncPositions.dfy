/**
  Workspace replay positions (packages/contracts/src/sync-position.ts). A sequence belongs to one
  durable replay epoch; epochs have no order, so every comparison demands equal epochs.
 */
module SyncPositions {

  type EntityId = string

  datatype Position = Position(epoch: EntityId, sequence: nat)

  /** `compareSyncPositions(left, right) > 0`; the source throws when the epochs differ. */
  predicate Later(left: Position, right: Position)
    requires left.epoch == right.epoch
  {
    left.sequence > right.sequence
  }

  /** `laterCursor` of packages/cli/src/watch.ts, also the rule by which `acknowledge` moves. */
  function LaterCursor(current: Position, candidate: Position): (r: Position)
    requires current.epoch == candidate.epoch
    ensures r == current || r == candidate
    ensures r.epoch == current.epoch
    ensures current.sequence <= r.sequence && candidate.sequence <= r.sequence
  {
    if Later(candidate, current) then candidate else current
  }
}
