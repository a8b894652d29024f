/*
 * Shared value types of the Nowhere Station server core: the spawn stages
 * and stain kinds of NSTypes.h, and an Option wrapper used wherever the
 * original code works with a pointer or key that may be absent.
 */
module Types {

  datatype Option<T> = None | Some(value: T)

  /** ESpawnStage: where the work round is in its pacing curve. */
  datatype SpawnStage = Inactive | Early | Peak | Cleanup

  /**
   * EStainType. The source's `None` enumerator is called `Untyped` here so
   * that it does not clash with `Option.None`.
   */
  datatype StainType = Untyped | Wall | Object | Floor

  /** Position of a stage along one round: Early, Peak, Cleanup, then Inactive. */
  function StageRank(s: SpawnStage): nat
  {
    match s
    case Early => 0
    case Peak => 1
    case Cleanup => 2
    case Inactive => 3
  }

  /** Actor tags (FName values) are compared as strings. */
  type Tag = string

  /** Identifier of a player controller, pawn or world actor. */
  type ActorId = nat
}
