/** The player's states and errors, with the hand-written equality of the player state. */
module State {
  import opened Wrappers

  /** An error coming from Foundation, kept opaque. */
  datatype FoundationError = FoundationError(code: int)

  datatype PlayerError =
    | MaxRetryCountHit
    | FoundationErr(cause: FoundationError)
    | ItemNotConsideredPlayable
    | NoItemsConsideredPlayable

  datatype PlayerState =
    | Buffering
    | Playing
    | Paused
    | Stopped
    | WaitingForConnection
    | Failed(error: PlayerError)

  /**
   * The custom `==` of the player state: two plain states are equal when they
   * are the same case; two failures when both wrap `maxRetryCountHit` or both
   * wrap a Foundation error; every other pair is unequal.
   */
  predicate StateEquals(lhs: PlayerState, rhs: PlayerState)
  {
    match lhs
    case Failed(e1) =>
      rhs.Failed? &&
      ((e1.MaxRetryCountHit? && rhs.error.MaxRetryCountHit?) || (e1.FoundationErr? && rhs.error.FoundationErr?))
    case _ => lhs == rhs
  }

  /* The `isX` predicates compare with `==` against one case. */
  predicate IsBuffering(s: PlayerState) { StateEquals(s, Buffering) }
  predicate IsPlaying(s: PlayerState) { StateEquals(s, Playing) }
  predicate IsPaused(s: PlayerState) { StateEquals(s, Paused) }
  predicate IsStopped(s: PlayerState) { StateEquals(s, Stopped) }
  predicate IsWaitingForConnection(s: PlayerState) { StateEquals(s, WaitingForConnection) }

  /** `isFailed`: a pattern match, not `==`. */
  predicate IsFailed(s: PlayerState) { s.Failed? }

  /** The wrapped error of a failed state. */
  function ErrorOf(s: PlayerState): (r: Option<PlayerError>)
    ensures r.Some? <==> s.Failed?
    ensures r.Some? ==> s == Failed(r.value)
  {
    if s.Failed? then Some(s.error) else None
  }

  /** Each `isX` predicate holds exactly in its own case. */
  lemma PredicatesMatchCases(s: PlayerState)
    ensures IsBuffering(s) <==> s == Buffering
    ensures IsPlaying(s) <==> s == Playing
    ensures IsPaused(s) <==> s == Paused
    ensures IsStopped(s) <==> s == Stopped
    ensures IsWaitingForConnection(s) <==> s == WaitingForConnection
    ensures IsFailed(s) <==> exists e :: s == Failed(e)
  {
    if s.Failed? {
      assert s == Failed(s.error);
    }
  }

  /** Two non-failed states are equal under `==` exactly when they are the same case. */
  lemma EqualsOnPlainStates(a: PlayerState, b: PlayerState)
    requires !a.Failed? || !b.Failed?
    ensures StateEquals(a, b) <==> a == b && !a.Failed?
  {
  }

  /** Two failed states are equal exactly when both wrap `maxRetryCountHit` or both wrap a Foundation error. */
  lemma EqualsOnFailures(e1: PlayerError, e2: PlayerError)
    ensures StateEquals(Failed(e1), Failed(e2)) <==>
      (e1 == MaxRetryCountHit && e2 == MaxRetryCountHit) || (e1.FoundationErr? && e2.FoundationErr?)
  {
  }

  /** Two Foundation failures compare equal even when the wrapped errors differ. */
  lemma FoundationFailuresAlwaysEqual(c1: FoundationError, c2: FoundationError)
    ensures StateEquals(Failed(FoundationErr(c1)), Failed(FoundationErr(c2)))
  {
  }

  /** `==` is symmetric. */
  lemma EqualsSymmetric(a: PlayerState, b: PlayerState)
    ensures StateEquals(a, b) <==> StateEquals(b, a)
  {
  }

  /** `==` is not reflexive: the two "not playable" failures differ from themselves. */
  lemma EqualsNotReflexive()
    ensures !StateEquals(Failed(ItemNotConsideredPlayable), Failed(ItemNotConsideredPlayable))
    ensures !StateEquals(Failed(NoItemsConsideredPlayable), Failed(NoItemsConsideredPlayable))
  {
  }

  /** `==` is reflexive on every other state. */
  lemma EqualsReflexiveElsewhere(s: PlayerState)
    ensures StateEquals(s, s) <==> !(s == Failed(ItemNotConsideredPlayable) || s == Failed(NoItemsConsideredPlayable))
  {
  }
}
