// The runtime's counters: a key exists only once it has been incremented.
module Metrics {

  datatype Metric =
    | StartupStateBlocked | StartupStateBlockCleared
    | OrphanPositionBlocked | OrphanPositionBlockCleared
    | ReconcileMismatchCycles | ReconcileIssues
    | MissingOnExchangeDetected | MissingOnExchangeResolved
    | OrderStateTransitions | OrderSubmissions | OrderAcks | OrderIntents
    | EntryFillReceived
    | ExitPlanCreated | ExitTrackingRegistered | ExitOrderSubmitted | ExitOrderAckReceived
    | ExitPlacementFailed | ExitPlacementSkipped
    | PositionAddBlocked | WorkingEntryBlocked | GuardNonFlat | GuardWorkingEntry | GuardMaxConcurrent
    | ReentryAllowedFlatStaleExit
    | RuntimeDecisionFailures | StalenessIncidents

  type Counters = map<Metric, nat>

  // counters.get(key, default)
  function GetOr(m: Counters, key: Metric, default: nat): nat {
    if key in m then m[key] else default
  }

  function Count(m: Counters, key: Metric): nat { GetOr(m, key, 0) }

  function Add(m: Counters, key: Metric, n: nat): Counters { m[key := Count(m, key) + n] }

  function Inc(m: Counters, key: Metric): Counters { Add(m, key, 1) }

  // No key is present with the value zero.
  ghost predicate NoZeros(m: Counters) { forall k | k in m :: m[k] > 0 }

  // m' comes from m by incrementing some of the given counters.
  ghost predicate Moves(m: Counters, m': Counters, keys: set<Metric>) {
    && (forall k | k !in keys :: (k in m' <==> k in m) && Count(m', k) == Count(m, k))
    && (forall k | k in keys :: Count(m, k) <= Count(m', k))
    && (NoZeros(m) ==> NoZeros(m'))
  }

  lemma MovesOn(m: Counters, m': Counters, key: Metric, n: nat, keys: set<Metric>)
    requires Moves(m, m', keys) && key in keys && n > 0
    ensures Moves(m, Add(m', key, n), keys)
  {
  }
}
