/** `execute` of apps/backend/src/common/idempotency.service.ts over the Redis keys, updated in place. */
module IdempotencyServiceModel {
  import opened Common
  import opened GatewayCalls

  class IdempotencyService {
    var results: set<Key>
    var locks: set<Key>

    constructor ()
      ensures results == {} && locks == {}
    {
      results := {};
      locks := {};
    }

    /**
      When nothing interferes: the producer runs unless a result or a lock is there, a result is kept
      only when producing and storing succeeded, and the lock is gone again on every path.
     */
    method Execute(key: Option<Key>, produced: bool, stored: bool) returns (outcome: Outcome, ran: bool)
      modifies this`results, this`locks
      ensures ran <==> key.None? || (key.value !in old(results) && key.value !in old(locks))
      ensures locks == old(locks)
      ensures results == old(results) + (if ran && key.Some? && produced && stored then {key.value} else {})
      ensures outcome ==
        if key.Some? && key.value in old(results) then Cached
        else if key.Some? && key.value in old(locks) then InProgress
        else if produced && (key.None? || stored) then Replied
        else Failed
    {
      if key.None? {
        return if produced then Replied else Failed, true;
      }
      if key.value in results {
        return Cached, false;
      }
      if key.value in locks {
        return InProgress, false;
      }
      locks := locks + {key.value};
      outcome, ran := Failed, true;
      if produced && stored {
        results := results + {key.value};
        outcome := Replied;
      }
      locks := locks - {key.value};
    }
  }
}
