/**
 * Bounded-retry LUN allocation. The array picks a candidate LUN on each
 * `map_volume` call; a concurrent attach may take it first, which the array
 * reports as `LunAlreadyInUse`. The controller retries that one failure up
 * to `maxLunRetries` more times and gives up on any other failure at once.
 */
module LunAllocation {
  import opened Wrappers
  import opened Errors

  type Lun = int

  /** What one `map_volume` call answers: the LUN it assigned, or a failure. */
  type MapOutcome = Result<Lun, MediatorError>

  /**
   * The array's answers to successive `map_volume` calls, as data: call `i`
   * (counting from 0) gets `script[i]`; once the script is used up every
   * further call gets `rest`.
   */
  datatype MapOracle = MapOracle(script: seq<MapOutcome>, rest: MapOutcome) {
    function Answer(i: nat): MapOutcome
    {
      if i < |script| then script[i] else rest
    }
  }

  /** The answer the allocation keeps and the number of `map_volume` calls it made. */
  datatype Allocation = Allocation(result: MapOutcome, calls: nat)

  predicate Collision(o: MapOutcome)
  {
    o == Err(LunAlreadyInUse)
  }

  /**
   * What a correct allocation is: between one and `maxLunRetries + 1` calls,
   * every call but the last collided, the result is the last call's answer,
   * and the loop only stops on a collision once the bound is reached.
   */
  ghost predicate IsAllocation(oracle: MapOracle, maxLunRetries: nat, a: Allocation)
  {
    && 1 <= a.calls <= maxLunRetries + 1
    && a.result == oracle.Answer(a.calls - 1)
    && (forall j :: 0 <= j < a.calls - 1 ==> Collision(oracle.Answer(j)))
    && (Collision(a.result) ==> a.calls == maxLunRetries + 1)
  }

  /** Only one allocation fits the description. */
  lemma AllocationUnique(oracle: MapOracle, maxLunRetries: nat, a: Allocation, b: Allocation)
    requires IsAllocation(oracle, maxLunRetries, a) && IsAllocation(oracle, maxLunRetries, b)
    ensures a == b
  {
    var lastA: nat, lastB: nat := a.calls - 1, b.calls - 1;
    assert a.calls < b.calls ==> Collision(oracle.Answer(lastA));
    assert b.calls < a.calls ==> Collision(oracle.Answer(lastB));
  }

  /** Attempts `from`, `from + 1`, ..., at most up to attempt `attempts - 1`. */
  function AllocateFrom(oracle: MapOracle, from: nat, attempts: nat): (a: Allocation)
    requires from < attempts
    ensures from < a.calls <= attempts
    ensures a.result == oracle.Answer(a.calls - 1)
    ensures forall j :: from <= j < a.calls - 1 ==> Collision(oracle.Answer(j))
    ensures Collision(a.result) ==> a.calls == attempts
    decreases attempts - from
  {
    var answer := oracle.Answer(from);
    if Collision(answer) && from + 1 < attempts then AllocateFrom(oracle, from + 1, attempts)
    else Allocation(answer, from + 1)
  }

  /** The allocation the controller performs, as a function of the array's answers. */
  function Allocate(oracle: MapOracle, maxLunRetries: nat): (a: Allocation)
    ensures IsAllocation(oracle, maxLunRetries, a)
  {
    AllocateFrom(oracle, 0, maxLunRetries + 1)
  }

  /**
   * The retry loop: consume successive answers of the array until one is not
   * a collision or `maxLunRetries + 1` calls have been made.
   */
  method AllocateLun(oracle: MapOracle, maxLunRetries: nat) returns (result: MapOutcome, calls: nat)
    ensures IsAllocation(oracle, maxLunRetries, Allocation(result, calls))
    ensures Allocation(result, calls) == Allocate(oracle, maxLunRetries)
  {
    calls := 0;
    result := Err(LunAlreadyInUse);
    while calls <= maxLunRetries
      invariant calls <= maxLunRetries + 1
      invariant forall j :: 0 <= j < calls ==> Collision(oracle.Answer(j))
      invariant calls > 0 ==> result == oracle.Answer(calls - 1)
      invariant calls == 0 ==> Collision(result)
      decreases maxLunRetries + 1 - calls
    {
      result := oracle.Answer(calls);
      calls := calls + 1;
      if !Collision(result) {
        AllocationUnique(oracle, maxLunRetries, Allocation(result, calls), Allocate(oracle, maxLunRetries));
        return;
      }
    }
    AllocationUnique(oracle, maxLunRetries, Allocation(result, calls), Allocate(oracle, maxLunRetries));
  }

  // ---- consequences ------------------------------------------------------

  /** k collisions (k within the bound) and then a LUN: that LUN, after k + 1 calls. */
  lemma AllocateAfterCollisions(oracle: MapOracle, maxLunRetries: nat, k: nat, lun: Lun)
    requires k <= maxLunRetries
    requires forall j :: 0 <= j < k ==> Collision(oracle.Answer(j))
    requires oracle.Answer(k) == Ok(lun)
    ensures Allocate(oracle, maxLunRetries) == Allocation(Ok(lun), k + 1)
  {
    var a := Allocate(oracle, maxLunRetries);
    var last: nat := a.calls - 1;
    assert last < k ==> Collision(oracle.Answer(last));
    assert last > k ==> Collision(oracle.Answer(k));
  }

  /** k collisions and then any other failure: that failure, after k + 1 calls, no retry. */
  lemma AllocateStopsOnOtherFailure(oracle: MapOracle, maxLunRetries: nat, k: nat, e: MediatorError)
    requires k <= maxLunRetries && e != LunAlreadyInUse
    requires forall j :: 0 <= j < k ==> Collision(oracle.Answer(j))
    requires oracle.Answer(k) == Err(e)
    ensures Allocate(oracle, maxLunRetries) == Allocation(Err(e), k + 1)
  {
    var a := Allocate(oracle, maxLunRetries);
    var last: nat := a.calls - 1;
    assert last < k ==> Collision(oracle.Answer(last));
    assert last > k ==> Collision(oracle.Answer(k));
  }

  /** Collisions on all `maxLunRetries + 1` calls exhaust the allocation. */
  lemma AllocateExhausted(oracle: MapOracle, maxLunRetries: nat)
    requires forall j :: 0 <= j <= maxLunRetries ==> Collision(oracle.Answer(j))
    ensures Allocate(oracle, maxLunRetries) == Allocation(Err(LunAlreadyInUse), maxLunRetries + 1)
  {
    var a := Allocate(oracle, maxLunRetries);
    assert Collision(oracle.Answer(a.calls - 1));
  }

  /** The allocation reports a collision exactly when every permitted call collided. */
  lemma ExhaustedOnlyWhenAllCollide(oracle: MapOracle, maxLunRetries: nat)
    ensures Collision(Allocate(oracle, maxLunRetries).result)
        <==> forall j :: 0 <= j <= maxLunRetries ==> Collision(oracle.Answer(j))
  {
    var a := Allocate(oracle, maxLunRetries);
    if forall j :: 0 <= j <= maxLunRetries ==> Collision(oracle.Answer(j)) {
      AllocateExhausted(oracle, maxLunRetries);
    }
  }
}
