/**
 * The retry loop of a worker thread around one task. What the outside answers is given as two
 * lists: whether each launch that is tried succeeds, and what each run of the machine yields.
 */
module Retrying {
  import opened Wrappers

  datatype Code = ProcessRequestFailed | LaunchFailed

  /** `Pending` if the answers run out before the loop ends. */
  datatype Ending<R> = Released(result: R) | Deleted(code: Code) | Pending

  const TRIES: nat := 5

  /** How many answers precede the first good one. */
  function Misses<R>(answers: seq<Option<R>>): (n: nat)
    ensures n <= |answers| && (n < |answers| ==> answers[n].Some?)
    ensures forall i | 0 <= i < n :: answers[i].None?
  {
    if answers == [] || answers[0].Some? then 0 else 1 + Misses(answers[1..])
  }

  /**
   * A failed launch skips the check on the number of tries, so the loop gives up only if the first
   * launch that works comes within five tries; from then on a machine counts as launched.
   */
  method Process<R>(launched: bool, launches: seq<Option<()>>, runs: seq<Option<R>>) returns (e: Ending<R>)
    ensures var failures := if launched then 0 else Misses(launches);
            var bad := Misses(runs);
            if !launched && failures == |launches| then e == Pending
            else if bad < |runs| && (failures >= TRIES || failures + bad < TRIES) then e == Released(runs[bad].value)
            else if failures < TRIES <= failures + bad then e == Deleted(ProcessRequestFailed)
            else e == Pending
  {
    var handle, cnt, l, r := launched, 0, 0, 0;
    while true
      invariant l <= |launches| && r <= |runs| && cnt == l + r - if handle && !launched then 1 else 0
      invariant launched ==> l == 0 && handle
      invariant !launched ==>
                  (if handle then l == Misses(launches) + 1 <= |launches| else l <= Misses(launches) && r == 0)
      invariant r <= Misses(runs)
      invariant handle ==> (if launched then 0 else Misses(launches)) >= TRIES || cnt < TRIES
      decreases |launches| - l + |runs| - r
    {
      if (!handle && l == |launches|) || (handle && r == |runs|) { return Pending; }
      cnt := cnt + 1;
      if !handle {
        l := l + 1;
        if launches[l - 1].None? { continue; }
        handle := true;
        if r == |runs| { return Pending; }
      }
      r := r + 1;
      if runs[r - 1].Some? { return Released(runs[r - 1].value); }
      if cnt == TRIES {
        return Deleted(if !handle then LaunchFailed else ProcessRequestFailed);
      }
    }
  }
}
