/**
 * The four-variant request state shared by `useRequest` and `useRecoilRequest`.
 * The value is the object shape the code builds (two redundant flags, a status
 * tag and two optional fields), so that a reducer that writes the fields one by
 * one can leave a shape that none of the four variants describes;
 * `Consistent` says when a value is one of the four.
 */
module RequestStates {
  import opened Wrappers
  import opened Errors

  /** The status tag; `Failure` is the code's `'error'`. */
  datatype Status = Pending | InProgress | Success | Failure

  datatype RequestState<T> = RequestState(
    isFetching: bool,
    isFetched: bool,
    status: Status,
    data: Option<T>,
    error: Option<Error>)

  /** The value is one of the four variants of the union type. */
  predicate Consistent<T>(s: RequestState<T>)
    ensures Consistent(s) ==> !(s.isFetching && s.isFetched) && !(s.data.Some? && s.error.Some?)
  {
    && (s.isFetching <==> s.status == InProgress)
    && (s.isFetched <==> s.status == Success)
    && (s.data.Some? <==> s.status == Success)
    && (s.error.Some? <==> s.status == Failure)
  }

  /** The state a cell starts in: nothing fetched, no data, no error. */
  function Initial<T>(): (r: RequestState<T>)
    ensures Consistent(r) && r.status == Pending
    ensures !r.isFetching && !r.isFetched && r.data.None? && r.error.None?
  {
    RequestState(false, false, Pending, None, None)
  }

  /** The state `fetch` writes before it issues the request. */
  function Started<T>(): (r: RequestState<T>)
    ensures Consistent(r) && r.status == InProgress
    ensures r.isFetching && !r.isFetched && r.data.None? && r.error.None?
  {
    RequestState(true, false, InProgress, None, None)
  }

  /** The state written when the request resolves with body `data`. */
  function Succeeded<T>(data: T): (r: RequestState<T>)
    ensures Consistent(r) && r.status == Success
    ensures r.isFetched && r.data == Some(data) && r.error.None?
  {
    RequestState(false, true, Success, Some(data), None)
  }

  /** The state written when the request rejects with `e`. */
  function Failed<T>(e: Error): (r: RequestState<T>)
    ensures Consistent(r) && r.status == Failure
    ensures !r.isFetched && r.data.None? && r.error == Some(e)
  {
    RequestState(false, false, Failure, None, Some(e))
  }

  /** The state written when the request settles with `outcome`. */
  function Settled<T>(outcome: Result<T, Error>): (r: RequestState<T>)
    ensures Consistent(r) && !r.isFetching
    ensures outcome.Ok? <==> r.status == Success
    ensures outcome.Ok? ==> r.data == Some(outcome.value) && r.error.None?
    ensures outcome.Err? ==> r.error == Some(outcome.error) && r.data.None?
  {
    match outcome
    case Ok(d) => Succeeded(d)
    case Err(e) => Failed(e)
  }

  /** A consistent state is exactly one of the four literals the code writes, and back. */
  lemma ConsistentIffVariant<T>(s: RequestState<T>)
    ensures Consistent(s) <==>
      || s == Initial()
      || s == Started()
      || (s.data.Some? && s == Succeeded(s.data.value))
      || (s.error.Some? && s == Failed(s.error.value))
  {
  }

  /** The events that act on a state cell: `fetch` starting, a request settling, `updateState`. */
  datatype CellEvent<!T> =
    | Start
    | Settle(outcome: Result<T, Error>)
    | Update(recipe: RequestState<T> -> RequestState<T>)

  /** The new value of the cell after one event. */
  function Step<T>(s: RequestState<T>, ev: CellEvent<T>): (r: RequestState<T>)
    ensures !ev.Update? ==> Consistent(r)
    ensures ev.Start? ==> r.isFetching && r.data.None? && r.error.None?
    ensures ev.Settle? ==> !r.isFetching && (r.isFetched <==> ev.outcome.Ok?)
  {
    match ev
    case Start => Started()
    case Settle(o) => Settled(o)
    case Update(recipe) => recipe(s)
  }

  /** The value of the cell after a sequence of events, in the order they happen. */
  function Run<T>(s: RequestState<T>, evs: seq<CellEvent<T>>): (r: RequestState<T>)
    ensures |evs| == 0 ==> r == s
    ensures |evs| > 0 && !evs[|evs| - 1].Update? ==> Consistent(r)
    decreases |evs|
  {
    if |evs| == 0 then s else Run(Step(s, evs[0]), evs[1..])
  }

  /** A recipe keeps every consistent state consistent. */
  ghost predicate KeepsConsistent<T(!new)>(recipe: RequestState<T> -> RequestState<T>) {
    forall x :: Consistent(x) ==> Consistent(recipe(x))
  }

  /** Every event except an `updateState` with a recipe that breaks the variants. */
  ghost predicate WellTyped<T(!new)>(ev: CellEvent<T>) {
    ev.Update? ==> KeepsConsistent(ev.recipe)
  }

  lemma {:induction false} RunAppend<T>(s: RequestState<T>, a: seq<CellEvent<T>>, b: seq<CellEvent<T>>)
    ensures Run(s, a + b) == Run(Run(s, a), b)
    decreases |a|
  {
    if |a| > 0 {
      assert (a + b)[0] == a[0];
      assert (a + b)[1..] == a[1..] + b;
      RunAppend(Step(s, a[0]), a[1..], b);
    } else {
      assert a + b == b;
    }
  }

  /** Fetches and settles never leave the four variants; only a recipe can. */
  lemma {:induction false} RunKeepsConsistent<T(!new)>(s: RequestState<T>, evs: seq<CellEvent<T>>)
    requires Consistent(s)
    requires forall i :: 0 <= i < |evs| ==> WellTyped(evs[i])
    ensures Consistent(Run(s, evs))
    decreases |evs|
  {
    if |evs| > 0 {
      assert WellTyped(evs[0]);
      RunKeepsConsistent(Step(s, evs[0]), evs[1..]);
    }
  }

  /**
   * There is no generation guard: whatever happened before, the last request
   * to settle decides the state.
   */
  lemma LastSettleWins<T>(s: RequestState<T>, earlier: seq<CellEvent<T>>, outcome: Result<T, Error>)
    ensures Run(s, earlier + [Settle(outcome)]) == Settled(outcome)
  {
    RunAppend(s, earlier, [Settle(outcome)]);
  }

  /** A re-fetch discards prior data and error at once, also from success or error. */
  lemma RefetchDiscards<T>(s: RequestState<T>, earlier: seq<CellEvent<T>>)
    ensures Run(s, earlier + [Start]) == Started()
    ensures Run(s, earlier + [Start]).data.None? && Run(s, earlier + [Start]).error.None?
  {
    RunAppend(s, earlier, [Start]);
  }

  /**
   * Two overlapping fetches whose responses come back out of order: the first
   * request's (stale) outcome is what the cell finally holds.
   */
  lemma OutOfOrderResponses<T>(s: RequestState<T>, first: Result<T, Error>, second: Result<T, Error>)
    ensures Run(s, [Start, Start, Settle(second), Settle(first)]) == Settled(first)
  {
    var issued: seq<CellEvent<T>> := [Start, Start, Settle(second)];
    assert [Start, Start, Settle(second), Settle(first)] == issued + [Settle(first)];
    LastSettleWins(s, issued, first);
  }
}
