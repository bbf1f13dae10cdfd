/**
 * `useRequest` and `useRecoilRequest`: a request descriptor bound to a state
 * cell. The two hooks differ only in where the cell lives: `useRequest` owns a
 * fresh local cell, `useRecoilRequest` is handed a shared atom that other
 * components read and write too. `fetch` is split into the synchronous part
 * (`Fetch`) and the later settlement of one in-flight request (`Settle`), so
 * overlapping fetches are explicit.
 */
module RequestHooks {
  import opened Wrappers
  import opened Errors
  import opened Config
  import opened RequestStates

  /** A state cell: a `useState` slot or a Recoil atom. */
  class Cell<T> {
    var value: RequestState<T>

    constructor (init: RequestState<T>)
      ensures value == init
    {
      value := init;
    }

    /** A setter call with a new value. */
    method Set(v: RequestState<T>)
      modifies this
      ensures value == v
    {
      value := v;
    }
  }

  class Hook<T> {
    /** The cell the hook reads and writes. */
    const cell: Cell<T>
    /** `configRef.current`. */
    var configRef: RequestConfig
    /** How many times `configRef.current` has been given a new object. */
    var configReplacements: nat
    /** The merged configs of the requests issued and not yet settled, oldest first. */
    var inFlight: seq<RequestConfig>

    /** `useRequest(config)`: a fresh local cell in the initial state. */
    constructor Local(config: RequestConfig)
      ensures fresh(cell) && cell.value == Initial()
      ensures configRef == config && configReplacements == 0 && inFlight == []
    {
      cell := new Cell(Initial());
      configRef := config;
      configReplacements := 0;
      inFlight := [];
    }

    /** `useRecoilRequest(config, state)`: the given shared cell, left as it is. */
    constructor Shared(config: RequestConfig, state: Cell<T>)
      ensures cell == state
      ensures configRef == config && configReplacements == 0 && inFlight == []
    {
      cell := state;
      configRef := config;
      configReplacements := 0;
      inFlight := [];
    }

    /** What the hook returns as `state`: the cell's current value. */
    function State(): RequestState<T>
      reads this, cell
    {
      cell.value
    }

    /** A re-render with `config`: `configRef` is replaced only when not deep-equal. */
    method Render(config: RequestConfig) returns (replaced: bool)
      modifies this
      ensures replaced <==> old(configRef) != config
      ensures configRef == config
      ensures configReplacements == old(configReplacements) + (if replaced then 1 else 0)
      ensures inFlight == old(inFlight)
    {
      replaced := configRef != config;
      if replaced {
        configRef := config;
        configReplacements := configReplacements + 1;
      }
    }

    /**
     * `fetch(override)` up to its first suspension: the cell becomes
     * in_progress, dropping any data or error, and the request is issued with
     * the override merged over `configRef`.
     */
    method Fetch(override: Option<RequestConfig>) returns (request: RequestConfig)
      modifies this, cell
      ensures cell.value == Step(old(cell.value), CellEvent.Start) == Started()
      ensures request == Merge(configRef, override)
      ensures inFlight == old(inFlight) + [request]
      ensures configRef == old(configRef) && configReplacements == old(configReplacements)
    {
      cell.Set(Started());
      request := Merge(configRef, override);
      inFlight := inFlight + [request];
    }

    /**
     * The `i`-th in-flight request settles: the cell becomes success with the
     * response body or error with the thrown error, whatever it held before.
     */
    method Settle(i: nat, outcome: Result<T, Error>)
      requires i < |inFlight|
      modifies this, cell
      ensures cell.value == Step(old(cell.value), CellEvent.Settle(outcome)) == Settled(outcome)
      ensures inFlight == old(inFlight[..i] + inFlight[i + 1..])
      ensures configRef == old(configRef) && configReplacements == old(configReplacements)
    {
      cell.Set(Settled(outcome));
      inFlight := inFlight[..i] + inFlight[i + 1..];
    }

    /** `updateState(recipe)`: the cell holds the recipe applied to its value; nothing else changes. */
    method UpdateState(recipe: RequestState<T> -> RequestState<T>)
      modifies cell
      ensures cell.value == Step(old(cell.value), CellEvent.Update(recipe)) == recipe(old(cell.value))
    {
      cell.Set(recipe(cell.value));
    }
  }

  /**
   * Two components, each with its own hook over one shared atom: a write
   * through either is what both see, and the request that settles last decides.
   */
  method SharedCellRace<T>(atom: Cell<T>, config: RequestConfig, first: Result<T, Error>, second: Result<T, Error>)
    modifies atom
    ensures atom.value == Settled(first)
  {
    var a := new Hook.Shared(config, atom);
    var b := new Hook.Shared(config, atom);
    var ra := a.Fetch(None);
    var rb := b.Fetch(None);
    assert b.State() == Started();
    b.Settle(0, second);
    assert a.State() == Settled(second);
    a.Settle(0, first);
  }
}
