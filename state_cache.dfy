/**
 * One cache slot of the `useStateCache` hook: a piece of state that is
 * restored from storage when the slot's load effect runs and guarded by a
 * mutex until that effect starts. When caching is enabled, every unlocked
 * write persists the state held before that write. Writes made while the
 * mutex is held are queued when the caller supplied a reconcile function
 * and dropped (or thrown) otherwise.
 *
 * React's scheduling is replaced by sequential steps: each write sees the
 * effect of the one before it, and the asynchronous load is split into its
 * start (mutex released, read issued) and its settlement (read result
 * adopted), between which writes may happen.
 */
module StateCache {
  import opened Wrappers
  import opened StateCacheConfig
  import opened StateCacheKey

  /** React's `SetStateAction<T>`: a literal new state, or an updater of the previous one. */
  datatype SetStateAction<!T> = Literal(value: T) | Fn(update: Option<T> -> T)

  /** What a write does that its caller or the console can observe. */
  datatype Outcome = Returned | Warned(message: string) | Threw(message: string)

  /** The message of the error a locked write without a reconcile function raises. */
  const LockedMessage: string := "cannot set state while mutex locked"

  /** How the storage read of the load effect settles. */
  datatype StorageRead = Resolved(payload: Option<string>) | Rejected

  /** A call the slot makes on the storage backend. */
  datatype StorageCall = GetItem(key: string) | SetItem(key: string, payload: Option<string>)

  /** Where the slot's load effect is. */
  datatype LoadPhase = NotStarted | Reading | Settled

  /**
   * `resolveStateAction` and the `typeof setStateAction === 'function'`
   * test around it: a literal is the new state whatever came before, an
   * updater is applied to the previous state.
   */
  function Resolve<T>(action: SetStateAction<T>, prev: Option<T>): (r: T)
    ensures action.Literal? ==> r == action.value
    ensures action.Fn? ==> r == action.update(prev)
  {
    match action
    case Literal(v) => v
    case Fn(update) => update(prev)
  }

  /**
   * `Array.prototype.reduce` with an initial accumulator, which consumes
   * the items oldest first. Equivalently, the last item is merged last:
   * the fold of a non-empty sequence is `f` of the fold of all but its last
   * item and that item.
   */
  function FoldLeft<T>(f: (T, T) -> T, acc: T, items: seq<T>): (r: T)
    ensures items == [] ==> r == acc
    ensures items != [] ==> r == f(FoldLeft(f, acc, items[..|items| - 1]), items[|items| - 1])
  {
    if items == [] then acc
    else
      var n := |items|;
      assert items[..n - 1] == [] || items[..n - 1][1..] == items[1..][..n - 2];
      FoldLeft(f, f(acc, items[0]), items[1..])
  }

  /**
   * The value `reconcileDelayedState` returns: the queued states folded
   * into the candidate with `reconcile`, oldest first, or the candidate
   * itself when there is no reconcile function or nothing is queued.
   */
  function Reconciled<T>(reconcile: Option<(T, T) -> T>, candidate: T, queue: seq<T>): (r: T)
    ensures reconcile.None? || queue == [] ==> r == candidate
    ensures reconcile.Some? && queue != [] ==>
      r == reconcile.value(Reconciled(reconcile, candidate, queue[..|queue| - 1]), queue[|queue| - 1])
  {
    if reconcile.Some? && |queue| > 0 then
      FoldLeft(reconcile.value, candidate, queue)
    else
      candidate
  }

  /** With "take the incoming state" as reconcile, the newest queued state wins. */
  lemma ReconciledTakeIncoming<T>(candidate: T, queue: seq<T>)
    requires queue != []
    ensures Reconciled(Some((cur: T, incoming: T) => incoming), candidate, queue) == queue[|queue| - 1]
  {
  }

  /** The sum of a sequence of integers. */
  function Sum(xs: seq<int>): (r: int)
  {
    if xs == [] then 0 else Sum(xs[..|xs| - 1]) + xs[|xs| - 1]
  }

  /** With "add the counts" as reconcile, the queued counts are added to the candidate. */
  lemma {:induction false} ReconciledSum(candidate: int, queue: seq<int>)
    ensures Reconciled(Some((cur: int, incoming: int) => cur + incoming), candidate, queue) == candidate + Sum(queue)
  {
    var n := |queue| - 1;
    if n >= 0 {
      ReconciledSum(candidate, queue[..n]);
    }
  }

  /**
   * The state the load effect adopts: the parsed stored value when the read
   * resolved to a payload that parses to something other than `null` or
   * `undefined`; the initial state when nothing was stored (`JSON.parse(null)`
   * is `null`), when the payload does not parse, or when the read failed.
   */
  function Loaded<T>(read: StorageRead, parse: string -> Result<Option<T>>, initial: T): (r: T)
    ensures (read.Resolved? && read.payload.Some? && parse(read.payload.value).Success?
             && parse(read.payload.value).value.Some?) ==> r == parse(read.payload.value).value.value
    ensures (read.Rejected? || read.payload.None? || parse(read.payload.value).Failure?
             || parse(read.payload.value).value.None?) ==> r == initial
  {
    match read
    case Rejected => initial
    case Resolved(None) => initial
    case Resolved(Some(text)) =>
      match parse(text)
      case Failure(_) => initial
      case Success(None) => initial
      case Success(Some(v)) => v
  }

  /**
   * `JSON.stringify` of the state: `undefined` stays `undefined`, a defined
   * state is serialized.
   */
  function Stringify<T>(serialize: T -> string, state: Option<T>): (r: Option<string>)
    ensures state.None? <==> r.None?
    ensures state.Some? ==> r == Some(serialize(state.value))
  {
    match state
    case None => None
    case Some(v) => Some(serialize(v))
  }

  /**
   * A payload this slot's serializer wrote, read back by a parser that
   * faithfully inverts it, restores the serialized state.
   */
  lemma LoadedRoundTrip<T>(serialize: T -> string, parse: string -> Result<Option<T>>, v: T, initial: T)
    requires parse(serialize(v)) == Success(Some(v))
    ensures Loaded(Resolved(Stringify(serialize, Some(v))), parse, initial) == v
  {
  }

  /** One cache slot: the three state cells of the hook and its storage traffic. */
  class Slot<T> {
    const config: Config
    const initialState: T
    const reconcile: Option<(T, T) -> T>
    const serialize: T -> string
    const parse: string -> Result<Option<T>>
    /** `memoizedKey`: computed once, when the slot is created. */
    const storageKey: string

    var mutex: bool
    var state: Option<T>
    var delayedStates: seq<T>

    /** Every call made on the storage backend, oldest first. */
    ghost var log: seq<StorageCall>
    ghost var phase: LoadPhase

    /**
     * The slot's invariant: the mutex is held exactly until the load effect
     * of an enabled slot runs; nothing touches storage before that effect or
     * when caching is disabled, and only the slot's own key is ever used;
     * only an enabled slot with a reconcile function queues states; the
     * state is defined once the slot is disabled or its load has settled.
     */
    ghost predicate Valid()
      reads this
    {
      (mutex <==> config.enabled && phase == NotStarted)
      && (phase == NotStarted || !config.enabled ==> log == [])
      && (forall i :: 0 <= i < |log| ==> log[i].key == storageKey)
      && (delayedStates != [] ==> reconcile.Some? && config.enabled)
      && (state.None? ==> config.enabled && phase != Settled)
    }

    /** The hook's first render: the three `useState` cells and the memoized key. */
    constructor (key: KeyDescriptor, initialState: T, reconcile: Option<(T, T) -> T>,
                 config: Config, serialize: T -> string, parse: string -> Result<Option<T>>)
      ensures Valid()
      ensures this.config == config && this.initialState == initialState && this.reconcile == reconcile
      ensures this.serialize == serialize && this.parse == parse
      ensures storageKey == DeriveKey(config.namespace, key)
      ensures mutex == config.enabled
      ensures state == if config.enabled then None else Some(initialState)
      ensures delayedStates == []
      ensures log == [] && phase == NotStarted
    {
      this.config := config;
      this.initialState := initialState;
      this.reconcile := reconcile;
      this.serialize := serialize;
      this.parse := parse;
      storageKey := DeriveKey(config.namespace, key);
      mutex := config.enabled;
      state := if config.enabled then None else Some(initialState);
      delayedStates := [];
      log := [];
      phase := NotStarted;
    }

    /**
     * The start of the load effect, up to the awaited read: a disabled slot
     * returns at once and touches nothing; an enabled one releases the mutex
     * and then issues the read of its key.
     */
    method BeginLoad()
      requires Valid() && phase == NotStarted
      modifies this
      ensures Valid()
      ensures state == old(state) && delayedStates == old(delayedStates)
      ensures !config.enabled ==> mutex == old(mutex) && log == old(log) && phase == Settled
      ensures config.enabled ==> !mutex && log == old(log) + [GetItem(storageKey)] && phase == Reading
    {
      if !config.enabled {
        phase := Settled;
        return;
      }
      mutex := false;
      log := log + [GetItem(storageKey)];
      phase := Reading;
    }

    /**
     * The end of the load effect: the state becomes the stored value or the
     * initial state (see `Loaded`); no error escapes, and the queued states
     * are left for the next write to fold in.
     */
    method CompleteLoad(read: StorageRead)
      requires Valid() && phase == Reading
      modifies this
      ensures Valid()
      ensures state == Some(Loaded(read, parse, initialState))
      ensures mutex == old(mutex) && delayedStates == old(delayedStates) && log == old(log)
      ensures phase == Settled
    {
      var cached := Loaded(read, parse, initialState);
      state := Some(cached);
      phase := Settled;
    }

    /**
     * `handleSetState`. While the mutex is held, the resolved state is
     * queued when there is a reconcile function, and otherwise the write is
     * dropped with an exception (strict), a warning (not silenced) or
     * nothing. Without the mutex, the queued states are folded into the
     * resolved state, the queue is cleared, the state held BEFORE this write
     * is persisted under the slot's key when caching is enabled, and the
     * folded value becomes the state.
     */
    method SetState(action: SetStateAction<T>) returns (outcome: Outcome)
      requires Valid()
      modifies this
      ensures Valid()
      ensures mutex == old(mutex) && phase == old(phase)
      ensures old(mutex) && reconcile.Some? ==>
        outcome == Returned
        && delayedStates == old(delayedStates) + [Resolve(action, old(state))]
        && state == old(state) && log == old(log)
      ensures old(mutex) && reconcile.None? ==>
        outcome == (if config.strict then Threw(LockedMessage)
                    else if config.silence then Returned
                    else Warned(LockedMessage))
        && delayedStates == old(delayedStates) && state == old(state) && log == old(log)
      ensures !old(mutex) ==>
        outcome == Returned
        && state == Some(Reconciled(reconcile, Resolve(action, old(state)), old(delayedStates)))
        && delayedStates == []
        && log == old(log) + (if config.enabled then [SetItem(storageKey, Stringify(serialize, old(state)))] else [])
    {
      if mutex {
        if reconcile.Some? {
          var delayedState := Resolve(action, state);
          delayedStates := delayedStates + [delayedState];
          outcome := Returned;
        } else if config.strict {
          outcome := Threw(LockedMessage);
        } else if !config.silence {
          outcome := Warned(LockedMessage);
        } else {
          outcome := Returned;
        }
        return;
      }
      var newState := Resolve(action, state);
      newState := Reconciled(reconcile, newState, delayedStates);
      delayedStates := [];
      if config.enabled {
        log := log + [SetItem(storageKey, Stringify(serialize, state))];
      }
      state := Some(newState);
      outcome := Returned;
    }

    /** The triple the hook returns, less the setter: the state and whether the mutex is held. */
    method Snapshot() returns (value: Option<T>, locked: bool)
      requires Valid()
      ensures value == state && locked == mutex
      ensures locked <==> config.enabled && phase == NotStarted
      ensures !config.enabled || phase == Settled ==> value.Some?
    {
      value, locked := state, mutex;
    }
  }
}
