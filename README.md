# use-state-cache: a Dafny model of the cache slot

`useStateCache(key, initialState, reconcile?)` is a React hook. It keeps one
piece of UI state and persists it to an asynchronous key-value store under a
key derived from a namespace. On mount it restores that state from the store.
The slot's *mutex* is held until the load effect starts. It is released before
the read is issued. A write made while
the mutex is held is queued when the caller supplied a `reconcile` function.
Without one, the write is dropped, with an exception in strict mode, a warning
by default, or nothing when silenced.

This project models one slot of that hook:

- `StateCacheConfig` (config.dfy): the configuration record and its defaults.
- `StateCacheKey` (key.dfy): the derivation of the storage key. It also
  proves that the key splits back into its parts when neither the namespace
  nor any key element contains `/`; otherwise two different slots can share
  one storage key.
- `StateCache` (state_cache.dfy): the pure parts of the hook. These are
  resolving a `SetStateAction` (`Resolve`), the fold of queued states
  (`FoldLeft`, `Reconciled`), the state a settled read yields (`Loaded`) and
  `JSON.stringify` of the state (`Stringify`). It also holds the class `Slot`.
  Its fields `mutex`, `state` and `delayedStates` are the hook's three
  `useState` cells. A ghost `log` records every `getItem`/`setItem` call.
- `StateCacheScenarios` (scenarios.dfy): short runs of one or two slots, built
  only from the class's contracts.
- `Wrappers` (wrappers.dfy): `Option` and `Result`.

JSON is treated as opaque. `serialize: T -> string` stands for
`JSON.stringify`, and `parse: string -> Result<Option<T>>` stands for
`JSON.parse`. There, `Failure` is a thrown parse error and `Success(None)` is a
parsed `null`. The storage read is an input to the load step: it resolves to a
payload or to nothing, or it is rejected. React's scheduling is replaced by
sequential steps, each of which sees the effect of the one before. The load
effect is split into two steps. `BeginLoad` covers the effect up to the
awaited read: an enabled slot releases the mutex and then issues the read.
`CompleteLoad` is the settlement of that read. Writes may come between the
two steps, as they can in the hook.

### Behaviour of the hook worth knowing

- Queued writes are not folded in when the load settles. They stay queued.
  The next unlocked write folds them in, starting from that write's own value;
  the loaded value takes no part in the fold (`useStateCache.ts:87,93`).
  `QueuedWritesFoldIntoNextWrite` shows this.
- The mutex is released before the read is issued (`useStateCache.ts:52`), not
  after the read settles. A write made while the read is pending is applied
  and then overwritten by the settled read (`WriteDuringReadIsOverwritten`).
- An unlocked write persists `JSON.stringify(state)`. That is the state held
  before the write, or `undefined` when the state is still undefined
  (`useStateCache.ts:88,94`). So a later mount restores the value from one
  write earlier (`PersistedStateLagsOneWrite`).
- The key is computed once per slot (`useMemo` with no dependencies) and never
  recomputed or re-validated. An array key joins as `[namespace, ...key]`, so
  an empty array gives the bare namespace with no trailing `/`.
- Keys whose parts contain `/` can collide. Namespace `ns` with key
  `["a/b"]`, namespace `ns` with key `["a", "b"]` and namespace `ns/a` with
  key `"b"` all give the storage key `ns/a/b`, so those slots read and write
  the same stored value.

## Model

| member | source | states |
|---|---|---|
| StateCacheConfig.DefaultConfig | src/contexts/stateCacheConfig.ts:13-19 | the context's defaults: enabled, not silenced, not strict, namespace = package name |
| StateCacheKey.DeriveKey | src/hooks/useStateCache.ts:23-26 | a string key gives `namespace/key`; a non-empty array gives `namespace/` followed by its elements joined with `/`; an empty array gives `namespace` |
| StateCacheKey.SplitJoin | src/hooks/useStateCache.ts:24-25 | splitting on `/` undoes the join when no element contains `/` |
| StateCacheKey.DeriveKeySplit | src/hooks/useStateCache.ts:23-26 | the derived key splits back into the namespace followed by the key's elements, when none contains `/` |
| StateCacheKey.DeriveKeyInjective | src/hooks/useStateCache.ts:23-26 | two slots with `/`-free namespaces and key elements share a storage key only if both namespace and elements are equal |
| StateCacheKey.JoinLast | src/hooks/useStateCache.ts:24-25 | `join('/')` (the function `Join`) puts exactly one `/` between neighbours: the last of two or more elements follows the join of the others after one `/` |
| StateCache.Resolve | src/hooks/useStateCache.ts:42-47 | a literal action is the new state whatever the previous state was; an updater is applied to the previous state (also the dispatch at :69-72, :84-86 and :92) |
| StateCache.FoldLeft | src/hooks/useStateCache.ts:31-34 | the `reduce` fold from an accumulator: an empty queue leaves the accumulator; otherwise the newest item is merged last, into the fold of the items before it |
| StateCache.Stringify | src/hooks/useStateCache.ts:88 | `JSON.stringify(state)`: the payload is undefined exactly when the state is, and otherwise is the serialized state (also :94) |
| StateCache.Reconciled | src/hooks/useStateCache.ts:28-40 | without a reconcile function or with an empty queue the candidate is returned unchanged; otherwise the result is `reconcile` of the fold of all but the newest queued state and the newest one (oldest first) |
| StateCache.ReconciledTakeIncoming | src/hooks/useStateCache.ts:28-40 | with "take incoming" as reconcile, the newest queued state wins |
| StateCache.ReconciledSum | src/hooks/useStateCache.ts:28-40 | with "add the counts" as reconcile, the result is the candidate plus the sum of the queue |
| StateCache.Loaded | src/hooks/useStateCache.ts:53-62 | a payload that parses to something other than null/undefined yields the parsed value; a missing payload, a parse error or a failed read yields the initial state |
| StateCache.LoadedRoundTrip | src/hooks/useStateCache.ts:54-56 | the one-step JSON round trip: with a parser that inverts the serializer, the payload `Stringify` makes for state `v` loads back as `v` (the slot-level run is `PersistedStateLagsOneWrite`) |
| StateCache.Slot.constructor | src/hooks/useStateCache.ts:17-26 | the mutex equals `enabled`; the state is undefined when enabled and the initial state when disabled; the queue and the storage log are empty; the key is the derived key, fixed for the slot's life |
| StateCache.Slot.BeginLoad | src/hooks/useStateCache.ts:49-54 | a disabled slot changes nothing and makes no storage call; an enabled one releases the mutex and logs one `getItem` of its key; the state and the queue do not change |
| StateCache.Slot.CompleteLoad | src/hooks/useStateCache.ts:53-62 | the state becomes `Loaded(read)` and no error escapes; the mutex, the queue and the storage log are unchanged |
| StateCache.Slot.SetState | src/hooks/useStateCache.ts:42-96 | locked with reconcile: appends exactly the resolved state to the queue, nothing else changes; locked without reconcile: throws the locked-mutex error if strict, else warns iff not silenced, and the state, queue and storage are unchanged; unlocked: the state becomes the queue folded into the resolved state, the queue is emptied, and iff enabled one `setItem` of the derived key with the serialized state from before the write is logged; the slot invariant (mutex held exactly until an enabled slot's load starts; no storage call before that or when disabled; only the slot's key is used) is kept |
| StateCache.Slot.Snapshot | src/hooks/useStateCache.ts:97 | returns the state and the mutex; the mutex is held iff enabled and the load has not started; the state is defined once disabled or loaded |
| StateCacheScenarios.QueuedWritesFoldIntoNextWrite | src/hooks/useStateCache.ts:66-95 | two writes queued during the load survive the load and are folded, oldest first, into the next write's value: `f(f(next, d1), d2)`; the loaded value is replaced |
| StateCacheScenarios.WriteDuringReadIsOverwritten | src/hooks/useStateCache.ts:50-62 | a write after the mutex is released but before the read settles is applied, then overwritten by the settled read |
| StateCacheScenarios.PersistedStateLagsOneWrite | src/hooks/useStateCache.ts:92-95 | after a restore and a write of `v`, a second slot on the same key restores the state from before that write, not `v` |
| StateCacheScenarios.LockedWriteWithoutReconcile | src/hooks/useStateCache.ts:74-82 | a locked write without reconcile throws in strict mode, warns by default, is silent when silenced, and leaves the slot locked with an undefined state |
| StateCacheScenarios.DisabledSlotNeverTouchesStorage | src/hooks/useStateCache.ts:17-96 | a disabled slot starts with the initial state, applies writes directly, and makes no storage call |

## Left out

- React rendering and batching. This includes stale closures over `state`/`delayedStates` when several writes happen in one render, the updater form of `setState`, and the effect's empty dependency array. Each write is one sequential step.
- Asynchronous scheduling. The load effect is two atomic steps. The `setItem` promise is not awaited, and its failures are not modelled. `setItem` is only recorded in the log.
- The storage backend (`src/AsyncStorage.ts` and the library it wraps). A read is an input of `CompleteLoad`; `removeItem`, `clear` and `getAllKeys` have no role in the hook.
- The `asyncStorage` field of the configuration record. The hook never reads it: it takes only four fields of the record (`useStateCache.ts:18`) and imports the storage library directly (`useStateCache.ts:1`).
- Changes of `reconcile` during the slot's life. The model fixes `reconcile` when the slot is created. In the hook, the fold in `reconcileDelayedState` uses the first render's `reconcile`, because of `useCallback(…, [])` (`useStateCache.ts:28-40`). The test that decides whether a locked write is queued uses the current render's `reconcile` (`useStateCache.ts:68`). So if `reconcile` is supplied only from a later render, the hook queues locked writes and the next unlocked write clears the queue without folding them in. The model cannot show this: it queues only when its one `reconcile` is present.
- Configuration changes during the slot's life. The model fixes the configuration when the slot is created. In the hook, each render's `handleSetState` reads that render's `enabled`, `strict` and `silence` (`useStateCache.ts:18`), while the key and the load effect keep the values from mount.
- `src/hooks/useStateCacheConfig.ts` is not part of this model. The slot takes the configuration record directly.
- `src/Provider.tsx` (a React provider with the same defaults) and `src/index.ts` (re-exports).
- JSON encoding details and `JSON.stringify` failures on non-serializable values; both functions are parameters.
- The text `console.warn` prints. A warning is the `Warned` outcome.
- The `typeof setStateAction === 'function'` test: the model's datatype tells literals from updaters, so a state type that is itself a function is not modelled.
- Key re-derivation, invalid keys with null elements, and discarding a superseded load. The hook computes its key once, so none of these happen in it.
