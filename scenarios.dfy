/**
 * Short runs of one or two slots, showing what the hook's protocol does
 * end to end: where queued writes end up, what a later mount restores, and
 * how a locked write without a reconcile function fails.
 */
module StateCacheScenarios {
  import opened Wrappers
  import opened StateCacheConfig
  import opened StateCacheKey
  import opened StateCache

  /**
   * Two writes are queued while the load is pending. The load then adopts
   * the stored value and leaves the queue alone; the next write folds the
   * queue into ITS value, oldest first, and the loaded value is discarded.
   */
  method QueuedWritesFoldIntoNextWrite<T>(key: KeyDescriptor, namespace: string, initial: T,
                                          f: (T, T) -> T, serialize: T -> string,
                                          parse: string -> Result<Option<T>>,
                                          payload: string, loaded: T, d1: T, d2: T, next: T)
    returns (afterLoad: Option<T>, queueAfterLoad: seq<T>, afterWrite: Option<T>)
    requires parse(payload) == Success(Some(loaded))
    ensures afterLoad == Some(loaded)
    ensures queueAfterLoad == [d1, d2]
    ensures afterWrite == Some(f(f(next, d1), d2))
  {
    var slot := new Slot(key, initial, Some(f), DefaultConfig(namespace), serialize, parse);
    var o1 := slot.SetState(Literal(d1));
    var o2 := slot.SetState(Fn((prev: Option<T>) => d2));
    assert slot.delayedStates == [d1, d2];
    slot.BeginLoad();
    slot.CompleteLoad(Resolved(Some(payload)));
    afterLoad, queueAfterLoad := slot.state, slot.delayedStates;
    var o3 := slot.SetState(Literal(next));
    assert [d1, d2][..1] == [d1];
    afterWrite := slot.state;
  }

  /**
   * A write between the start of the load and its settlement is applied at
   * once, and then overwritten when the read settles.
   */
  method WriteDuringReadIsOverwritten<T>(key: KeyDescriptor, namespace: string, initial: T,
                                         serialize: T -> string, parse: string -> Result<Option<T>>,
                                         v: T)
    returns (beforeSettle: Option<T>, afterSettle: Option<T>)
    ensures beforeSettle == Some(v)
    ensures afterSettle == Some(initial)
  {
    var slot := new Slot(key, initial, None, DefaultConfig(namespace), serialize, parse);
    slot.BeginLoad();
    var o := slot.SetState(Literal(v));
    beforeSettle := slot.state;
    slot.CompleteLoad(Resolved(None));
    afterSettle := slot.state;
  }

  /**
   * A slot restores the initial state and then writes `v`; what it persists
   * is the state it held before that write. A second slot on the same key
   * that reads back that payload restores the initial state, not `v`.
   */
  method PersistedStateLagsOneWrite<T>(key: KeyDescriptor, namespace: string, initial: T,
                                       serialize: T -> string, parse: string -> Result<Option<T>>,
                                       v: T)
    returns (first: Option<T>, second: Option<T>)
    requires parse(serialize(initial)) == Success(Some(initial))
    ensures first == Some(v)
    ensures second == Some(initial)
  {
    var a := new Slot(key, initial, None, DefaultConfig(namespace), serialize, parse);
    a.BeginLoad();
    a.CompleteLoad(Resolved(None));
    var o := a.SetState(Literal(v));
    first := a.state;
    var stored := Stringify(serialize, Some(initial));
    assert a.log[|a.log| - 1] == SetItem(a.storageKey, stored);
    var b := new Slot(key, initial, None, DefaultConfig(namespace), serialize, parse);
    assert b.storageKey == a.storageKey;
    b.BeginLoad();
    b.CompleteLoad(Resolved(stored));
    second := b.state;
  }

  /**
   * A locked write without a reconcile function throws in strict mode,
   * warns by default and is silently dropped when silenced; the state and
   * the storage stay as they were in all three cases.
   */
  method LockedWriteWithoutReconcile<T>(key: KeyDescriptor, namespace: string, initial: T,
                                        serialize: T -> string, parse: string -> Result<Option<T>>,
                                        v: T, strict: bool, silence: bool)
    returns (outcome: Outcome, value: Option<T>, locked: bool)
    ensures strict ==> outcome == Threw(LockedMessage)
    ensures !strict && !silence ==> outcome == Warned(LockedMessage)
    ensures !strict && silence ==> outcome == Returned
    ensures value == None && locked
  {
    var slot := new Slot(key, initial, None, Config(true, namespace, silence, strict), serialize, parse);
    outcome := slot.SetState(Literal(v));
    value, locked := slot.Snapshot();
  }

  /**
   * A disabled slot starts unlocked with the initial state, its load effect
   * does nothing, and every write is applied directly without storage.
   */
  method DisabledSlotNeverTouchesStorage<T>(key: KeyDescriptor, namespace: string, initial: T,
                                            serialize: T -> string, parse: string -> Result<Option<T>>,
                                            v: T)
    returns (atMount: Option<T>, afterWrite: Option<T>, ghost calls: seq<StorageCall>)
    ensures atMount == Some(initial)
    ensures afterWrite == Some(v)
    ensures calls == []
  {
    var slot := new Slot(key, initial, None, Config(false, namespace, false, false), serialize, parse);
    atMount := slot.state;
    slot.BeginLoad();
    var o := slot.SetState(Literal(v));
    afterWrite := slot.state;
    calls := slot.log;
  }
}
