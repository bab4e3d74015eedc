/**
 * `UICallback`: the observer list every stateful widget carries. Observers are
 * opaque ids; calling them is modelled by appending one record per call to a
 * notification log, so "fires once" and "does not fire" become statements
 * about that log.
 */
module Callbacks {
  import opened Lists

  /** An observer function registered with `add_change_callback`. */
  type ObserverId = nat

  /** The value a widget passes after itself: `(self, checked)`, `(self, self.get_value())`, `(self, self.value)`. */
  datatype Payload = Flag(flag: bool) | Number(number: real) | Text(text: string)

  /** One call `cb(sender, payload)` made by `_trigger_callback`. */
  datatype Notification = Notification(observer: ObserverId, sender: object, payload: Payload)

  /** The calls `_trigger_callback(sender, payload)` makes, in the order it makes them. */
  function Broadcast(observers: seq<ObserverId>, sender: object, payload: Payload): (r: seq<Notification>)
    ensures |r| == |observers|
  {
    if observers == [] then []
    else [Notification(observers[0], sender, payload)] + Broadcast(observers[1..], sender, payload)
  }

  /** The `i`-th call goes to the `i`-th registered observer, with the same sender and payload as every other. */
  lemma {:induction false} BroadcastElements(observers: seq<ObserverId>, sender: object, payload: Payload)
    ensures forall i :: 0 <= i < |observers| ==> Broadcast(observers, sender, payload)[i] == Notification(observers[i], sender, payload)
  {
    if observers != [] {
      BroadcastElements(observers[1..], sender, payload);
    }
  }

  /** Registering one more observer at the end adds one call at the end. */
  lemma {:induction false} BroadcastSnoc(observers: seq<ObserverId>, cb: ObserverId, sender: object, payload: Payload)
    ensures Broadcast(observers + [cb], sender, payload) == Broadcast(observers, sender, payload) + [Notification(cb, sender, payload)]
  {
    if observers != [] {
      assert (observers + [cb])[1..] == observers[1..] + [cb];
      BroadcastSnoc(observers[1..], cb, sender, payload);
    }
  }

  /** Every call any widget has made to any observer, oldest first. */
  class NotificationLog {
    var entries: seq<Notification>

    constructor ()
      ensures entries == []
    {
      entries := [];
    }

    /** One observer being called. */
    method Record(n: Notification)
      modifies this
      ensures entries == old(entries) + [n]
    {
      entries := entries + [n];
    }
  }

  class CallbackRegistry {
    var callbacks: seq<ObserverId>

    /** The list never holds an observer twice. */
    ghost predicate Valid()
      reads this
    {
      Distinct(callbacks)
    }

    constructor ()
      ensures Valid() && callbacks == []
    {
      callbacks := [];
    }

    /** `add_change_callback`: registers `cb` at the end unless it is already registered. */
    method Add(cb: ObserverId)
      requires Valid()
      modifies this
      ensures Valid() && callbacks == AppendNew(old(callbacks), cb)
    {
      if cb !in callbacks {
        callbacks := callbacks + [cb];
      }
    }

    /** `remove_change_callback`: drops `cb` if it is registered, and is a no-op otherwise. */
    method Remove(cb: ObserverId)
      requires Valid()
      modifies this
      ensures Valid() && callbacks == RemoveFirst(old(callbacks), cb)
    {
      if cb in callbacks {
        callbacks := RemoveFirst(callbacks, cb);
      }
    }

    /** `_trigger_callback(sender, payload)`: calls every observer once, in registration order. */
    method Trigger(log: NotificationLog, sender: object, payload: Payload)
      modifies log
      ensures log.entries == old(log.entries) + Broadcast(callbacks, sender, payload)
    {
      var i := 0;
      while i < |callbacks|
        invariant 0 <= i <= |callbacks|
        invariant log.entries == old(log.entries) + Broadcast(callbacks[..i], sender, payload)
      {
        log.Record(Notification(callbacks[i], sender, payload));
        assert callbacks[..i + 1] == callbacks[..i] + [callbacks[i]];
        BroadcastSnoc(callbacks[..i], callbacks[i], sender, payload);
        i := i + 1;
      }
      assert callbacks[..i] == callbacks;
    }
  }
}
