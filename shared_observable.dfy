/** `SharedObservable`: a hot, multicast wrapper that shares one activation of an inner
    observable among all its subscribers. Each method is proved to do what the matching step
    function of SharedSpec says. */
module Shared {
  import opened Events
  import ColdObservable
  import SharedSpec

  class SharedObservable {
    const inner: ColdObservable.Observable
    var subscribers: set<Id>
    var started: bool
    var cancel: Option<ColdObservable.Disposable>
    var activations: nat
    var upstreamCancels: nat
    /** What each observer has been sent, in order. */
    var log: map<Id, seq<Event>>

    function Model(): SharedSpec.State
      reads this
    {
      SharedSpec.State(inner, subscribers, started, cancel, activations, upstreamCancels, log)
    }

    ghost predicate Valid()
      reads this
    {
      SharedSpec.Inv(Model())
    }

    constructor (observable: ColdObservable.Observable)
      ensures Model() == SharedSpec.Init(observable)
      ensures Valid()
    {
      inner := observable;
      subscribers := {};
      started := false;
      cancel := None;
      activations := 0;
      upstreamCancels := 0;
      log := map[];
    }

    /** The body of each of the broadcaster's three callbacks: a loop over the subscriber set
        that sends `e` to each member. */
    method Broadcast(e: Event)
      modifies this`log
      ensures Model() == SharedSpec.Broadcast(old(Model()), e)
    {
      var pending := subscribers;
      ghost var done: set<Id> := {};
      while pending != {}
        invariant pending + done == subscribers && pending !! done
        invariant log == SharedSpec.Deliver(old(log), done, e)
        decreases pending
      {
        var o :| o in pending;
        SharedSpec.DeliverOneMore(old(log), done, o, e);
        log := log[o := Lookup(log, o) + [e]];
        pending := pending - {o};
        done := done + {o};
      }
    }

    /** `subscribe(o)`: adds `o`, and only if not yet started, runs the inner observable with
        the broadcaster (its synchronous events reach the set that already holds `o`), keeps
        its handle and sets `started`. */
    method Subscribe(o: Id) returns (h: SharedSpec.Handle)
      requires Valid()
      modifies this
      ensures Model() == SharedSpec.SubscribeStep(old(Model()), o)
      ensures Valid()
      ensures h.subscriber == o
    {
      subscribers := subscribers + {o};
      if !started {
        var a := ColdObservable.Activate(inner);
        activations := activations + 1;
        ghost var s1 := Model();
        for i := 0 to |a.emitted|
          invariant Model() == SharedSpec.BroadcastAll(s1, a.emitted[..i])
        {
          assert a.emitted[..i + 1] == a.emitted[..i] + [a.emitted[i]];
          SharedSpec.DeliverAllSnoc(s1.log, s1.subscribers, a.emitted[..i], a.emitted[i]);
          Broadcast(a.emitted[i]);
        }
        assert a.emitted[..|a.emitted|] == a.emitted;
        cancel := Some(a.handle);
        started := true;
      }
      SharedSpec.StepKeepsInv(old(Model()), SharedSpec.Subscribe(o));
      h := SharedSpec.Handle(o);
    }

    /** `h.unsubscribe()`: removes `h`'s observer; if the set is then empty, calls the upstream
        handle's `unsubscribe`. A handle exists only after a subscribe, so `started` holds. */
    method Unsubscribe(h: SharedSpec.Handle)
      requires Valid() && started
      modifies this
      ensures Model() == SharedSpec.UnsubscribeStep(old(Model()), h.subscriber)
      ensures Valid()
    {
      subscribers := subscribers - {h.subscriber};
      if |subscribers| == 0 {
        upstreamCancels := upstreamCancels + 1;
      }
    }

    /** The upstream calls the broadcaster's `next(item)`. */
    method OnNext(item: int)
      requires Valid() && started
      modifies this
      ensures Model() == SharedSpec.UpstreamStep(old(Model()), Next(item))
      ensures Valid()
    {
      Broadcast(Next(item));
    }

    /** The upstream calls the broadcaster's `complete()`. */
    method OnComplete()
      requires Valid() && started
      modifies this
      ensures Model() == SharedSpec.UpstreamStep(old(Model()), Complete)
      ensures Valid()
    {
      Broadcast(Complete);
    }

    /** The upstream calls the broadcaster's `error(e)`. */
    method OnError(err: int)
      requires Valid() && started
      modifies this
      ensures Model() == SharedSpec.UpstreamStep(old(Model()), Error(err))
      ensures Valid()
    {
      Broadcast(Error(err));
    }
  }
}
