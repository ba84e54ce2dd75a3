/** The cold, unicast `Observable`: it stores a producer and runs it once per `subscribe`.
    A producer is modelled by what it does synchronously when it is run (the events it pushes
    into the subscriber before returning) and by the teardown procedure it returns. */
module ColdObservable {
  import opened Events

  /** Identifies the teardown procedure a producer returns; running it is an effect. */
  type Teardown = nat

  /** The teardown `() => undefined` of a producer that needs no cleanup. */
  const NoopTeardown: Teardown := 0

  /** A producer `(subscriber) => teardown`: the events it pushes into its subscriber while it
      runs, in order, and the teardown it returns. */
  datatype Producer = Producer(sync: seq<Event>, teardown: Teardown)

  /** `new Observable(subscriberFn)`: the only state is the stored producer. */
  datatype Observable = Observable(producer: Producer)

  /** `{ unsubscribe }`: the handle a subscription returns. */
  datatype Disposable = Disposable(unsubscribe: Teardown)

  /** One run of the producer: what it pushed into its subscriber and the handle returned. */
  datatype Activation = Activation(emitted: seq<Event>, handle: Disposable)

  /** Runs the stored producer once and wraps its teardown, unchanged, as the handle. */
  function Activate(obs: Observable): Activation
  {
    Activation(obs.producer.sync, Disposable(obs.producer.teardown))
  }

  /** What subscriptions do to the outside world: the events each observer has received,
      how often a producer has been run, and the teardowns that have been run, in order. */
  datatype Effects = Effects(received: map<Id, seq<Event>>, runs: nat, teardowns: seq<Teardown>)

  const NoEffects := Effects(map[], 0, [])

  function Received(w: Effects, o: Id): seq<Event>
  {
    Lookup(w.received, o)
  }

  datatype Subscription = Subscription(handle: Disposable, after: Effects)

  /** `observable.subscribe(o)`: runs the producer exactly once with `o` as its subscriber,
      so `o` (and nobody else) receives what the producer emits, and returns the producer's
      own teardown as `unsubscribe`. */
  function Subscribe(obs: Observable, o: Id, w: Effects): (r: Subscription)
    ensures r.after.runs == w.runs + 1
    ensures Received(r.after, o) == Received(w, o) + obs.producer.sync
    ensures forall p :: p != o ==> Received(r.after, p) == Received(w, p)
    ensures r.after.teardowns == w.teardowns
    ensures r.handle.unsubscribe == obs.producer.teardown
  {
    var a := Activate(obs);
    Subscription(a.handle, w.(received := w.received[o := Received(w, o) + a.emitted], runs := w.runs + 1))
  }

  /** `disposable.unsubscribe()`: runs the teardown. There is no guard, so every call runs it. */
  function Unsubscribe(d: Disposable, w: Effects): (r: Effects)
    ensures r.teardowns == w.teardowns + [d.unsubscribe]
    ensures r.received == w.received && r.runs == w.runs
  {
    w.(teardowns := w.teardowns + [d.unsubscribe])
  }

  /** Calling `unsubscribe` twice on the same handle runs the producer's teardown twice. */
  lemma UnsubscribeTwiceTearsDownTwice(obs: Observable, o: Id, w: Effects)
    ensures var s := Subscribe(obs, o, w);
            Unsubscribe(s.handle, Unsubscribe(s.handle, s.after)).teardowns
              == w.teardowns + [obs.producer.teardown, obs.producer.teardown]
  {
  }

  /** `n` copies of `s`, one after another. */
  function Repeat(s: seq<Event>, n: nat): seq<Event>
  {
    if n == 0 then [] else s + Repeat(s, n - 1)
  }

  /** Subscribes each observer of `os` in turn, from the effects `w`. */
  function SubscribeAll(obs: Observable, os: seq<Id>, w: Effects): Effects
  {
    if os == [] then w else SubscribeAll(obs, os[1..], Subscribe(obs, os[0], w).after)
  }

  /** Cold replay: every subscription is an independent run of the producer. After subscribing
      the observers `os` one by one, the producer has been run once per subscription and every
      observer has received the producer's events once for each time it was subscribed. */
  lemma {:induction false} ColdReplay(obs: Observable, os: seq<Id>, w: Effects, p: Id)
    ensures SubscribeAll(obs, os, w).runs == w.runs + |os|
    ensures SubscribeAll(obs, os, w).teardowns == w.teardowns
    ensures Received(SubscribeAll(obs, os, w), p)
              == Received(w, p) + Repeat(obs.producer.sync, multiset(os)[p])
  {
    if os != [] {
      var w1 := Subscribe(obs, os[0], w).after;
      ColdReplay(obs, os[1..], w1, p);
      assert os == [os[0]] + os[1..];
      assert multiset(os)[p] == (if p == os[0] then 1 else 0) + multiset(os[1..])[p];
      if p == os[0] {
        calc {
          Received(SubscribeAll(obs, os, w), p);
          Received(w1, p) + Repeat(obs.producer.sync, multiset(os[1..])[p]);
          Received(w, p) + obs.producer.sync + Repeat(obs.producer.sync, multiset(os[1..])[p]);
          Received(w, p) + Repeat(obs.producer.sync, multiset(os)[p]);
        }
      }
    }
  }

  /** The finite producer `onetwothree`: pushes 1, 2, 3 and `complete`, then returns a no-op. */
  const OneTwoThree := Observable(Producer([Next(1), Next(2), Next(3), Complete], NoopTeardown))

  /** Two subscriptions to `onetwothree` each receive the whole sequence, from its start. */
  lemma {:induction false} OneTwoThreeToEachSubscriber(a: Id, b: Id)
    requires a != b
    ensures var w := SubscribeAll(OneTwoThree, [a, b], NoEffects);
            && w.runs == 2
            && Received(w, a) == [Next(1), Next(2), Next(3), Complete]
            && Received(w, b) == [Next(1), Next(2), Next(3), Complete]
  {
    ColdReplay(OneTwoThree, [a, b], NoEffects, a);
    ColdReplay(OneTwoThree, [a, b], NoEffects, b);
    assert multiset([a, b])[a] == 1 && multiset([a, b])[b] == 1;
    assert Repeat(OneTwoThree.producer.sync, 1) == OneTwoThree.producer.sync;
  }
}
