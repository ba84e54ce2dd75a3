# miobservable: the subscription lifecycle in Dafny

This project models the two observable types of `src/index.js` and proves what their
subscription lifecycle guarantees.

- **`Observable`** is a cold, unicast source. It stores a producer. Every `subscribe` runs the
  producer once with the given subscriber. It returns the producer's teardown, unchanged and
  unguarded, as `unsubscribe`. Module `ColdObservable` (`cold_observable.dfy`) models it as values.
  A producer is the sequence of events it pushes synchronously while it runs, plus the teardown
  it returns. `Effects` records what subscriptions do to the outside world: the events each
  observer received, how many producer runs happened, and which teardowns ran.
  `onetwothree` is the constant `OneTwoThree`.
- **`SharedObservable`** is a hot, multicast wrapper. It keeps a `Set` of subscribers and a
  `#started` flag. On the first subscribe it subscribes a broadcaster to the inner observable.
  The broadcaster forwards every `next`/`complete`/`error` to every current subscriber.
  Each returned `unsubscribe` removes its own subscriber and cancels the upstream whenever the set
  is then empty. Module `SharedSpec` (`shared_spec.dfy`) gives its state machine as functions
  over a `State` value (`SubscribeStep`, `UnsubscribeStep`, `UpstreamStep`, `Run` over a sequence
  of calls) and proves the lifecycle properties about them. Module `Shared`
  (`shared_observable.dfy`) is the class itself. Its fields are the source's private fields plus
  two counters and a per-observer log. Each method is proved to produce exactly the state that
  the matching `SharedSpec` step function gives, and to keep the invariant `Valid()`.
  The broadcaster's `for ... of` loop is a `while` loop over the subscriber set.
- `events.dfy` holds the shared vocabulary: observer identities (`Id`) and the three kinds of
  event (`Next(v)`, `Complete`, `Error(e)`).

The model follows the code as written:
- There is no disposed guard. A second `unsubscribe` runs the teardown again.
  For the shared observable, every unsubscribe that finds the set empty cancels the upstream again.
- `#started` is never reset. After the set drains, a new subscriber does not restart the upstream.
- A terminal `complete`/`error` does not return the shared observable to an idle state.
- Callbacks are called unconditionally, so observers are total.
- With a producer that emits synchronously (`onetwothree`), only the first subscriber of a shared
  observable sees its events. The broadcast happens inside that first `subscribe`, before anyone
  else has subscribed.

## Model

| member | source | states |
|---|---|---|
| `ColdObservable.Subscribe` | src/index.js:42-45 | runs the producer exactly once (runs + 1); the given observer, and no other, receives the producer's events; the handle's `unsubscribe` is exactly the producer's teardown; no teardown runs |
| `ColdObservable.Unsubscribe` | src/index.js:43-44 | calling the handle runs its teardown, appended to the teardowns run so far, and changes nothing else |
| `ColdObservable.UnsubscribeTwiceTearsDownTwice` | src/index.js:42-45 | the handle is unguarded: two calls run the producer's teardown twice |
| `ColdObservable.ColdReplay` | src/index.js:32-45 | subscribing a sequence of observers runs the producer once per subscription; each observer receives the producer's full event sequence once per time it subscribed, from the start; no teardown runs |
| `ColdObservable.OneTwoThreeToEachSubscriber` | src/index.js:100-108 | two subscribers of `onetwothree` each receive 1, 2, 3, complete; the producer runs twice |
| `ColdObservable.Activate` | src/index.js:43-44 | one run of the stored producer: the events it pushes into its subscriber and its teardown wrapped unchanged as the handle; described by the `ColdObservable.Subscribe` row |
| `ColdObservable.OneTwoThree` | src/index.js:100-108 | the producer that pushes 1, 2, 3, complete and returns a no-op teardown; described by the `ColdObservable.OneTwoThreeToEachSubscriber` and `SharedSpec.OneTwoThreeShared` rows |
| `SharedSpec.Init` | src/index.js:53-60 | the new shared observable: empty set, not started, no upstream handle, no counts, empty logs; described by the `SharedSpec.InitInv` row |
| `SharedSpec.Broadcast` | src/index.js:66-82 | one broadcaster callback: the event sent to every current subscriber; described by the `SharedSpec.DeliverLookup` row |
| `SharedSpec.SubscribeStep` | src/index.js:62-85 | `subscribe(o)`: add to the set and, only when not started, activate the inner observable, broadcast its synchronous events, keep its handle and set started; described by the `SharedSpec.SubscribeSpec` row |
| `SharedSpec.UnsubscribeStep` | src/index.js:88-94 | the `unsubscribe` closure: delete the observer, then cancel the upstream if the set is empty; described by the `SharedSpec.UnsubscribeSpec` row |
| `SharedSpec.UpstreamStep` | src/index.js:66-82 | a later `next`/`complete`/`error` from the upstream, broadcast to the current set; described by the `SharedSpec.UpstreamSpec` row |
| `SharedSpec.InitInv` | src/index.js:53-60 | a new shared observable has an empty set, is not started and satisfies the lifecycle invariant |
| `SharedSpec.StepStarts` | src/index.js:65-85 | after any call the upstream is started iff it was already, or the call was a subscribe (`#started` is never reset) |
| `SharedSpec.DeliverOneMore` | src/index.js:68-70 | one more turn of the broadcaster's loop: the log after delivering to the observers done so far plus one more is the previous log with the event appended for that one observer |
| `SharedSpec.DeliverLookup` | src/index.js:67-81 | one broadcast appends the event once to each target's log; every other observer's log is unchanged |
| `SharedSpec.DeliverAllLookup` | src/index.js:66-82 | broadcasting a sequence of events gives each target all of them, in order, after what it had; other observers get nothing |
| `SharedSpec.DeliverAllSnoc` | src/index.js:66-82 | broadcasting events one call at a time, as the producer calls the broadcaster, gives the same logs as broadcasting the whole sequence |
| `SharedSpec.SubscribeSpec` | src/index.js:62-85 | subscribe leaves the set equal to old set plus the observer; the upstream is started afterwards; it is activated only if it was not started; on activation the producer's synchronous events reach the set that already includes the new observer; a subscribe to a started upstream delivers nothing |
| `SharedSpec.SubscribeTwice` | src/index.js:63 | in any state satisfying the invariant, subscribing an observer that is already in the set changes nothing (set semantics) |
| `SharedSpec.StepKeepsInv` | src/index.js:62-95 | every subscribe, unsubscribe or upstream event keeps the invariant: activations is 1 if started and 0 otherwise, and `#cancel` holds the inner observable's handle exactly when started |
| `SharedSpec.RunActivatesAtMostOnce` | src/index.js:54-85 | across any sequence of calls the invariant holds and the upstream is activated at most once; it is started iff it was started or some call was a subscribe |
| `SharedSpec.ActivatedOnceIffSubscribed` | src/index.js:54-85 | from a new shared observable, the upstream activation count is 1 if some call subscribed and 0 otherwise |
| `SharedSpec.UnsubscribeSpec` | src/index.js:88-94 | unsubscribe removes exactly its own observer, and leaves the set unchanged if it is absent; it cancels the upstream (count + 1) iff the set is empty afterwards; logs, flag and activations are unchanged |
| `SharedSpec.UnsubscribeWhileOthersRemain` | src/index.js:91-93 | while another observer remains, unsubscribe never tears down the upstream |
| `SharedSpec.UnsubscribeIsNotIdempotent` | src/index.js:88-94 | two unsubscribes of the last observer cancel the upstream twice |
| `SharedSpec.UpstreamSpec` | src/index.js:66-82 | a later upstream next/complete/error is appended once to every current subscriber's log; others get nothing; nothing else changes |
| `SharedSpec.OutsiderReceivesNothing` | src/index.js:62-96 | an observer that never subscribes is never in the set and receives nothing, whatever the sequence of calls |
| `SharedSpec.ThreeSubscribersThenDrain` | src/index.js:141-160 | three subscribers then three unsubscribes: one activation; no teardown after the first two unsubscribes; exactly one after the last |
| `SharedSpec.OneTwoThreeShared` | src/index.js:62-108 | over `onetwothree`, the first subscriber receives 1, 2, 3, complete and a second receives nothing; after draining, a resubscribe neither reactivates the producer nor delivers anything |
| `Shared.SharedObservable.constructor` | src/index.js:53-60 | the new object is the initial state (empty set, not started, no handle) and is valid |
| `Shared.SharedObservable.Broadcast` | src/index.js:67-81 | the loop over the subscriber set leaves exactly the state the broadcast step gives: the event appended to each member's log |
| `Shared.SharedObservable.Subscribe` | src/index.js:62-96 | the new state is exactly `SubscribeStep` of the old; validity is kept; the returned handle is for this observer |
| `Shared.SharedObservable.Unsubscribe` | src/index.js:88-94 | the new state is exactly `UnsubscribeStep` of the old; validity is kept |
| `Shared.SharedObservable.OnNext` | src/index.js:67-71 | the new state is the upstream step for `next(item)`; validity is kept |
| `Shared.SharedObservable.OnComplete` | src/index.js:72-76 | the new state is the upstream step for `complete()`; validity is kept |
| `Shared.SharedObservable.OnError` | src/index.js:77-81 | the new state is the upstream step for `error(e)`; validity is kept |

## Left out

- `keepgoing` (src/index.js:111-121) is not modelled. It depends on `setInterval`/`clearInterval` timers and `Math.random()` floats. The shared observable's later upstream events (`OnNext`, `OnComplete`, `OnError`) stand for such externally driven ticks.
- The demo consumers and their `setTimeout` schedule (src/index.js:141-160) are console I/O and timers. Only the order of their calls is modelled, in `ThreeSubscribersThenDrain`.
- The commented-out `fromMouseMove` (src/index.js:127-139) is not modelled: it is commented out and registers a DOM listener.
- Producers are fixed synchronous event sequences plus a teardown identifier, not arbitrary closures. What a teardown does (such as stopping a timer) is not modelled; only the fact that it was called is recorded.
- Events that a cold producer pushes into its subscriber after `subscribe` has returned do not pass through `Observable`, so they are not modelled there.
- Re-entrant `subscribe`/`unsubscribe` from inside a broadcast callback is not modelled. The source iterates the live `Set`. The model's methods run to completion, and no callback calls back into the object.
- The order in which a broadcast visits subscribers is not modelled. A JavaScript `Set` iterates in insertion order; the model visits members in an arbitrary order. Each observer's own log is the same either way.
- Partial observers are not modelled: the source calls every callback unconditionally and would throw on a missing one.
- A producer that throws during activation is not modelled; the source has no handling for it.
- The shared observable's `unsubscribe` on a handle that was never returned is not modelled. `Unsubscribe` and the upstream events require `started`, which every handle and the broadcaster imply. So the source's `#cancel.unsubscribe()` on an undefined `#cancel` cannot arise.
- `Shared.SharedObservable.Unsubscribe`: the upstream cancel is counted in `upstreamCancels` rather than run through `ColdObservable.Unsubscribe`. The invariant `Valid()` ties the stored handle to the inner producer's teardown.
- Payload values (`any` in the source) are modelled as integers.
