/** Values shared by the cold and the shared observable: observer identities and the three
    kinds of event an observer can be sent. */
module Events {

  /** An observer, identified as the JavaScript `Set` of subscribers identifies it: by identity. */
  type Id = nat

  /** One call on an observer: `next(value)`, `complete()` or `error(err)`.
      Payloads are untyped in the source; they are modelled as integers. */
  datatype Event = Next(value: int) | Complete | Error(error: int)

  datatype Option<+T> = None | Some(value: T)

  /** The events recorded for `o` in `log`; an observer never written to has received nothing. */
  function Lookup(log: map<Id, seq<Event>>, o: Id): seq<Event>
  {
    if o in log then log[o] else []
  }
}
