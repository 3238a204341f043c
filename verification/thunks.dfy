/** The actions an async thunk dispatches, and how a thunk body turns a network reply into
    its settling action. The network itself is not modelled: a reply is an input. */
module Thunks {
  import opened Options

  /** One action of a thunk call: `pending` when it starts, then `fulfilled` with the value
      the body returned or `rejected` with the message of the error it threw. */
  datatype Lifecycle<+P> = Pending | Fulfilled(payload: P) | Rejected(message: Option<string>)

  /** What `fetch` hands a thunk body: a reply with its `ok` flag and decoded body, or a
      transport failure (the promise of `fetch` itself rejecting). */
  datatype Response<+B> = Reply(ok: bool, body: B) | TransportFailure(message: Option<string>)

  predicate Succeeded<B>(r: Response<B>) {
    r.Reply? && r.ok
  }

  /** The settling action of a thunk body that throws `Error(failure)` on a reply that is not
      ok and otherwise returns `value`. */
  function Settle<B, P>(r: Response<B>, value: P, failure: string): (a: Lifecycle<P>)
    ensures a != Pending
    ensures a.Fulfilled? <==> Succeeded(r)
    ensures a.Fulfilled? ==> a.payload == value
    ensures r.Reply? && !r.ok ==> a.message == Some(failure)
    ensures r.TransportFailure? ==> a.message == r.message
  {
    match r
    case Reply(ok, _) => if ok then Fulfilled(value) else Rejected(Some(failure))
    case TransportFailure(m) => Rejected(m)
  }

  /** The settling action of a thunk body that returns the decoded reply body. */
  function SettleBody<B>(r: Response<B>, failure: string): (a: Lifecycle<B>)
    ensures a.Fulfilled? <==> Succeeded(r)
    ensures a.Fulfilled? ==> a.payload == r.body
    ensures r.Reply? && !r.ok ==> a == Rejected(Some(failure))
    ensures r.TransportFailure? ==> a == Rejected(r.message)
  {
    match r
    case Reply(ok, body) => Settle(r, body, failure)
    case TransportFailure(m) => Rejected(m)
  }
}
