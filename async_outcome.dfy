/** What a thunk's API call can end in, and how the thunks turn a failure
    into the value they reject with. */
module AsyncOutcome {
  import opened Domain

  /** The outcome of an API call made with an abort signal. A failure carries
      `error.message`, which may be missing. */
  datatype Outcome<T> = Ok(data: T) | Cancelled | Failed(message: Option<string>)

  /** The outcome of an API call made without an abort signal. */
  datatype Reply<T> = Done(value: T) | Error(message: Option<string>)

  /** How a thunk settles: with its return value, or with the value passed to
      `rejectWithValue`. */
  datatype Settled<T> = Resolved(value: T) | RejectedWithValue(reason: Option<string>)

  const RequestCanceled := "Request Canceled"

  /** `message || fallback`: a missing or empty message gives the fallback. */
  function MessageOr(message: Option<string>, fallback: string): (r: string)
    ensures message.Some? && message.value != "" ==> r == message.value
    ensures message.None? || message.value == "" ==> r == fallback
  {
    if message.Some? && message.value != "" then message.value else fallback
  }

  /** The reject value of a failed fetch: cancellation is tested first. */
  function RejectReason<T>(o: Outcome<T>, fallback: string): string
    requires !o.Ok?
  {
    if o.Cancelled? then RequestCanceled else MessageOr(o.message, fallback)
  }

  /** A failed fetch rejects with exactly "Request Canceled" when it was
      cancelled, whatever its fallback; otherwise with the error's message
      when it has one, and the fallback when it has none. */
  lemma CancelIsCheckedFirst<T>(o: Outcome<T>, fallback: string)
    requires !o.Ok?
    ensures o.Cancelled? ==> RejectReason(o, fallback) == RequestCanceled
    ensures o.Failed? && o.message.Some? && o.message.value != "" ==> RejectReason(o, fallback) == o.message.value
    ensures o.Failed? && (o.message.None? || o.message.value == "") ==> RejectReason(o, fallback) == fallback
  {
  }
}
