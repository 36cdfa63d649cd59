/**
 What the client stores see of an HTTP call made through axios: the response
 body's `data` on success, or a rejection that may carry the server's error
 envelope. The request itself, the bearer header added from local storage
 and the timing of the call are not part of this model.
 */
module ClientApi {
  import opened Common

  /** The settled request: a 2xx body's payload, an error response (with the envelope's `message`, if any), or no response at all. */
  datatype ApiResult<+T> = Ok(data: T) | HttpError(message: Option<string>) | NetworkError

  /** How an action ends for its caller: it returns a value, or it rethrows the request's error. */
  datatype Completion<+T> = Returned(value: T) | Threw

  /**
   `error.response?.data?.message || fallback`: the server's message when
   it is a non-empty string, the action's fixed text otherwise.
   */
  function ErrorText<T>(res: ApiResult<T>, fallback: string): (m: string)
    requires !res.Ok?
    ensures (res.HttpError? && res.message.Some? && res.message.value != "") ==> m == res.message.value
    ensures !(res.HttpError? && res.message.Some? && res.message.value != "") ==> m == fallback
  {
    if res.HttpError? && res.message.Some? && res.message.value != "" then res.message.value else fallback
  }

  /** Whatever the request's failure, a non-empty fallback makes the recorded error text non-empty. */
  lemma ErrorTextNeverEmpty<T>(res: ApiResult<T>, fallback: string)
    requires !res.Ok? && fallback != ""
    ensures ErrorText(res, fallback) != ""
  {
  }
}
