/**
 * What the proxies and the client see of the outside world. The network,
 * the model provider and `JSON.parse` are not modelled; each call is an
 * outcome given as a parameter.
 */
module Upstream {
  import opened Wrappers
  import opened Types

  /** How a call ended: it threw (network failure, bad JSON), answered with a non-2xx status, or answered. */
  datatype Outcome<T> = Threw | NotOk(status: int) | Ok(body: T)

  /** The `questions` field of a parsed answer: an array, or anything else (absent included). */
  datatype QuestionsField = NotArray | Items(items: seq<QuizQuestion>)

  /** A message of a chat-completions request; an absent `content` is left out of the JSON. */
  datatype ApiMessage = ApiMessage(role: string, content: Option<string>)

  /** `!apiKey`: an unset or empty key. */
  predicate MissingKey(apiKey: Option<string>) {
    apiKey.None? || apiKey.value == ""
  }

  /** `x || fallback` for a string that may be absent: absent and empty both fall back. */
  function OrElse(x: Option<string>, fallback: string): (r: string)
    ensures x.Some? && x.value != "" ==> r == x.value
    ensures x.None? || x.value == "" ==> r == fallback
  {
    if x.Some? && x.value != "" then x.value else fallback
  }
}
