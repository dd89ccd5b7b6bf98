/** What the client pages see of the browser and of the server: the
    persisted key/value cache (`localStorage`), JavaScript's `a || b` on
    strings, and the outcome of one `fetch` whose JSON body carries at most
    a `message`. Throughout the model a JavaScript string is a `string`,
    and `undefined`, `null` and `""` are all written `""` wherever the code
    only asks whether a value is truthy. */
module Browser {

  /** `localStorage`: string keys to string values. */
  type Cache = map<string, string>

  /** `localStorage.getItem(key)` read as a truthy-or-not string: a
      missing key (`null`) reads as `""`. */
  function CachedValue(cache: Cache, key: string): (v: string)
    ensures v != "" <==> key in cache && cache[key] != ""
    ensures v != "" ==> v == cache[key]
  {
    if key in cache then cache[key] else ""
  }

  /** `message || fallback` for a string-valued `message`. */
  function MessageOr(message: string, fallback: string): (r: string)
    ensures r == message || r == fallback
    ensures r != "" <==> message != "" || fallback != ""
    ensures message != "" ==> r == message
  {
    if message != "" then message else fallback
  }

  /** The server's answer to one request: either a response with its status
      (`response.ok`) and the `message` of its JSON body, or an exception
      thrown by `fetch` or by `response.json()`, with its `message`. */
  datatype Reply = Answered(ok: bool, message: string) | Threw(reason: string)
}
