/** Values shared by every screen of the front end: optional values, the
    numbers JavaScript computes with, the outcome of a `fetch` call and the
    records the backend sends. */
module Common {

  datatype Option<T> = None | Some(value: T)

  /** A JavaScript number as the model sees it: an exact rational, or NaN
      (what `parseFloat` returns when no digit can be read). */
  datatype Num = Finite(value: real) | NaN

  /** `a < b` on numbers: every comparison with NaN is false. */
  predicate Less(a: Num, b: Num) {
    a.Finite? && b.Finite? && a.value < b.value
  }

  /** What `await response.json()` produces: the decoded value, or the
      message of the error it throws on a malformed body. */
  datatype Body<T> = Parsed(value: T) | Unparsable(message: string)

  /** What `await fetch(...)` produces: a rejected promise (network failure,
      with the message of the thrown error) or a response with a status. */
  datatype Reply<T> = NetworkFailure(message: string) | Response(status: nat, body: Body<T>)

  /** `response.ok`: the status lies in 200..299. */
  predicate IsOk<T>(r: Reply<T>) {
    r.Response? && 200 <= r.status <= 299
  }

  /** A reply whose body was decoded: ok status and JSON that parsed. */
  predicate Decoded<T>(r: Reply<T>) {
    IsOk(r) && r.body.Parsed?
  }

  predicate IsUnauthorized<T>(r: Reply<T>) {
    r.Response? && r.status == 401
  }

  /** The decimal numeral of a natural number, as a template literal shows it. */
  function NatToString(n: nat): string
    decreases n
  {
    var digit := ['0' + (n % 10) as char];
    if n < 10 then digit else NatToString(n / 10) + digit
  }

  /** The message of `new Error(`HTTP error! status: ${response.status}`)`. */
  function HttpErrorMessage(status: nat): string {
    "HTTP error! status: " + NatToString(status)
  }

  /** The message a throwing handler leaves in its catch block: the network
      error's, the malformed body's or the one built from a non-ok status. */
  function FailureMessage<T>(r: Reply<T>): string {
    match r
    case NetworkFailure(m) => m
    case Response(status, body) =>
      if 200 <= status <= 299 && body.Unparsable? then body.message else HttpErrorMessage(status)
  }

  /** A sleep record as the backend sends it: missing or null numbers are None. */
  datatype SleepRecord = SleepRecord(totalHours: Option<real>, deepSleepHours: Option<real>, remHours: Option<real>)

  /** JavaScript truthiness of an optional number: null, undefined and 0 are falsy. */
  predicate TruthyNumber(x: Option<real>) {
    x.Some? && x.value != 0.0
  }

  /** A user object (`{ name, email, ... }`) with its string-valued fields. */
  type UserRecord = map<string, string>

  /** `record?.[key]` read for truthiness: the text when present and non-empty. */
  function TextField(record: Option<UserRecord>, key: string): (text: Option<string>)
    ensures text.Some? <==> record.Some? && key in record.value && record.value[key] != ""
    ensures text.Some? ==> text.value == record.value[key]
  {
    if record.Some? && key in record.value && record.value[key] != "" then Some(record.value[key]) else None
  }

  /** `user?.name` read for truthiness. */
  function UserName(user: Option<UserRecord>): Option<string> {
    TextField(user, "name")
  }
}
