/** `HttpClient.fetchWithRetry`: a request repeated up to `retries` times,
    with exponential back-off between failed attempts. The network is a
    parameter: `fetch(init, a)` is what attempt `a` produced. */
module Http {
  import opened Wrappers
  import opened Js

  const UserAgent := "Report-Framework/1.0"

  /** The options object; a field that is absent takes its default. */
  datatype Options = Options(
    timeout: Option<int>,
    retries: Option<int>,
    headers: Option<seq<Prop>>,
    verb: Option<string>,
    body: Option<string>)

  datatype Response = Response(ok: bool, status: int, statusText: string)

  /** What one `fetch` call produced: a response, or a thrown error. */
  datatype Attempt = Answered(response: Response) | Threw(message: string)

  /** The `RequestInit` handed to `fetch` on every attempt. */
  datatype FetchInit = FetchInit(verb: string, headers: seq<Prop>, body: Option<string>)

  function MethodOf(o: Options): string { o.verb.GetOr("GET") }

  function RetriesOf(o: Options): int { o.retries.GetOr(3) }

  /** The request: the default User-Agent header overridden by the caller's
      headers, and the body only for a non-empty body on a method other
      than GET or HEAD. */
  function Init(o: Options): (init: FetchInit)
    ensures init.verb == MethodOf(o)
    ensures init.body.Some? <==>
      o.body.Some? && o.body.value != "" && MethodOf(o) != "GET" && MethodOf(o) != "HEAD"
    ensures init.body.Some? ==> init.body == o.body
  {
    var m := MethodOf(o);
    FetchInit(m, Spread(DefaultHeaders, o.headers.GetOr([])),
      if o.body.Some? && o.body.value != "" && m != "GET" && m != "HEAD" then o.body else None)
  }

  const DefaultHeaders := [Prop("User-Agent", Str(UserAgent))]

  /** Every header the caller gives is sent as given; otherwise only the
      User-Agent is set, to the framework's own. */
  lemma InitHeaders(o: Options, k: string)
    requires DistinctKeys(o.headers.GetOr([]))
    ensures Lookup(Init(o).headers, k) ==
      if k in Keys(o.headers.GetOr([])) then Lookup(o.headers.GetOr([]), k)
      else if k == "User-Agent" then Str(UserAgent) else Undefined
  {
    LookupSpread(DefaultHeaders, o.headers.GetOr([]), k);
  }

  /** A response that is OK or below 500 is handed back as it is. */
  predicate Accepted(a: Attempt) {
    a.Answered? && (a.response.ok || a.response.status < 500)
  }

  /** The message of a failed attempt. */
  function FailureText(a: Attempt): string {
    match a
    case Answered(resp) => "HTTP " + IntToString(resp.status) + ": " + resp.statusText
    case Threw(message) => message
  }

  function Pow2(n: nat): (p: nat)
    ensures p >= 1
  {
    if n == 0 then 1 else 2 * Pow2(n - 1)
  }

  /** `Math.min(1000 * Math.pow(2, attempt), 10000)` */
  function Backoff(attempt: nat): (ms: int)
    ensures 1000 <= ms <= 10000
  {
    if 1000 * Pow2(attempt) < 10000 then 1000 * Pow2(attempt) else 10000
  }

  /** The waits before attempts 1 .. n. */
  function Backoffs(n: nat): (waits: seq<int>)
    ensures |waits| == n
    ensures forall a :: 0 <= a < n ==> waits[a] == Backoff(a)
  {
    seq(n, a requires 0 <= a < n => Backoff(a))
  }

  /** The schedule: 1 s, 2 s, 4 s, 8 s, then 10 s for every later wait. */
  lemma BackoffSchedule(a: nat)
    ensures a <= 3 ==> Backoff(a) == 1000 * Pow2(a)
    ensures a >= 4 ==> Backoff(a) == 10000
    ensures Backoff(a) <= Backoff(a + 1)
  {
    if a >= 4 {
      Pow2Grows(4, a);
    }
  }

  lemma {:induction false} Pow2Grows(a: nat, b: nat)
    requires a <= b
    ensures Pow2(a) <= Pow2(b)
    decreases b - a
  {
    if a < b {
      Pow2Grows(a + 1, b);
    }
  }

  function FailedMessage(retries: int, last: Option<string>): string {
    "Failed after " + IntToString(retries) + " attempts: "
      + (if last.Some? && last.value != "" then last.value else "Unknown error")
  }

  /** `fetchWithRetry(url, options)`. Returns the accepted response, or the
      error thrown at the end, together with the waits made between
      attempts. */
  method FetchWithRetry(o: Options, fetch: (FetchInit, nat) -> Attempt)
    returns (r: Result<Response>, waits: seq<int>)
    ensures r.Ok? <==> exists k :: 0 <= k < RetriesOf(o) && Accepted(fetch(Init(o), k))
    ensures r.Ok? ==> exists k ::
      && 0 <= k < RetriesOf(o) && Accepted(fetch(Init(o), k))
      && (forall j :: 0 <= j < k ==> !Accepted(fetch(Init(o), j)))
      && r.value == fetch(Init(o), k).response
      && waits == Backoffs(k)
    ensures r.Err? ==>
      waits == Backoffs(if RetriesOf(o) > 0 then RetriesOf(o) - 1 else 0)
      && r.msg == FailedMessage(RetriesOf(o),
           if RetriesOf(o) > 0 then Some(FailureText(fetch(Init(o), RetriesOf(o) - 1))) else None)
  {
    var init := Init(o);
    var retries := RetriesOf(o);
    var lastError: Option<string> := None;
    waits := [];
    var attempt: nat := 0;
    while attempt < retries
      invariant attempt < retries || attempt == 0
      invariant forall j :: 0 <= j < attempt ==> !Accepted(fetch(init, j))
      invariant waits == Backoffs(attempt)
      invariant lastError == if attempt > 0 then Some(FailureText(fetch(init, attempt - 1))) else None
      decreases retries - attempt
    {
      var outcome := fetch(init, attempt);
      if Accepted(outcome) {
        return Ok(outcome.response), waits;
      }
      lastError := Some(FailureText(outcome));
      if attempt == retries - 1 {
        break;
      }
      waits := waits + [Backoff(attempt)];
      attempt := attempt + 1;
    }
    r := Err(FailedMessage(retries, lastError));
  }
}
