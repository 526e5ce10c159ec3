/** The bounded rate-limit retry loop that both GitHub clients run around one request. The clients differ
  * only in how they classify a response. The server, the clock and the jitter are functions of the attempt
  * number, so every statement ranges over all response streams and all jitter. */
module RateLimitRetry {
  import opened Wrappers

  datatype Api = GraphQL | Rest

  datatype GitHubClient = GitHubClient(api: Api, maxRetries: nat, secondaryBackoff: real)

  // Missing, not a number, or a number that may still be negative.
  datatype RetryAfter = Absent | Unreadable | Seconds(value: real)

  datatype Headers = Headers(remaining: Option<int>, reset: Option<int>, retryAfter: RetryAfter)

  // An error text, reduced to whether it speaks of a secondary rate limit or abuse detection.
  datatype Message = Plain | NamesSecondaryLimit

  // A REST body is its own data and carries at most one message.
  datatype Payload<D> = Malformed | Parsed(messages: seq<Message>, data: Option<D>)

  datatype Response<D> = Response(status: int, headers: Headers, payload: Payload<D>)

  datatype Reply<D> = Raised | Answered(response: Response<D>)

  datatype Verdict<D> = Return(data: D) | Reject | PrimaryLimit | SecondaryLimit

  datatype Outcome<D> = Data(data: D) | TransportError | RequestError | RateLimitError

  // ---------- Classification of one response ----------

  predicate IsSecondaryLimit(api: Api, status: int, headers: Headers, messages: seq<Message>) {
    match api
    case GraphQL => status == 429 || !headers.retryAfter.Absent? || NamesSecondaryLimit in messages
    case Rest => status == 429 || (status == 403 && (!headers.retryAfter.Absent? || NamesSecondaryLimit in messages))
  }

  predicate IsPrimaryLimit(api: Api, status: int, headers: Headers, messages: seq<Message>) {
    && headers.remaining == Some(0)
    && match api { case GraphQL => messages != [] case Rest => status == 403 || status == 429 }
  }

  function Classify<D>(api: Api, r: Response<D>): Verdict<D> {
    match r.payload
    case Malformed => Reject
    case Parsed(messages, data) =>
      if IsPrimaryLimit(api, r.status, r.headers, messages) then PrimaryLimit
      else if IsSecondaryLimit(api, r.status, r.headers, messages) then SecondaryLimit
      else if r.status != 200 || (api.GraphQL? && messages != []) || data.None? then Reject
      else Return(data.value)
  }

  /** GraphQL reports a spent primary limit through errors; a retry-after header alone is a secondary limit, whatever
    * the status. Data needs status 200, no errors and no such header. */
  lemma GraphQLVerdicts<D>(r: Response<D>)
    ensures var spent := r.headers.remaining == Some(0);
            var named := r.payload.Parsed? && exists k :: 0 <= k < |r.payload.messages| && r.payload.messages[k] == NamesSecondaryLimit;
            var slowed := r.status == 429 || r.headers.retryAfter != Absent || named;
            && (Classify(GraphQL, r) == PrimaryLimit <==> r.payload.Parsed? && r.payload.messages != [] && spent)
            && (Classify(GraphQL, r) == SecondaryLimit <==> r.payload.Parsed? && slowed && (spent ==> r.payload.messages == []))
            && (Classify(GraphQL, r).Return? <==>
                  && r.payload.Parsed? && r.payload.messages == [] && r.payload.data.Some?
                  && r.status == 200 && r.headers.retryAfter == Absent)
            && (Classify(GraphQL, r).Return? ==> r.payload.data == Some(Classify(GraphQL, r).data))
  {
  }

  /** REST limits are told by status: 403 or 429 with nothing remaining, any other 429, and a 403 with a retry-after
    * header or a message that names one. A 200 is data whatever its headers and message say. */
  lemma RestVerdicts<D>(r: Response<D>)
    ensures var spent := r.headers.remaining == Some(0);
            var named := r.payload.Parsed? && exists k :: 0 <= k < |r.payload.messages| && r.payload.messages[k] == NamesSecondaryLimit;
            && (Classify(Rest, r) == PrimaryLimit <==> r.payload.Parsed? && spent && (r.status == 403 || r.status == 429))
            && (Classify(Rest, r) == SecondaryLimit <==>
                  && r.payload.Parsed? && !spent
                  && (r.status == 429 || (r.status == 403 && (r.headers.retryAfter != Absent || named))))
            && (Classify(Rest, r).Return? <==> r.payload.Parsed? && r.payload.data.Some? && r.status == 200)
            && (Classify(Rest, r).Return? ==> r.payload.data == Some(Classify(Rest, r).data))
  {
  }

  predicate Returns<D(==)>(api: Api, reply: Reply<D>, data: D) {
    reply.Answered? && Classify(api, reply.response) == Return(data)
  }

  predicate Limited<D>(api: Api, reply: Reply<D>) {
    && reply.Answered?
    && (Classify(api, reply.response).PrimaryLimit? || Classify(api, reply.response).SecondaryLimit?)
  }

  // A limit the client knows how long to wait for: only a primary limit without a reset time is not.
  predicate Clearable<D>(api: Api, reply: Reply<D>) {
    && Limited(api, reply)
    && (Classify(api, reply.response).PrimaryLimit? ==> reply.response.headers.reset.Some?)
  }

  // ---------- Waiting ----------

  function Max(a: real, b: real): real { if a < b then b else a }

  function Min(a: real, b: real): real { if a < b then a else b }

  function Pow2(n: nat): nat { if n == 0 then 1 else 2 * Pow2(n - 1) }

  // A negative number counts as no usable header.
  function UsableRetryAfter(headers: Headers): Option<real> {
    if headers.retryAfter.Seconds? && headers.retryAfter.value >= 0.0
    then Some(headers.retryAfter.value) else None
  }

  function BaseDelay(client: GitHubClient, headers: Headers, attempt: nat): real {
    match UsableRetryAfter(headers)
    case Some(seconds) => seconds
    case None => client.secondaryBackoff * Pow2(attempt) as real
  }

  function Pause<D>(client: GitHubClient, reply: Reply<D>, attempt: nat, now: real, jitter: real -> real): real
    requires Clearable(client.api, reply)
  {
    var headers := reply.response.headers;
    if Classify(client.api, reply.response).PrimaryLimit? then
      Max(0.0, headers.reset.value as real - now) + jitter(1.0)
    else
      var base := BaseDelay(client, headers, attempt);
      base + jitter(Min(5.0, base * 0.1))
  }

  ghost predicate JitterInRange(jitter: real -> real) {
    forall upper :: upper >= 0.0 ==> 0.0 <= jitter(upper) <= upper
  }

  /** A retry never happens earlier than the server allowed, and at most the stated jitter later, which the largest jitter takes. */
  lemma PauseHonoursServer<D>(client: GitHubClient, reply: Reply<D>, attempt: nat, now: real, jitter: real -> real)
    requires Clearable(client.api, reply) && JitterInRange(jitter)
    ensures Classify(client.api, reply.response).PrimaryLimit? ==>
              var reset := reply.response.headers.reset.value as real;
              var wake := now + Pause(client, reply, attempt, now, jitter);
              && now <= wake && reset <= wake
              && wake <= (if reset <= now then now else reset) + 1.0
              && ((forall upper :: jitter(upper) == upper) ==> wake == (if reset <= now then now else reset) + 1.0)
    ensures Classify(client.api, reply.response).SecondaryLimit? ==>
              var retryAfter := reply.response.headers.retryAfter;
              var pause := Pause(client, reply, attempt, now, jitter);
              if retryAfter.Seconds? && 0.0 <= retryAfter.value then
                && retryAfter.value <= pause && pause <= retryAfter.value + 5.0 && pause <= 1.1 * retryAfter.value
                && ((forall upper :: jitter(upper) == upper) ==>
                      pause == retryAfter.value + 5.0 || pause == 1.1 * retryAfter.value)
              else
                client.secondaryBackoff >= 60.0 ==>
                  var base := client.secondaryBackoff * Pow2(attempt) as real;
                  base <= pause <= base + 5.0
  {
    var headers := reply.response.headers;
    if Classify(client.api, reply.response).SecondaryLimit? {
      var base := BaseDelay(client, headers, attempt);
      if UsableRetryAfter(headers).None? && client.secondaryBackoff >= 60.0 {
        BackoffAtLeast(client, attempt);
      }
      assert base >= 0.0 ==> 0.0 <= jitter(Min(5.0, base * 0.1)) <= Min(5.0, base * 0.1);
    } else {
      assert 0.0 <= jitter(1.0) <= 1.0;
    }
  }

  lemma BackoffAtLeast(client: GitHubClient, attempt: nat)
    requires client.secondaryBackoff >= 60.0
    ensures client.secondaryBackoff * Pow2(attempt) as real >= 60.0
  {
    assert Pow2(attempt) >= 1 by { Pow2Positive(attempt); }
  }

  lemma {:induction false} Pow2Positive(n: nat)
    ensures Pow2(n) >= 1
  {
    if n > 0 {
      Pow2Positive(n - 1);
    }
  }

  // ---------- The loop ----------

  /** At most `maxRetries` pauses, each followed by another request, and never past the end of the loop: the
    * last reply decides the outcome. Data is returned exactly when some reply within the budget carries it and
    * every earlier one was a limit that could be waited out. */
  method Execute<D(==, !new)>(client: GitHubClient, server: nat -> Reply<D>, clock: nat -> real, jitter: nat -> real -> real)
    returns (outcome: Outcome<D>, sent: nat, sleeps: seq<real>)
    ensures 1 <= sent <= client.maxRetries + 1 && |sleeps| == sent - 1
    ensures forall k: nat :: k < |sleeps| ==>
              Clearable(client.api, server(k)) &&
              sleeps[k] == Pause(client, server(k), k, clock(k), jitter(k))
    ensures forall data :: outcome == Data(data) <==> Delivers(client, server, data)
    ensures outcome.TransportError? ==> server(sent - 1).Raised?
    ensures outcome.RequestError? ==>
              server(sent - 1).Answered? && Classify(client.api, server(sent - 1).response).Reject?
    ensures outcome.RateLimitError? ==>
              Limited(client.api, server(sent - 1)) &&
              (sent == client.maxRetries + 1 || !Clearable(client.api, server(sent - 1)))
  {
    sent, sleeps := 0, [];
    for attempt := 0 to client.maxRetries + 1
      invariant attempt <= client.maxRetries
      invariant sent == attempt == |sleeps|
      invariant forall k: nat :: k < attempt ==>
                  Clearable(client.api, server(k)) &&
                  sleeps[k] == Pause(client, server(k), k, clock(k), jitter(k))
    {
      var reply := server(attempt);
      sent := sent + 1;
      if reply.Raised? {
        outcome := TransportError;
        return;
      }
      var headers := reply.response.headers;
      match Classify(client.api, reply.response) {
        case PrimaryLimit =>
          if attempt >= client.maxRetries || headers.reset.None? {
            outcome := RateLimitError;
            return;
          }
          var delay := Max(0.0, headers.reset.value as real - clock(attempt)) + jitter(attempt)(1.0);
          sleeps := sleeps + [delay];
        case SecondaryLimit =>
          if attempt >= client.maxRetries {
            outcome := RateLimitError;
            return;
          }
          var retryAfter := UsableRetryAfter(headers);
          var base := if retryAfter.Some? then retryAfter.value
                      else client.secondaryBackoff * Pow2(attempt) as real;
          sleeps := sleeps + [base + jitter(attempt)(Min(5.0, base * 0.1))];
        case Reject =>
          outcome := RequestError;
          return;
        case Return(data) =>
          outcome := Data(data);
          assert Returns(client.api, server(attempt), data);
          return;
      }
    }
    assert false;
  }

  ghost predicate Delivers<D>(client: GitHubClient, server: nat -> Reply<D>, data: D) {
    exists k: nat ::
      && k <= client.maxRetries && Returns(client.api, server(k), data)
      && forall j: nat :: j < k ==> Clearable(client.api, server(j))
  }

  // ---------- Total waiting time ----------

  function Sum(xs: seq<real>): real {
    if xs == [] then 0.0 else Sum(xs[..|xs| - 1]) + xs[|xs| - 1]
  }

  /** The backoffs of the first n attempts together. */
  function Geometric(backoff: real, n: nat): real { backoff * (Pow2(n) - 1) as real }

  /** The pauses of a run in which the client was slowed down only by secondary limits without a usable header. */
  ghost predicate BacksOff<D(!new)>(client: GitHubClient, server: nat -> Reply<D>, clock: nat -> real,
                              jitter: nat -> real -> real, sleeps: seq<real>)
  {
    forall k: nat :: k < |sleeps| ==>
      && Clearable(client.api, server(k))
      && Classify(client.api, server(k).response).SecondaryLimit?
      && UsableRetryAfter(server(k).response.headers).None?
      && JitterInRange(jitter(k))
      && sleeps[k] == Pause(client, server(k), k, clock(k), jitter(k))
  }

  /** Exponential backoff sums to a geometric series, plus at most five seconds of jitter a retry. */
  lemma {:induction false} TotalBackoff<D(!new)>(client: GitHubClient, server: nat -> Reply<D>, clock: nat -> real,
                                           jitter: nat -> real -> real, sleeps: seq<real>)
    requires client.secondaryBackoff >= 60.0 && |sleeps| <= client.maxRetries
    requires BacksOff(client, server, clock, jitter, sleeps)
    ensures var series := Geometric(client.secondaryBackoff, |sleeps|);
            series <= Sum(sleeps) <= series + 5.0 * |sleeps| as real
  {
    hide Pause, Classify, Clearable, Geometric, Pow2, JitterInRange;
    if sleeps == [] {
      GeometricEmpty(client.secondaryBackoff);
    } else {
      var n := |sleeps| - 1;
      assert BacksOff(client, server, clock, jitter, sleeps[..n]);
      TotalBackoff(client, server, clock, jitter, sleeps[..n]);
      PauseHonoursServer(client, server(n), n, clock(n), jitter(n));
      GeometricStep(client.secondaryBackoff, n);
    }
  }

  /** The whole retry budget: the total never exceeds what all `maxRetries` doublings would take. */
  lemma TotalBackoffBudget<D(!new)>(client: GitHubClient, server: nat -> Reply<D>, clock: nat -> real,
                                    jitter: nat -> real -> real, sleeps: seq<real>)
    requires client.secondaryBackoff >= 60.0 && |sleeps| <= client.maxRetries
    requires BacksOff(client, server, clock, jitter, sleeps)
    ensures Sum(sleeps) <= Geometric(client.secondaryBackoff, client.maxRetries) + 5.0 * client.maxRetries as real
  {
    hide *;
    TotalBackoff(client, server, clock, jitter, sleeps);
    GeometricGrows(client.secondaryBackoff, |sleeps|, client.maxRetries);
  }

  lemma {:induction false} GeometricGrows(b: real, m: nat, n: nat)
    requires b >= 0.0 && m <= n
    ensures Geometric(b, m) <= Geometric(b, n)
  {
    hide Geometric;
    if m < n {
      GeometricGrows(b, m, n - 1);
      GeometricStep(b, n - 1);
    }
  }

  lemma GeometricEmpty(b: real)
    ensures Geometric(b, 0) == 0.0
  {
  }

  lemma GeometricStep(b: real, n: nat)
    ensures Geometric(b, n + 1) == Geometric(b, n) + b * Pow2(n) as real
  {
    var p: int := Pow2(n);
    assert (2 * p - 1) as real == (p - 1) as real + p as real;
  }
}
