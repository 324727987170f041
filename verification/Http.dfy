/** One request toward the cloud: the retry loop of apps/integrations/zadara/http.py and
    the reading of its answer by `_authed_get`.

    The network is an arbitrary script: what each of the (at most three) attempts would
    be answered.  Time is counted in seconds. */
module Http {
  const MAX_RETRIES := 2
  const BACKOFF_BASE := 0.5
  const LONGEST_WAIT := 5.0

  datatype Verb = Get | Other

  /** The Retry-After header: a number of seconds, a date that lies `ahead` seconds in the
      future (negative when it is past), or text that is neither. */
  datatype RetryAfter = Missing | Seconds(seconds: real) | Date(ahead: real) | Unreadable

  datatype Answer = TimedOut | Unreachable | Response(status: nat, retryAfter: RetryAfter)

  datatype Error = Timeout | NetworkError | SessionExpired | Forbidden | UpstreamError(status: nat)

  /** What the fetcher hands back for one source: a value or the error it raised. */
  datatype Fetched = Ok(value: Value) | Err(error: Error)
  datatype Value = Reply(status: nat) | Joined(parts: seq<Fetched>)

  /** The answers the three possible attempts would get. */
  type Script = s: seq<Answer> | |s| == MAX_RETRIES + 1 witness [TimedOut, TimedOut, TimedOut]

  datatype Verdict = Deliver(result: Fetched) | Retry(delay: real)

  function Backoff(attempt: nat): real {
    if attempt == 0 then BACKOFF_BASE else 2.0 * Backoff(attempt - 1)
  }

  function Nonnegative(r: real): real {
    if r < 0.0 then 0.0 else r
  }

  function RetryAfterSeconds(header: RetryAfter, default: real): real {
    match header
    case Missing => default
    case Seconds(s) => Nonnegative(s)
    case Date(ahead) => Nonnegative(ahead)
    case Unreadable => default
  }

  function Capped(r: real): real {
    if r < LONGEST_WAIT then r else LONGEST_WAIT
  }

  predicate Transient(status: nat) {
    status == 502 || status == 503 || status == 504
  }

  /** Whether an answer is worth another attempt, attempts permitting. */
  predicate Retryable(verb: Verb, answer: Answer) {
    answer.Response? && ((verb.Get? && Transient(answer.status)) || answer.status == 429)
  }

  /** How the caller reads the answer it is finally given. */
  function Read(answer: Answer): Fetched {
    match answer
    case TimedOut => Err(Timeout)
    case Unreachable => Err(NetworkError)
    case Response(status, _) =>
      if status == 401 then Err(SessionExpired)
      else if status == 403 then Err(Forbidden)
      else if status >= 400 then Err(UpstreamError(status))
      else Ok(Reply(status))
  }

  function Judge(verb: Verb, attempt: nat, answer: Answer): Verdict {
    match answer
    case TimedOut => Deliver(Read(answer))
    case Unreachable => Deliver(Read(answer))
    case Response(status, header) =>
      if verb.Get? && Transient(status) && attempt < MAX_RETRIES then Retry(Backoff(attempt))
      else if status == 429 && attempt < MAX_RETRIES then
        Retry(Capped(RetryAfterSeconds(header, Backoff(attempt))))
      else Deliver(Read(answer))
  }

  /** The outcome of a request whose attempts numbered below `attempt` are already spent. */
  function RequestAlone(verb: Verb, script: Script, attempt: nat): Fetched
    requires attempt <= MAX_RETRIES
    decreases MAX_RETRIES - attempt
  {
    match Judge(verb, attempt, script[attempt])
    case Deliver(result) => result
    case Retry(_) => RequestAlone(verb, script, attempt + 1)
  }

  /** The seconds slept before attempt number `attempts`, when each earlier one is retried. */
  function Slept(verb: Verb, script: Script, attempts: nat): real
    requires attempts <= MAX_RETRIES
  {
    if attempts == 0 then 0.0
    else
      var verdict := Judge(verb, attempts - 1, script[attempts - 1]);
      Slept(verb, script, attempts - 1) + if verdict.Retry? then verdict.delay else 0.0
  }

  lemma DelayIsBounded(verb: Verb, attempt: nat, answer: Answer)
    requires attempt <= MAX_RETRIES
    ensures var v := Judge(verb, attempt, answer);
            v.Retry? <==> Retryable(verb, answer) && attempt < MAX_RETRIES
    ensures var v := Judge(verb, attempt, answer);
            v.Deliver? ==> v.result == Read(answer)
    ensures var v := Judge(verb, attempt, answer);
            v.Retry? ==> 0.0 <= v.delay <= LONGEST_WAIT
  {
    if attempt == 1 {
      assert Backoff(1) == 2.0 * Backoff(0);
    }
  }

  /** The retry loop.  The request is answered by the first answer that is not worth a
      retry, or by the third one; it never takes more than three attempts or ten seconds
      of waiting, whatever the cloud puts in Retry-After. */
  method Request(verb: Verb, script: Script) returns (result: Fetched, attempts: nat, waited: real)
    ensures result == RequestAlone(verb, script, 0)
    ensures 1 <= attempts <= 3 && result == Read(script[attempts - 1])
    ensures forall k :: 0 <= k < attempts - 1 ==> Retryable(verb, script[k])
    ensures attempts == 3 || !Retryable(verb, script[attempts - 1])
    ensures waited == Slept(verb, script, attempts - 1)
    ensures 0.0 <= waited <= LONGEST_WAIT * (attempts - 1) as real <= 10.0
  {
    var attempt := 0;
    waited := 0.0;
    while true
      invariant attempt <= MAX_RETRIES
      invariant RequestAlone(verb, script, 0) == RequestAlone(verb, script, attempt)
      invariant forall k :: 0 <= k < attempt ==> Retryable(verb, script[k])
      invariant 0.0 <= waited <= LONGEST_WAIT * attempt as real
      invariant waited == Slept(verb, script, attempt)
      decreases MAX_RETRIES - attempt
    {
      var answer := script[attempt];
      DelayIsBounded(verb, attempt, answer);
      match Judge(verb, attempt, answer) {
        case Retry(delay) =>
          waited := waited + delay;
          attempt := attempt + 1;
        case Deliver(r) =>
          return r, attempt + 1, waited;
      }
    }
  }

  /** What an outcome is, by the status of the answer: the session is over, access is refused, any
      other error of the cloud, or a reply; and a transport failure is its own error. */
  lemma ReadIs(status: nat, header: RetryAfter)
    ensures var outcome := Read(Response(status, header));
            && (outcome == Err(SessionExpired) <==> status == 401) && (outcome == Err(Forbidden) <==> status == 403)
            && (outcome == Err(UpstreamError(status)) <==> status >= 400 && status != 401 && status != 403)
            && (outcome == Ok(Reply(status)) <==> status < 400)
    ensures Read(TimedOut) == Err(Timeout) && Read(Unreachable) == Err(NetworkError)
  {
  }

  /** Which answers are retried, and how long is waited: a GET that met 502, 503 or 504 waits half a
      second, then one; anything that met 429 waits what Retry-After says, as a number of seconds
      or as a date, never less than nothing nor more than five seconds, and the same half second
      and second when it says nothing that can be read.  The status of a GET that is both is not a
      case: 429 is none of the three. */
  lemma WaitIs(verb: Verb, attempt: nat, status: nat, header: RetryAfter)
    requires attempt <= 2
    ensures var verdict := Judge(verb, attempt, Response(status, header));
            var backoff := if attempt == 0 then 0.5 else 1.0;
            && (verdict.Retry? <==> attempt < 2 && (status == 429
                                    || (verb.Get? && (status == 502 || status == 503 || status == 504))))
            && (verdict.Retry? && status != 429 ==> verdict.delay == backoff)
            && (verdict.Retry? && status == 429 ==>
                  match header
                  case Missing => verdict.delay == backoff
                  case Unreadable => verdict.delay == backoff
                  case Seconds(s) => verdict.delay == (if s <= 0.0 then 0.0 else if s <= 5.0 then s else 5.0)
                  case Date(s) => verdict.delay == (if s <= 0.0 then 0.0 else if s <= 5.0 then s else 5.0))
  {
    assert Backoff(0) == 0.5 && Backoff(1) == 1.0;
  }
}
