/** The lockout of apps/platform_admin/models.py over whole runs of sign-in requests. */
module SignInLockout {
  import opened Options
  import opened SignIn

  ghost predicate CountersLow(s: State) {
    forall email :: email in s.operators ==> s.operators[email].failed < MAX_FAILED_ATTEMPTS
  }

  /** What a request does to one operator's lockout: a wrong guess is noted, a success clears it,
      and nothing else touches it. */
  ghost predicate LockoutEffect(otp: Codes, s: State, request: Request, email: Email)
    requires email in s.operators
  {
    var (t, reply) := Serve(otp, s, request);
    && t.now == s.now && CountersLow(t) && email in t.operators
    && var op, op' := s.operators[email], t.operators[email];
       && (Wrong(otp, s, request, email) ==> op' == NoteFailure(op, s.now) && !reply.SignedIn?)
       && (!Wrong(otp, s, request, email) && reply != SignedIn(email) ==>
             op'.failed == op.failed && op'.lockedUntil == op.lockedUntil)
  }

  lemma LoginEffect(otp: Codes, s: State, who: Email, password: string, ticket: TicketId, newSecret: Secret, email: Email)
    requires CountersLow(s) && email in s.operators
    ensures LockoutEffect(otp, s, Login(who, password, ticket, newSecret), email)
  {
  }

  lemma VerifyEffect(otp: Codes, s: State, ticket: TicketId, code: string, email: Email)
    requires CountersLow(s) && email in s.operators
    ensures LockoutEffect(otp, s, Verify(ticket, code), email)
  {
    var load := Load(s, ticket);
    if load.Some? && Serves(s, load.value.email) {
      var op := s.operators[load.value.email];
      if op.code.None? {
        VerifyTotpIs(otp, s, load.value.email, Asked(op, load.value).secret, code);
      }
    }
  }

  lemma ServeEffect(otp: Codes, s: State, request: Request, email: Email)
    requires CountersLow(s) && email in s.operators
    ensures LockoutEffect(otp, s, request, email)
  {
    match request
    case Login(who, password, ticket, newSecret) => LoginEffect(otp, s, who, password, ticket, newSecret, email);
    case Verify(ticket, code) => VerifyEffect(otp, s, ticket, code, email);
    case _ =>
  }

  /******* Whole runs *******/

  /** How many of the arrivals were wrong guesses at the operator, by the state each one met. */
  ghost function Guesses(otp: Codes, s: State, arrivals: seq<Arrival>, email: Email): nat {
    if arrivals == [] then 0
    else
      var before, a := arrivals[..|arrivals| - 1], arrivals[|arrivals| - 1];
      Guesses(otp, s, before, email)
        + if Wrong(otp, Run(otp, s, before).(now := a.at), a.request, email) then 1 else 0
  }

  /** Nobody was signed in as the operator. */
  predicate NoSuccess(otp: Codes, s: State, arrivals: seq<Arrival>, email: Email) {
    arrivals == [] ||
    (NoSuccess(otp, s, arrivals[..|arrivals| - 1], email) &&
     var a := arrivals[|arrivals| - 1];
     Serve(otp, Run(otp, s, arrivals[..|arrivals| - 1]).(now := a.at), a.request).1 != SignedIn(email))
  }

  /** Along a run without success, from `start` on, the guesses were paid for: each lockout
      took five failures, and lasts fifteen minutes. */
  ghost predicate Paid(start: nat, guesses: int, locks: nat, op: Operator, now: nat) {
    && start <= now
    && guesses <= MAX_FAILED_ATTEMPTS * locks + op.failed
    && (locks > 0 ==> op.lockedUntil.Some? && op.lockedUntil.value >= start + locks * LOCKOUT)
    && guesses <= MAX_FAILED_ATTEMPTS * ((now - start) / LOCKOUT + 1)
  }

  lemma PaidLater(start: nat, guesses: int, locks: nat, op: Operator, op': Operator, now: nat, later: nat)
    requires Paid(start, guesses, locks, op, now) && now <= later
    requires op'.failed == op.failed && op'.lockedUntil == op.lockedUntil
    ensures Paid(start, guesses, locks, op', later)
  {
    assert (now - start) / LOCKOUT <= (later - start) / LOCKOUT;
  }

  lemma PaidFailure(start: nat, guesses: int, locks: nat, op: Operator, now: nat, later: nat) returns (locks': nat)
    requires Paid(start, guesses, locks, op, now) && now <= later && op.failed < MAX_FAILED_ATTEMPTS
    requires !IsLocked(op, later)
    ensures Paid(start, guesses + 1, locks', NoteFailure(op, later), later)
  {
    locks' := if op.failed + 1 >= MAX_FAILED_ATTEMPTS then locks + 1 else locks;
    assert locks * LOCKOUT <= later - start;
    assert locks <= (later - start) / LOCKOUT;
  }

  /** In a run without success that spans `t.now - s.now`, at most five wrong guesses, at the
      password and at the second factor together, meet an operator that answers them for every
      lockout period begun; and the stored counter stays below five. */
  lemma LockoutBoundsGuesses(otp: Codes, s: State, arrivals: seq<Arrival>, email: Email)
    requires CountersLow(s) && email in s.operators && Orderly(otp, s, arrivals)
    requires NoSuccess(otp, s, arrivals, email)
    ensures var t := Run(otp, s, arrivals);
            && s.now <= t.now && email in t.operators && t.operators[email].failed < 5
            && Guesses(otp, s, arrivals, email) <= 5 * ((t.now - s.now) / 900_000 + 1)
  {
    CountersStayLow(otp, s, arrivals, email);
    var _ := RunIsPaid(otp, s, arrivals, email);
  }

  lemma {:induction false} CountersStayLow(otp: Codes, s: State, arrivals: seq<Arrival>, email: Email)
    requires CountersLow(s) && email in s.operators && Orderly(otp, s, arrivals)
    ensures CountersLow(Run(otp, s, arrivals)) && email in Run(otp, s, arrivals).operators
  {
    if arrivals != [] {
      var before, a := arrivals[..|arrivals| - 1], arrivals[|arrivals| - 1];
      CountersStayLow(otp, s, before, email);
      ServeEffect(otp, Run(otp, s, before).(now := a.at), a.request, email);
    }
  }

  lemma {:induction false} RunIsPaid(otp: Codes, s: State, arrivals: seq<Arrival>, email: Email)
    returns (locks: nat)
    requires CountersLow(s) && email in s.operators && Orderly(otp, s, arrivals)
    requires NoSuccess(otp, s, arrivals, email)
    ensures var t := Run(otp, s, arrivals);
            email in t.operators && Paid(s.now, Guesses(otp, s, arrivals, email), locks, t.operators[email], t.now)
  {
    locks := 0;
    if arrivals != [] {
      var before, a := arrivals[..|arrivals| - 1], arrivals[|arrivals| - 1];
      locks := RunIsPaid(otp, s, before, email);
      CountersStayLow(otp, s, before, email);
      locks := PaidStep(otp, s.now, Run(otp, s, before), a, email, locks, Guesses(otp, s, before, email));
    }
  }

  lemma PaidStep(otp: Codes, start: nat, m: State, a: Arrival, email: Email, locks: nat, guesses: nat)
    returns (locks': nat)
    requires CountersLow(m) && email in m.operators && m.now <= a.at
    requires Serve(otp, m.(now := a.at), a.request).1 != SignedIn(email)
    requires Paid(start, guesses, locks, m.operators[email], m.now)
    ensures var t := Arrive(otp, m, a);
            && email in t.operators
            && Paid(start, guesses + if Wrong(otp, m.(now := a.at), a.request, email) then 1 else 0, locks',
                    t.operators[email], t.now)
  {
    var t := Arrive(otp, m, a);
    ServeEffect(otp, m.(now := a.at), a.request, email);
    locks' := locks;
    if Wrong(otp, m.(now := a.at), a.request, email) {
      locks' := PaidFailure(start, guesses, locks, m.operators[email], m.now, a.at);
    } else {
      PaidLater(start, guesses, locks, m.operators[email], t.operators[email], m.now, a.at);
    }
  }

  /******* What was logged *******/

  function Failures(log: seq<Event>, email: Email): nat {
    if log == [] then 0
    else Failures(log[..|log| - 1], email) +
         if log[|log| - 1].GuessFailed? && log[|log| - 1].email == email then 1 else 0
  }

  lemma FailuresAppend(log: seq<Event>, e: Event, email: Email)
    ensures Failures(log + [e], email) == Failures(log, email) + if e.GuessFailed? && e.email == email then 1 else 0
  {
    assert (log + [e])[..|log|] == log;
  }

  lemma SecondFactorLogged(otp: Codes, s: State, ticket: TicketId, code: string, email: Email)
    requires Load(s, ticket).Some? && Serves(s, s.tickets[ticket].email)
    ensures Failures(SecondFactor(otp, s, ticket, code).0.log, email)
         == Failures(s.log, email) + if Wrong(otp, s, Verify(ticket, code), email) then 1 else 0
  {
    var k := s.tickets[ticket];
    var op := s.operators[k.email];
    FailuresAppend(s.log, GuessFailed(k.email, s.now), email);
    if op.code.Some? {
      FailuresAppend(s.log, SessionOpened(k.email, ticket, k.issued, AccessCode(code), s.now), email);
    } else {
      var secret := Asked(op, k).secret;
      VerifyTotpIs(otp, s, k.email, secret, code);
      var step := VerifyTotp(otp, s, k.email, secret, code);
      if step.Some? {
        var e := CodeAccepted(k.email, secret, step.value, WithoutSpaces(code), s.now);
        FailuresAppend(s.log, e, email);
        FailuresAppend(s.log + [e], SessionOpened(k.email, ticket, k.issued, Authenticator(secret), s.now), email);
      }
    }
  }

  lemma GuessIsLogged(otp: Codes, s: State, request: Request, email: Email)
    ensures Failures(Serve(otp, s, request).0.log, email)
         == Failures(s.log, email) + if Wrong(otp, s, request, email) then 1 else 0
  {
    match request
    case Login(who, password, ticket, _) =>
      FailuresAppend(s.log, GuessFailed(who, s.now), email);
      FailuresAppend(s.log, PasswordAccepted(who, ticket, s.now), email);
    case Verify(ticket, code) =>
      if Load(s, ticket).Some? && Serves(s, s.tickets[ticket].email) {
        SecondFactorLogged(otp, s, ticket, code, email);
      }
    case _ =>
  }

  /** Every wrong guess is counted, and nothing else is. */
  lemma {:induction false} EveryGuessIsLogged(otp: Codes, s: State, arrivals: seq<Arrival>, email: Email)
    ensures Failures(Run(otp, s, arrivals).log, email) == Failures(s.log, email) + Guesses(otp, s, arrivals, email)
  {
    if arrivals != [] {
      var before, a := arrivals[..|arrivals| - 1], arrivals[|arrivals| - 1];
      EveryGuessIsLogged(otp, s, before, email);
      GuessIsLogged(otp, Run(otp, s, before).(now := a.at), a.request, email);
    }
  }
}
