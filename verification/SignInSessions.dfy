/** What stands behind a session, over every run of sign-in requests. */
module SignInSessions {
  import opened Options
  import opened SignIn
  import opened SignInRuns

  /** What signing in needs of the state that serves the request: a live ticket of the operator, an
      account that answers, and a code that proves the second factor asked for.  That factor is
      the one in force exactly when the ticket is no enrolment, or an access code overrides it, or
      nothing is enrolled yet (or just the ticket's own secret). */
  ghost predicate Verified(otp: Codes, s: State, ticket: TicketId, code: string, email: Email, factor: Factor) {
    && Load(s, ticket).Some? && s.tickets[ticket].email == email && Serves(s, email)
    && var t, op := s.tickets[ticket], s.operators[email];
       && factor == Asked(op, t) && Proves(otp, s, email, code, factor)
       && ((InForce(op).Some? ==> InForce(op) == Some(factor)) <==>
           op.code.Some? || !t.enrolling || op.secret == "" || op.secret == t.pending)
  }

  /** A verification signs in exactly when both hold: the ticket and the second factor. */
  lemma SignsInExactly(otp: Codes, s: State, ticket: TicketId, code: string, email: Email)
    ensures VerifyPost(otp, s, ticket, code).1 == SignedIn(email)
       <==> exists factor :: Verified(otp, s, ticket, code, email, factor)
  {
    var load := Load(s, ticket);
    if load.Some? && load.value.email == email && Serves(s, email) {
      var op := s.operators[email];
      var factor := Asked(op, load.value);
      if factor.Authenticator? {
        VerifyTotpIs(otp, s, email, factor.secret, code);
      }
      assert VerifyPost(otp, s, ticket, code).1 == SignedIn(email) <==> Proves(otp, s, email, code, factor);
      assert Proves(otp, s, email, code, factor) ==> Verified(otp, s, ticket, code, email, factor);
    }
  }

  /** The request that opened the session `e`. */
  ghost predicate Earned(otp: Codes, s: State, code: string, e: Event)
    requires e.SessionOpened?
  {
    && e.at == s.now && Verified(otp, s, e.ticket, code, e.email, e.factor)
    && s.tickets[e.ticket].issued == e.issued && e.issued <= s.now < e.issued + 240_000
  }

  /** What a session adds to the log: itself and, for an authenticator, the code it spends. */
  ghost predicate Adds(log: seq<Event>, after: seq<Event>, code: string, e: Event)
    requires e.SessionOpened?
  {
    match e.factor
    case AccessCode(_) => after == log + [e]
    case Authenticator(secret) =>
      exists step :: after == log + [CodeAccepted(e.email, secret, step, WithoutSpaces(code), e.at)] + [e]
  }

  ghost predicate NoSession(log: seq<Event>, after: seq<Event>) {
    log <= after && forall i :: |log| <= i < |after| ==> !after[i].SessionOpened?
  }

  /** The one session that a verification opens when it answers `SignedIn`. */
  ghost predicate OpensOne(otp: Codes, s: State, ticket: TicketId, code: string, after: seq<Event>, email: Email) {
    after != [] && var e := after[|after| - 1];
                   && e.SessionOpened? && e.ticket == ticket && e.email == email
                   && Earned(otp, s, code, e) && Adds(s.log, after, code, e)
  }

  /** A verification opens one session, that was earned, or none; it says which. */
  lemma VerifyEarns(otp: Codes, s: State, ticket: TicketId, code: string)
    requires TicketsSound(s)
    ensures var (t, reply) := VerifyPost(otp, s, ticket, code);
            if reply.SignedIn? then OpensOne(otp, s, ticket, code, t.log, reply.email) else NoSession(s.log, t.log)
  {
    if VerifyPost(otp, s, ticket, code).1.SignedIn? {
      var k := s.tickets[ticket];
      var op := s.operators[k.email];
      assert PasswordAccepted(k.email, ticket, k.issued) in s.log;
      SignsInExactly(otp, s, ticket, code, k.email);
      if op.code.None? {
        AuthenticatorAdds(otp, s, ticket, code);
      }
    }
  }

  lemma AuthenticatorAdds(otp: Codes, s: State, ticket: TicketId, code: string)
    requires VerifyPost(otp, s, ticket, code).1.SignedIn? && s.operators[s.tickets[ticket].email].code.None?
    ensures var t, k := VerifyPost(otp, s, ticket, code).0, s.tickets[ticket];
            var e := SessionOpened(k.email, ticket, k.issued, Asked(s.operators[k.email], k), s.now);
            t.log != [] && t.log[|t.log| - 1] == e && Adds(s.log, t.log, code, e)
  {
    var k := s.tickets[ticket];
    var secret := Asked(s.operators[k.email], k).secret;
    var step := VerifyTotp(otp, s, k.email, secret, code).value;
    var t := VerifyPost(otp, s, ticket, code).0;
    var e := SessionOpened(k.email, ticket, k.issued, Authenticator(secret), s.now);
    assert t.log == s.log + [CodeAccepted(k.email, secret, step, WithoutSpaces(code), s.now)] + [e];
  }

  lemma OthersOpenNothing(otp: Codes, s: State, request: Request)
    requires !request.Verify?
    ensures NoSession(s.log, Serve(otp, s, request).0.log) && !Serve(otp, s, request).1.SignedIn?
  {
  }

  /** What a request adds to the log opens no session, or is one session that was earned. */
  ghost predicate OpensEarned(otp: Codes, s: State, request: Request, after: seq<Event>, reply: Reply) {
    if reply.SignedIn? then request.Verify? && OpensOne(otp, s, request.ticket, request.code, after, reply.email)
    else NoSession(s.log, after)
  }

  lemma ServeEarns(otp: Codes, s: State, request: Request)
    requires TicketsSound(s)
    ensures OpensEarned(otp, s, request, Serve(otp, s, request).0.log, Serve(otp, s, request).1)
  {
    if request.Verify? {
      VerifyEarns(otp, s, request.ticket, request.code);
    } else {
      OthersOpenNothing(otp, s, request);
    }
  }

  /** A session that was not there before stands at the end. */
  lemma NewIsLast(otp: Codes, s: State, request: Request, after: seq<Event>, reply: Reply, i: nat)
    requires OpensEarned(otp, s, request, after, reply) && i < |after| && after[i].SessionOpened?
    ensures s.log <= after
    ensures i >= |s.log| ==> reply.SignedIn? && i == |after| - 1 && after[..i + 1] == after
  {
    if reply.SignedIn? {
      var e := after[|after| - 1];
      if e.factor.Authenticator? {
        var step :| after == s.log + [CodeAccepted(e.email, e.factor.secret, step, WithoutSpaces(request.code), e.at)] + [e];
      }
    }
  }

  /** Arrival number `n` answered that the session `e` was opened. */
  ghost predicate SessionAt(otp: Codes, arrivals: seq<Arrival>, n: nat, e: Event)
    requires e.SessionOpened?
  {
    && n < |arrivals| && arrivals[n].request.Verify? && arrivals[n].request.ticket == e.ticket
    && Serve(otp, Before(otp, arrivals, n), arrivals[n].request).1 == SignedIn(e.email)
    && Earned(otp, Before(otp, arrivals, n), arrivals[n].request.code, e)
  }

  lemma SameArrival(otp: Codes, before: seq<Arrival>, arrivals: seq<Arrival>, n: nat)
    requires n < |before| <= |arrivals| && before == arrivals[..|before|]
    ensures Before(otp, before, n) == Before(otp, arrivals, n) && before[n] == arrivals[n]
  {
    assert before[..n] == arrivals[..n];
  }

  /** Every session of every run was opened, with both factors given: the second by the arrival
      that opened it, in whose state it was asked for and proven; the password by an earlier one,
      less than a ticket's life before, that got the ticket for it.  An operator who already had a
      second factor then had to give the one in force now: a password alone never replaces it. */
  lemma SessionsNeedBothFactors(otp: Codes, arrivals: seq<Arrival>, i: nat) returns (m: nat, n: nat)
    requires Orderly(otp, NOBODY, arrivals)
    requires var log := Run(otp, NOBODY, arrivals).log; i < |log| && log[i].SessionOpened?
    ensures m < n && SessionAt(otp, arrivals, n, Run(otp, NOBODY, arrivals).log[i])
    ensures var e := Run(otp, NOBODY, arrivals).log[i];
            && PasswordGiven(otp, arrivals, m, e.email, e.ticket, e.issued)
            && (InForce(Before(otp, arrivals, m).operators[e.email]).Some? ==>
                  InForce(Before(otp, arrivals, n).operators[e.email]) == Some(e.factor))
    ensures var log := Run(otp, NOBODY, arrivals).log;
            Adds(Before(otp, arrivals, n).log, log[..i + 1], arrivals[n].request.code, log[i])
  {
    n := SessionsAreOpened(otp, arrivals, i);
    var e := Run(otp, NOBODY, arrivals).log[i];
    m := TicketsNeedPasswords(otp, arrivals, n, e.ticket);
  }

  /** Arrival number `m` gave the right password and got the ticket `t`, which is for an enrolment
      exactly when the operator had no second factor at all, and carries a secret only then. */
  ghost predicate IssuedBy(otp: Codes, arrivals: seq<Arrival>, m: nat, id: TicketId, t: Ticket) {
    && PasswordGiven(otp, arrivals, m, t.email, id, t.issued)
    && var op := Before(otp, arrivals, m).operators[t.email];
       && t.enrolling == (op.code.None? && op.secret == "")
       && t.pending == if t.enrolling then arrivals[m].request.newSecret else ""
  }

  lemma {:induction false} TicketsWereIssued(otp: Codes, arrivals: seq<Arrival>, id: TicketId) returns (m: nat)
    requires id in Run(otp, NOBODY, arrivals).tickets
    ensures IssuedBy(otp, arrivals, m, id, Run(otp, NOBODY, arrivals).tickets[id])
  {
    var before, last := arrivals[..|arrivals| - 1], |arrivals| - 1;
    var s, t := Run(otp, NOBODY, before), Run(otp, NOBODY, arrivals);
    if id in s.tickets && t.tickets[id] == s.tickets[id] {
      m := TicketsWereIssued(otp, before, id);
      IssuedStays(otp, before, arrivals, m, id, s.tickets[id]);
    } else {
      m := last;
      NewTickets(otp, Before(otp, arrivals, last), arrivals[last].request, id);
    }
  }

  lemma IssuedStays(otp: Codes, before: seq<Arrival>, arrivals: seq<Arrival>, m: nat, id: TicketId, t: Ticket)
    requires |before| <= |arrivals| && before == arrivals[..|before|] && IssuedBy(otp, before, m, id, t)
    ensures IssuedBy(otp, arrivals, m, id, t)
  {
    SameArrival(otp, before, arrivals, m);
  }

  lemma NewTickets(otp: Codes, s: State, request: Request, id: TicketId)
    requires var t := Serve(otp, s, request).0;
             id in t.tickets && (id in s.tickets ==> t.tickets[id] != s.tickets[id])
    ensures request.Login? && request.ticket == id && Serves(s, request.email)
    ensures RightPassword(s, request.email, request.password)
    ensures var enrolling := InForce(s.operators[request.email]).None?;
            Serve(otp, s, request).0.tickets[id]
            == Ticket(request.email, enrolling, if enrolling then request.newSecret else "", s.now)
  {
    if request.Login? && Serves(s, request.email) && RightPassword(s, request.email, request.password) {
      LoginAnswers(s, request.email, request.password, request.ticket, request.newSecret);
    }
  }

  /** A ticket that is in the cache when an arrival is served was issued by an earlier one. */
  lemma TicketsNeedPasswords(otp: Codes, arrivals: seq<Arrival>, n: nat, ticket: TicketId) returns (m: nat)
    requires n < |arrivals| && ticket in Before(otp, arrivals, n).tickets
    ensures m < n && IssuedBy(otp, arrivals, m, ticket, Before(otp, arrivals, n).tickets[ticket])
  {
    m := TicketsWereIssued(otp, arrivals[..n], ticket);
    SameArrival(otp, arrivals[..n], arrivals, m);
  }

  lemma {:induction false} PrefixIsOrderly(otp: Codes, arrivals: seq<Arrival>, n: nat)
    requires Orderly(otp, NOBODY, arrivals) && n <= |arrivals|
    ensures Orderly(otp, NOBODY, arrivals[..n])
  {
    if n < |arrivals| {
      PrefixIsOrderly(otp, arrivals[..|arrivals| - 1], n);
      assert arrivals[..|arrivals| - 1][..n] == arrivals[..n];
    } else {
      assert arrivals[..n] == arrivals;
    }
  }

  lemma {:induction false} SessionsAreOpened(otp: Codes, arrivals: seq<Arrival>, i: nat) returns (n: nat)
    requires Orderly(otp, NOBODY, arrivals)
    requires var log := Run(otp, NOBODY, arrivals).log; i < |log| && log[i].SessionOpened?
    ensures SessionAt(otp, arrivals, n, Run(otp, NOBODY, arrivals).log[i])
    ensures var log := Run(otp, NOBODY, arrivals).log;
            Adds(Before(otp, arrivals, n).log, log[..i + 1], arrivals[n].request.code, log[i])
  {
    var before, last := arrivals[..|arrivals| - 1], |arrivals| - 1;
    var s, log := Before(otp, arrivals, last), Run(otp, NOBODY, arrivals).log;
    var reply := Serve(otp, s, arrivals[last].request).1;
    RunSound(otp, before);
    LaterSound(otp, Run(otp, NOBODY, before), s.now);
    ServeEarns(otp, s, arrivals[last].request);
    NewIsLast(otp, s, arrivals[last].request, log, reply, i);
    if i < |s.log| {
      assert log[..i + 1] == s.log[..i + 1] && log[i] == s.log[i];
      n := SessionsAreOpened(otp, before, i);
      SameArrival(otp, before, arrivals, n);
    } else {
      n := last;
    }
  }

  /** Whoever was answered `SignedIn`, in any run, had given both factors, whatever the log says. */
  lemma SigningInNeedsBothFactors(otp: Codes, arrivals: seq<Arrival>, n: nat, email: Email) returns (m: nat)
    requires Orderly(otp, NOBODY, arrivals) && n < |arrivals|
    requires Serve(otp, Before(otp, arrivals, n), arrivals[n].request).1 == SignedIn(email)
    ensures arrivals[n].request.Verify?
    ensures var s, request := Before(otp, arrivals, n), arrivals[n].request;
            && (exists factor :: Verified(otp, s, request.ticket, request.code, email, factor))
            && m < n && PasswordGiven(otp, arrivals, m, email, request.ticket, s.tickets[request.ticket].issued)
            && (InForce(Before(otp, arrivals, m).operators[email]).Some? ==>
                  InForce(s.operators[email]).Some?
                  && Proves(otp, s, email, request.code, InForce(s.operators[email]).value))
  {
    var request := arrivals[n].request;
    if !request.Verify? {
      OthersOpenNothing(otp, Before(otp, arrivals, n), request);
    }
    SignsInExactly(otp, Before(otp, arrivals, n), request.ticket, request.code, email);
    m := TicketsNeedPasswords(otp, arrivals, n, request.ticket);
  }

  lemma ServeAppends(otp: Codes, s: State, request: Request)
    ensures s.log <= Serve(otp, s, request).0.log
  {
  }

  lemma {:induction false} LogGrows(otp: Codes, arrivals: seq<Arrival>, n: nat)
    requires n <= |arrivals|
    ensures Run(otp, NOBODY, arrivals[..n]).log <= Run(otp, NOBODY, arrivals).log
  {
    if n < |arrivals| {
      var before, a := arrivals[..|arrivals| - 1], arrivals[|arrivals| - 1];
      LogGrows(otp, before, n);
      assert before[..n] == arrivals[..n];
      ServeAppends(otp, Run(otp, NOBODY, before).(now := a.at), a.request);
    } else {
      assert arrivals[..n] == arrivals;
    }
  }

  lemma {:induction false} PrefixKeepsKeys(otp: Codes, arrivals: seq<Arrival>, n: nat, email: Email)
    requires KeepsKeys(otp, NOBODY, arrivals, email) && n <= |arrivals|
    ensures KeepsKeys(otp, NOBODY, arrivals[..n], email)
  {
    if n < |arrivals| {
      PrefixKeepsKeys(otp, arrivals[..|arrivals| - 1], n, email);
      assert arrivals[..|arrivals| - 1][..n] == arrivals[..n];
    } else {
      assert arrivals[..n] == arrivals;
    }
  }

  /** The arrival signed the operator in by an authenticator. */
  ghost predicate SignsInByCode(otp: Codes, arrivals: seq<Arrival>, n: nat, email: Email) {
    && n < |arrivals| && email in Before(otp, arrivals, n).operators
    && Serve(otp, Before(otp, arrivals, n), arrivals[n].request).1 == SignedIn(email)
    && Before(otp, arrivals, n).operators[email].code.None?
  }

  lemma CodeIsLogged(otp: Codes, arrivals: seq<Arrival>, n: nat, email: Email) returns (e: Event)
    requires SignsInByCode(otp, arrivals, n, email)
    ensures arrivals[n].request.Verify? && e.CodeAccepted? && e.email == email && e.at == arrivals[n].at
    ensures e.code == WithoutSpaces(arrivals[n].request.code) && e in Run(otp, NOBODY, arrivals[..n + 1]).log
  {
    var s, request := Before(otp, arrivals, n), arrivals[n].request;
    if !request.Verify? {
      OthersOpenNothing(otp, s, request);
    }
    AuthenticatorAdds(otp, s, request.ticket, request.code);
    var secret := Asked(s.operators[email], s.tickets[request.ticket]).secret;
    e := CodeAccepted(email, secret, VerifyTotp(otp, s, email, secret, request.code).value,
                      WithoutSpaces(request.code), s.now);
    assert arrivals[..n + 1][..n] == arrivals[..n];
    assert Run(otp, NOBODY, arrivals[..n + 1]) == Serve(otp, s, request).0;
  }

  /** One code, as typed, signs an operator in once in 90 seconds, whatever the log says, as long
      as the operator's replay keys live to their timeout. */
  lemma CodesSignInOnce(otp: Codes, arrivals: seq<Arrival>, n: nat, n': nat, email: Email)
    requires Orderly(otp, NOBODY, arrivals) && KeepsKeys(otp, NOBODY, arrivals, email) && n < n'
    requires SignsInByCode(otp, arrivals, n, email) && SignsInByCode(otp, arrivals, n', email)
    ensures arrivals[n].request.Verify? && arrivals[n'].request.Verify?
    ensures WithoutSpaces(arrivals[n].request.code) == WithoutSpaces(arrivals[n'].request.code)
            ==> arrivals[n].at + REPLAY_TTL <= arrivals[n'].at
  {
    var e := CodeIsLogged(otp, arrivals, n, email);
    var e' := CodeIsLogged(otp, arrivals, n', email);
    var s, request := Before(otp, arrivals, n'), arrivals[n'].request;
    assert arrivals[..n'][..n + 1] == arrivals[..n + 1];
    LogGrows(otp, arrivals[..n'], n + 1);
    PrefixIsOrderly(otp, arrivals, n');
    PrefixKeepsKeys(otp, arrivals, n', email);
    RunKeepsKeys(otp, arrivals[..n'], email);
    assert Remembered(Run(otp, NOBODY, arrivals[..n']), e);
    NeverBack(otp, arrivals, n');
    if e.code == WithoutSpaces(request.code) {
      SignsInExactly(otp, s, request.ticket, request.code, email);
      assert Unused(s.used, email, e.code, s.now);
    }
  }

  /** Time does not run backwards. */
  lemma NeverBack(otp: Codes, arrivals: seq<Arrival>, n: nat)
    requires Orderly(otp, NOBODY, arrivals) && n < |arrivals|
    ensures Run(otp, NOBODY, arrivals[..n]).now <= arrivals[n].at
  {
    PrefixIsOrderly(otp, arrivals, n + 1);
    assert arrivals[..n + 1][..n] == arrivals[..n];
  }

  /** A ticket opens at most one session, and a stored authenticator secret has always been
      proven by a code. */
  lemma TicketsOpenOneSession(otp: Codes, arrivals: seq<Arrival>)
    requires Orderly(otp, NOBODY, arrivals)
    ensures var s := Run(otp, NOBODY, arrivals);
            TicketsOpenOnce(s.log) && SessionsSpend(s.log) && SecretsProven(s)
  {
    RunSound(otp, arrivals);
  }

  /******* The factor in force *******/

  /** A session is opened by the factor in force at verification time exactly when the ticket
      is no enrolment, or an access code overrides it, or nothing is enrolled yet (or what is
      enrolled is the ticket's own secret). */
  lemma FactorAtVerification(otp: Codes, s: State, ticket: TicketId, code: string)
    requires VerifyPost(otp, s, ticket, code).1.SignedIn?
    ensures ticket in s.tickets && s.now < s.tickets[ticket].issued + TICKET_TTL
    ensures s.tickets[ticket].email in s.operators
    ensures var t, log := s.tickets[ticket], VerifyPost(otp, s, ticket, code).0.log;
            var op := s.operators[t.email];
            && op.active && !IsLocked(op, s.now)
            && log != [] && log[|log| - 1].SessionOpened?
            && var factor := log[|log| - 1].factor;
               && (factor == AccessCode(code)
                   || (factor.Authenticator? && VerifyTotp(otp, s, t.email, factor.secret, code).Some?))
               && ((InForce(op).Some? ==> InForce(op) == Some(factor)) <==>
                   op.code.Some? || !t.enrolling || op.secret == "" || op.secret == t.pending)
  {
  }

  /** The run in which it is not: two enrolments of one operator begin, both are completed, and
      the second signs in by its own secret while the first one's is in force, and replaces it. */
  lemma LateEnrolmentReplaces(otp: Codes, first: Secret, second: Secret, step: nat, a: string, b: string)
    returns (arrivals: seq<Arrival>)
    requires !otp.digit(' ') && first != "" && second != "" && first != second && a != b
    requires Passes(otp, first, step, a) && Passes(otp, second, step, b)
    ensures |arrivals| == 5 && Orderly(otp, NOBODY, arrivals)
    ensures var s, t := Before(otp, arrivals, 4), Run(otp, NOBODY, arrivals);
            && OPERATOR in s.operators && InForce(s.operators[OPERATOR]) == Some(Authenticator(first))
            && t.log != [] && t.log[|t.log| - 1] == SessionOpened(OPERATOR, 1, s.now, Authenticator(second), s.now)
            && OPERATOR in t.operators && InForce(t.operators[OPERATOR]) == Some(Authenticator(second))
  {
    var now := step * TIME_STEP;
    NoSpaces(otp, a);
    NoSpaces(otp, b);
    MatchesAlike(otp, first, step, a, a);
    MatchesAlike(otp, second, step, b, b);
    EnrolmentBegins(otp, now, first);
    var login, one, two :=
      Arrival(now, Login(OPERATOR, PASSWORD, 1, second)), Arrival(now, Verify(0, a)), Arrival(now, Verify(1, b));
    var s := Enrolling(now, first);
    var s1 := BothEnrolling(now, first, second);
    var s2 := FirstEnrolled(now, first, second, Matching(otp, first, a, now).value, a);
    LeadsOn(otp, Beginning(now, first), s, login);
    SecondBegins(otp, now, first, second);
    LeadsOn(otp, Beginning(now, first) + [login], s1, one);
    FirstCompletes(otp, now, first, second, a);
    LeadsOn(otp, Beginning(now, first) + [login] + [one], s2, two);
    arrivals := Beginning(now, first) + [login] + [one] + [two];
    assert arrivals[..4] == Beginning(now, first) + [login] + [one];
    SecondCompletes(otp, now, first, second, a, b);
  }

  function BothEnrolling(now: nat, first: Secret, second: Secret): State {
    var s := Enrolling(now, first);
    s.(tickets := s.tickets[1 := Ticket(OPERATOR, true, second, now)],
       log := s.log + [PasswordAccepted(OPERATOR, 1, now)])
  }

  function FirstEnrolled(now: nat, first: Secret, second: Secret, k: nat, a: string): State {
    State(now, map[OPERATOR := NEWCOMER.(secret := first)], map[1 := Ticket(OPERATOR, true, second, now)],
          map[(OPERATOR, a) := now + REPLAY_TTL],
          BothEnrolling(now, first, second).log
            + [CodeAccepted(OPERATOR, first, k, a, now)] + [SessionOpened(OPERATOR, 0, now, Authenticator(first), now)])
  }

  lemma SecondBegins(otp: Codes, now: nat, first: Secret, second: Secret)
    ensures Arrive(otp, Enrolling(now, first), Arrival(now, Login(OPERATOR, PASSWORD, 1, second)))
         == BothEnrolling(now, first, second)
  {
  }

  lemma FirstCompletes(otp: Codes, now: nat, first: Secret, second: Secret, a: string)
    requires first != "" && SixDigits(otp, a) && WithoutSpaces(a) == a && Matching(otp, first, a, now).Some?
    ensures Arrive(otp, BothEnrolling(now, first, second), Arrival(now, Verify(0, a)))
         == FirstEnrolled(now, first, second, Matching(otp, first, a, now).value, a)
  {
    var s, k := BothEnrolling(now, first, second), Matching(otp, first, a, now).value;
    assert VerifyTotp(otp, s, OPERATOR, first, a) == Some(k);
    assert s.tickets - {0} == map[1 := Ticket(OPERATOR, true, second, now)];
  }

  lemma SecondCompletes(otp: Codes, now: nat, first: Secret, second: Secret, a: string, b: string)
    requires Matching(otp, first, a, now).Some? && a != b
    requires second != "" && SixDigits(otp, b) && WithoutSpaces(b) == b && Matching(otp, second, b, now).Some?
    ensures var s := FirstEnrolled(now, first, second, Matching(otp, first, a, now).value, a);
            var t := Arrive(otp, s, Arrival(now, Verify(1, b)));
            && t.log != [] && t.log[|t.log| - 1] == SessionOpened(OPERATOR, 1, now, Authenticator(second), now)
            && OPERATOR in t.operators && InForce(t.operators[OPERATOR]) == Some(Authenticator(second))
  {
    var s := FirstEnrolled(now, first, second, Matching(otp, first, a, now).value, a);
    assert VerifyTotp(otp, s, OPERATOR, second, b).Some?;
  }
}
