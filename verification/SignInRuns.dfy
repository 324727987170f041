/** What whole runs of sign-in requests guarantee: codes are spent once, and a session needs a
    password and a second factor. */
module SignInRuns {
  import opened Options
  import opened SignIn

  /******* What the log of a run says *******/

  ghost predicate TimesPast(s: State) {
    forall e :: e in s.log ==> e.at <= s.now
  }

  /** An accepted code is the code of its secret in a time step whose window covers the
      moment. */
  ghost predicate CodesRight(otp: Codes, s: State) {
    forall e :: e in s.log && e.CodeAccepted? ==>
      e.secret != "" && Passes(otp, e.secret, e.step, e.code) && Covers(e.step, e.at)
  }

  /** An operator's authenticator secret was proven by one of its codes. */
  ghost predicate Proven(log: seq<Event>, email: Email, secret: Secret) {
    exists e :: e in log && e.CodeAccepted? && e.email == email && e.secret == secret
  }

  ghost predicate SecretsProven(s: State) {
    forall email :: email in s.operators && s.operators[email].secret != "" ==>
      Proven(s.log, email, s.operators[email].secret)
  }

  ghost predicate Spent(log: seq<Event>, ticket: TicketId) {
    exists e :: e in log && e.SessionOpened? && e.ticket == ticket
  }

  /** A ticket that can still be loaded followed an acceptance of its operator's password, and
      opened nothing yet. */
  ghost predicate TicketsEarned(s: State) {
    forall id :: id in s.tickets ==>
      && PasswordAccepted(s.tickets[id].email, id, s.tickets[id].issued) in s.log
      && !Spent(s.log, id)
  }

  /** Every session followed an acceptance of its operator's password by less than a ticket's
      life. */
  ghost predicate SessionsEarned(log: seq<Event>) {
    forall e :: e in log && e.SessionOpened? ==>
      PasswordAccepted(e.email, e.ticket, e.issued) in log && e.issued <= e.at < e.issued + TICKET_TTL
  }

  /** A session opened by an authenticator spent a code of that very secret, at that moment and
      for itself alone: the acceptance stands right before it. */
  ghost predicate SessionsSpend(log: seq<Event>) {
    forall i :: 0 <= i < |log| && log[i].SessionOpened? && log[i].factor.Authenticator? ==> SpentFor(log, i)
  }

  predicate SpentFor(log: seq<Event>, i: nat)
    requires i < |log| && log[i].SessionOpened? && log[i].factor.Authenticator?
  {
    && i > 0 && log[i - 1].CodeAccepted? && log[i - 1].email == log[i].email
    && log[i - 1].secret == log[i].factor.secret && log[i - 1].at == log[i].at
  }

  ghost predicate TicketsOpenOnce(log: seq<Event>) {
    forall i, j :: 0 <= i < j < |log| && log[i].SessionOpened? && log[j].SessionOpened? ==>
      log[i].ticket != log[j].ticket
  }

  ghost predicate CodesSound(otp: Codes, s: State) {
    TimesPast(s) && CodesRight(otp, s) && SecretsProven(s)
  }

  ghost predicate TicketsSound(s: State) {
    && TimesPast(s) && TicketsEarned(s) && SessionsEarned(s.log) && SessionsSpend(s.log) && TicketsOpenOnce(s.log)
  }

  ghost predicate Sound(otp: Codes, s: State) {
    CodesSound(otp, s) && TicketsSound(s)
  }

  /** What was proven stays proven as the log grows. */
  lemma ProvenGrow(log: seq<Event>, e: Event)
    ensures forall email, secret :: Proven(log, email, secret) ==> Proven(log + [e], email, secret)
  {
    assert forall e' :: e' in log ==> e' in log + [e];
  }

  lemma FailSound(otp: Codes, s: State, email: Email)
    requires Sound(otp, s) && email in s.operators
    ensures Sound(otp, Fail(s, email))
  {
    FailKeepsCodes(otp, s, email);
    FailKeepsTickets(s, email);
  }

  lemma FailKeepsCodes(otp: Codes, s: State, email: Email)
    requires CodesSound(otp, s) && email in s.operators
    ensures CodesSound(otp, Fail(s, email))
  {
    ProvenGrow(s.log, GuessFailed(email, s.now));
  }

  lemma FailKeepsTickets(s: State, email: Email)
    requires TicketsSound(s) && email in s.operators
    ensures TicketsSound(Fail(s, email))
  {
  }

  lemma SpendSound(otp: Codes, s: State, email: Email, secret: Secret, step: nat, raw: string, enrolling: bool)
    requires Sound(otp, s) && email in s.operators
    requires VerifyTotp(otp, s, email, secret, raw) == Some(step)
    ensures Sound(otp, Spend(s, email, secret, step, raw, enrolling))
  {
    SpendKeepsCodes(otp, s, email, secret, step, raw, enrolling);
    SpendKeepsTickets(s, email, secret, step, raw, enrolling);
  }

  lemma SpendKeepsCodes(otp: Codes, s: State, email: Email, secret: Secret, step: nat, raw: string, enrolling: bool)
    requires CodesSound(otp, s) && email in s.operators
    requires VerifyTotp(otp, s, email, secret, raw) == Some(step)
    ensures CodesSound(otp, Spend(s, email, secret, step, raw, enrolling))
  {
    var code := WithoutSpaces(raw);
    var e' := CodeAccepted(email, secret, step, code, s.now);
    var t := Spend(s, email, secret, step, raw, enrolling);
    ProvenGrow(s.log, e');
    assert e' in t.log && Proven(t.log, email, secret);
  }

  lemma SpendKeepsTickets(s: State, email: Email, secret: Secret, step: nat, raw: string, enrolling: bool)
    requires TicketsSound(s) && email in s.operators
    ensures TicketsSound(Spend(s, email, secret, step, raw, enrolling))
  {
  }

  lemma OpenSound(otp: Codes, s: State, ticket: TicketId, email: Email, factor: Factor)
    requires Sound(otp, s) && email in s.operators
    requires Load(s, ticket).Some? && s.tickets[ticket].email == email
    requires factor.Authenticator? ==> JustSpent(s, email, factor.secret)
    ensures Sound(otp, Open(s, ticket, s.tickets[ticket].issued, email, factor))
  {
    OpenKeepsCodes(otp, s, ticket, email, factor);
    OpenKeepsTickets(s, ticket, email, factor);
  }

  predicate JustSpent(s: State, email: Email, secret: Secret) {
    s.log != [] && var e := s.log[|s.log| - 1];
                   e.CodeAccepted? && e.email == email && e.secret == secret && e.at == s.now
  }

  lemma OpenKeepsCodes(otp: Codes, s: State, ticket: TicketId, email: Email, factor: Factor)
    requires CodesSound(otp, s) && email in s.operators && ticket in s.tickets
    ensures CodesSound(otp, Open(s, ticket, s.tickets[ticket].issued, email, factor))
  {
    ProvenGrow(s.log, SessionOpened(email, ticket, s.tickets[ticket].issued, factor, s.now));
  }

  lemma OpenKeepsTickets(s: State, ticket: TicketId, email: Email, factor: Factor)
    requires TicketsSound(s) && email in s.operators
    requires Load(s, ticket).Some? && s.tickets[ticket].email == email
    requires factor.Authenticator? ==> JustSpent(s, email, factor.secret)
    ensures TicketsSound(Open(s, ticket, s.tickets[ticket].issued, email, factor))
  {
    var issued := s.tickets[ticket].issued;
    var e' := SessionOpened(email, ticket, issued, factor, s.now);
    var t := Open(s, ticket, issued, email, factor);
    assert PasswordAccepted(email, ticket, issued) in s.log;
    assert forall e :: e in t.log <==> e in s.log || e == e';
    forall i | 0 <= i < |s.log| && s.log[i].SessionOpened?
      ensures s.log[i].ticket != ticket
    {
      assert s.log[i] in s.log;
    }
  }

  lemma FreshIsUnspent(s: State, ticket: TicketId)
    requires SessionsEarned(s.log) && !Issued(s.log, ticket)
    ensures !Spent(s.log, ticket)
  {
    forall e | e in s.log && e.SessionOpened?
      ensures e.ticket != ticket
    {
      assert PasswordAccepted(e.email, e.ticket, e.issued) in s.log;
    }
  }

  lemma LoginSound(otp: Codes, s: State, email: Email, password: string, ticket: TicketId, newSecret: Secret)
    requires Sound(otp, s) && !Issued(s.log, ticket)
    ensures Sound(otp, LoginPost(s, email, password, ticket, newSecret).0)
  {
    if email in s.operators {
      FailSound(otp, s, email);
      var enrolling := s.operators[email].code.None? && s.operators[email].secret == "";
      AdmitSound(otp, s, email, ticket, enrolling, if enrolling then newSecret else "");
    }
  }

  /** A ticket goes back to the acceptance logged with it, and has opened nothing. */
  lemma AdmitSound(otp: Codes, s: State, email: Email, ticket: TicketId, enrolling: bool, pending: Secret)
    requires Sound(otp, s) && !Issued(s.log, ticket) && email in s.operators
    ensures Sound(otp, Admit(s, email, ticket, enrolling, pending))
  {
    AdmitKeepsCodes(otp, s, email, ticket, enrolling, pending);
    AdmitKeepsTickets(s, email, ticket, enrolling, pending);
  }

  lemma AdmitKeepsCodes(otp: Codes, s: State, email: Email, ticket: TicketId, enrolling: bool, pending: Secret)
    requires CodesSound(otp, s)
    ensures CodesSound(otp, Admit(s, email, ticket, enrolling, pending))
  {
    ProvenGrow(s.log, PasswordAccepted(email, ticket, s.now));
  }

  lemma AdmitKeepsTickets(s: State, email: Email, ticket: TicketId, enrolling: bool, pending: Secret)
    requires TicketsSound(s) && !Issued(s.log, ticket)
    ensures TicketsSound(Admit(s, email, ticket, enrolling, pending))
  {
    var e' := PasswordAccepted(email, ticket, s.now);
    var t := Admit(s, email, ticket, enrolling, pending);
    assert forall e :: e in t.log <==> e in s.log || e == e';
    FreshIsUnspent(s, ticket);
  }

  lemma SpendOpenSound(otp: Codes, s: State, ticket: TicketId, secret: Secret, step: nat, raw: string)
    requires Sound(otp, s) && Load(s, ticket).Some? && s.tickets[ticket].email in s.operators
    requires VerifyTotp(otp, s, s.tickets[ticket].email, secret, raw) == Some(step)
    ensures var t := s.tickets[ticket];
            Sound(otp, Open(Spend(s, t.email, secret, step, raw, t.enrolling), ticket, t.issued, t.email,
                            Authenticator(secret)))
  {
    var t := s.tickets[ticket];
    SpendSound(otp, s, t.email, secret, step, raw, t.enrolling);
    OpenSound(otp, Spend(s, t.email, secret, step, raw, t.enrolling), ticket, t.email, Authenticator(secret));
  }

  lemma SecondFactorSound(otp: Codes, s: State, ticket: TicketId, code: string)
    requires Sound(otp, s) && Load(s, ticket).Some? && s.tickets[ticket].email in s.operators
    ensures Sound(otp, SecondFactor(otp, s, ticket, code).0)
  {
    var t := s.tickets[ticket];
    var op := s.operators[t.email];
    FailSound(otp, s, t.email);
    if op.code.Some? {
      OpenSound(otp, s, ticket, t.email, AccessCode(code));
    } else {
      var secret := if t.enrolling then t.pending else op.secret;
      var step := VerifyTotp(otp, s, t.email, secret, code);
      if step.Some? {
        SpendOpenSound(otp, s, ticket, secret, step.value, code);
      }
    }
  }

  lemma RevokeSound(otp: Codes, s: State, ticket: TicketId)
    requires Sound(otp, s)
    ensures Sound(otp, Revoke(s, ticket))
  {
  }

  lemma VerifySound(otp: Codes, s: State, ticket: TicketId, code: string)
    requires Sound(otp, s)
    ensures Sound(otp, VerifyPost(otp, s, ticket, code).0)
  {
    RevokeSound(otp, s, ticket);
    if Load(s, ticket).Some? && s.tickets[ticket].email in s.operators {
      SecondFactorSound(otp, s, ticket, code);
    }
  }

  lemma EditSound(otp: Codes, s: State, email: Email, active: bool, password: Option<string>, code: Option<string>)
    requires Sound(otp, s)
    ensures Sound(otp, EditOperator(s, email, active, password, code))
  {
  }

  lemma LaterSound(otp: Codes, s: State, now: nat)
    requires Sound(otp, s) && s.now <= now
    ensures Sound(otp, s.(now := now))
  {
  }

  lemma {:induction false} RunSound(otp: Codes, arrivals: seq<Arrival>)
    requires Orderly(otp, NOBODY, arrivals)
    ensures Sound(otp, Run(otp, NOBODY, arrivals))
  {
    if arrivals != [] {
      var before, a := arrivals[..|arrivals| - 1], arrivals[|arrivals| - 1];
      RunSound(otp, before);
      LaterSound(otp, Run(otp, NOBODY, before), a.at);
      var s := Run(otp, NOBODY, before).(now := a.at);
      match a.request
      case Login(email, password, ticket, newSecret) => LoginSound(otp, s, email, password, ticket, newSecret);
      case Verify(ticket, code) => VerifySound(otp, s, ticket, code);
      case Edit(email, active, password, code) => EditSound(otp, s, email, active, password, code);
      case DropKey(email, code) => DropKeySound(otp, s, email, code);
      case DropTicket(ticket) => RevokeSound(otp, s, ticket);
    }
  }

  lemma DropKeySound(otp: Codes, s: State, email: Email, code: string)
    requires Sound(otp, s)
    ensures Sound(otp, Serve(otp, s, DropKey(email, code)).0)
  {
  }

  /******* What the log says of passwords *******/

  /** The state in which arrival number `n` of the run is served. */
  function Before(otp: Codes, arrivals: seq<Arrival>, n: nat): State
    requires n < |arrivals|
  {
    Run(otp, NOBODY, arrivals[..n]).(now := arrivals[n].at)
  }

  /** Arrival number `m` gave the operator's right password, to an account that answers, and got
      the ticket for it. */
  ghost predicate PasswordGiven(otp: Codes, arrivals: seq<Arrival>, m: nat, email: Email, ticket: TicketId, at: nat) {
    && m < |arrivals| && arrivals[m].at == at && arrivals[m].request.Login?
    && arrivals[m].request.email == email && arrivals[m].request.ticket == ticket
    && Serves(Before(otp, arrivals, m), email)
    && RightPassword(Before(otp, arrivals, m), email, arrivals[m].request.password)
  }

  /** A login gets a ticket exactly when the account answers and the password is right. */
  lemma ChallengeNeedsPassword(s: State, email: Email, password: string, ticket: TicketId, newSecret: Secret)
    ensures LoginPost(s, email, password, ticket, newSecret).1.Challenge?
       <==> Serves(s, email) && RightPassword(s, email, password)
  {
  }

  lemma OnlyLoginsAccept(otp: Codes, s: State, request: Request, e: Event)
    requires e.PasswordAccepted? && e in Serve(otp, s, request).0.log && e !in s.log
    ensures request.Login? && e == PasswordAccepted(request.email, request.ticket, s.now)
    ensures Serves(s, request.email) && RightPassword(s, request.email, request.password)
  {
  }

  /** Every acceptance of a password in the log is the answer to an arrival that gave the right
      one. */
  lemma {:induction false} PasswordsWereRight(otp: Codes, arrivals: seq<Arrival>, e: Event) returns (m: nat)
    requires e.PasswordAccepted? && e in Run(otp, NOBODY, arrivals).log
    ensures PasswordGiven(otp, arrivals, m, e.email, e.ticket, e.at)
  {
    var before, last := arrivals[..|arrivals| - 1], |arrivals| - 1;
    if e in Run(otp, NOBODY, before).log {
      m := PasswordsWereRight(otp, before, e);
      assert before[..m] == arrivals[..m] && before[m] == arrivals[m];
    } else {
      m := last;
      OnlyLoginsAccept(otp, Before(otp, arrivals, last), arrivals[last].request, e);
    }
  }

  /******* What the log says of codes *******/

  /** A code accepted in the last three time steps is remembered as spent. */
  ghost predicate KeysKept(s: State, email: Email) {
    forall e :: e in s.log && e.CodeAccepted? && e.email == email ==> Remembered(s, e)
  }

  predicate Remembered(s: State, e: Event)
    requires e.CodeAccepted?
  {
    || e.at + REPLAY_TTL <= s.now
    || ((e.email, e.code) in s.used && e.at + REPLAY_TTL <= s.used[(e.email, e.code)])
  }

  predicate SameCode(e: Event, e': Event, email: Email) {
    e.CodeAccepted? && e'.CodeAccepted? && e.email == email && e'.email == email && e.code == e'.code
  }

  ghost predicate CodesApart(log: seq<Event>, email: Email) {
    forall i, j :: 0 <= i < j < |log| && SameCode(log[i], log[j], email) ==> log[i].at + REPLAY_TTL <= log[j].at
  }

  ghost predicate KeysSound(s: State, email: Email) {
    KeysKept(s, email) && CodesApart(s.log, email)
  }

  /** Anything but an acceptance leaves the keys as they are. */
  lemma OtherEventsKeepKeys(s: State, t: State, email: Email, e: Event)
    requires KeysSound(s, email) && !e.CodeAccepted?
    requires t.log == s.log || t.log == s.log + [e]
    requires t.used == s.used && t.now == s.now
    ensures KeysSound(t, email)
  {
    assert forall e' :: e' in t.log && e'.CodeAccepted? ==> e' in s.log;
  }

  lemma SpendKeepsKeys(otp: Codes, s: State, email: Email, who: Email, secret: Secret, step: nat, raw: string,
                       enrolling: bool)
    requires KeysSound(s, email) && who in s.operators
    requires VerifyTotp(otp, s, who, secret, raw) == Some(step)
    ensures KeysSound(Spend(s, who, secret, step, raw, enrolling), email)
  {
    var e := CodeAccepted(who, secret, step, WithoutSpaces(raw), s.now);
    var t := Spend(s, who, secret, step, raw, enrolling);
    assert t.log == s.log + [e];
    forall i | 0 <= i < |s.log| && SameCode(s.log[i], e, email)
      ensures s.log[i].at + REPLAY_TTL <= s.now
    {
      assert s.log[i] in s.log && Remembered(s, s.log[i]);
    }
    forall e' | e' in t.log && e'.CodeAccepted? && e'.email == email
      ensures Remembered(t, e')
    {
      if e' != e {
        assert e' in s.log && Remembered(s, e');
      }
    }
  }

  lemma DropKeepsKeys(otp: Codes, s: State, email: Email, who: Email, code: string)
    requires KeysSound(s, email) && (who == email ==> Unused(s.used, email, code, s.now))
    ensures KeysSound(Serve(otp, s, DropKey(who, code)).0, email)
  {
    var t := Serve(otp, s, DropKey(who, code)).0;
    forall e | e in t.log && e.CodeAccepted? && e.email == email
      ensures Remembered(t, e)
    {
      assert Remembered(s, e);
      assert (e.email, e.code) in s.used && (e.email, e.code) != (who, code) ==> (e.email, e.code) in t.used;
    }
  }

  lemma VerifyKeepsKeys(otp: Codes, s: State, email: Email, ticket: TicketId, code: string)
    requires KeysSound(s, email)
    ensures KeysSound(VerifyPost(otp, s, ticket, code).0, email)
  {
    var t := VerifyPost(otp, s, ticket, code).0;
    if t.log == s.log {
      OtherEventsKeepKeys(s, t, email, GuessFailed("", 0));
    } else {
      var k := s.tickets[ticket];
      var op := s.operators[k.email];
      var secret := if k.enrolling then k.pending else op.secret;
      var step := VerifyTotp(otp, s, k.email, secret, code);
      if op.code.Some? && op.code.value == code {
        OtherEventsKeepKeys(s, t, email, SessionOpened(k.email, ticket, k.issued, AccessCode(code), s.now));
      } else if op.code.None? && step.Some? {
        SpendKeepsKeys(otp, s, email, k.email, secret, step.value, code, k.enrolling);
        OtherEventsKeepKeys(Spend(s, k.email, secret, step.value, code, k.enrolling), t, email,
                            SessionOpened(k.email, ticket, k.issued, Authenticator(secret), s.now));
      } else {
        OtherEventsKeepKeys(s, t, email, GuessFailed(k.email, s.now));
      }
    }
  }

  lemma LoginKeepsKeys(s: State, email: Email, who: Email, password: string, ticket: TicketId, newSecret: Secret)
    requires KeysSound(s, email)
    ensures KeysSound(LoginPost(s, who, password, ticket, newSecret).0, email)
  {
    var t := LoginPost(s, who, password, ticket, newSecret).0;
    if t.log == s.log + [GuessFailed(who, s.now)] {
      OtherEventsKeepKeys(s, t, email, GuessFailed(who, s.now));
    } else {
      OtherEventsKeepKeys(s, t, email, PasswordAccepted(who, ticket, s.now));
    }
  }

  lemma {:induction false} RunKeepsKeys(otp: Codes, arrivals: seq<Arrival>, email: Email)
    requires Orderly(otp, NOBODY, arrivals) && KeepsKeys(otp, NOBODY, arrivals, email)
    ensures KeysSound(Run(otp, NOBODY, arrivals), email)
  {
    if arrivals != [] {
      var before, a := arrivals[..|arrivals| - 1], arrivals[|arrivals| - 1];
      var s := Run(otp, NOBODY, before).(now := a.at);
      RunKeepsKeys(otp, before, email);
      assert KeysKept(s, email);
      match a.request
      case Login(who, password, ticket, newSecret) => LoginKeepsKeys(s, email, who, password, ticket, newSecret);
      case Verify(ticket, code) => VerifyKeepsKeys(otp, s, email, ticket, code);
      case Edit(_, _, _, _) => OtherEventsKeepKeys(s, Arrive(otp, s, a), email, GuessFailed("", 0));
      case DropKey(who, code) => DropKeepsKeys(otp, s, email, who, code);
      case DropTicket(_) => OtherEventsKeepKeys(s, Arrive(otp, s, a), email, GuessFailed("", 0));
    }
  }

  /******* One-time codes *******/

  /** The one-time rule of RFC 6238, section 5.2, over every run in which the operator's replay keys
      live to their timeout: two acceptances of one code, as typed, for that operator are at least
      90 seconds apart, so no time step covers both.  A
      time step of a secret is accepted again only in another spelling of the same code; two
      codes that are typed in their normal form never share one. */
  lemma NoTimeStepAcceptedTwice(otp: Codes, arrivals: seq<Arrival>, i: nat, j: nat)
    requires Orderly(otp, NOBODY, arrivals)
    requires i < j < |Run(otp, NOBODY, arrivals).log|
    requires var log := Run(otp, NOBODY, arrivals).log;
             log[i].CodeAccepted? && log[j].CodeAccepted? && log[i].email == log[j].email
             && KeepsKeys(otp, NOBODY, arrivals, log[i].email)
    ensures var log := Run(otp, NOBODY, arrivals).log;
            log[i].code == log[j].code ==>
              && log[i].at + REPLAY_TTL <= log[j].at
              && forall k :: !(Covers(k, log[i].at) && Covers(k, log[j].at))
    ensures var log := Run(otp, NOBODY, arrivals).log;
            log[i].secret == log[j].secret && log[i].step == log[j].step ==>
              && log[i].code != log[j].code && otp.norm(log[i].code) == otp.norm(log[j].code)
              && !(otp.norm(log[i].code) == log[i].code && otp.norm(log[j].code) == log[j].code)
  {
    RunSound(otp, arrivals);
    var log := Run(otp, NOBODY, arrivals).log;
    RunKeepsKeys(otp, arrivals, log[i].email);
    assert log[i] in log && log[j] in log;
    if log[i].code == log[j].code {
      assert SameCode(log[i], log[j], log[i].email);
      WindowsApart(log[i].at, log[j].at);
    }
  }

  lemma WindowsApart(earlier: nat, later: nat)
    requires earlier + REPLAY_TTL <= later
    ensures forall k :: !(Covers(k, earlier) && Covers(k, later))
  {
    assert (earlier + REPLAY_TTL) / TIME_STEP == earlier / TIME_STEP + 3;
    assert (earlier + REPLAY_TTL) / TIME_STEP <= later / TIME_STEP;
  }

  /** No time step of a secret was accepted twice. */
  ghost predicate StepsOnce(log: seq<Event>) {
    forall i, j :: 0 <= i < j < |log| && log[i].CodeAccepted? && log[j].CodeAccepted?
                   && log[i].email == log[j].email && log[i].secret == log[j].secret ==>
      log[i].step != log[j].step
  }

  /** Every code can be typed in one way only. */
  ghost predicate OneSpelling(otp: Codes) {
    forall secret, step, a, b :: secret != "" && Passes(otp, secret, step, a) && Passes(otp, secret, step, b) ==> a == b
  }

  /** No operator's replay key is dropped before it expires. */
  ghost predicate KeepsAllKeys(otp: Codes, arrivals: seq<Arrival>) {
    forall email :: KeepsKeys(otp, NOBODY, arrivals, email)
  }

  /** While replay keys live to their timeout, a time step can be accepted twice if and only if
      some code can be typed in two ways: the key is the string as typed, the comparison is by
      normal form. */
  lemma OneTimeExactly(otp: Codes)
    requires !otp.digit(' ')
    ensures (forall arrivals :: Orderly(otp, NOBODY, arrivals) && KeepsAllKeys(otp, arrivals) ==>
               StepsOnce(Run(otp, NOBODY, arrivals).log))
        <==> OneSpelling(otp)
  {
    if OneSpelling(otp) {
      forall arrivals | Orderly(otp, NOBODY, arrivals) && KeepsAllKeys(otp, arrivals)
        ensures StepsOnce(Run(otp, NOBODY, arrivals).log)
      {
        OneSpellingOnce(otp, arrivals);
      }
    } else {
      var secret, step, a, b :|
        secret != "" && Passes(otp, secret, step, a) && Passes(otp, secret, step, b) && a != b;
      var arrivals := TwoSpellingsPassTwice(otp, secret, step, a, b);
    }
  }

  lemma OneSpellingOnce(otp: Codes, arrivals: seq<Arrival>)
    requires OneSpelling(otp) && Orderly(otp, NOBODY, arrivals) && KeepsAllKeys(otp, arrivals)
    ensures StepsOnce(Run(otp, NOBODY, arrivals).log)
  {
    var log := Run(otp, NOBODY, arrivals).log;
    RunSound(otp, arrivals);
    forall i, j | 0 <= i < j < |log| && log[i].CodeAccepted? && log[j].CodeAccepted?
                  && log[i].email == log[j].email && log[i].secret == log[j].secret
      ensures log[i].step != log[j].step
    {
      assert log[i] in log && log[j] in log;
      NoTimeStepAcceptedTwice(otp, arrivals, i, j);
    }
  }

  /** If the cache may drop a replay key before it expires, the rule holds of no code that passes
      at all: the very same string is accepted again. */
  lemma KeysMustLive(otp: Codes)
    requires !otp.digit(' ')
    ensures (forall arrivals :: Orderly(otp, NOBODY, arrivals) ==> StepsOnce(Run(otp, NOBODY, arrivals).log))
        <==> (forall secret, step, a :: secret != "" ==> !Passes(otp, secret, step, a))
  {
    if secret, step, a :| secret != "" && Passes(otp, secret, step, a) {
      var arrivals := DroppedKeyPassesAgain(otp, secret, step, a);
    } else {
      forall arrivals | Orderly(otp, NOBODY, arrivals)
        ensures StepsOnce(Run(otp, NOBODY, arrivals).log)
      {
        RunSound(otp, arrivals);
        var log := Run(otp, NOBODY, arrivals).log;
        forall i | 0 <= i < |log|
          ensures !log[i].CodeAccepted?
        {
          assert log[i] in log;
        }
      }
    }
  }

  /******* Runs, arrival by arrival *******/

  ghost predicate LeadsTo(otp: Codes, arrivals: seq<Arrival>, s: State) {
    Orderly(otp, NOBODY, arrivals) && Run(otp, NOBODY, arrivals) == s
  }

  lemma LeadsOn(otp: Codes, arrivals: seq<Arrival>, s: State, a: Arrival)
    requires LeadsTo(otp, arrivals, s) && s.now <= a.at && Fresh(s, a.request)
    ensures LeadsTo(otp, arrivals + [a], Arrive(otp, s, a))
  {
    assert (arrivals + [a])[..|arrivals + [a]| - 1] == arrivals;
  }

  ghost predicate DropsNothing(arrivals: seq<Arrival>) {
    forall i :: 0 <= i < |arrivals| ==> !arrivals[i].request.DropKey?
  }

  lemma {:induction false} NothingDropped(otp: Codes, arrivals: seq<Arrival>, email: Email)
    requires DropsNothing(arrivals)
    ensures KeepsKeys(otp, NOBODY, arrivals, email)
  {
    if arrivals != [] {
      NothingDropped(otp, arrivals[..|arrivals| - 1], email);
    }
  }

  const OPERATOR: Email := "operator"
  const PASSWORD: string := "password"

  /** The operator as the command makes it: a password, and no second factor yet. */
  const NEWCOMER := Operator(true, Some(PASSWORD), None, "", 0, None)

  /** One operator, whose password has just been accepted: an enrolment is under way. */
  function Enrolling(now: nat, secret: Secret): State {
    State(now, map[OPERATOR := NEWCOMER], map[0 := Ticket(OPERATOR, true, secret, now)], map[],
          [PasswordAccepted(OPERATOR, 0, now)])
  }

  function Beginning(now: nat, secret: Secret): seq<Arrival> {
    [Arrival(now, Edit(OPERATOR, true, Some(PASSWORD), None)), Arrival(now, Login(OPERATOR, PASSWORD, 0, secret))]
  }

  lemma EnrolmentBegins(otp: Codes, now: nat, secret: Secret)
    ensures LeadsTo(otp, Beginning(now, secret), Enrolling(now, secret))
  {
    var first, second := Beginning(now, secret)[0], Beginning(now, secret)[1];
    assert LeadsTo(otp, [], NOBODY);
    LeadsOn(otp, [], NOBODY, first);
    var s := Arrive(otp, NOBODY, first);
    assert s == State(now, map[OPERATOR := NEWCOMER], map[], map[], []);
    LeadsOn(otp, [first], s, second);
    assert [] + [first] == [first] && [first] + [second] == Beginning(now, secret);
    assert Arrive(otp, s, second) == Enrolling(now, secret);
  }

  lemma {:induction false} NoSpaces(otp: Codes, code: string)
    requires !otp.digit(' ') && forall i :: 0 <= i < |code| ==> otp.digit(code[i])
    ensures WithoutSpaces(code) == code
  {
    if code != "" {
      NoSpaces(otp, code[1..]);
    }
  }

  lemma MatchesAlike(otp: Codes, secret: Secret, step: nat, a: string, b: string)
    requires Spells(otp, secret, step, a) && Spells(otp, secret, step, b)
    ensures var now := step * TIME_STEP;
            Matching(otp, secret, a, now).Some? && Matching(otp, secret, a, now) == Matching(otp, secret, b, now)
  {
    assert Covers(step, step * TIME_STEP);
  }

  /** The run that accepts one time step twice: an enrolment proven by one spelling, then an
      ordinary sign-in by the other, within the same half minute. */
  lemma TwoSpellingsPassTwice(otp: Codes, secret: Secret, step: nat, a: string, b: string) returns (arrivals: seq<Arrival>)
    requires !otp.digit(' ') && secret != "" && a != b
    requires Passes(otp, secret, step, a) && Passes(otp, secret, step, b)
    ensures Orderly(otp, NOBODY, arrivals) && KeepsAllKeys(otp, arrivals)
    ensures !StepsOnce(Run(otp, NOBODY, arrivals).log)
  {
    var now := step * TIME_STEP;
    NoSpaces(otp, a);
    NoSpaces(otp, b);
    MatchesAlike(otp, secret, step, a, b);
    var k := Matching(otp, secret, a, now).value;
    EnrolmentBegins(otp, now, secret);
    var s := Enrolling(now, secret);
    var enrol, login, again :=
      Arrival(now, Verify(0, a)), Arrival(now, Login(OPERATOR, PASSWORD, 1, "")), Arrival(now, Verify(1, b));
    LeadsOn(otp, Beginning(now, secret), s, enrol);
    var s1 := Arrive(otp, s, enrol);
    Enrolled(otp, s, secret, k, a);
    LeadsOn(otp, Beginning(now, secret) + [enrol], s1, login);
    LeadsOn(otp, Beginning(now, secret) + [enrol] + [login], Arrive(otp, s1, login), again);
    arrivals := Beginning(now, secret) + [enrol] + [login] + [again];
    PassesAgain(otp, s1, secret, k, b);
    assert DropsNothing(arrivals);
    AllKept(otp, arrivals);
  }

  lemma AllKept(otp: Codes, arrivals: seq<Arrival>)
    requires DropsNothing(arrivals)
    ensures KeepsAllKeys(otp, arrivals)
  {
    forall email
      ensures KeepsKeys(otp, NOBODY, arrivals, email)
    {
      NothingDropped(otp, arrivals, email);
    }
  }

  /** The run in which a dropped key lets a code pass again: an enrolment, the key dropped at once,
      and an ordinary sign-in by the same string within the same half minute. */
  lemma DroppedKeyPassesAgain(otp: Codes, secret: Secret, step: nat, a: string) returns (arrivals: seq<Arrival>)
    requires !otp.digit(' ') && secret != "" && Passes(otp, secret, step, a)
    ensures Orderly(otp, NOBODY, arrivals) && !StepsOnce(Run(otp, NOBODY, arrivals).log)
  {
    var now := step * TIME_STEP;
    NoSpaces(otp, a);
    MatchesAlike(otp, secret, step, a, a);
    var k := Matching(otp, secret, a, now).value;
    EnrolmentBegins(otp, now, secret);
    var s := Enrolling(now, secret);
    var enrol, drop := Arrival(now, Verify(0, a)), Arrival(now, DropKey(OPERATOR, a));
    var login, again := Arrival(now, Login(OPERATOR, PASSWORD, 1, "")), Arrival(now, Verify(1, a));
    LeadsOn(otp, Beginning(now, secret), s, enrol);
    var s1 := Arrive(otp, s, enrol);
    Enrolled(otp, s, secret, k, a);
    LeadsOn(otp, Beginning(now, secret) + [enrol], s1, drop);
    var s2 := Arrive(otp, s1, drop);
    LeadsOn(otp, Beginning(now, secret) + [enrol] + [drop], s2, login);
    LeadsOn(otp, Beginning(now, secret) + [enrol] + [drop] + [login], Arrive(otp, s2, login), again);
    arrivals := Beginning(now, secret) + [enrol] + [drop] + [login] + [again];
    PassesAgain(otp, s2, secret, k, a);
  }

  /** A second sign-in in the same time step, by a string that is not remembered. */
  lemma PassesAgain(otp: Codes, s1: State, secret: Secret, k: nat, b: string)
    requires secret != "" && (OPERATOR, b) !in s1.used
    requires SixDigits(otp, b) && WithoutSpaces(b) == b && Matching(otp, secret, b, s1.now) == Some(k)
    requires s1.operators == map[OPERATOR := NEWCOMER.(secret := secret)]
    requires |s1.log| > 1 && s1.log[1].CodeAccepted? && s1.log[1].email == OPERATOR
    requires s1.log[1].secret == secret && s1.log[1].step == k
    ensures var s2 := Arrive(otp, s1, Arrival(s1.now, Login(OPERATOR, PASSWORD, 1, "")));
            !StepsOnce(Arrive(otp, s2, Arrival(s1.now, Verify(1, b))).log)
  {
    var now := s1.now;
    var s2 := Arrive(otp, s1, Arrival(now, Login(OPERATOR, PASSWORD, 1, "")));
    var s3 := Arrive(otp, s2, Arrival(now, Verify(1, b)));
    assert s2.tickets[1] == Ticket(OPERATOR, false, "", now) && s2.used == s1.used;
    assert VerifyTotp(otp, s2, OPERATOR, secret, b) == Some(k);
    assert s3.log == s2.log + [CodeAccepted(OPERATOR, secret, k, b, now)]
                       + [SessionOpened(OPERATOR, 1, now, Authenticator(secret), now)];
    assert s3.log[1] == s1.log[1] && s3.log[|s2.log|] == CodeAccepted(OPERATOR, secret, k, b, now);
  }

  lemma Enrolled(otp: Codes, s: State, secret: Secret, k: nat, a: string)
    requires s == Enrolling(s.now, secret) && secret != ""
    requires SixDigits(otp, a) && WithoutSpaces(a) == a && Matching(otp, secret, a, s.now) == Some(k)
    ensures Arrive(otp, s, Arrival(s.now, Verify(0, a)))
         == State(s.now, map[OPERATOR := NEWCOMER.(secret := secret)], map[], map[(OPERATOR, a) := s.now + REPLAY_TTL],
                  [PasswordAccepted(OPERATOR, 0, s.now), CodeAccepted(OPERATOR, secret, k, a, s.now),
                   SessionOpened(OPERATOR, 0, s.now, Authenticator(secret), s.now)])
  {
    assert VerifyTotp(otp, s, OPERATOR, secret, a) == Some(k);
    var t := Spend(s, OPERATOR, secret, k, a, true);
    assert t.log == [PasswordAccepted(OPERATOR, 0, s.now), CodeAccepted(OPERATOR, secret, k, a, s.now)];
    assert s.tickets - {0} == map[];
  }

  const PLAIN: string := "123456"
  const WIDE: string := "\U{FF11}\U{FF12}\U{FF13}\U{FF14}\U{FF15}\U{FF16}"

  /** The input: "123456" typed a second time in full-width digits, which are digits to
      `isdigit` and have the ASCII ones for their normal form. */
  lemma WideDigitsPassAgain(otp: Codes, secret: Secret, step: nat) returns (arrivals: seq<Arrival>)
    requires !otp.digit(' ') && secret != "" && otp.of(secret, step) == PLAIN && otp.norm(WIDE) == otp.norm(PLAIN)
    requires SixDigits(otp, PLAIN) && SixDigits(otp, WIDE)
    ensures Orderly(otp, NOBODY, arrivals) && KeepsAllKeys(otp, arrivals) && !StepsOnce(Run(otp, NOBODY, arrivals).log)
  {
    assert PLAIN[0] != WIDE[0];
    arrivals := TwoSpellingsPassTwice(otp, secret, step, PLAIN, WIDE);
  }
}
