/** The sign-in requests as the source runs them: against an operator table, a ticket cache
    and a replay cache that each request updates in place. */
module SignInDesk {
  import opened Options
  import opened SignIn

  class Desk {
    const otp: Codes
    var now: nat
    var operators: map<Email, Operator>
    var tickets: map<TicketId, Ticket>
    var used: map<(Email, string), nat>
    ghost var log: seq<Event>

    ghost function Model(): State
      reads this
    {
      State(now, operators, tickets, used, log)
    }

    constructor (otp: Codes)
      ensures this.otp == otp && Model() == NOBODY
    {
      this.otp := otp;
      now, operators, tickets, used, log := 0, map[], map[], map[], [];
    }

    /** `PlatformAdmin.note_failure`. */
    method CountFailure(email: Email)
      requires email in operators
      modifies this`operators, this`log
      ensures Model() == Fail(old(Model()), email)
    {
      var op := operators[email];
      op := op.(failed := op.failed + 1);
      if op.failed >= MAX_FAILED_ATTEMPTS {
        op := op.(lockedUntil := Some(now + LOCKOUT), failed := 0);
      }
      operators := operators[email := op];
      log := log + [GuessFailed(email, now)];
    }

    /** `tickets.issue`, for the operator whose password was just accepted. */
    method IssueTicket(email: Email, ticket: TicketId, enrolling: bool, pending: Secret)
      modifies this`tickets, this`log
      ensures Model() == Admit(old(Model()), email, ticket, enrolling, pending)
      ensures Load(Model(), ticket) == Some(Ticket(email, enrolling, pending, now))
    {
      tickets := tickets[ticket := Ticket(email, enrolling, pending, now)];
      log := log + [PasswordAccepted(email, ticket, now)];
    }

    /** `totp.verify`: true once per code. */
    method VerifyCode(email: Email, secret: Secret, raw: string) returns (ok: bool)
      requires email in operators
      modifies this`used, this`log
      ensures ok <==> VerifyTotp(otp, old(Model()), email, secret, raw).Some?
      ensures ok ==> Model() == Spend(old(Model()), email, secret,
                                      VerifyTotp(otp, old(Model()), email, secret, raw).value, raw, false)
      ensures !ok ==> Model() == old(Model())
    {
      var code := WithoutSpaces(raw);
      if secret == "" || !SixDigits(otp, code) {
        return false;
      }
      var step := Matching(otp, secret, code, now);
      if step.None? {
        return false;
      }
      if !Unused(used, email, code, now) {
        return false;
      }
      used := used[(email, code) := now + REPLAY_TTL];
      log := log + [CodeAccepted(email, secret, step.value, code, now)];
      ok := true;
    }

    /** `tickets.revoke`, `start_session` and `note_success`. */
    method OpenSession(email: Email, ticket: TicketId, issued: nat, ghost factor: Factor)
      requires email in operators
      modifies this`operators, this`tickets, this`log
      ensures Model() == Open(old(Model()), ticket, issued, email, factor)
      ensures Load(Model(), ticket).None? && !IsLocked(operators[email], now)
    {
      tickets := tickets - {ticket};
      var op := operators[email];
      operators := operators[email := op.(failed := 0, lockedUntil := None)];
      log := log + [SessionOpened(email, ticket, issued, factor, now)];
    }

    /** `LoginView.post`. */
    method Login(email: Email, password: string, ticket: TicketId, newSecret: Secret) returns (reply: Reply)
      modifies this`operators, this`tickets, this`log
      ensures (Model(), reply) == LoginPost(old(Model()), email, password, ticket, newSecret)
    {
      if email !in operators || !operators[email].active {
        return BadCredentials;
      }
      var op := operators[email];
      if op.lockedUntil.Some? && op.lockedUntil.value > now {
        return AccountLocked;
      }
      if op.password != Some(password) {
        CountFailure(email);
        return BadCredentials;
      }
      if op.code.Some? || op.secret != "" {
        IssueTicket(email, ticket, false, "");
        return Challenge(ticket, false);
      }
      IssueTicket(email, ticket, true, newSecret);
      reply := Challenge(ticket, true);
    }

    /** `LoginVerifyView.post`. */
    method Verify(ticket: TicketId, code: string) returns (reply: Reply)
      modifies this`operators, this`tickets, this`used, this`log
      ensures (Model(), reply) == VerifyPost(otp, old(Model()), ticket, code)
    {
      var loaded := if ticket in tickets && now < tickets[ticket].issued + TICKET_TTL then Some(tickets[ticket]) else None;
      if loaded.None? {
        return Expired;
      }
      var t := loaded.value;
      if t.email !in operators || !operators[t.email].active {
        tickets := tickets - {ticket};
        return BadCredentials;
      }
      var op := operators[t.email];
      if op.lockedUntil.Some? && op.lockedUntil.value > now {
        tickets := tickets - {ticket};
        return AccountLocked;
      }
      if op.code.Some? {
        if op.code.value != code {
          CountFailure(t.email);
          return InvalidCode;
        }
        OpenSession(t.email, ticket, t.issued, AccessCode(code));
        return SignedIn(t.email);
      }
      var secret := if t.enrolling then t.pending else op.secret;
      var ok := VerifyCode(t.email, secret, code);
      if !ok {
        CountFailure(t.email);
        return InvalidCode;
      }
      if t.enrolling {
        operators := operators[t.email := op.(secret := secret)];
      }
      OpenSession(t.email, ticket, t.issued, Authenticator(secret));
      reply := SignedIn(t.email);
    }
  }
}
