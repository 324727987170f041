/** Sign-in of platform operators: apps/platform_admin/auth_views.py over the lockout of
    models.py, the one-time codes of totp.py and the tickets of tickets.py.

    Times are milliseconds.  Hashing is taken as injective and encryption as invertible, so
    passwords, codes and secrets stand for themselves.  Each request runs as one step. */
module SignIn {
  import opened Options

  const MAX_FAILED_ATTEMPTS: nat := 5
  const LOCKOUT: nat := 15 * 60 * 1000
  const TICKET_TTL: nat := 4 * 60 * 1000
  const TIME_STEP: nat := 30 * 1000
  const VALID_WINDOW: nat := 1
  const REPLAY_TTL: nat := TIME_STEP * (2 * VALID_WINDOW + 1)

  type Email = string
  type TicketId = nat
  type Secret = string

  /** One-time codes: `of` is the code of a secret in a time step (RFC 6238), `digit` what
      `isdigit` takes for a digit, in any script, and `norm` the normal form in which codes are
      compared. */
  datatype Codes = Codes(of: (Secret, nat) -> string, digit: char -> bool, norm: string -> string)

  /** A second factor as it was proven. */
  datatype Factor = AccessCode(code: string) | Authenticator(secret: Secret)

  /** `password` is None while unusable, `code` while no access code is set, and `secret` is
      empty until an authenticator is enrolled. */
  datatype Operator = Operator(
    active: bool, password: Option<string>, code: Option<string>, secret: Secret,
    failed: nat, lockedUntil: Option<nat>)

  datatype Ticket = Ticket(email: Email, enrolling: bool, pending: Secret, issued: nat)

  /** What happened, oldest first. */
  datatype Event =
    | PasswordAccepted(email: Email, ticket: TicketId, at: nat)
    | GuessFailed(email: Email, at: nat)
    | CodeAccepted(email: Email, secret: Secret, step: nat, code: string, at: nat)
    | SessionOpened(email: Email, ticket: TicketId, issued: nat, factor: Factor, at: nat)

  datatype State = State(
    now: nat, operators: map<Email, Operator>, tickets: map<TicketId, Ticket>,
    used: map<(Email, string), nat>, log: seq<Event>)

  /** Requests, the commands that edit an operator, and the cache dropping an entry of its own
      accord: a replay key, or a ticket. */
  datatype Request =
    | Login(email: Email, password: string, ticket: TicketId, newSecret: Secret)
    | Verify(ticket: TicketId, code: string)
    | Edit(email: Email, active: bool, newPassword: Option<string>, newCode: Option<string>)
    | DropKey(email: Email, code: string)
    | DropTicket(ticket: TicketId)

  datatype Reply =
    | BadCredentials | AccountLocked | Expired | InvalidCode | Silent
    | Challenge(ticket: TicketId, enrolling: bool)
    | SignedIn(email: Email)

  /******* The pieces *******/

  predicate IsLocked(op: Operator, now: nat) {
    op.lockedUntil.Some? && op.lockedUntil.value > now
  }

  function NoteFailure(op: Operator, now: nat): Operator {
    if op.failed + 1 >= MAX_FAILED_ATTEMPTS then op.(failed := 0, lockedUntil := Some(now + LOCKOUT))
    else op.(failed := op.failed + 1)
  }

  function NoteSuccess(op: Operator): Operator {
    op.(failed := 0, lockedUntil := None)
  }

  function WithoutSpaces(code: string): string {
    if code == "" then "" else
    (if code[0] == ' ' then "" else [code[0]]) + WithoutSpaces(code[1..])
  }

  predicate SixDigits(otp: Codes, code: string) {
    |code| == 6 && forall i :: 0 <= i < |code| ==> otp.digit(code[i])
  }

  /** The code as typed reads as the secret's code in the time step. */
  predicate Spells(otp: Codes, secret: Secret, step: nat, code: string) {
    otp.norm(code) == otp.norm(otp.of(secret, step))
  }

  /** A string that the code field would take for a secret's code in a time step. */
  predicate Passes(otp: Codes, secret: Secret, step: nat, code: string) {
    SixDigits(otp, code) && Spells(otp, secret, step, code)
  }

  /** The time step, within the drift window of `now`, whose code this is. */
  function Matching(otp: Codes, secret: Secret, code: string, now: nat): (step: Option<nat>)
    ensures step.Some? ==> Covers(step.value, now) && Spells(otp, secret, step.value, code)
    ensures step.None? ==> forall k :: Covers(k, now) ==> !Spells(otp, secret, k, code)
  {
    var k := now / TIME_STEP;
    if k > 0 && Spells(otp, secret, k - 1, code) then Some(k - 1)
    else if Spells(otp, secret, k, code) then Some(k)
    else if Spells(otp, secret, k + 1, code) then Some(k + 1)
    else None
  }

  /** The drift window of a time step: it, and VALID_WINDOW steps on either side. */
  predicate Covers(step: nat, now: nat) {
    step <= now / TIME_STEP + VALID_WINDOW && now / TIME_STEP <= step + VALID_WINDOW
  }

  /** `cache.add` on the replay key succeeds when the key is absent or has expired. */
  predicate Unused(used: map<(Email, string), nat>, email: Email, code: string, now: nat) {
    (email, code) !in used || used[(email, code)] <= now
  }

  function VerifyTotp(otp: Codes, s: State, email: Email, secret: Secret, raw: string): (step: Option<nat>) {
    var code := WithoutSpaces(raw);
    if secret == "" || !SixDigits(otp, code) then None
    else if Unused(s.used, email, code, s.now) then Matching(otp, secret, code, s.now)
    else None
  }

  function Load(s: State, ticket: TicketId): Option<Ticket> {
    if ticket in s.tickets && s.now < s.tickets[ticket].issued + TICKET_TTL then Some(s.tickets[ticket]) else None
  }

  function Revoke(s: State, ticket: TicketId): State {
    s.(tickets := s.tickets - {ticket})
  }

  function Fail(s: State, email: Email): State
    requires email in s.operators
  {
    s.(operators := s.operators[email := NoteFailure(s.operators[email], s.now)],
       log := s.log + [GuessFailed(email, s.now)])
  }

  /** Both factors are proven: the ticket goes, the session opens, the counter is cleared. */
  function Open(s: State, ticket: TicketId, issued: nat, email: Email, factor: Factor): State
    requires email in s.operators
  {
    Revoke(s, ticket).(operators := s.operators[email := NoteSuccess(s.operators[email])],
                       log := s.log + [SessionOpened(email, ticket, issued, factor, s.now)])
  }

  /** The code is spent and, on an enrolment, its secret becomes the operator's own. */
  function Spend(s: State, email: Email, secret: Secret, step: nat, raw: string, enrolling: bool): State
    requires email in s.operators
  {
    var code := WithoutSpaces(raw);
    s.(used := s.used[(email, code) := s.now + REPLAY_TTL],
       operators := if enrolling then s.operators[email := s.operators[email].(secret := secret)] else s.operators,
       log := s.log + [CodeAccepted(email, secret, step, code, s.now)])
  }

  /******* What is asked of a user, and what answers it *******/

  /** The operator could sign in at the moment. */
  predicate Serves(s: State, email: Email) {
    email in s.operators && s.operators[email].active && !IsLocked(s.operators[email], s.now)
  }

  predicate RightPassword(s: State, email: Email, password: string) {
    email in s.operators && s.operators[email].password == Some(password)
  }

  /** The second factor an operator is on; an access code overrides the authenticator. */
  function InForce(op: Operator): Option<Factor> {
    if op.code.Some? then Some(AccessCode(op.code.value))
    else if op.secret != "" then Some(Authenticator(op.secret))
    else None
  }

  /** The second factor a ticket's holder has to give now. */
  function Asked(op: Operator, t: Ticket): Factor {
    if op.code.Some? then AccessCode(op.code.value)
    else Authenticator(if t.enrolling then t.pending else op.secret)
  }

  /** `code` is the access code, or an unspent code of the authenticator within its window. */
  ghost predicate Proves(otp: Codes, s: State, email: Email, code: string, factor: Factor) {
    match factor
    case AccessCode(c) => code == c
    case Authenticator(secret) =>
      && secret != "" && Unused(s.used, email, WithoutSpaces(code), s.now)
      && exists step :: Covers(step, s.now) && Passes(otp, secret, step, WithoutSpaces(code))
  }

  /** The request is a wrong guess at the operator's password or second factor: the account
      answers, and what was typed is not what was asked for. */
  ghost predicate Wrong(otp: Codes, s: State, request: Request, email: Email) {
    Serves(s, email) &&
    match request
    case Login(who, password, _, _) => who == email && !RightPassword(s, email, password)
    case Verify(ticket, code) =>
      && Load(s, ticket).Some? && s.tickets[ticket].email == email
      && !Proves(otp, s, email, code, Asked(s.operators[email], s.tickets[ticket]))
    case _ => false
  }

  lemma VerifyTotpIs(otp: Codes, s: State, email: Email, secret: Secret, code: string)
    ensures VerifyTotp(otp, s, email, secret, code).Some? <==> Proves(otp, s, email, code, Authenticator(secret))
  {
    var step := VerifyTotp(otp, s, email, secret, code);
    if step.Some? {
      assert Covers(step.value, s.now) && Passes(otp, secret, step.value, WithoutSpaces(code));
    }
  }

  /******* The requests *******/

  /** The password was right: a ticket for the second step. */
  function Admit(s: State, email: Email, ticket: TicketId, enrolling: bool, pending: Secret): State {
    s.(tickets := s.tickets[ticket := Ticket(email, enrolling, pending, s.now)],
       log := s.log + [PasswordAccepted(email, ticket, s.now)])
  }

  /** `LoginView.post`.  `ticket` and `newSecret` are what the random source would yield. */
  function LoginPost(s: State, email: Email, password: string, ticket: TicketId, newSecret: Secret): (State, Reply) {
    if email !in s.operators || !s.operators[email].active then (s, BadCredentials)
    else
      var op := s.operators[email];
      if IsLocked(op, s.now) then (s, AccountLocked)
      else if op.password != Some(password) then (Fail(s, email), BadCredentials)
      else
        var enrolling := op.code.None? && op.secret == "";
        (Admit(s, email, ticket, enrolling, if enrolling then newSecret else ""), Challenge(ticket, enrolling))
  }

  /** The factor is the operator's own setting now, whatever stage the ticket announced. */
  function SecondFactor(otp: Codes, s: State, ticket: TicketId, code: string): (State, Reply)
    requires ticket in s.tickets && s.tickets[ticket].email in s.operators
  {
    var t := s.tickets[ticket];
    var op := s.operators[t.email];
    if op.code.Some? then
      if op.code.value != code then (Fail(s, t.email), InvalidCode)
      else (Open(s, ticket, t.issued, t.email, AccessCode(code)), SignedIn(t.email))
    else
      var secret := if t.enrolling then t.pending else op.secret;
      match VerifyTotp(otp, s, t.email, secret, code)
      case None => (Fail(s, t.email), InvalidCode)
      case Some(step) =>
        (Open(Spend(s, t.email, secret, step, code, t.enrolling), ticket, t.issued, t.email, Authenticator(secret)),
         SignedIn(t.email))
  }

  /** `LoginVerifyView.post`; `code` is what was typed, stripped. */
  function VerifyPost(otp: Codes, s: State, ticket: TicketId, code: string): (State, Reply) {
    match Load(s, ticket)
    case None => (s, Expired)
    case Some(t) =>
      if t.email !in s.operators || !s.operators[t.email].active then (Revoke(s, ticket), BadCredentials)
      else
        var op := s.operators[t.email];
        if IsLocked(op, s.now) then (Revoke(s, ticket), AccountLocked)
        else SecondFactor(otp, s, ticket, code)
  }

  /** The commands that create an operator, or set a password or an access code: none of them
      touches the lockout or the authenticator. */
  function EditOperator(s: State, email: Email, active: bool, password: Option<string>, code: Option<string>): State {
    var op := if email in s.operators then s.operators[email] else Operator(true, None, None, "", 0, None);
    s.(operators := s.operators[email := op.(active := active, password := password, code := code)])
  }

  function Serve(otp: Codes, s: State, request: Request): (State, Reply) {
    match request
    case Login(email, password, ticket, newSecret) => LoginPost(s, email, password, ticket, newSecret)
    case Verify(ticket, code) => VerifyPost(otp, s, ticket, code)
    case Edit(email, active, password, code) => (EditOperator(s, email, active, password, code), Silent)
    case DropKey(email, code) => (s.(used := s.used - {(email, code)}), Silent)
    case DropTicket(ticket) => (Revoke(s, ticket), Silent)
  }

  predicate Issued(log: seq<Event>, ticket: TicketId) {
    exists i :: 0 <= i < |log| && log[i].PasswordAccepted? && log[i].ticket == ticket
  }

  /** The random source never repeats a ticket. */
  predicate Fresh(s: State, request: Request) {
    request.Login? ==> !Issued(s.log, request.ticket)
  }

  datatype Arrival = Arrival(at: nat, request: Request)

  function Arrive(otp: Codes, s: State, a: Arrival): State {
    Serve(otp, s.(now := a.at), a.request).0
  }

  predicate Orderly(otp: Codes, s: State, arrivals: seq<Arrival>) {
    arrivals == [] ||
    (Orderly(otp, s, arrivals[..|arrivals| - 1]) &&
     var t := Run(otp, s, arrivals[..|arrivals| - 1]);
     var a := arrivals[|arrivals| - 1];
     t.now <= a.at && Fresh(t, a.request))
  }

  function Run(otp: Codes, s: State, arrivals: seq<Arrival>): State {
    if arrivals == [] then s
    else Arrive(otp, Run(otp, s, arrivals[..|arrivals| - 1]), arrivals[|arrivals| - 1])
  }

  /** No replay key of the operator is dropped before it expires. */
  predicate KeepsKeys(otp: Codes, s: State, arrivals: seq<Arrival>, email: Email) {
    arrivals == [] ||
    (KeepsKeys(otp, s, arrivals[..|arrivals| - 1], email) &&
     var t := Run(otp, s, arrivals[..|arrivals| - 1]);
     var a := arrivals[|arrivals| - 1];
     a.request.DropKey? && a.request.email == email ==> Unused(t.used, email, a.request.code, a.at))
  }

  const NOBODY := State(0, map[], map[], map[], [])

  /******* What a request answers, and leaves *******/

  /** An account answers exactly when it exists, is active, and no lockout lies ahead. */
  lemma ServesExactly(s: State, email: Email)
    ensures Serves(s, email) <==>
            && email in s.operators && s.operators[email].active
            && (s.operators[email].lockedUntil.Some? ==> s.operators[email].lockedUntil.value <= s.now)
  {
  }

  /** A right password gets a ticket.  It is for an enrolment, and carries a fresh secret, exactly
      when the operator has neither an access code nor an authenticator. */
  lemma LoginAnswers(s: State, email: Email, password: string, ticket: TicketId, newSecret: Secret)
    requires Serves(s, email) && RightPassword(s, email, password)
    ensures var (t, reply) := LoginPost(s, email, password, ticket, newSecret);
            var op := s.operators[email];
            && reply == Challenge(ticket, InForce(op).None?)
            && (InForce(op).None? <==> op.code.None? && op.secret == "")
            && t.tickets == s.tickets[ticket := Ticket(email, InForce(op).None?,
                                                       if InForce(op).None? then newSecret else "", s.now)]
            && t.operators == s.operators && t.used == s.used
  {
  }

  /** Any other login is refused, for the first of these reasons that applies. */
  lemma LoginRefusals(s: State, email: Email, password: string, ticket: TicketId, newSecret: Secret)
    requires !(Serves(s, email) && RightPassword(s, email, password))
    ensures var (t, reply) := LoginPost(s, email, password, ticket, newSecret);
            && reply == (if email !in s.operators || !s.operators[email].active then BadCredentials
                         else if s.operators[email].lockedUntil.Some? && s.now < s.operators[email].lockedUntil.value
                         then AccountLocked else BadCredentials)
            && t.tickets == s.tickets && t.used == s.used
            && (!Serves(s, email) ==> t == s)
  {
  }

  /** A verification that does not sign in: what it answers, and whether it costs the ticket. */
  lemma VerifyRefusals(otp: Codes, s: State, ticket: TicketId, code: string)
    requires !VerifyPost(otp, s, ticket, code).1.SignedIn?
    ensures var (t, reply) := VerifyPost(otp, s, ticket, code);
            && (ticket !in s.tickets || s.tickets[ticket].issued + 240_000 <= s.now ==> reply == Expired && t == s)
            && (ticket in s.tickets && s.now < s.tickets[ticket].issued + 240_000 ==>
                  var email := s.tickets[ticket].email;
                  if Serves(s, email) then reply == InvalidCode && t.tickets == s.tickets && t.used == s.used
                  else && t == s.(tickets := s.tickets - {ticket})
                       && reply == if email in s.operators && s.operators[email].active then AccountLocked
                                   else BadCredentials)
  {
  }

  /** Signing in uses the ticket up, clears the counter and the lockout, and stores the secret of an
      enrolment that no access code overrides; nothing else of any operator changes. */
  lemma SuccessLeaves(otp: Codes, s: State, ticket: TicketId, code: string, email: Email)
    requires VerifyPost(otp, s, ticket, code).1 == SignedIn(email)
    ensures ticket in s.tickets && email in s.operators
    ensures var t := VerifyPost(otp, s, ticket, code).0;
            var op, k := s.operators[email], s.tickets[ticket];
            && t.tickets == s.tickets - {ticket}
            && t.operators == s.operators[email := op.(
                 failed := 0, lockedUntil := None,
                 secret := if op.code.None? && k.enrolling then k.pending else op.secret)]
            && t.used == if op.code.Some? then s.used else s.used[(email, WithoutSpaces(code)) := s.now + 90_000]
  {
  }

  /** A wrong guess raises the counter; the fifth in a row clears it and locks the account for
      exactly fifteen minutes. */
  lemma FailureNotes(op: Operator, now: nat, later: nat)
    ensures op.failed < 4 ==> NoteFailure(op, now) == op.(failed := op.failed + 1)
    ensures op.failed >= 4 ==> NoteFailure(op, now).failed == 0
                               && (IsLocked(NoteFailure(op, now), later) <==> later < now + 900_000)
    ensures NoteFailure(op, now).(failed := op.failed, lockedUntil := op.lockedUntil) == op
  {
  }

  /** The commands set what they are given, and leave the lockout and the authenticator of an
      operator, and every other operator, as they are. */
  lemma EditsKeepTheLockout(s: State, email: Email, active: bool, password: Option<string>, code: Option<string>)
    requires email in s.operators
    ensures EditOperator(s, email, active, password, code)
         == s.(operators := s.operators[email := s.operators[email].(active := active, password := password, code := code)])
  {
  }

  /** A new operator has no authenticator, no failures and no lockout. */
  lemma NewOperatorIsPlain(s: State, email: Email, active: bool, password: Option<string>, code: Option<string>)
    requires email !in s.operators
    ensures EditOperator(s, email, active, password, code)
         == s.(operators := s.operators[email := Operator(active, password, code, "", 0, None)])
  {
  }

  /** `replace(' ', '')`: every space goes, and nothing but spaces, in order. */
  lemma {:induction false} WithoutSpacesIs(a: string, b: string)
    ensures WithoutSpaces(a + b) == WithoutSpaces(a) + WithoutSpaces(b)
    ensures |a| == 1 ==> WithoutSpaces(a) == if a[0] == ' ' then "" else a
  {
    if a == "" {
      assert a + b == b;
    } else {
      WithoutSpacesIs(a[1..], b);
      assert (a + b)[1..] == a[1..] + b;
    }
  }

  /** The settings, in milliseconds: five failures lock for fifteen minutes, a ticket lives four, and
      a code is remembered for the ninety seconds of its three time steps. */
  lemma Settings()
    ensures MAX_FAILED_ATTEMPTS == 5 && LOCKOUT == 900_000 && TICKET_TTL == 240_000
    ensures TIME_STEP == 30_000 && REPLAY_TTL == 90_000
  {
  }

  /** The drift window: the time step of the moment, the one before and the one after. */
  lemma CoversThree(step: nat, now: nat)
    ensures Covers(step, now) <==> step == now / 30_000 - 1 || step == now / 30_000 || step == now / 30_000 + 1
  {
  }
}
