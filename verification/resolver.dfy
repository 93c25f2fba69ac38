/** The local signup-or-login resolver. Given a username, a password and an
    optional email it looks up the local verification for the username and
    decides by itself whether the request is a registration or a login, then
    runs a fixed chain of steps, each guarded by that decision:
      CheckForLogin -> SetProcessType -> VerifyForSignup
      -> DoRegistrationIfSigningUp -> CreateFeedIfNewUser
      -> SendWelcomeEmailIfPasswordSupplied -> VerifyPasswordIfLoggingIn
      -> ReturnUser.
    The shared mutable `this` of the promise chain becomes an explicit
    Context threaded from step to step together with the Store. A step that
    rejects stops the chain; the writes of earlier steps stay in the store. */
module SignUpOrLoginFromLocal {
  import opened Common
  import opened Hashing
  import opened Persistence

  /** The provider name of password accounts. */
  const LocalProvider := "local"

  const MailFrom := "noreply@soapee.com"
  const MailSubject := "SOAPEE.COM - Registration Details"
  const WelcomeOpening := "Thank you for signing up and welcome to http://soapee.com\n\nPlease keep this email safe as it contains your registration username and password.\n\nYour login details are:\n\n  username: "
  const WelcomePasswordLabel := "\n  password: "
  const WelcomeClosing := "\n\nPlease follow us on either Facebook ( https://www.facebook.com/soapeepage ) or Reddit ( https://www.reddit.com/r/soapee ) for Soapee news and updates.\n\nI hope you enjoy Soapee.com."

  /** The `userDetails` of the payload. */
  datatype Request = Request(username: string, password: string, email: Option<string>)

  /** What the outside world decides during one call: the clock, the random
      part of the salt, and whether the mail transport accepts a message. */
  datatype Env = Env(now: int, saltNonce: nat, mailAccepted: bool)

  /** The signup field validator: the list of violated rules, empty when the
      username and password are acceptable. */
  type Validator = (string, string) -> seq<string>

  /** The `process` tag; Unset until SetProcessType runs. */
  datatype Process = Unset | Login | Signup

  /** The user a verification relates to: the loaded row, or only the id
      when no user row carries it. */
  datatype UserHandle = Persisted(user: User) | Dangling(userId: UserId)

  /** The resolver's `this`: the submitted fields and what the chain found. */
  datatype Context = Context(req: Request, process: Process, verification: Option<Verification>, user: Option<UserHandle>)

  /** Rejections of the chain. */
  datatype Error =
    | ValidationError(violations: seq<string>)  // the signup validator rejected the fields
    | BadPasswordError                          // login with a password the stored hash does not verify
    | MissingUserError(userId: UserId)          // the last-login patch found no user row
    | MailRejected                              // the mail transport refused the welcome email

  datatype State = State(ctx: Context, store: Store)

  /** Outcome of one step: carry on, or reject with the store as it stands. */
  datatype Step = Continue(state: State) | Halt(error: Error, store: Store)

  /** Outcome of a whole call. */
  datatype Outcome = Outcome(result: Result<User, Error>, store: Store)

  /** The lookup key of the local verification of `username`. */
  function LocalKey(username: string): BindingKey
  {
    (LocalProvider, username)
  }

  /** The user a verification relates to. */
  function RelatedUser(s: Store, v: Verification): (h: UserHandle)
    ensures h.Persisted? <==> v.userId in s.users
    ensures h.Persisted? ==> h.user == s.users[v.userId]
    ensures h.Dangling? ==> h.userId == v.userId
  {
    if v.userId in s.users then Persisted(s.users[v.userId]) else Dangling(v.userId)
  }

  /** JavaScript truthiness of the email field: present and non-empty. */
  predicate EmailSupplied(email: Option<string>)
  {
    email.Some? && email.value != ""
  }

  /** The constructor: fields copied, nothing decided yet. */
  function Initial(req: Request): (ctx: Context)
    ensures ctx.req == req && ctx.process == Unset
    ensures ctx.verification.None? && ctx.user.None?
  {
    Context(req, Unset, None, None)
  }

  /** checkForLogin: the one lookup, on (provider_id = username, provider_name = 'local'). */
  function CheckForLogin(req: Request, s: Store): (ctx: Context)
    ensures ctx.req == req && ctx.process == Unset
    ensures ctx.verification.Some? <==> LocalKey(req.username) in s.verifications
    ensures ctx.verification.Some? ==> ctx.verification.value == s.verifications[LocalKey(req.username)]
    ensures ctx.user.Some? <==> ctx.verification.Some?
    ensures ctx.user.Some? ==> ctx.user.value == RelatedUser(s, ctx.verification.value)
  {
    match FindVerification(s, LocalProvider, req.username)
    case None => Initial(req)
    case Some(v) => Initial(req).(verification := Some(v), user := Some(RelatedUser(s, v)))
  }

  /** setProcessType: login exactly when a user was found, signup otherwise. */
  function SetProcessType(ctx: Context): (r: Context)
    ensures r.process == Login <==> ctx.user.Some?
    ensures r.process == Signup <==> ctx.user.None?
    ensures r.(process := ctx.process) == ctx
  {
    if ctx.user.Some? then ctx.(process := Login) else ctx.(process := Signup)
  }

  /** verifyForSignup: only on signup, run the field validator. */
  function VerifyForSignup(st: State, validate: Validator): (r: Step)
    ensures r.Halt? <==> st.ctx.process == Signup && |validate(st.ctx.req.username, st.ctx.req.password)| > 0
    ensures r.Halt? ==> r == Halt(ValidationError(validate(st.ctx.req.username, st.ctx.req.password)), st.store)
    ensures r.Continue? ==> r.state == st
  {
    if st.ctx.process == Signup then
      var violations := validate(st.ctx.req.username, st.ctx.req.password);
      if |violations| > 0 then Halt(ValidationError(violations), st.store) else Continue(st)
    else
      Continue(st)
  }

  /** The user row a signup creates. */
  function NewUser(id: UserId, req: Request, now: int): User
  {
    User(id, req.username, req.email, now)
  }

  /** The verification a signup creates for user `id`. */
  function NewVerification(id: UserId, req: Request, saltNonce: nat): Verification
  {
    Verification(id, req.username, LocalProvider, Hash(req.password, GenerateSalt(saltNonce)))
  }

  /** doRegistrationIfSigningUp: on signup, createUser, setUser, generateSalt,
      generateHash and createVerification, in that order. */
  function DoRegistrationIfSigningUp(st: State, env: Env): (r: State)
    ensures st.ctx.process != Signup ==> r == st
    ensures r.ctx.(user := st.ctx.user) == st.ctx
    ensures st.ctx.process == Signup ==>
      var id := st.store.nextUserId;
      && r.ctx.user == Some(Persisted(NewUser(id, st.ctx.req, env.now)))
      && r.store.users == st.store.users[id := NewUser(id, st.ctx.req, env.now)]
      && r.store.verifications == st.store.verifications[LocalKey(st.ctx.req.username) := NewVerification(id, st.ctx.req, env.saltNonce)]
      && r.store.feed == st.store.feed && r.store.outbox == st.store.outbox
    ensures Valid(st.store) && st.ctx.process == Signup ==>
      && st.store.nextUserId !in st.store.users
      && Valid(r.store)
      && r.ctx.user.value.user.id < r.store.nextUserId
    ensures Valid(st.store) ==> Valid(r.store)
  {
    if st.ctx.process == Signup then
      var (s1, user) := InsertUser(st.store, st.ctx.req.username, st.ctx.req.email, env.now);
      var ctx1 := st.ctx.(user := Some(Persisted(user)));
      var salt := GenerateSalt(env.saltNonce);
      var hash := Hash(st.ctx.req.password, salt);
      var s2 := InsertVerification(s1, Verification(user.id, st.ctx.req.username, LocalProvider, hash));
      State(ctx1, s2)
    else
      st
  }

  /** The feed entry announcing a new user. */
  function NewUserFeedEntry(u: User): FeedEntry
  {
    FeedEntry(u.id, UsersFeedType, FeedMeta(u.id, u.name))
  }

  /** createFeedIfNewUser: on signup, one 'users' entry for the new user. */
  function CreateFeedIfNewUser(st: State): (r: State)
    requires st.ctx.process == Signup ==> st.ctx.user.Some? && st.ctx.user.value.Persisted?
    ensures r.ctx == st.ctx
    ensures st.ctx.process != Signup ==> r.store == st.store
    ensures st.ctx.process == Signup ==>
      r.store == st.store.(feed := st.store.feed + [NewUserFeedEntry(st.ctx.user.value.user)])
    ensures st.ctx.process == Signup ==> AnnouncesUser(r.store.feed[|r.store.feed| - 1], st.ctx.user.value.user.id)
    ensures Valid(st.store) && (st.ctx.process == Signup ==> st.ctx.user.value.user.id < st.store.nextUserId) ==> Valid(r.store)
  {
    if st.ctx.process == Signup then
      State(st.ctx, AppendFeed(st.store, NewUserFeedEntry(st.ctx.user.value.user)))
    else
      st
  }

  /** The body of the welcome email: it repeats the submitted username and
      password as typed. */
  function WelcomeText(username: string, password: string): (text: string)
    ensures OccursAt(username, text, |WelcomeOpening|)
    ensures OccursAt(password, text, |WelcomeOpening| + |username| + |WelcomePasswordLabel|)
    ensures Occurs(username, text) && Occurs(password, text)
  {
    var text := WelcomeOpening + username + WelcomePasswordLabel + password + WelcomeClosing;
    var p := |WelcomeOpening| + |username| + |WelcomePasswordLabel|;
    assert text[|WelcomeOpening|..|WelcomeOpening| + |username|] == username;
    assert text[p..p + |password|] == password;
    assert OccursAt(username, text, |WelcomeOpening|);
    assert OccursAt(password, text, p);
    text
  }

  /** The welcome email for a signup with an email address. */
  function WelcomeEmail(req: Request): (m: Email)
    requires EmailSupplied(req.email)
    ensures m.to == req.email.value && m.from == MailFrom && m.subject == MailSubject
    ensures Occurs(req.username, m.text) && Occurs(req.password, m.text)
  {
    Email(MailFrom, req.email.value, MailSubject, WelcomeText(req.username, req.password))
  }

  /** sendWelcomeEmailIfPasswordSupplied: on signup with an email, send the
      welcome email. A refused send is not caught and rejects the chain. */
  function SendWelcomeEmailIfPasswordSupplied(st: State, env: Env): (r: Step)
    ensures !(st.ctx.process == Signup && EmailSupplied(st.ctx.req.email)) ==> r == Continue(st)
    ensures st.ctx.process == Signup && EmailSupplied(st.ctx.req.email) ==>
      if env.mailAccepted then r == Continue(State(st.ctx, st.store.(outbox := st.store.outbox + [WelcomeEmail(st.ctx.req)])))
      else r == Halt(MailRejected, st.store)
    ensures Valid(st.store) && r.Continue? ==> Valid(r.state.store)
  {
    if st.ctx.process == Signup && EmailSupplied(st.ctx.req.email) then
      if env.mailAccepted then Continue(State(st.ctx, Deliver(st.store, WelcomeEmail(st.ctx.req))))
      else Halt(MailRejected, st.store)
    else
      Continue(st)
  }

  /** verifyPasswordIfLoggingIn: on login, compare the password with the
      stored hash; reject on mismatch, otherwise patch last_logged_in. */
  function VerifyPasswordIfLoggingIn(st: State, env: Env): (r: Step)
    requires st.ctx.process == Login ==> st.ctx.verification.Some? && st.ctx.user.Some?
    ensures st.ctx.process != Login ==> r == Continue(st)
    ensures st.ctx.process == Login && !Matches(st.ctx.req.password, st.ctx.verification.value.hash) ==>
      r == Halt(BadPasswordError, st.store)
    ensures r.Halt? ==> r.store == st.store
    ensures r.Continue? ==> r.state.ctx.(user := st.ctx.user) == st.ctx
    ensures r.Continue? && st.ctx.process == Login ==>
      && Matches(st.ctx.req.password, st.ctx.verification.value.hash)
      && st.ctx.user.value.Persisted?
      && var u := st.ctx.user.value.user;
      && u.id in st.store.users
      && r.state.ctx.user == Some(Persisted(u.(lastLoggedIn := env.now)))
      && r.state.store == st.store.(users := st.store.users[u.id := st.store.users[u.id].(lastLoggedIn := env.now)])
    ensures Valid(st.store) && r.Continue? ==> Valid(r.state.store)
  {
    if st.ctx.process == Login then
      if !Matches(st.ctx.req.password, st.ctx.verification.value.hash) then
        Halt(BadPasswordError, st.store)
      else
        match st.ctx.user.value
        // Assumed: the ORM rejects a patch of the empty related model, writing nothing.
        case Dangling(id) => Halt(MissingUserError(id), st.store)
        case Persisted(u) =>
          match PatchLastLoggedIn(st.store, u.id, env.now)
          case None => Halt(MissingUserError(u.id), st.store)
          case Some(s1) => Continue(State(st.ctx.(user := Some(Persisted(u.(lastLoggedIn := env.now)))), s1))
    else
      Continue(st)
  }

  /** returnUser. */
  function ReturnUser(ctx: Context): (u: User)
    requires ctx.user.Some? && ctx.user.value.Persisted?
    ensures Some(Persisted(u)) == ctx.user
  {
    ctx.user.value.user
  }

  /** The returned user is the one the local verification of the username
      binds, it is stored, and the submitted password verifies. */
  ghost predicate SignedInAs(s: Store, req: Request, u: User)
  {
    && LocalKey(req.username) in s.verifications
    && s.verifications[LocalKey(req.username)].userId == u.id
    && Matches(req.password, s.verifications[LocalKey(req.username)].hash)
    && u.id in s.users && s.users[u.id] == u
  }

  /** execute: the whole chain. */
  function Execute(s: Store, req: Request, env: Env, validate: Validator): (o: Outcome)
    ensures Valid(s) ==> Valid(o.store)
    ensures Valid(s) && o.result.Success? ==> SignedInAs(o.store, req, o.result.value)
    ensures o.result.Success? && LocalKey(req.username) in s.verifications ==>
      o.result.value.lastLoggedIn == env.now
  {
    var ctx := SetProcessType(CheckForLogin(req, s));
    match VerifyForSignup(State(ctx, s), validate)
    case Halt(e, s1) => Outcome(Failure(e), s1)
    case Continue(st1) =>
      var st2 := DoRegistrationIfSigningUp(st1, env);
      var st3 := CreateFeedIfNewUser(st2);
      match SendWelcomeEmailIfPasswordSupplied(st3, env)
      case Halt(e, s4) => Outcome(Failure(e), s4)
      case Continue(st4) =>
        match VerifyPasswordIfLoggingIn(st4, env)
        case Halt(e, s5) => Outcome(Failure(e), s5)
        case Continue(st5) => Outcome(Success(ReturnUser(st5.ctx)), st5.store)
  }
}
