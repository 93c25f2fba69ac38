/** What the resolver promises across whole calls: how the branch is chosen,
    what each branch writes, when the welcome email goes out, and what a
    repeated call does. */
module ResolverProperties {
  import opened Common
  import opened Hashing
  import opened Persistence
  import opened SignUpOrLoginFromLocal

  /** The request reaches the registration steps: no local verification for
      the username, and the validator accepts the fields. */
  ghost predicate AcceptedSignup(s: Store, req: Request, validate: Validator)
  {
    LocalKey(req.username) !in s.verifications && |validate(req.username, req.password)| == 0
  }

  /** The branch is fixed by the single lookup: login exactly when the local
      verification for the username exists, with the user it relates to. */
  lemma ProcessIsLoginIffBound(s: Store, req: Request)
    ensures var ctx := SetProcessType(CheckForLogin(req, s));
      && (ctx.process == Login <==> LocalKey(req.username) in s.verifications)
      && (ctx.process == Signup <==> LocalKey(req.username) !in s.verifications)
      && (ctx.process == Login ==> ctx.user == Some(RelatedUser(s, s.verifications[LocalKey(req.username)])))
  {
  }

  /** A signup the validator rejects stops before any write. */
  lemma RejectedSignupWritesNothing(s: Store, req: Request, env: Env, validate: Validator)
    requires LocalKey(req.username) !in s.verifications
    requires |validate(req.username, req.password)| > 0
    ensures Execute(s, req, env, validate) == Outcome(Failure(ValidationError(validate(req.username, req.password))), s)
  {
  }

  /** Repeating a rejected signup gives the same rejection and still writes nothing. */
  lemma RejectedSignupIsRepeatable(s: Store, req: Request, env1: Env, env2: Env, validate: Validator)
    requires LocalKey(req.username) !in s.verifications
    requires |validate(req.username, req.password)| > 0
    ensures var o1 := Execute(s, req, env1, validate);
      Execute(o1.store, req, env2, validate) == o1 && o1.store == s
  {
    RejectedSignupWritesNothing(s, req, env1, validate);
    RejectedSignupWritesNothing(s, req, env2, validate);
  }

  /** An accepted signup adds exactly one user, numbered by the store, and
      exactly one verification binding the username to the hashed password,
      and appends one new-user feed entry for it. The new user is
      returned unless the welcome email was refused; the account stays in
      the store either way. */
  lemma SignupCreatesAccount(s: Store, req: Request, env: Env, validate: Validator)
    requires Valid(s)
    requires AcceptedSignup(s, req, validate)
    ensures var o := Execute(s, req, env, validate);
      var id := s.nextUserId;
      var u := User(id, req.username, req.email, env.now);
      && id !in s.users
      && o.store.users == s.users[id := u]
      && |o.store.users| == |s.users| + 1
      && o.store.verifications.Keys == s.verifications.Keys + {LocalKey(req.username)}
      && o.store.verifications[(LocalProvider, req.username)]
           == Verification(id, req.username, LocalProvider, Hash(req.password, GenerateSalt(env.saltNonce)))
      && (forall k :: k in s.verifications ==> o.store.verifications[k] == s.verifications[k])
      && o.store.feed == s.feed + [FeedEntry(id, UsersFeedType, FeedMeta(id, req.username))]
      && o.result == (if EmailSupplied(req.email) && !env.mailAccepted then Failure(MailRejected) else Success(u))
  {
    var id := s.nextUserId;
    var u := User(id, req.username, req.email, env.now);
    var entry := FeedEntry(id, UsersFeedType, FeedMeta(id, req.username));
    var ctx := SetProcessType(CheckForLogin(req, s));
    assert ctx.process == Signup;
    assert VerifyForSignup(State(ctx, s), validate) == Continue(State(ctx, s));
    var st2 := DoRegistrationIfSigningUp(State(ctx, s), env);
    assert st2.ctx.user == Some(Persisted(u));
    var st3 := CreateFeedIfNewUser(st2);
    assert st3.store.feed == s.feed + [entry];
    assert st3.store.users == s.users[id := u];
    var o := Execute(s, req, env, validate);
    match SendWelcomeEmailIfPasswordSupplied(st3, env)
    case Halt(e, s4) =>
      assert o == Outcome(Failure(MailRejected), st3.store);
    case Continue(st4) =>
      assert VerifyPasswordIfLoggingIn(st4, env) == Continue(st4);
      assert o == Outcome(Success(u), st4.store);
      assert st4.store.(outbox := st3.store.outbox) == st3.store;
      assert o.store.feed == st3.store.feed;
  }

  /** An accepted signup announces the new user in the feed exactly once:
      no entry announced it before the call, and exactly one does after. */
  lemma SignupAnnouncesUserOnce(s: Store, req: Request, env: Env, validate: Validator)
    requires Valid(s)
    requires AcceptedSignup(s, req, validate)
    ensures var o := Execute(s, req, env, validate);
      UserFeedCount(s.feed, s.nextUserId) == 0 && UserFeedCount(o.store.feed, s.nextUserId) == 1
  {
    var id := s.nextUserId;
    SignupCreatesAccount(s, req, env, validate);
    UserFeedCountFresh(s.feed, id);
    UserFeedCountAppend(s.feed, FeedEntry(id, UsersFeedType, FeedMeta(id, req.username)), id);
  }

  /** The welcome email goes out exactly on an accepted signup with an email
      address that the transport accepts; it is addressed to that address and
      repeats the username and the plaintext password. A refused send rejects
      the call exactly on an accepted signup with an email address. */
  lemma WelcomeEmailSentIff(s: Store, req: Request, env: Env, validate: Validator)
    ensures var o := Execute(s, req, env, validate);
      && (o.store.outbox != s.outbox <==> AcceptedSignup(s, req, validate) && EmailSupplied(req.email) && env.mailAccepted)
      && (o.store.outbox != s.outbox ==>
            && o.store.outbox == s.outbox + [WelcomeEmail(req)]
            && o.store.outbox[|s.outbox|].to == req.email.value
            && Occurs(req.username, o.store.outbox[|s.outbox|].text)
            && Occurs(req.password, o.store.outbox[|s.outbox|].text))
      && (o.result == Failure(MailRejected) <==> AcceptedSignup(s, req, validate) && EmailSupplied(req.email) && !env.mailAccepted)
  {
    var o := Execute(s, req, env, validate);
    if AcceptedSignup(s, req, validate) && EmailSupplied(req.email) && env.mailAccepted {
      assert o.store.outbox == s.outbox + [WelcomeEmail(req)];
      assert o.store.outbox != s.outbox by {
        assert |o.store.outbox| == |s.outbox| + 1;
      }
    }
  }

  /** A login with a password the stored hash does not verify is rejected
      with BadPasswordError, and the store, last_logged_in included, is as it was. */
  lemma WrongPasswordChangesNothing(s: Store, req: Request, env: Env, validate: Validator)
    requires LocalKey(req.username) in s.verifications
    requires !Matches(req.password, s.verifications[LocalKey(req.username)].hash)
    ensures Execute(s, req, env, validate) == Outcome(Failure(BadPasswordError), s)
  {
  }

  /** A login with a matching password patches last_logged_in of the bound
      user and returns that user; nothing else in the store changes. When no
      user row carries the bound id the patch fails and nothing changes. */
  lemma RightPasswordPatchesLastLogin(s: Store, req: Request, env: Env, validate: Validator)
    requires Valid(s)
    requires LocalKey(req.username) in s.verifications
    requires Matches(req.password, s.verifications[LocalKey(req.username)].hash)
    ensures var o := Execute(s, req, env, validate);
      var id := s.verifications[LocalKey(req.username)].userId;
      if id in s.users then
        && o.result == Success(s.users[id].(lastLoggedIn := env.now))
        && o.store == s.(users := s.users[id := s.users[id].(lastLoggedIn := env.now)])
      else
        o == Outcome(Failure(MissingUserError(id)), s)
  {
  }

  /** The login path never creates a user, verification, feed entry or email,
      whatever the password. */
  lemma LoginCreatesNothing(s: Store, req: Request, env: Env, validate: Validator)
    requires LocalKey(req.username) in s.verifications
    ensures var o := Execute(s, req, env, validate);
      && o.store.users.Keys == s.users.Keys
      && o.store.nextUserId == s.nextUserId
      && o.store.verifications == s.verifications
      && o.store.feed == s.feed
      && o.store.outbox == s.outbox
  {
  }

  /** After an accepted signup for (username, password), a second call with
      the same username and password finds the verification the first call
      wrote, takes the login path and succeeds with the same user: no second
      account. This holds even when the first call was rejected because the
      welcome email was refused. */
  lemma SecondSignupLogsIn(s: Store, req: Request, req2: Request, env1: Env, env2: Env, validate: Validator)
    requires Valid(s)
    requires AcceptedSignup(s, req, validate)
    requires req2.username == req.username && req2.password == req.password
    ensures var o1 := Execute(s, req, env1, validate);
      var o2 := Execute(o1.store, req2, env2, validate);
      && LocalKey(req.username) in o1.store.verifications
      && o2.result.Success?
      && o2.result.value.id == s.nextUserId
      && o2.store.users.Keys == o1.store.users.Keys
      && o2.store.verifications == o1.store.verifications
      && o2.store.feed == o1.store.feed
      && o2.store.outbox == o1.store.outbox
  {
    SignupCreatesAccount(s, req, env1, validate);
    var o1 := Execute(s, req, env1, validate);
    var id := s.nextUserId;
    assert o1.store.verifications[LocalKey(req.username)].userId == id;
    assert id in o1.store.users;
    RightPasswordPatchesLastLogin(o1.store, req2, env2, validate);
    LoginCreatesNothing(o1.store, req2, env2, validate);
  }

  /** Three calls on an empty store: "alice"/"Secret123" registers, the same
      pair again logs in without a second account, "alice"/"wrong" is refused. */
  lemma AliceScenario(env: Env, validate: Validator)
    requires validate("alice", "Secret123") == []
    ensures var s0 := Store(map[], 0, map[], [], []);
      var alice := Request("alice", "Secret123", None);
      var o1 := Execute(s0, alice, env, validate);
      var o2 := Execute(o1.store, alice, env, validate);
      var o3 := Execute(o2.store, Request("alice", "wrong", None), env, validate);
      && o1.result.Success? && o1.result.value.name == "alice"
      && |o1.store.users| == 1
      && o1.store.verifications.Keys == {(LocalProvider, "alice")}
      && o2.result.Success? && o2.result.value.id == o1.result.value.id
      && |o2.store.users| == 1
      && o3 == Outcome(Failure(BadPasswordError), o2.store)
  {
    var s0 := Store(map[], 0, map[], [], []);
    var alice := Request("alice", "Secret123", None);
    SignupCreatesAccount(s0, alice, env, validate);
    SecondSignupLogsIn(s0, alice, alice, env, env, validate);
    var o1 := Execute(s0, alice, env, validate);
    var o2 := Execute(o1.store, alice, env, validate);
    assert o2.store.users.Keys == {0};
    assert |o2.store.users| == |o2.store.users.Keys|;
    WrongPasswordChangesNothing(o2.store, Request("alice", "wrong", None), env, validate);
  }
}
