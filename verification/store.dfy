/** The records the resolver reads and writes (the `users`, `verifications`
    and `feedables` tables, plus the messages handed to the mail transport),
    held as one immutable value, and the single-row operations on it. */
module Persistence {
  import opened Common
  import opened Hashing

  type UserId = nat

  /** A row of `users`. */
  datatype User = User(id: UserId, name: string, email: Option<string>, lastLoggedIn: int)

  /** A row of `verifications`: binds one (provider_name, provider_id) pair to a user. */
  datatype Verification = Verification(userId: UserId, providerId: string, providerName: string, hash: Digest)

  /** Lookup key of a verification: (provider_name, provider_id). */
  type BindingKey = (string, string)

  /** The `user` object inside a feed entry's `feedable_meta`. */
  datatype FeedMeta = FeedMeta(userId: UserId, userName: string)

  /** A row of `feedables`. */
  datatype FeedEntry = FeedEntry(feedableId: UserId, feedableType: string, meta: FeedMeta)

  /** A message accepted by the mail transport. */
  datatype Email = Email(from: string, to: string, subject: string, text: string)

  /** Everything the resolver can observe or change. `nextUserId` is the
      auto-increment counter the database uses to number new users. */
  datatype Store = Store(
    users: map<UserId, User>,
    nextUserId: UserId,
    verifications: map<BindingKey, Verification>,
    feed: seq<FeedEntry>,
    outbox: seq<Email>)

  function KeyOf(v: Verification): BindingKey
  {
    (v.providerName, v.providerId)
  }

  /** Database invariants: user ids are their keys and below the counter,
      each verification is stored under its own key (so a key names at most
      one verification), and new-user feed entries name already numbered
      users (entries of other feedable types may carry any id). */
  ghost predicate Valid(s: Store)
  {
    && (forall id :: id in s.users ==> id < s.nextUserId && s.users[id].id == id)
    && (forall k :: k in s.verifications ==> KeyOf(s.verifications[k]) == k)
    && (forall i :: 0 <= i < |s.feed| && s.feed[i].feedableType == UsersFeedType ==> s.feed[i].feedableId < s.nextUserId)
  }

  /** fetch() of the verification with the given provider name and id. */
  function FindVerification(s: Store, providerName: string, providerId: string): (r: Option<Verification>)
    ensures r.Some? <==> (providerName, providerId) in s.verifications
    ensures r.Some? ==> r.value == s.verifications[(providerName, providerId)]
    ensures Valid(s) && r.Some? ==> r.value.providerName == providerName && r.value.providerId == providerId
  {
    if (providerName, providerId) in s.verifications then Some(s.verifications[(providerName, providerId)]) else None
  }

  /** save() of a new user: the database numbers it and stores it. */
  function InsertUser(s: Store, name: string, email: Option<string>, now: int): (r: (Store, User))
    ensures r.1.name == name && r.1.email == email && r.1.lastLoggedIn == now
    ensures Valid(s) ==> r.1.id !in s.users
    ensures r.0.users == s.users[r.1.id := r.1]
    ensures r.0.verifications == s.verifications && r.0.feed == s.feed && r.0.outbox == s.outbox
    ensures Valid(s) ==> Valid(r.0) && r.1.id < r.0.nextUserId
  {
    var u := User(s.nextUserId, name, email, now);
    (s.(users := s.users[u.id := u], nextUserId := s.nextUserId + 1), u)
  }

  /** save() of a new verification. */
  function InsertVerification(s: Store, v: Verification): (r: Store)
    ensures KeyOf(v) in r.verifications && r.verifications[KeyOf(v)] == v
    ensures forall k :: k != KeyOf(v) ==> (k in r.verifications <==> k in s.verifications)
    ensures forall k :: k != KeyOf(v) && k in s.verifications ==> r.verifications[k] == s.verifications[k]
    ensures r.users == s.users && r.nextUserId == s.nextUserId && r.feed == s.feed && r.outbox == s.outbox
    ensures Valid(s) ==> Valid(r)
  {
    s.(verifications := s.verifications[KeyOf(v) := v])
  }

  /** save({ last_logged_in: now }, { patch: true }) on user `id`; a patch
      that matches no row fails (None). */
  function PatchLastLoggedIn(s: Store, id: UserId, now: int): (r: Option<Store>)
    ensures r.Some? <==> id in s.users
    ensures r.Some? ==> r.value.users.Keys == s.users.Keys
    ensures r.Some? ==> r.value.users[id] == s.users[id].(lastLoggedIn := now)
    ensures r.Some? ==> forall other :: other in s.users && other != id ==> r.value.users[other] == s.users[other]
    ensures r.Some? ==> r.value.(users := s.users) == s
    ensures Valid(s) && r.Some? ==> Valid(r.value)
  {
    if id in s.users then Some(s.(users := s.users[id := s.users[id].(lastLoggedIn := now)])) else None
  }

  /** save() of a new feed entry. */
  function AppendFeed(s: Store, e: FeedEntry): (r: Store)
    ensures r.feed == s.feed + [e]
    ensures r.(feed := s.feed) == s
    ensures Valid(s) && (e.feedableType == UsersFeedType ==> e.feedableId < s.nextUserId) ==> Valid(r)
  {
    s.(feed := s.feed + [e])
  }

  /** A message the transport accepted. */
  function Deliver(s: Store, m: Email): (r: Store)
    ensures r.outbox == s.outbox + [m]
    ensures r.(outbox := s.outbox) == s
    ensures Valid(s) ==> Valid(r)
  {
    s.(outbox := s.outbox + [m])
  }

  /** The feed type a new-user entry carries. */
  const UsersFeedType := "users"

  /** Is `e` the new-user feed entry of user `id`? */
  predicate AnnouncesUser(e: FeedEntry, id: UserId)
  {
    e.feedableType == UsersFeedType && e.feedableId == id
  }

  /** How many new-user entries for `id` the feed holds. */
  function UserFeedCount(feed: seq<FeedEntry>, id: UserId): nat
  {
    if |feed| == 0 then 0
    else (if AnnouncesUser(feed[0], id) then 1 else 0) + UserFeedCount(feed[1..], id)
  }

  /** Appending an entry raises the count of exactly the user it announces, by one. */
  lemma {:induction false} UserFeedCountAppend(feed: seq<FeedEntry>, e: FeedEntry, id: UserId)
    ensures UserFeedCount(feed + [e], id) == UserFeedCount(feed, id) + (if AnnouncesUser(e, id) then 1 else 0)
  {
    if |feed| == 0 {
      assert (feed + [e])[1..] == [];
    } else {
      assert (feed + [e])[0] == feed[0];
      assert (feed + [e])[1..] == feed[1..] + [e];
      UserFeedCountAppend(feed[1..], e, id);
    }
  }

  /** A feed whose new-user entries all name ids below `n` announces no user `n`. */
  lemma {:induction false} UserFeedCountFresh(feed: seq<FeedEntry>, n: UserId)
    requires forall i :: 0 <= i < |feed| && feed[i].feedableType == UsersFeedType ==> feed[i].feedableId < n
    ensures UserFeedCount(feed, n) == 0
  {
    if |feed| > 0 {
      assert forall i :: 0 <= i < |feed[1..]| ==> feed[1..][i] == feed[i + 1];
      UserFeedCountFresh(feed[1..], n);
    }
  }
}
