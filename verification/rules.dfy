/**
 * The request rules of the API as pure functions: resolving the bearer token
 * to a user, the lookups by id and e-mail, the admin role gate, the e-mail
 * domain check, the `get_posts` query, unread-notification counting, and
 * the two `update_one` writes on the users collection, stated on the
 * sequence of users that the store methods then assign.
 */
module Rules {
  import opened Wrappers
  import opened ObjectIds
  import opened Sequences
  import opened Records

  /** MongoDB keeps `_id` unique within a collection. */
  predicate DistinctUserIds(users: seq<User>) {
    forall i, j :: 0 <= i < j < |users| ==> users[i].id != users[j].id
  }

  predicate DistinctPostIds(posts: seq<Post>) {
    forall i, j :: 0 <= i < j < |posts| ==> posts[i].id != posts[j].id
  }

  predicate DistinctClaimIds(claims: seq<Claim>) {
    forall i, j :: 0 <= i < j < |claims| ==> claims[i].id != claims[j].id
  }

  /*
   * The three `find_one` lookups below are `FirstIndex` with a fixed
   * condition. Each restates `FirstIndex`'s contract for its own field so
   * that the handlers reason about a named field, not about a function value.
   */

  /** `find_one({"_id": id})` on the users. */
  function UserIndex(users: seq<User>, id: ObjectId): (r: Option<nat>)
    ensures r.Some? ==> r.value < |users| && users[r.value].id == id
    ensures r.Some? ==> forall j :: 0 <= j < r.value ==> users[j].id != id
    ensures r.None? <==> forall j :: 0 <= j < |users| ==> users[j].id != id
  {
    FirstIndex(users, (u: User) => u.id == id)
  }

  /** `find_one({"email": email})` on the users. */
  function EmailIndex(users: seq<User>, email: string): (r: Option<nat>)
    ensures r.Some? ==> r.value < |users| && users[r.value].email == email
    ensures r.Some? ==> forall j :: 0 <= j < r.value ==> users[j].email != email
    ensures r.None? <==> forall j :: 0 <= j < |users| ==> users[j].email != email
  {
    FirstIndex(users, (u: User) => u.email == email)
  }

  /** `find_one({"_id": id})` on the posts. */
  function PostIndex(posts: seq<Post>, id: ObjectId): (r: Option<nat>)
    ensures r.Some? ==> r.value < |posts| && posts[r.value].id == id
    ensures r.Some? ==> forall j :: 0 <= j < r.value ==> posts[j].id != id
    ensures r.None? <==> forall j :: 0 <= j < |posts| ==> posts[j].id != id
  {
    FirstIndex(posts, (p: Post) => p.id == id)
  }

  /**
   * `get_current_user`: with no `Authorization` header, or one without a
   * scheme or a token, the `HTTPBearer` dependency answers 403 "Not
   * authenticated", and with a scheme other than Bearer 403 "Invalid
   * authentication credentials"; a token that does not decode,
   * or whose payload has no (or an empty) `user_id`, gives 401 "Invalid token";
   * an id with no user gives 401 "User not found". A `user_id` that is not a
   * valid ObjectId makes `ObjectId(user_id)` raise `InvalidId`, which nothing
   * there catches: 500. Otherwise the caller is the first user with that id.
   */
  function CurrentUser(users: seq<User>, cred: Credentials): (r: Result<User>)
    ensures r.Ok? ==> r.value in users
    ensures r.Ok? ==> cred.Decoded? && cred.userId.Some? && Parse(cred.userId.value) == Some(r.value.id)
    ensures cred.NoCredentials? ==> r == Err(NotAuthenticated)
    ensures cred.NotBearer? ==> r == Err(WrongScheme)
    ensures cred.BadToken? || (cred.Decoded? && (cred.userId.None? || cred.userId.value == "")) ==> r == Err(InvalidToken)
    ensures cred.Decoded? && cred.userId.Some? && cred.userId.value != "" && Parse(cred.userId.value).None?
            ==> r == Err(InternalError)
    ensures cred.Decoded? && cred.userId.Some? && Parse(cred.userId.value).Some?
            ==> (r == Err(UserNotFound) <==> forall u :: u in users ==> u.id != Parse(cred.userId.value).value)
    ensures cred.Decoded? && cred.userId.Some? && Parse(cred.userId.value).Some?
            && UserIndex(users, Parse(cred.userId.value).value).Some?
            ==> r == Ok(users[UserIndex(users, Parse(cred.userId.value).value).value])
  {
    match cred
    case NoCredentials => Err(NotAuthenticated)
    case NotBearer => Err(WrongScheme)
    case BadToken => Err(InvalidToken)
    case Decoded(uid) =>
      if uid.None? || uid.value == "" then Err(InvalidToken)
      else
        match Parse(uid.value)
        case None => Err(InternalError)
        case Some(id) =>
          match UserIndex(users, id)
          case None => Err(UserNotFound)
          case Some(k) => Ok(users[k])
  }

  /** The token issued for a stored user authenticates as exactly that user. */
  lemma TokenAuthenticates(users: seq<User>, k: nat)
    requires k < |users| && DistinctUserIds(users)
    ensures CurrentUser(users, Decoded(Some(ToString(users[k].id)))) == Ok(users[k])
  {
    ParseToString(users[k].id);
  }

  /** No two users share an e-mail address; registration keeps it so. */
  predicate DistinctEmails(users: seq<User>) {
    forall i, j :: 0 <= i < j < |users| ==> users[i].email != users[j].email
  }

  /** The guard at the head of every admin endpoint. */
  predicate IsAdmin(u: User) {
    u.role == "ADMIN"
  }

  /** `str.endswith`. */
  predicate EndsWith(s: string, suffix: string) {
    |suffix| <= |s| && s[|s| - |suffix|..] == suffix
  }

  /** The registration rule for the e-mail domain; the comparison is case-sensitive. */
  predicate IsUniversityEmail(email: string) {
    EndsWith(email, ".edu")
  }

  /** Python truthiness of an optional query parameter: absent and empty are both false. */
  predicate Given(o: Option<string>) {
    o.Some? && o.value != ""
  }

  /** A MongoDB equality query: field name to required value. */
  type Query = map<string, string>

  /** The query dict `get_posts` builds. */
  function PostQuery(kind: Option<string>, category: Option<string>, location: Option<string>): (q: Query)
    ensures q.Keys <= {"status", "type", "category", "location"}
  {
    var q0 := map["status" := "ACTIVE"];
    var q1 := if Given(kind) then q0["type" := kind.value] else q0;
    var q2 := if Given(category) then q1["category" := category.value] else q1;
    if Given(location) then q2["location" := location.value] else q2
  }

  /**
   * The string fields of a stored post document that an equality query can
   * test; any other name is a field the post lacks. `get_posts` only ever
   * queries the first four, but `title`, `description` and `date` are string
   * fields of the same document, so a query naming them would test them too.
   */
  function PostField(p: Post, name: string): Option<string> {
    if name == "status" then Some(p.status)
    else if name == "type" then Some(p.kind)
    else if name == "category" then Some(p.category)
    else if name == "location" then Some(p.location)
    else if name == "title" then Some(p.title)
    else if name == "description" then Some(p.description)
    else if name == "date" then Some(p.date)
    else None
  }

  /** A document matches an equality query when every queried field holds the queried value. */
  predicate Matches(p: Post, q: Query) {
    forall name :: name in q ==> PostField(p, name) == Some(q[name])
  }

  /**
   * What `get_posts` selects: active posts only, and each of the type, category
   * and location constraints exactly when that parameter is given.
   */
  lemma PostQueryMeaning(p: Post, kind: Option<string>, category: Option<string>, location: Option<string>)
    ensures Matches(p, PostQuery(kind, category, location)) <==>
      && p.status == "ACTIVE"
      && (Given(kind) ==> p.kind == kind.value)
      && (Given(category) ==> p.category == category.value)
      && (Given(location) ==> p.location == location.value)
  {
    var q := PostQuery(kind, category, location);
    assert "status" in q && q["status"] == "ACTIVE";
    assert Given(kind) ==> "type" in q && q["type"] == kind.value;
    assert Given(category) ==> "category" in q && q["category"] == category.value;
    assert Given(location) ==> "location" in q && q["location"] == location.value;
  }

  /** `not n.get("read", False)`. */
  predicate IsUnread(n: Notification) {
    !n.read.GetOr(false)
  }

  /** The `notificationCount` of `GET /api/auth/me`. */
  function UnreadCount(ns: seq<Notification>): (c: nat)
    ensures c <= |ns|
    ensures c == 0 <==> forall i :: 0 <= i < |ns| ==> !IsUnread(ns[i])
  {
    var unread := Select(ns, IsUnread);
    assert forall i :: 0 <= i < |ns| && IsUnread(ns[i]) ==> ns[i] in unread;
    assert unread != [] ==> unread[0] in unread && exists i :: 0 <= i < |ns| && ns[i] == unread[0];
    |unread|
  }

  /** `$set` of `notifications.i.read` to true. */
  function MarkRead(ns: seq<Notification>, i: nat): (r: seq<Notification>)
    requires i < |ns|
    ensures |r| == |ns| && !IsUnread(r[i])
    ensures r[i] == ns[i].(read := Some(true))
    ensures forall j :: 0 <= j < |ns| && j != i ==> r[j] == ns[j]
  {
    ns[i := ns[i].(read := Some(true))]
  }

  /** Marking a notification read lowers the unread count by one if it was unread, and leaves it otherwise. */
  lemma MarkReadCount(ns: seq<Notification>, i: nat)
    requires i < |ns|
    ensures UnreadCount(MarkRead(ns, i)) == UnreadCount(ns) - (if IsUnread(ns[i]) then 1 else 0)
  {
    SelectUpdate(ns, i, ns[i].(read := Some(true)), IsUnread);
  }

  /** The notification `create_claim` pushes to the post's author. */
  function ClaimNotification(p: Post, postIdText: string, now: int): (n: Notification)
    ensures n.read == Some(false) && IsUnread(n)
    ensures n.kind == "CLAIM" && n.date == now
  {
    Notification(
      "New claim on your " + p.kind + " item: " + p.title,
      "CLAIM",
      "/dashboard?tab=posts&post=" + postIdText,
      Some(false),
      now)
  }

  /**
   * `update_one({"_id": to}, {"$push": {"notifications": n}})`: the user with
   * id `to`, if any, gains `n` at the end of their list; no one else changes.
   */
  function PushNotification(users: seq<User>, to: ObjectId, n: Notification): (r: seq<User>)
    requires DistinctUserIds(users)
    ensures |r| == |users| && DistinctUserIds(r)
    ensures forall j :: 0 <= j < |users| && users[j].id != to ==> r[j] == users[j]
    ensures forall j :: 0 <= j < |users| && users[j].id == to ==>
              r[j] == users[j].(notifications := users[j].notifications + [n])
  {
    match UserIndex(users, to)
    case None => users
    case Some(a) =>
      var notified := users[a].(notifications := users[a].notifications + [n]);
      assert forall j :: 0 <= j < |users| && users[j].id == to ==> j == a;
      users[a := notified]
  }

  /**
   * `update_one({"_id": id}, {"$set": {"notifications.i.read": True}})`:
   * notification `i` of the user with that id becomes read; no one else changes.
   */
  function SetNotificationRead(users: seq<User>, id: ObjectId, i: nat): (r: seq<User>)
    requires DistinctUserIds(users)
    requires forall j :: 0 <= j < |users| && users[j].id == id ==> i < |users[j].notifications|
    ensures |r| == |users| && DistinctUserIds(r)
    ensures forall j :: 0 <= j < |users| && users[j].id != id ==> r[j] == users[j]
    ensures forall j :: 0 <= j < |users| && users[j].id == id ==>
              r[j] == users[j].(notifications := MarkRead(users[j].notifications, i))
  {
    match UserIndex(users, id)
    case None => users
    case Some(k) =>
      var marked := users[k].(notifications := MarkRead(users[k].notifications, i));
      assert forall j :: 0 <= j < |users| && users[j].id == id ==> j == k;
      users[k := marked]
  }
}
