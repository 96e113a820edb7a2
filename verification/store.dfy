/**
 * The API handlers over an in-memory copy of the database: the three
 * collections are sequences in insertion order, `insert_one` appends,
 * `update_one` rewrites the first document whose `_id` matches, and every
 * authenticated handler first resolves its bearer token with `CurrentUser`.
 * New ObjectIds and the clock are supplied by the caller, as are the
 * password hash and the verdict of the hashing library.
 */
module Store {
  import opened Wrappers
  import opened ObjectIds
  import opened Sequences
  import opened Records
  import opened Rules

  function PostTime(p: Post): int { p.createdAt }
  function ClaimTime(c: Claim): int { c.createdAt }
  function ViewTime(v: UserView): int { v.createdAt }

  class Database {
    var users: seq<User>
    var posts: seq<Post>
    var claims: seq<Claim>

    /** `_id` is unique within each collection. */
    ghost predicate Valid()
      reads this
    {
      && DistinctUserIds(users)
      && DistinctPostIds(posts)
      && DistinctClaimIds(claims)
    }

    constructor ()
      ensures Valid()
      ensures users == [] && posts == [] && claims == []
    {
      users, posts, claims := [], [], [];
    }

    ghost predicate FreshUserId(id: ObjectId)
      reads this
    {
      forall u :: u in users ==> u.id != id
    }

    ghost predicate FreshPostId(id: ObjectId)
      reads this
    {
      forall p :: p in posts ==> p.id != id
    }

    ghost predicate FreshClaimId(id: ObjectId)
      reads this
    {
      forall c :: c in claims ==> c.id != id
    }

    /**
     * `POST /api/auth/register`. A taken e-mail is refused before the domain
     * is looked at; on success exactly one user is added, a student with no
     * notifications, and the returned token authenticates as that user.
     */
    method Register(firstName: string, lastName: string, email: string, hashed: string, freshId: ObjectId, now: int)
      returns (r: Result<Session>)
      requires Valid() && FreshUserId(freshId)
      modifies this
      ensures Valid()
      ensures posts == old(posts) && claims == old(claims)
      ensures (exists u :: u in old(users) && u.email == email) ==> r == Err(UserExists) && users == old(users)
      ensures (forall u :: u in old(users) ==> u.email != email) && !IsUniversityEmail(email)
              ==> r == Err(NotUniversityEmail) && users == old(users)
      ensures r.Ok? <==> (forall u :: u in old(users) ==> u.email != email) && IsUniversityEmail(email)
      ensures r.Ok? ==> users == old(users) + [User(freshId, firstName, lastName, email, hashed, "STUDENT", now, [])]
      ensures r.Ok? ==> r.value.user == Info(users[|users| - 1]) && r.value.user.role == "STUDENT"
      ensures r.Ok? ==> CurrentUser(users, Decoded(Some(r.value.token.userId))) == Ok(users[|users| - 1])
      ensures DistinctEmails(old(users)) ==> DistinctEmails(users)
    {
      if EmailIndex(users, email).Some? {
        r := Err(UserExists);
        return;
      }
      if !IsUniversityEmail(email) {
        r := Err(NotUniversityEmail);
        return;
      }
      var u := User(freshId, firstName, lastName, email, hashed, "STUDENT", now, []);
      users := users + [u];
      TokenAuthenticates(users, |users| - 1);
      r := Ok(Session(Token(ToString(freshId)), Info(u)));
    }

    /**
     * `POST /api/auth/login`. An unknown e-mail and a wrong password give the
     * same answer; on success the token authenticates as the user found.
     */
    method Login(email: string, password: string, verify: (string, string) -> bool) returns (r: Result<Session>)
      requires Valid()
      ensures r.Err? ==> r.error == InvalidCredentials
      ensures (forall u :: u in users ==> u.email != email) ==> r.Err?
      ensures EmailIndex(users, email).Some? ==>
                (r.Ok? <==> verify(password, users[EmailIndex(users, email).value].passwordHash))
      ensures r.Ok? ==> EmailIndex(users, email).Some?
      ensures r.Ok? ==> var u := users[EmailIndex(users, email).value];
                && r.value.user == Info(u)
                && CurrentUser(users, Decoded(Some(r.value.token.userId))) == Ok(u)
    {
      match EmailIndex(users, email)
      case None =>
        r := Err(InvalidCredentials);
      case Some(k) =>
        if !verify(password, users[k].passwordHash) {
          r := Err(InvalidCredentials);
        } else {
          TokenAuthenticates(users, k);
          r := Ok(Session(Token(ToString(users[k].id)), Info(users[k])));
        }
    }

    /** `GET /api/auth/me`: the caller's profile and the number of unread notifications. */
    method GetMe(cred: Credentials) returns (r: Result<Me>)
      ensures CurrentUser(users, cred).Err? ==> r == Err(CurrentUser(users, cred).error)
      ensures CurrentUser(users, cred).Ok? ==> r.Ok?
      ensures r.Ok? ==> var u := CurrentUser(users, cred).value;
                && r.value.id == ToString(u.id) && r.value.email == u.email && r.value.role == u.role
                && r.value.firstName == u.firstName && r.value.lastName == u.lastName
                && r.value.notificationCount == |Select(u.notifications, IsUnread)|
                && r.value.notificationCount <= |u.notifications|
                && (r.value.notificationCount == 0 <==> forall n :: n in u.notifications ==> !IsUnread(n))
    {
      var me := CurrentUser(users, cred);
      if me.Err? {
        r := Err(me.error);
        return;
      }
      var u := me.value;
      r := Ok(Me(ToString(u.id), u.firstName, u.lastName, u.email, u.role, UnreadCount(u.notifications)));
    }

    /**
     * `POST /api/posts`: stores an active post with no claims, authored by the
     * caller; nothing else in the store changes.
     */
    method CreatePost(cred: Credentials, input: PostInput, freshId: ObjectId, now: int) returns (r: Result<Post>)
      requires Valid() && FreshPostId(freshId)
      modifies this
      ensures Valid()
      ensures users == old(users) && claims == old(claims)
      ensures CurrentUser(old(users), cred).Err? ==> r == Err(CurrentUser(old(users), cred).error) && posts == old(posts)
      ensures CurrentUser(old(users), cred).Ok? ==> r.Ok? && posts == old(posts) + [r.value]
      ensures r.Ok? ==> var me := CurrentUser(old(users), cred).value;
                && r.value.id == freshId
                && r.value.status == "ACTIVE" && r.value.claims == []
                && r.value.author == me.id && r.value.authorName == FullName(me)
                && r.value.createdAt == now
                && PostInput(r.value.title, r.value.description, r.value.category, r.value.location,
                             r.value.date, r.value.kind, r.value.image) == input
    {
      var me := CurrentUser(users, cred);
      if me.Err? {
        r := Err(me.error);
        return;
      }
      var p := Post(freshId, input.title, input.description, input.category, input.location, input.date,
                    input.kind, input.image, me.value.id, FullName(me.value), now, "ACTIVE", []);
      posts := posts + [p];
      r := Ok(p);
    }

    /**
     * `GET /api/posts`: every active post that meets each given filter, and no
     * other, newest first.
     */
    method GetPosts(kind: Option<string>, category: Option<string>, location: Option<string>) returns (r: seq<Post>)
      ensures forall p :: p in r <==>
        && p in posts
        && p.status == "ACTIVE"
        && (Given(kind) ==> p.kind == kind.value)
        && (Given(category) ==> p.category == category.value)
        && (Given(location) ==> p.location == location.value)
      ensures multiset(r) == multiset(Select(posts, (p: Post) => Matches(p, PostQuery(kind, category, location))))
      ensures SortedDesc(r, PostTime)
    {
      var q := PostQuery(kind, category, location);
      r := FindSorted(posts, (p: Post) => Matches(p, q), PostTime);
      forall p ensures Matches(p, q) <==>
        && p.status == "ACTIVE"
        && (Given(kind) ==> p.kind == kind.value)
        && (Given(category) ==> p.category == category.value)
        && (Given(location) ==> p.location == location.value)
      {
        PostQueryMeaning(p, kind, category, location);
      }
    }

    /** `GET /api/posts/{post_id}`. */
    method GetPost(postIdText: string) returns (r: Result<Post>)
      ensures Parse(postIdText).None? ==> r == Err(InvalidPostId)
      ensures Parse(postIdText).Some? ==>
                (r == Err(PostNotFound) <==> forall p :: p in posts ==> p.id != Parse(postIdText).value)
      ensures r.Err? ==> r.error in {InvalidPostId, PostNotFound}
      ensures r.Ok? <==> Parse(postIdText).Some? && PostIndex(posts, Parse(postIdText).value).Some?
      ensures r.Ok? ==> r.value in posts && Parse(postIdText) == Some(r.value.id)
                        && r.value == posts[PostIndex(posts, Parse(postIdText).value).value]
    {
      match Parse(postIdText)
      case None =>
        r := Err(InvalidPostId);
      case Some(id) =>
        match PostIndex(posts, id)
        case None =>
          r := Err(PostNotFound);
        case Some(k) =>
          r := Ok(posts[k]);
    }

    /** `GET /api/posts/user/{user_id}`: the posts of one author, newest first. */
    method GetUserPosts(cred: Credentials, userIdText: string) returns (r: Result<seq<Post>>)
      ensures CurrentUser(users, cred).Err? ==> r == Err(CurrentUser(users, cred).error)
      ensures CurrentUser(users, cred).Ok? && Parse(userIdText).None? ==> r == Err(InvalidUserId)
      ensures r.Ok? <==> CurrentUser(users, cred).Ok? && Parse(userIdText).Some?
      ensures r.Ok? ==> forall p :: p in r.value <==> p in posts && Some(p.author) == Parse(userIdText)
      ensures r.Ok? ==> multiset(r.value) == multiset(Select(posts, (p: Post) => Some(p.author) == Parse(userIdText)))
      ensures r.Ok? ==> multiset(r.value) <= multiset(posts) && SortedDesc(r.value, PostTime)
    {
      var me := CurrentUser(users, cred);
      if me.Err? {
        r := Err(me.error);
        return;
      }
      match Parse(userIdText)
      case None =>
        r := Err(InvalidUserId);
      case Some(id) =>
        var byAuthor := (p: Post) => p.author == id;
        SelectSame(posts, byAuthor, (p: Post) => Some(p.author) == Parse(userIdText));
        r := Ok(FindSorted(posts, byAuthor, PostTime));
    }

    /**
     * `POST /api/claims`. A malformed post id gives 400, a missing post 404
     * and a claim on one's own post 400, each leaving the store unchanged.
     * Otherwise one pending claim is added, its id is pushed onto the post's
     * `claims`, and the post's author (when that user still exists) gets one
     * unread "CLAIM" notification at the end of their list.
     */
    method CreateClaim(cred: Credentials, postIdText: string, message: string, freshId: ObjectId, now: int, notifiedAt: int)
      returns (r: Result<Claim>)
      requires Valid() && FreshClaimId(freshId)
      modifies this
      ensures Valid()
      ensures CurrentUser(old(users), cred).Err? ==> r == Err(CurrentUser(old(users), cred).error)
      ensures CurrentUser(old(users), cred).Ok? && Parse(postIdText).None? ==> r == Err(InvalidPostId)
      ensures CurrentUser(old(users), cred).Ok? && Parse(postIdText).Some? ==>
                (r == Err(PostNotFound) <==> forall p :: p in old(posts) ==> p.id != Parse(postIdText).value)
      ensures r.Err? ==> users == old(users) && posts == old(posts) && claims == old(claims)
      ensures r.Ok? ==> (CurrentUser(old(users), cred).Ok? && Parse(postIdText).Some?
                && PostIndex(old(posts), Parse(postIdText).value).Some?)
      ensures r.Ok? ==>
                var me := CurrentUser(old(users), cred).value;
                var k := PostIndex(old(posts), Parse(postIdText).value).value;
                var post := old(posts)[k];
                && post.author != me.id
                && r.value == Claim(freshId, post.id, me.id, FullName(me), message, "PENDING", now)
                && claims == old(claims) + [r.value]
                && posts == old(posts)[k := post.(claims := post.claims + [freshId])]
                && users == PushNotification(old(users), post.author, ClaimNotification(post, postIdText, notifiedAt))
      ensures CurrentUser(old(users), cred).Ok? && Parse(postIdText).Some?
              && PostIndex(old(posts), Parse(postIdText).value).Some? ==>
                var post := old(posts)[PostIndex(old(posts), Parse(postIdText).value).value];
                (r == Err(OwnPost) <==> post.author == CurrentUser(old(users), cred).value.id)
                && (r.Ok? <==> post.author != CurrentUser(old(users), cred).value.id)
    {
      var me := CurrentUser(users, cred);
      if me.Err? {
        r := Err(me.error);
        return;
      }
      var parsed := Parse(postIdText);
      if parsed.None? {
        r := Err(InvalidPostId);
        return;
      }
      var found := PostIndex(posts, parsed.value);
      if found.None? {
        r := Err(PostNotFound);
        return;
      }
      var k := found.value;
      var post := posts[k];
      ToStringInjective(post.author, me.value.id);
      if ToString(post.author) == ToString(me.value.id) {
        r := Err(OwnPost);
        return;
      }
      var claim := RecordClaim(k, me.value, postIdText, message, freshId, now, notifiedAt);
      r := Ok(claim);
    }

    /**
     * The three writes of an accepted claim: `insert_one` of the pending
     * claim, `$push` of its id onto post `k`, and `$push` of the notification
     * onto the post's author.
     */
    method RecordClaim(k: nat, me: User, postIdText: string, message: string, freshId: ObjectId, now: int, notifiedAt: int)
      returns (claim: Claim)
      requires Valid() && FreshClaimId(freshId) && k < |posts|
      modifies this
      ensures Valid()
      ensures var post := old(posts)[k];
        && claim == Claim(freshId, post.id, me.id, FullName(me), message, "PENDING", now)
        && claims == old(claims) + [claim]
        && posts == old(posts)[k := post.(claims := post.claims + [freshId])]
        && users == PushNotification(old(users), post.author, ClaimNotification(post, postIdText, notifiedAt))
    {
      var post := posts[k];
      claim := Claim(freshId, post.id, me.id, FullName(me), message, "PENDING", now);
      claims := claims + [claim];
      var claimed := post.(claims := post.claims + [freshId]);
      assert claimed.id == post.id;
      posts := posts[k := claimed];
      users := PushNotification(users, post.author, ClaimNotification(post, postIdText, notifiedAt));
    }

    /** `GET /api/claims/post/{post_id}`: the claims on one post, newest first. */
    method GetPostClaims(cred: Credentials, postIdText: string) returns (r: Result<seq<Claim>>)
      ensures CurrentUser(users, cred).Err? ==> r == Err(CurrentUser(users, cred).error)
      ensures CurrentUser(users, cred).Ok? && Parse(postIdText).None? ==> r == Err(InvalidPostId)
      ensures r.Ok? <==> CurrentUser(users, cred).Ok? && Parse(postIdText).Some?
      ensures r.Ok? ==> forall c :: c in r.value <==> c in claims && Some(c.postId) == Parse(postIdText)
      ensures r.Ok? ==> multiset(r.value) == multiset(Select(claims, (c: Claim) => Some(c.postId) == Parse(postIdText)))
      ensures r.Ok? ==> multiset(r.value) <= multiset(claims) && SortedDesc(r.value, ClaimTime)
    {
      var me := CurrentUser(users, cred);
      if me.Err? {
        r := Err(me.error);
        return;
      }
      match Parse(postIdText)
      case None =>
        r := Err(InvalidPostId);
      case Some(id) =>
        var onPost := (c: Claim) => c.postId == id;
        SelectSame(claims, onPost, (c: Claim) => Some(c.postId) == Parse(postIdText));
        r := Ok(FindSorted(claims, onPost, ClaimTime));
    }

    /** `GET /api/claims/user`: the caller's own claims, newest first. */
    method GetUserClaims(cred: Credentials) returns (r: Result<seq<Claim>>)
      ensures CurrentUser(users, cred).Err? ==> r == Err(CurrentUser(users, cred).error)
      ensures r.Ok? <==> CurrentUser(users, cred).Ok?
      ensures r.Ok? ==> forall c :: c in r.value <==> c in claims && c.claimantId == CurrentUser(users, cred).value.id
      ensures r.Ok? ==> var id := CurrentUser(users, cred).value.id;
                multiset(r.value) == multiset(Select(claims, (c: Claim) => c.claimantId == id))
      ensures r.Ok? ==> multiset(r.value) <= multiset(claims) && SortedDesc(r.value, ClaimTime)
    {
      var me := CurrentUser(users, cred);
      if me.Err? {
        r := Err(me.error);
        return;
      }
      var id := me.value.id;
      r := Ok(FindSorted(claims, (c: Claim) => c.claimantId == id, ClaimTime));
    }

    /** `GET /api/notifications`: the caller's notifications as stored. */
    method GetNotifications(cred: Credentials) returns (r: Result<seq<Notification>>)
      ensures CurrentUser(users, cred).Err? ==> r == Err(CurrentUser(users, cred).error)
      ensures r.Ok? <==> CurrentUser(users, cred).Ok?
      ensures r.Ok? ==> r.value == CurrentUser(users, cred).value.notifications
    {
      var me := CurrentUser(users, cred);
      if me.Err? {
        r := Err(me.error);
        return;
      }
      r := Ok(me.value.notifications);
    }

    /**
     * `PUT /api/notifications/{i}/read`: notification `i` of the caller becomes
     * read; every other notification and every other user is unchanged.
     */
    method MarkNotificationRead(cred: Credentials, i: int) returns (r: Result<string>)
      requires Valid()
      requires CurrentUser(users, cred).Ok? ==> 0 <= i < |CurrentUser(users, cred).value.notifications|
      modifies this
      ensures Valid()
      ensures posts == old(posts) && claims == old(claims)
      ensures CurrentUser(old(users), cred).Err? ==> r == Err(CurrentUser(old(users), cred).error) && users == old(users)
      ensures CurrentUser(old(users), cred).Ok? ==> r == Ok("Notification marked as read")
      ensures r.Ok? ==>
                var me := CurrentUser(old(users), cred).value;
                && users == SetNotificationRead(old(users), me.id, i)
                && forall j :: 0 <= j < |users| && old(users)[j].id == me.id ==>
                     UnreadCount(users[j].notifications)
                     == UnreadCount(me.notifications) - (if IsUnread(me.notifications[i]) then 1 else 0)
    {
      var me := CurrentUser(users, cred);
      if me.Err? {
        r := Err(me.error);
        return;
      }
      var k := UserIndex(users, me.value.id).value;
      assert users[k] == me.value;
      assert forall j :: 0 <= j < |users| && users[j].id == me.value.id ==> j == k;
      MarkReadCount(me.value.notifications, i);
      users := SetNotificationRead(users, me.value.id, i);
      r := Ok("Notification marked as read");
    }

    /** `GET /api/admin/stats`: refused with 403 unless the caller is an admin. */
    method AdminStats(cred: Credentials) returns (r: Result<Stats>)
      ensures CurrentUser(users, cred).Err? ==> r == Err(CurrentUser(users, cred).error)
      ensures CurrentUser(users, cred).Ok? && !IsAdmin(CurrentUser(users, cred).value) ==> r == Err(AdminRequired)
      ensures r.Ok? <==> CurrentUser(users, cred).Ok? && IsAdmin(CurrentUser(users, cred).value)
      ensures r.Ok? ==> r.value.totalPosts == |posts| && r.value.totalUsers == |users|
      ensures r.Ok? ==> r.value.activePosts == |Select(posts, (p: Post) => p.status == "ACTIVE")|
      ensures r.Ok? ==> r.value.resolvedPosts == |Select(posts, (p: Post) => p.status == "RESOLVED")|
      ensures r.Ok? ==> r.value.activePosts + r.value.resolvedPosts <= r.value.totalPosts
    {
      var me := CurrentUser(users, cred);
      if me.Err? {
        r := Err(me.error);
        return;
      }
      if !IsAdmin(me.value) {
        r := Err(AdminRequired);
        return;
      }
      var active := (p: Post) => p.status == "ACTIVE";
      var resolved := (p: Post) => p.status == "RESOLVED";
      SelectDisjoint(posts, active, resolved);
      r := Ok(Stats(|posts|, |users|, |Select(posts, active)|, |Select(posts, resolved)|));
    }

    /** `GET /api/admin/posts`: every post, newest first, for admins only. */
    method AdminPosts(cred: Credentials) returns (r: Result<seq<Post>>)
      ensures CurrentUser(users, cred).Err? ==> r == Err(CurrentUser(users, cred).error)
      ensures CurrentUser(users, cred).Ok? && !IsAdmin(CurrentUser(users, cred).value) ==> r == Err(AdminRequired)
      ensures r.Ok? <==> CurrentUser(users, cred).Ok? && IsAdmin(CurrentUser(users, cred).value)
      ensures r.Ok? ==> multiset(r.value) == multiset(posts) && SortedDesc(r.value, PostTime)
    {
      var me := CurrentUser(users, cred);
      if me.Err? {
        r := Err(me.error);
        return;
      }
      if !IsAdmin(me.value) {
        r := Err(AdminRequired);
        return;
      }
      r := Ok(SortDesc(posts, PostTime));
    }

    /** `GET /api/admin/users`: every user without the password field, newest first, for admins only. */
    method AdminUsers(cred: Credentials) returns (r: Result<seq<UserView>>)
      ensures CurrentUser(users, cred).Err? ==> r == Err(CurrentUser(users, cred).error)
      ensures CurrentUser(users, cred).Ok? && !IsAdmin(CurrentUser(users, cred).value) ==> r == Err(AdminRequired)
      ensures r.Ok? <==> CurrentUser(users, cred).Ok? && IsAdmin(CurrentUser(users, cred).value)
      ensures r.Ok? ==> multiset(r.value) == multiset(Views(users))
      ensures r.Ok? ==> SortedDesc(r.value, ViewTime)
    {
      var me := CurrentUser(users, cred);
      if me.Err? {
        r := Err(me.error);
        return;
      }
      if !IsAdmin(me.value) {
        r := Err(AdminRequired);
        return;
      }
      r := Ok(SortDesc(Views(users), ViewTime));
    }
  }
}
