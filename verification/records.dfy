/**
 * The documents of the three collections (`users`, `posts`, `claims`), the
 * request bodies, the response shapes and the HTTP errors the handlers raise.
 * Timestamps (`datetime.utcnow()`) are plain integers supplied by the caller.
 */
module Records {
  import opened Wrappers
  import opened ObjectIds

  /** An `HTTPException`: status code and detail text. */
  datatype HttpError = HttpError(status: int, detail: string)

  /** A handler's outcome: its response body, or the exception it raised. */
  datatype Result<+T> = Ok(value: T) | Err(error: HttpError)

  const InvalidToken := HttpError(401, "Invalid token")
  const UserNotFound := HttpError(401, "User not found")
  const UserExists := HttpError(400, "User already exists with this email")
  const NotUniversityEmail := HttpError(400, "Please use a valid university email address")
  const InvalidCredentials := HttpError(400, "Invalid credentials")
  const PostNotFound := HttpError(404, "Post not found")
  const InvalidPostId := HttpError(400, "Invalid post ID")
  const InvalidUserId := HttpError(400, "Invalid user ID")
  const OwnPost := HttpError(400, "You cannot claim your own post")
  const AdminRequired := HttpError(403, "Admin access required")
  /** The answer of the `HTTPBearer` dependency when there is no `Authorization` header, or it lacks a scheme or a token. */
  const NotAuthenticated := HttpError(403, "Not authenticated")
  /** The answer of the `HTTPBearer` dependency when the `Authorization` header names a scheme other than Bearer. */
  const WrongScheme := HttpError(403, "Invalid authentication credentials")
  /** What the framework answers when a handler lets an exception other than `HTTPException` escape. */
  const InternalError := HttpError(500, "Internal Server Error")

  /** An entry of a user's `notifications` list; `read` may be absent from the document. */
  datatype Notification = Notification(message: string, kind: string, link: string, read: Option<bool>, date: int)

  datatype User = User(
    id: ObjectId,
    firstName: string,
    lastName: string,
    email: string,
    passwordHash: string,
    role: string,
    createdAt: int,
    notifications: seq<Notification>)

  datatype Post = Post(
    id: ObjectId,
    title: string,
    description: string,
    category: string,
    location: string,
    date: string,
    kind: string,
    image: Option<string>,
    author: ObjectId,
    authorName: string,
    createdAt: int,
    status: string,
    claims: seq<ObjectId>)

  datatype Claim = Claim(
    id: ObjectId,
    postId: ObjectId,
    claimantId: ObjectId,
    claimantName: string,
    message: string,
    status: string,
    createdAt: int)

  /** The body of `POST /api/posts` (`PostCreate`). */
  datatype PostInput = PostInput(
    title: string,
    description: string,
    category: string,
    location: string,
    date: string,
    kind: string,
    image: Option<string>)

  /** The payload a session token carries: the user's id as a string (its expiry is not modelled). */
  datatype Token = Token(userId: string)

  /**
   * What the request's `Authorization` header amounts to: none at all (or one
   * without a scheme or a token), a scheme other than Bearer, a token whose
   * signature or expiry is rejected, or the decoded payload's `user_id`.
   */
  datatype Credentials = NoCredentials | NotBearer | BadToken | Decoded(userId: Option<string>)

  datatype UserInfo = UserInfo(id: string, firstName: string, lastName: string, email: string, role: string)

  /** The answer of `register` and `login`. */
  datatype Session = Session(token: Token, user: UserInfo)

  /** The answer of `GET /api/auth/me`. */
  datatype Me = Me(id: string, firstName: string, lastName: string, email: string, role: string, notificationCount: nat)

  /** A user document without its `password` field, as the admin listing projects it. */
  datatype UserView = UserView(
    id: ObjectId,
    firstName: string,
    lastName: string,
    email: string,
    role: string,
    createdAt: int,
    notifications: seq<Notification>)

  datatype Stats = Stats(totalPosts: nat, totalUsers: nat, activePosts: nat, resolvedPosts: nat)

  function FullName(u: User): string {
    u.firstName + " " + u.lastName
  }

  function Info(u: User): UserInfo {
    UserInfo(ToString(u.id), u.firstName, u.lastName, u.email, u.role)
  }

  function View(u: User): UserView {
    UserView(u.id, u.firstName, u.lastName, u.email, u.role, u.createdAt, u.notifications)
  }

  /**
   * The projection `{"password": 0}` applied to every user: one view per
   * user, and two views coincide exactly when their users differ at most in
   * the password.
   */
  function Views(users: seq<User>): (r: seq<UserView>)
    ensures |r| == |users|
    ensures forall i, j :: 0 <= i < |r| && 0 <= j < |r| ==>
              (r[i] == r[j] <==> users[i].(passwordHash := "") == users[j].(passwordHash := ""))
  {
    var r := seq(|users|, i requires 0 <= i < |users| => View(users[i]));
    assert forall i, j :: 0 <= i < |r| && 0 <= j < |r| ==>
             (r[i] == r[j] <==> users[i].(passwordHash := "") == users[j].(passwordHash := "")) by {
      forall i, j | 0 <= i < |r| && 0 <= j < |r|
        ensures r[i] == r[j] <==> users[i].(passwordHash := "") == users[j].(passwordHash := "")
      {
        ViewForgetsPassword(users[i], users[j]);
      }
    }
    r
  }

  /**
   * The projection drops the password and nothing else: two users have the
   * same view exactly when they agree on every field but the password.
   */
  lemma ViewForgetsPassword(u: User, v: User)
    ensures View(u) == View(v) <==> u.(passwordHash := "") == v.(passwordHash := "")
  {
    if View(u) == View(v) {
      assert u.(passwordHash := "") == User(View(u).id, View(u).firstName, View(u).lastName, View(u).email, "",
                                            View(u).role, View(u).createdAt, View(u).notifications);
    }
  }
}
