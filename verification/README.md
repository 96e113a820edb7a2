# UMT Belongings Hub API: a Dafny model

This project models the request rules of the lost-and-found web API in
`backend/server.py`. Students register with a university address and log in
with a bearer token. They publish posts about lost or found items, browse the
active posts with optional filters, and file claims on other people's posts.
Filing a claim notifies the post's author. Each user has a count of unread
notifications and can mark a notification read. Admins get statistics and
full listings. The handlers that return stored documents pass them through
`convert_objectid_to_str` before they are encoded as JSON: `create_post`,
`get_posts`, `get_post`, `get_user_posts`, `create_claim`, `get_post_claims`,
`get_user_claims`, `get_notifications` and the two admin listings. `register`,
`login`, `get_current_user_info`, `mark_notification_read` and
`get_admin_stats` build their answers from strings and numbers and do not.

MongoDB is replaced by an in-memory store. `Store.Database` is a class with
three sequence fields, `users`, `posts` and `claims`, in insertion order. In
this store:

- `insert_one` appends a document.
- `update_one` rewrites the first document whose `_id` matches.
- `find_one` is the first match (`Sequences.FirstIndex`).
- `find(...).sort("createdAt", -1)` is `Sequences.FindSorted`.

MongoDB does not define the order of documents with equal `createdAt`.
The listing methods therefore promise a permutation of the matching documents
in non-increasing `createdAt` order, and no particular order among ties.

Modules:

- `Wrappers`: `Option`.
- `ObjectIds`: 12-byte ObjectIds. `str(oid)` gives 24 lower-case hex digits.
  `ObjectId(s)` accepts exactly 24 hex digits of either case; `None` stands
  for `InvalidId`.
- `Serialize`: the document tree and `convert_objectid_to_str`.
- `Documents`: a post in document form.
- `Sequences`: the query helpers that stand in for MongoDB.
- `Records`: documents, request and response shapes, and the HTTP errors
  with their exact status codes and texts.
- `Rules`: pure functions. These are token resolution, the lookups by id
  and by e-mail, the admin gate, the `.edu` check, the `get_posts` query,
  and unread counting. They also include the two `update_one` writes on the
  users collection, stated on the sequence of users.
- `Store`: the handlers as methods of `Database`.

The server reaches outside itself in five places. Each becomes a parameter:

- The bcrypt hash of a new password is passed to `Register` as `hashed`.
- `verify_password` is the function parameter `verify` of `Login`.
- Reading the bearer token and decoding the JWT give the `Credentials` value
  each authenticated handler receives. `NoCredentials` means the request has
  no `Authorization` header, or one without a scheme or a token, which
  `HTTPBearer` refuses with 403 "Not authenticated". `NotBearer` means the
  header names a scheme other than Bearer, which `HTTPBearer` refuses with
  403 "Invalid authentication credentials". `BadToken` means the signature or the expiry was
  rejected. `Decoded(userId)` carries the payload's `user_id`, if it has one.
- A new ObjectId is passed in as `freshId`. It must not already be in use
  in its collection, as MongoDB guarantees.
- `datetime.utcnow()` is passed in as `now`, an integer. `create_claim` reads
  the clock twice, once for the claim and once for the notification, so
  `CreateClaim` takes a second time, `notifiedAt`.

When an exception other than `HTTPException` escapes a handler, the
framework's default answer is 500. This happens when `get_current_user`
calls `ObjectId(user_id)` on a malformed id. It is modelled as
`Records.InternalError`.

## Model

| member | source | states |
|---|---|---|
| `ObjectIds.ToString` | backend/server.py:117-118 | `str(ObjectId)` is 24 characters, each a lower-case hex digit |
| `ObjectIds.ParseToString` | backend/server.py:109 | `ObjectId(str(id)) == id`: an id rendered as text and parsed back by the server is the same id |
| `ObjectIds.ParseAccepts` | backend/server.py:319 | `ObjectId(s)` succeeds exactly when `s` is 24 hex digits of either case; otherwise `InvalidId` |
| `ObjectIds.ToStringInjective` | backend/server.py:324 | comparing `str(a) == str(b)` decides `a == b` |
| `Serialize.Convert` | backend/server.py:115-124 | the converted document contains no ObjectId anywhere |
| `Serialize.ConvertRendered` | backend/server.py:115-124 | each ObjectId leaf becomes its string; dicts keep exactly their keys in order; lists keep length and order; other scalars are unchanged, at every depth |
| `Serialize.RenderedUnique` | backend/server.py:115-124 | the converted document is the only document related to the input in that way |
| `Serialize.ConvertClean` | backend/server.py:115-124 | a document with no ObjectId is returned unchanged |
| `Serialize.ConvertIdempotent` | backend/server.py:115-124 | converting twice equals converting once |
| `Documents.RenderedPost` | backend/server.py:293-302 | a stored post as `get_posts` and `get_post` send it: `_id`, `author` and every claim id become 24-digit strings, every other field is sent as stored, and no ObjectId is left |
| `Sequences.Select` | backend/server.py:255 | a filtering comprehension keeps exactly the elements that satisfy the condition, and no more of them than the input holds |
| `Sequences.SelectCount` | backend/server.py:255 | every copy of a satisfying element is kept and no copy of any other, so counts such as `len([...])` and `count_documents` count each matching document |
| `Sequences.FirstIndex` | backend/server.py:183 | `find_one` finds the first matching document; none is found only when no document matches |
| `Sequences.SortDesc` | backend/server.py:293 | `sort("createdAt", -1)` is a permutation of its input with non-increasing keys |
| `Sequences.FindSorted` | backend/server.py:293 | `find(q).sort(...)` holds exactly the matching documents, as a sub-multiset of the collection, newest first |
| `Rules.UserIndex` | backend/server.py:109 | `find_one` by `_id` on users gives the first user with that id, and finds none only when no user has it |
| `Rules.EmailIndex` | backend/server.py:225-227 | `find_one` by e-mail gives the first user with that address, and finds none only when no user has it |
| `Rules.PostIndex` | backend/server.py:319-321 | `find_one` by `_id` on posts gives the first post with that id, and finds none only when no post has it |
| `Sequences.SelectDisjoint` | backend/server.py:400-401 | the counts of two disjoint conditions add up to at most the collection size |
| `Records.ViewForgetsPassword` | backend/server.py:423 | the `{"password": 0}` projection drops the password and nothing else: two users have the same view iff they agree on every other field |
| `Rules.CurrentUser` | backend/server.py:102-113 | no `Authorization` header, or one without a scheme or a token: 403 "Not authenticated"; a scheme other than Bearer: 403 "Invalid authentication credentials"; no decodable token, or no (or an empty) `user_id`: 401 "Invalid token"; a malformed id: 500; no user with that id: 401 "User not found"; otherwise exactly the first stored user with that id |
| `Rules.TokenAuthenticates` | backend/server.py:105-113 | with unique ids, the token issued for a stored user resolves to exactly that user |
| `Rules.PostQuery` | backend/server.py:284-291 | the `get_posts` query uses only the keys `status`, `type`, `category` and `location` |
| `Rules.PostQueryMeaning` | backend/server.py:283-293 | a post matches the query iff it is `ACTIVE` and meets the type, category and location constraints, each applied exactly when that argument is non-empty |
| `Rules.UnreadCount` | backend/server.py:255 | the unread count is at most the number of notifications, and is zero iff every notification has `read` set to true |
| `Rules.MarkRead` | backend/server.py:386-389 | the notification at the index becomes read and keeps its message, type, link and date; the others and the length are unchanged |
| `Rules.MarkReadCount` | backend/server.py:385-390 | marking a notification read lowers the unread count by one if it was unread, and leaves it unchanged otherwise |
| `Rules.PushNotification` | backend/server.py:346-357 | the `$push` onto the author's `notifications` appends exactly that entry to the user with the given id, if there is one; every other user is unchanged and ids stay unique |
| `Rules.SetNotificationRead` | backend/server.py:386-389 | the `$set` marks notification `i` read for the user with the given id only; every other user is unchanged and ids stay unique |
| `Rules.ClaimNotification` | backend/server.py:349-355 | the notification sent to a post's author is stored with `read` false, has type `CLAIM` and carries the time it was sent |
| `Store.Database.Register` | backend/server.py:181-220 | a taken e-mail gives 400 "User already exists with this email", even when it also fails the domain rule; otherwise a non-`.edu` address gives 400; success adds exactly one user, a `STUDENT` with no notifications, and changes nothing else; the returned token authenticates as that user; distinct e-mails stay distinct |
| `Store.Database.Login` | backend/server.py:223-245 | an unknown e-mail and a wrong password both give 400 "Invalid credentials"; success iff the password verifies against the first user with that e-mail; the token authenticates as that user; the store is read only |
| `Store.Database.GetMe` | backend/server.py:248-256 | authentication errors pass through; the caller's profile with `notificationCount` equal to the number of notifications not marked read |
| `Store.Database.CreatePost` | backend/server.py:260-280 | appends exactly one post with the input's fields, status `ACTIVE`, no claims and the caller as author; users and claims unchanged; nothing is stored on an authentication error |
| `Store.Database.GetPosts` | backend/server.py:283-294 | returns exactly the active posts that meet every given filter, newest first |
| `Store.Database.GetPost` | backend/server.py:297-304 | a malformed id gives 400, an absent post 404; success iff the id parses and a post has it, and then the answer is the first stored post with that id |
| `Store.Database.GetUserPosts` | backend/server.py:307-312 | authentication errors pass through; a malformed id gives 400 "Invalid user ID"; otherwise every copy of the posts whose author has the given id (a multiset equal to that selection), newest first |
| `Store.Database.CreateClaim` | backend/server.py:316-363 | a malformed post id gives 400, a missing post 404 and one's own post 400, each with the store unchanged; success iff none of these checks fails; on success exactly one `PENDING` claim is added, the post's `claims` grows by exactly that id at the end, the author alone gains one unread `CLAIM` notification at the end, and every other post and user is unchanged |
| `Store.Database.RecordClaim` | backend/server.py:328-357 | the writes of an accepted claim: one `PENDING` claim appended, its id appended to the post's `claims`, and the author notified; ids stay unique |
| `Store.Database.GetPostClaims` | backend/server.py:366-371 | authentication errors pass through; a malformed id gives 400; otherwise the claims on the given post, as a multiset equal to that selection, newest first |
| `Store.Database.GetUserClaims` | backend/server.py:374-376 | the caller's own claims, as a multiset equal to that selection, newest first |
| `Store.Database.GetNotifications` | backend/server.py:380-382 | authentication errors pass through; otherwise exactly the notifications stored on the caller's document |
| `Store.Database.MarkNotificationRead` | backend/server.py:385-390 | only notification `i` of the caller becomes read, through `SetNotificationRead`; all posts and claims are unchanged; the caller's unread count drops by one exactly when that notification was unread |
| `Store.Database.AdminStats` | backend/server.py:394-408 | 403 unless the caller's role is `ADMIN`; the totals and the active and resolved counts, with active plus resolved at most the total |
| `Store.Database.AdminPosts` | backend/server.py:411-416 | 403 unless the caller's role is `ADMIN`; every post, newest first |
| `Store.Database.AdminUsers` | backend/server.py:419-424 | 403 unless the caller's role is `ADMIN`; every user without the password, newest first |

## Left out

- The 403 detail texts of `HTTPBearer` are those of the FastAPI releases contemporary with this code; the version is not pinned, and later releases may answer a missing header differently.
- Password hashing and verification (backend/server.py:82-86) are library calls. The hash is a parameter of `Register` and the verdict a function parameter of `Login`.
- JWT encoding and decoding (backend/server.py:88-100) are library calls. A token is modelled as its payload, `Token(userId)`. Decoding is the `Credentials` value handed to each handler. The seven-day expiry is part of `BadToken`.
- Request-body validation by the web framework is not modelled, with its 422 answers. This includes `EmailStr` (backend/server.py:58, 62), which both checks the address and normalises it; among other things it lower-cases the domain. The `email` argument of `Register` and `Login` stands for the address after that normalisation, so `x@Uni.EDU` must be passed as `x@uni.edu`. The normalisation itself is not modelled.
- `Store.Database.MarkNotificationRead`: requires `0 <= i < |notifications|` of the caller. For other indices the database either pads the array or rejects the update. That behaviour is not modelled.
- `ObjectIds.Parse`: the id library also reads a 24-character string with whitespace between byte pairs, which yields fewer bytes. That case is not modelled. Only 24 hex digits are accepted.
- `Store.Database.GetPosts` and the other listings promise only newest-first order. The database's order among equal `createdAt` values is unspecified and not modelled.
- Responses are returned as records rather than as JSON documents. The serializer is modelled on its own (`Serialize`). Its effect on a post is stated by `Documents.RenderedPost`.
- Not modelled, because they are I/O or fixed answers: the MongoDB connection, the HTML page routes, the static mount, CORS, server start-up, and the constant health check (backend/server.py:24-52, 127-175, 427-433).
- No image-similarity search exists in backend/server.py. The PIL and numpy imports are unused, so nothing of it is modelled.
- The test scripts, the data seeders and the front-end code are not part of this model.
