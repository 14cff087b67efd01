# Sportsin backend core in Dafny

Sportsin is a Go backend for a sports social network: players and
recruiters sign up through Cognito, publish posts, comment and like, chat in
real time over websockets and Redis, apply to recruiters' openings, join
tournaments and record achievements. Most of it is HTTP handlers (gin) over
Postgres, Redis, S3 and Cognito. This project models the sequential rules
that sit around that I/O and proves what they promise:

- **Chat delivery** (`chat_hub.dfy`, `chat_repo.dfy`, `chat_handlers.dfy`):
  the hub's registry of sessions and its queued register/unregister events,
  the per-user channel names, the bounded drop-when-full send buffer of
  capacity 256, the per-frame step of the read loop, the canonical order of
  a room's two users, read-marking, and the guards of the chat handlers.
- **String codecs and normalisers** (`gostrings.dfy`, `post_repo.dfy`,
  `sport_repo.dfy`, `s3.dfy`, `referral.dfy`, `model_types.dfy`,
  `migrate_cli.dfy`): tag split and join, the sport-name sanitiser, the
  migration-name cleaner, S3 keys and URLs and their extraction, the
  extension and content-type tables, the referral-code alphabet and the
  role parser.
- **Errors and statuses** (`errors.dfy`, `error_handler.dfy`, `cognito.dfy`,
  `auth_handlers.dfy`, `auth_middleware.dfy`): the database error kinds and
  their messages, the ordered search of the unwrap chain that maps an error
  to an HTTP status, the Cognito exception mapping, the per-endpoint auth
  statuses, and the JWT header and claim checks with the public-key cache.
- **Validators and builders** (`opening_repo.dfy`, `opening_handlers.dfy`,
  `application_repo.dfy`, `application_handlers.dfy`, `comment_repo.dfy`,
  `comment_handlers.dfy`, `saddress_repo.dfy`, `post_handlers.dfy`,
  `tournament_handlers.dfy`, `achievement_handlers.dfy`,
  `user_registration.dfy`, `image_handlers.dfy`, `sport_handlers.dfy`): the
  dynamic SQL filter builder and its placeholder numbering, the pagination
  clamps and refusals, the application-status guard chain, comment threads
  with their latest-reply rule, and the "patch only non-empty fields"
  merges.
- **Small stores** (`post_like_repo.dfy`, `application_repo.dfy`,
  `user_profile_repo.dfy`, `migrations.dfy`): the like counter, the
  uniqueness of an application per player and opening, profile creation and
  referral rewards, and the apply and rollback logic of the migrations
  table.

Every collaborator is a parameter: a database, Redis, S3 or Cognito call
appears as the `Result` or `Option` it returns. Where the source updates a
store in place, the store is a class whose `seq` or `map` fields the methods
reassign (`ApplicationStore`, `CommentStore`, `SAddressStore`,
`UserProfileStore`, `PostLikeStore`, `MigrationDb`, `Hub`, `KeyCache` and
others). `wrappers.dfy` holds `Option` and `Result`, `http.dfy` the replies
and query parameters, and `uuid.dfy` the UUID check.

## Model

| member | source | states |
|---|---|---|
| Errors.Error.Unwrap | backend/internals/db/db_errors.go:78-80 | a DatabaseError (and a `%w` wrapper) unwraps to exactly the error it carries; every other kind unwraps to nothing |
| Errors.Error.Chain | backend/internals/db/error_handler.go:34-35 | the unwrap chain errors.As walks starts with the error itself |
| Errors.Error.As | backend/internals/db/error_handler.go:34-35 | errors.As finds, if anything, an error of the asked kind that lies on the unwrap chain |
| Errors.AsKind | backend/internals/db/error_handler.go:84-87 | errors.As on a nil error finds nothing; otherwise it is the chain search |
| Errors.FirstOfKind | backend/internals/db/error_handler.go:34-35 | the position of the first error of a kind on a chain: nothing before it has the kind, and the one there does |
| Errors.AsFirstMatch | backend/internals/db/error_handler.go:34-40 | errors.As returns exactly the first error of the kind along the unwrap chain, and finds nothing exactly when no error on the chain has it |
| Errors.AsOfAws | backend/internals/auth/cognito.go:56-58 | errors.As on a bare AWS exception finds it for its own exception type and for no other |
| Errors.AsThroughWrapper | backend/internals/db/error_handler.go:34-40 | a `%w` wrapper is transparent to errors.As for every kind |
| Errors.AsThroughDatabase | backend/internals/db/db_errors.go:78-80 | a DatabaseError is transparent to errors.As for every kind except DatabaseError itself |
| Errors.PredefinedValues | backend/internals/db/db_errors.go:83-115 | the deprecated aliases are the same values as the errors they stand for, and the predefined errors read "user not found", "user already exists", "unauthorized access" |
| Errors.MessageForms | backend/internals/db/db_errors.go:16-62 | NotFound mentions the ID only when it is non-empty; AlreadyExists names field and value only when both are non-empty; Authorization falls back to "unauthorized access" unless action and resource are both set |
| Errors.UniqueConstraintCaseInsensitive | backend/internals/db/db_errors.go:139-145 | a nil error is never a unique-constraint error, and the test does not depend on the case of the field name |
| ErrorHandler.ToHTTPError | backend/internals/db/error_handler.go:18-81 | the status is one of 400/403/404/409/500; nil is 500 "An unexpected error occurred"; every 500 has code internal_error and one of the two fixed messages; 404 and 403 carry the error's own text |
| ErrorHandler.ClassificationAgrees | backend/internals/db/error_handler.go:34-111 | ToHTTPError's status is 404, 409, 400, 403 or the internal-error 500 exactly when the Is* predicates report that kind and no kind checked before it does, in that fixed order |
| ErrorHandler.KindPredicatesSearchChain | backend/internals/db/error_handler.go:83-112 | IsNotFoundError, IsAlreadyExistsError, IsValidationError, IsAuthorizationError and IsDatabaseError each hold exactly for a non-nil error with an error of its kind on its unwrap chain |
| ErrorHandler.DatabaseTextHidden | backend/internals/db/error_handler.go:65-71 | a DatabaseError with no client-facing kind inside becomes 500 with a fixed message that does not expose the underlying text |
| ErrorHandler.DatabaseWrappingNotFound | backend/internals/db/error_handler.go:34-40 | a DatabaseError wrapping a NotFoundError maps to 404, because each kind is looked for over the whole chain |
| ErrorHandler.WrapperKeepsClassification | backend/internals/db/error_handler.go:34-80 | wrapping an error with `%w` changes neither its status, nor its code, nor its field |
| ErrorHandler.ValidationResponse | backend/internals/db/error_handler.go:50-56 | a wrapped ValidationError becomes 400 validation_error carrying the validation's own message and field |
| ModelTypes.ParseRole | backend/model/types.go:22-33 | exactly "admin", "player" and "recruiter" are accepted, each giving the role of that name; anything else is the error "invalid role: <s>" |
| ModelTypes.ParseRoleName | backend/model/types.go:16-30 | parsing a role's own name gives that role back |
| ModelTypes.ParseRoleCaseSensitive | backend/model/types.go:23-32 | a different letter case ("Admin", "PLAYER") is rejected |
| ModelTypes.EnumTables | backend/model/types.go:5-60 | Gender has 4 names, Level 5, TournamentStatus 4 and ParticipationStatus 3, and every value's name is in its table |
| ModelTypes.NamesInjective | backend/model/types.go:7-43 | distinct genders and distinct levels have distinct names |
| Uuid.Parse | backend/internals/handlers/chat_handlers.go:59-64 | uuid.Parse succeeds exactly on the 8-4-4-4-12 hexadecimal form and yields its lower-case canonical text of the same length |
| Uuid.ParseOrNil | backend/internals/chat/redis/client.go:61-62 | the value left by `id, _ := uuid.Parse(s)`: the parsed id, or the nil UUID when parsing fails; always canonical |
| Uuid.ParseCanonical | backend/internals/handlers/chat_handlers.go:59 | a canonical id parses to itself |
| Uuid.ParseIdempotent | backend/internals/handlers/chat_handlers.go:59 | parsing a parsed id changes nothing |
| GoStrings.ToLower | backend/internals/db/repositories/sport_repository.go:79 | strings.ToLower keeps the length and lower-cases each character on its own |
| GoStrings.ToLowerIdempotent | backend/cmd/migrate/main.go:63 | lower-casing twice is lower-casing once |
| GoStrings.TrimSpace | backend/cmd/migrate/main.go:63 | strings.TrimSpace leaves no white space at either end; its partner TrimSpaceFramed says what is kept |
| GoStrings.TrimSpaceFramed | backend/cmd/migrate/main.go:63 | the trimmed string is one contiguous piece of the input with only white space before and after it, so only the two end runs of white space are removed and the middle is kept |
| GoStrings.TrimSpaceEmptyIffBlank | backend/cmd/migrate/main.go:63-67 | a string trims to nothing exactly when it is all white space |
| GoStrings.TrimChar | backend/internals/db/repositories/sport_repository.go:74 | strings.Trim with one character leaves that character at neither end, and changes nothing when the character is absent; its partner TrimCharFramed says what is kept |
| GoStrings.TrimCharFramed | backend/internals/db/repositories/sport_repository.go:74 | the result is one contiguous piece of the input with only the character before and after it, so only the two end runs of the character are cut and the middle is kept |
| GoStrings.IndexOf | backend/internals/db/migration_system.go:68-71 | the position of the first occurrence of a character, or the length when there is none |
| GoStrings.ReplaceChar | backend/internals/db/repositories/sport_repository.go:75 | strings.ReplaceAll of one character replaces exactly its occurrences and keeps the length |
| GoStrings.Split | backend/internals/db/repositories/post_repository.go:556 | strings.Split always yields at least one part |
| GoStrings.JoinSplit | backend/internals/db/repositories/post_repository.go:551-561 | joining the parts of a split with the same separator gives the string back |
| GoStrings.SplitJoin | backend/internals/db/repositories/post_repository.go:551-561 | splitting a join gives the parts back when no part holds the separator |
| GoStrings.LessIrreflexive | backend/internals/db/repositories/chat_repository.go:16-18 | the byte-wise string order compared by the room lookup is irreflexive |
| GoStrings.LessAsymmetric | backend/internals/db/repositories/chat_repository.go:16-18 | that order is asymmetric |
| GoStrings.LessTotal | backend/internals/db/repositories/chat_repository.go:16-18 | any two distinct strings are ordered one way or the other |
| GoStrings.NatToString | backend/internals/handlers/sport_handelers.go:28 | the decimal text of a natural number is non-empty and all digits |
| GoStrings.Atoi | backend/internals/handlers/sport_handelers.go:28-44 | strconv.Atoi succeeds exactly on an optionally signed run of decimal digits whose value fits in 64 bits, and fails on the empty string |
| GoStrings.AtoiValue | backend/internals/handlers/tournament_handlers.go:311-312 | the value `n, _ := strconv.Atoi(s)` leaves, always within 64 bits: the parsed value when Atoi succeeds; the bound of the sign when the syntax is right but the value is out of range; the same bound when the leading digits already pass 2^64-1, whatever follows them; 0 for any other bad syntax |
| GoStrings.ScanDigitsRun | backend/internals/handlers/tournament_handlers.go:311-312 | the left-to-right digit scan stops with overflow exactly when the leading run of digits passes 2^64-1; otherwise it stops at a bad character if there is one, and else gives the run's decimal value |
| GoStrings.DigitRunBeforeJunk | backend/internals/handlers/tournament_handlers.go:311-312 | the leading run of digits of digits followed by a non-digit is exactly the digits |
| GoStrings.AtoiValueBeforeJunk | backend/internals/handlers/tournament_handlers.go:311-312 | digits followed by junk give the bound of the sign when the digits pass 2^64-1, and 0 otherwise: the overflow is reported before the bad character |
| GoStrings.DigitsValueNatToString | backend/internals/handlers/sport_handelers.go:28 | the digits of a number's decimal text denote that number |
| GoStrings.AtoiNatToString | backend/internals/handlers/sport_handelers.go:28 | Atoi reads back the decimal text of any non-negative 64-bit value |
| ChatHub.PingBeforePongDeadline | backend/internals/chat/redis/client.go:13-20 | pingPeriod = pongWait*9/10 is 54 s, strictly between 0 and pongWait = 60 s |
| ChatHub.UserChannel | backend/internals/chat/redis/pub-sub.go:20-22 | a user's channel is "user:" followed by exactly that user id |
| ChatHub.UserChannelInjective | backend/internals/chat/redis/pub-sub.go:21 | distinct user ids get distinct channel names |
| ChatHub.SendBuffer.constructor | backend/internals/handlers/chat_handlers.go:77 | `make(chan []byte, n)`: an empty, open buffer of capacity n |
| ChatHub.SendBuffer.TryPush | backend/internals/chat/redis/pub-sub.go:42-47 | a non-blocking send appends the payload when there is room, drops it leaving the buffer unchanged when full, and panics on a closed channel; the length never exceeds the capacity |
| ChatHub.SendBuffer.Receive | backend/internals/chat/redis/client.go:112-118 | a receive takes the oldest payload; an empty closed channel reports closed, an empty open one nothing |
| ChatHub.SendBuffer.Close | backend/internals/chat/redis/hub.go:32 | closing keeps the buffered payloads |
| ChatHub.Forward | backend/internals/chat/redis/pub-sub.go:39-47 | the forwarding loop keeps the payloads that fit, in arrival order, and drops exactly the rest |
| ChatHub.Subscription.constructor | backend/internals/chat/redis/pub-sub.go:30 | a subscription to the named channel starts open |
| ChatHub.Subscription.Close | backend/internals/chat/redis/hub.go:33-35 | closing a subscription marks it closed |
| ChatHub.Client.constructor | backend/internals/handlers/chat_handlers.go:74-79 | a session has its user id, no subscription yet, and a fresh empty Send buffer of capacity 256 |
| ChatHub.Client.Subscribe | backend/internals/chat/redis/pub-sub.go:26-30 | a client subscribes to the channel named for its own user id |
| ChatHub.Hub.constructor | backend/internals/chat/redis/hub.go:9-16 | NewHub starts with no clients, nothing queued and nothing published |
| ChatHub.Hub.RegisterClient | backend/internals/chat/redis/hub.go:43-46 | RegisterClient only queues the client for Run; the registry is unchanged |
| ChatHub.Hub.RunRegister | backend/internals/chat/redis/hub.go:23-27 | Run takes the oldest queued client and registers it |
| ChatHub.Hub.Register | backend/internals/chat/redis/hub.go:23-27 | the client is stored under its user id, replacing any earlier entry, and no other entry changes |
| ChatHub.Hub.Unregister | backend/internals/chat/redis/hub.go:28-36 | when the user id is registered, its entry is deleted, the unregistering client's Send is closed and its Sub closed if non-nil; otherwise nothing changes and nothing is closed; other users' entries are untouched |
| ChatHub.Hub.UnregisterIfCurrent | backend/internals/chat/redis/hub.go:28-36 | corrected unregister: the entry goes only if it is this client's, and the client's Send and Sub are always released |
| ChatHub.Hub.PublishToUser | backend/internals/chat/redis/pub-sub.go:8-17 | one publish to userChannel(id) is appended; a broker error is never returned and the registry is unchanged |
| ChatHub.StaleUnregisterLeaks | backend/internals/chat/redis/hub.go:30-32 | with two sessions of one user, the older one's unregister evicts the newer, whose Send and Sub are then never closed |
| ChatHub.StaleUnregisterFixed | backend/internals/chat/redis/hub.go:30-32 | with the identity check the newer session stays registered and is fully released when it leaves |
| ChatHub.StoreMessage | backend/internals/chat/redis/client.go:64-76 | the message is stored exactly when the room lookup succeeds, the room is found or can be created, and the message transaction succeeds with a fresh id; then the message log gains exactly the stored message, with the new id, the sender, the content, the clock's time and the id of the room of the sender and recipient pair; a failure stores nothing |
| ChatHub.ReadPumpStep | backend/internals/chat/redis/client.go:46-97 | a read error ends the loop; an undecodable frame stores and publishes nothing; a payload is published exactly when the frame decodes, the message is stored and the outgoing message encodes; it goes first to the raw recipient id's channel and then to the sender's, with id, content and time copied from the stored message, the sender from the session and the room of the pair |
| ChatHub.RawRecipientChannel | backend/internals/chat/redis/client.go:61-62 | a recipient id that parses but is not in canonical form is published on a channel different from the one its session subscribes to |
| ChatHub.WritePumpStep | backend/internals/chat/redis/client.go:110-135 | a tick writes a ping; a queued payload is written and removed; a closed, empty Send writes a close frame and stops; a failed write stops the pump |
| ChatRepo.OrderedPair | backend/internals/db/repositories/chat_repository.go:16-18 | the two user ids are swapped when the first is greater, so the pair is the same two ids with the smaller first |
| ChatRepo.OrderedPairSymmetric | backend/internals/db/repositories/chat_repository.go:16-18 | (a, b) and (b, a) look up the same ordered pair |
| ChatRepo.PairIndex | backend/internals/db/repositories/chat_repository.go:22-24 | the room lookup finds the first room holding exactly that ordered pair, or reports there is none |
| ChatRepo.SetLastMessageAt | backend/internals/db/repositories/chat_repository.go:69-70 | the update of last_message_at sets it on the rooms with that id and leaves every other room as it was |
| ChatRepo.SetLastKeepsValid | backend/internals/db/repositories/chat_repository.go:69-70 | updating last_message_at keeps the room ids unique and every stored pair ordered |
| ChatRepo.MarkRead | backend/internals/db/repositories/chat_repository.go:105-112 | the update sets read exactly on the unread messages of that room sent by someone other than the reader |
| ChatRepo.MarkReadEffect | backend/internals/db/repositories/chat_repository.go:105-112 | afterwards every message of the room not sent by the reader is read; only the read flag changes, and it changes exactly on the messages the update selects |
| ChatRepo.MarkReadIdempotent | backend/internals/db/repositories/chat_repository.go:106 | marking a second time changes nothing |
| ChatRepo.ScannedMessages | backend/internals/db/repositories/chat_repository.go:90-100 | the scan loop keeps only rows that scan, so the result is no longer than the rows and every message comes from a scanned row |
| ChatRepo.ScannedKeepsOrder | backend/internals/db/repositories/chat_repository.go:81-100 | skipping rows that fail to scan keeps the query's oldest-first order |
| ChatRepo.ScannedAppend | backend/internals/db/repositories/chat_repository.go:90-100 | one more row adds its message exactly when it scans |
| ChatRepo.ChatStore.constructor | backend/internals/db/repositories/chat_repository.go:13-48 | the store starts with no rooms and no messages |
| ChatRepo.ChatStore.FindOrCreateChatRoom | backend/internals/db/repositories/chat_repository.go:13-48 | a lookup error is returned; an existing room for the ordered pair is returned unchanged; only on no rows is a room inserted, with constraint key user1 + ":" + user2 in canonical order; an insert error is returned with nothing stored |
| ChatRepo.ChatStore.CreateMessage | backend/internals/db/repositories/chat_repository.go:51-77 | in one transaction the message is inserted and its room's last_message_at set to the same time; on any failure neither persists |
| ChatRepo.ChatStore.MarkMessagesAsRead | backend/internals/db/repositories/chat_repository.go:105-112 | on success the messages become MarkRead of the old ones; on error nothing changes and the error is returned; rooms are untouched |
| ChatRepo.ChatStore.IsUserInChatRoom | backend/internals/db/repositories/chat_repository.go:138-149 | true exactly when a room with that id has the user as user1 or user2; no row gives (false, nil); a query error is returned |
| ChatRepo.GetMessagesForRoom | backend/internals/db/repositories/chat_repository.go:80-102 | the loop returns the scanned messages in row order, so rows oldest first give messages oldest first |
| ChatRepo.CreateMessageSetsLastActivity | backend/internals/db/repositories/chat_repository.go:69-70 | after CreateMessage the room's last_message_at is the message's time, and other rooms are unchanged |
| ChatHandlers.ServeWs | backend/internals/handlers/chat_handlers.go:47-91 | no userID gives 401 and a non-UUID one 400, both before upgrading; an upgraded session gets a fresh empty Send of capacity 256, carries the canonical form of the id and is handed to RegisterClient before its pumps start |
| ChatHandlers.MessageLimit | backend/internals/handlers/chat_handlers.go:149-155 | the limit is always in 1..100: a parsed value in range is kept, anything else becomes 50 |
| ChatHandlers.MessageOffset | backend/internals/handlers/chat_handlers.go:150-158 | the offset is never negative: a parsed non-negative value is kept, a negative one becomes 0 |
| ChatHandlers.MessageLimitClamp | backend/internals/handlers/chat_handlers.go:149-155 | an unparsable limit, one ≤ 0 and one > 100 all become 50 (an unparsable one beyond the int64 range keeps Atoi's clamped bound, which is then refused as > 100) |
| ChatHandlers.MessagePageDefaults | backend/internals/handlers/chat_handlers.go:149-150 | with no parameters the page is limit 50, offset 0 |
| ChatHandlers.RoomAccess | backend/internals/handlers/chat_handlers.go:117-147 | 401 without a user; the guard passes exactly when both ids parse and the room has the user as a member; a non-member gets 403 |
| ChatHandlers.GetMessages | backend/internals/handlers/chat_handlers.go:117-176 | a caller who fails the room guard gets its error before any message is read; a caller who passes it always gets the page query, on the room with the clamped page; a failed query is 500 "Failed to retrieve messages", and 200 carries the scanned messages exactly when the query succeeds |
| ChatHandlers.MarkRoomAsRead | backend/internals/handlers/chat_handlers.go:179-218 | a caller who fails the room guard gets its error with no message changed; otherwise the room's messages are marked read for the caller, or 500 on error |
| ChatHandlers.OtherUser | backend/internals/handlers/chat_handlers.go:252-257 | the recipient is User2 when User1 is the sender, and User1 otherwise, including for a sender who is in neither place |
| ChatHandlers.RoomIndex | backend/internals/handlers/chat_handlers.go:247 | the position of the room with the given id, or the length when there is none |
| ChatHandlers.PushTarget | backend/internals/handlers/chat_handlers.go:259-273 | a push is attempted exactly when the ARN lookup succeeds with a non-empty ARN, and goes to that ARN |
| ChatHandlers.SendMessageAsWritten | backend/internals/handlers/chat_handlers.go:221-276 | as written, the room is looked up with the message's room id as the first user, so for a canonical room id the recipient of a successful send is the room id itself |
| ChatHandlers.SendMessage | backend/internals/handlers/chat_handlers.go:221-276 | corrected: a successful send stores exactly one message, with the new id, the room of the path, the caller as sender, the body and the clock's time; its recipient is the other member of that room, who is the push target when that user has a non-empty ARN; a caller with a body and well-formed ids, a room that exists, a fresh message id, a well-formed other member and no transaction failure gets 200 |
| ChatHandlers.OtherUserIsPeer | backend/internals/handlers/chat_handlers.go:252-257 | for a member of a room of two distinct users, the recipient is the other member |
| PostRepo.StringToTags | backend/internals/db/repositories/post_repository.go:551-556 | the empty string gives no tags, and it is the only string that does; otherwise the split on "," |
| PostRepo.TagsStringRoundTrip | backend/internals/db/repositories/post_repository.go:551-561 | TagsToString(StringToTags(s)) == s for every s |
| PostRepo.TagsListRoundTrip | backend/internals/db/repositories/post_repository.go:551-561 | StringToTags(TagsToString(ts)) == ts when no tag contains "," and ts is not [""] |
| PostRepo.SingleEmptyTagLost | backend/internals/db/repositories/post_repository.go:551-561 | the one exception: [""] joins to "" and comes back as no tags |
| PostRepo.CreatePostCheck | backend/internals/db/repositories/post_repository.go:15-26 | CreatePost fails in order on a nil post, an empty user id and white-space-only content, and passes exactly when none applies |
| PostRepo.InsertError | backend/internals/db/repositories/post_repository.go:36-46 | an insert error mentioning "foreign key constraint" becomes ErrUserNotFound, else one mentioning "duplicate key" ErrPostAlreadyExists, else a DatabaseError wrapping it |
| PostRepo.CreatePost | backend/internals/db/repositories/post_repository.go:15-49 | a validation error comes before any insert; otherwise the insert's error, mapped, is the result |
| PostRepo.ListCheck | backend/internals/db/repositories/post_repository.go:103-112 | the list queries reject an empty user id, then limit ≤ 0, then offset < 0, and accept exactly the rest (GetAllPosts has no user id, and GetAllPostsWithComments does not check its own) |
| PostRepo.GetPostById | backend/internals/db/repositories/post_repository.go:52-86 | an empty id is a validation error; no row is NotFound("post", id); a scan error is a select DatabaseError; a row is returned |
| PostRepo.ImagesOf | backend/internals/db/repositories/post_repository.go:89-97 | an images aggregate of "{}" or "" yields no images; any images come from decoding the aggregate |
| PostRepo.ScannedPosts | backend/internals/db/repositories/post_repository.go:140-165 | the rows that scan, in order |
| PostRepo.ScannedPostsAppend | backend/internals/db/repositories/post_repository.go:140-165 | one more row adds its post exactly when it scans |
| PostRepo.ScanPosts | backend/internals/db/repositories/post_repository.go:140-165 | the scan loop returns, in order, each scanned post with the images of its aggregate |
| PostRepo.UpdatePostCheck | backend/internals/db/repositories/post_repository.go:235-247 | UpdatePost fails in order on nil, empty id, empty user id and blank content, and passes exactly when none applies |
| PostRepo.DeletePostCheck | backend/internals/db/repositories/post_repository.go:268-274 | DeletePost needs a post id, then a user id |
| PostRepo.ApplyUpdate | backend/internals/db/repositories/post_repository.go:249-254 | the UPDATE changes content, tags and updated_at of exactly the post with that id owned by that user |
| PostRepo.RemoveOwned | backend/internals/db/repositories/post_repository.go:276-292 | the DELETE removes exactly the post with that id owned by that user; the table shrinks exactly when there was one |
| PostRepo.PostTable.UpdatePost | backend/internals/db/repositories/post_repository.go:235-265 | a validation error changes nothing; a database error is wrapped; with no matching (id, user) row the result is an AuthorizationError and nothing changes; otherwise the owned row is updated |
| PostRepo.PostTable.DeletePost | backend/internals/db/repositories/post_repository.go:268-295 | a validation error changes nothing; otherwise the owned row is removed, and zero rows affected is an AuthorizationError |
| PostRepo.PostTable.CheckPostOwnership | backend/internals/db/repositories/post_repository.go:298-316 | the same id checks, then true exactly when a post with that id belongs to that user |
| PostLikeRepo.AfterLike | backend/internals/db/repositories/post_like_repository.go:25-37 | a like adds one (post, user) row and raises that post's like_count by exactly 1; no other post changes |
| PostLikeRepo.AfterUnlikeAsWritten | backend/internals/db/repositories/post_like_repository.go:57-69 | as written, unlike deletes the user's like rows of the post and lowers like_count by 1 whether or not a row was deleted |
| PostLikeRepo.AfterUnlike | backend/internals/db/repositories/post_like_repository.go:57-69 | corrected: like_count drops by the number of rows actually deleted, and no other post changes |
| PostLikeRepo.LikeKeepsCounted | backend/internals/db/repositories/post_like_repository.go:25-37 | a like keeps every like_count equal to its number of like rows |
| PostLikeRepo.UnlikeKeepsCounted | backend/internals/db/repositories/post_like_repository.go:57-69 | the corrected unlike keeps every like_count equal to its number of like rows |
| PostLikeRepo.UnlikeWithoutLikeDiverges | backend/internals/db/repositories/post_like_repository.go:57-69 | as written, unliking a post the user did not like leaves like_count one below the number of like rows |
| PostLikeRepo.CountGoesNegative | backend/internals/db/repositories/post_like_repository.go:65 | as written, an unlike on a post with no likes drives like_count to -1 |
| PostLikeRepo.CountNeverNegative | backend/internals/db/repositories/post_like_repository.go:57-69 | with the corrected unlike a counted like_count never goes negative |
| PostLikeRepo.UnlikeUndoesLike | backend/internals/db/repositories/post_like_repository.go:13-73 | with the corrected unlike, liking then unliking a post the user had not liked restores both tables |
| PostLikeRepo.LikeError | backend/internals/db/repositories/post_like_repository.go:13-41 | LikePost reports an error exactly when one of its steps (begin, insert, count update, commit) fails |
| PostLikeRepo.UnlikeError | backend/internals/db/repositories/post_like_repository.go:45-73 | UnlikePost reports an error exactly when one of its steps (begin, delete, count update, commit) fails |
| PostLikeRepo.PostLikeStore.constructor | backend/internals/db/repositories/post_like_repository.go:13-41 | posts start with no likes and like_count 0, which is counted |
| PostLikeRepo.PostLikeStore.LikePost | backend/internals/db/repositories/post_like_repository.go:13-41 | on success both tables become AfterLike of the old ones; any failure rolls both back; counted tables stay counted |
| PostLikeRepo.PostLikeStore.UnlikePostAsWritten | backend/internals/db/repositories/post_like_repository.go:45-73 | as written: on success the tables become AfterUnlikeAsWritten; any failure rolls both back |
| PostLikeRepo.PostLikeStore.UnlikePost | backend/internals/db/repositories/post_like_repository.go:45-73 | corrected: on success the tables become AfterUnlike and stay counted; any failure rolls both back |
| PostHandlers.PostPage | backend/internals/handlers/post_handlers.go:236-246 | the list limit is the parsed value when it is in 1..100, else 10; the offset is the parsed value when non-negative, else 0 |
| PostHandlers.PostPagePassesListCheck | backend/internals/handlers/post_handlers.go:236-246 | a clamped page always passes the repository's limit and offset checks |
| PostHandlers.GetPostsQuery | backend/internals/handlers/post_handlers.go:231-253 | an empty user_id lists all posts, a non-empty one that user's posts, with the clamped page |
| PostHandlers.GetPostsWithCommentsQuery | backend/internals/handlers/post_handlers.go:301-330 | 401 exactly when there is no authenticated user; otherwise the same query choice and page, with the caller's id |
| PostHandlers.GetMyPostsQuery | backend/internals/handlers/post_handlers.go:614-640 | 401 exactly when there is no authenticated user; otherwise the caller's posts with the clamped page |
| PostHandlers.ResponseTags | backend/internals/handlers/post_handlers.go:264-267 | empty tags give no list; otherwise a list that joins back to the stored tags |
| PostHandlers.FirstImage | backend/internals/handlers/post_handlers.go:134-137 | the response image_url is the first image's URL, or "" when there is none |
| PostHandlers.ListedResponse | backend/internals/handlers/post_handlers.go:272-281 | a listed post's response copies id, user, content, images and like count, and its tags join back to the stored tags |
| PostHandlers.ListResponses | backend/internals/handlers/post_handlers.go:261-283 | the loop builds one response per post, in order |
| PostHandlers.GetPostHandler | backend/internals/handlers/post_handlers.go:178-219 | an empty id is the post-id validation error; a found post gives 200 with its listed response |
| PostHandlers.EveryFileAccounted | backend/internals/handlers/post_handlers.go:79-121 | every uploaded file ends as exactly one saved image or one image error; S3 clean-ups happen only for errors |
| PostHandlers.CleanUploadsKeepOrder | backend/internals/handlers/post_handlers.go:79-121 | when every file opens, uploads and saves, the images are the uploaded URLs in file order and there are no errors |
| PostHandlers.UploadImages | backend/internals/handlers/post_handlers.go:79-121 | the upload loop computes ProcessImages of the files |
| PostHandlers.CreatePostHandler | backend/internals/handlers/post_handlers.go:34-176 | 401 without a user; empty content is a 400 validation error; a created post is 201 with the images that uploaded and image_url the first of them; failed uploads do not fail the post and switch the message to the partial-success one |
| PostHandlers.MergePost | backend/internals/handlers/post_handlers.go:399-405 | content and tags are overwritten only when provided non-empty; nothing else changes |
| PostHandlers.MergeIdempotent | backend/internals/handlers/post_handlers.go:399-405 | applying the same update twice is applying it once |
| PostHandlers.OwnedPost | backend/internals/handlers/post_handlers.go:359-384 | 401 without a user; the guard passes exactly for a non-empty post id the caller owns; a non-owner gets the AuthorizationError reply |
| PostHandlers.UpdatePostHandler | backend/internals/handlers/post_handlers.go:357-543 | ownership is checked before anything is written; the write is MergePost of the existing post; existing images are cleared only when replace_images is "true" and new images came; once the write and the update succeed and the clearing does not fail, the new images uploaded are exactly those of the form; 200 returns the re-read post's images with image_url the first |
| PostHandlers.DeletePostHandler | backend/internals/handlers/post_handlers.go:545-600 | a caller who fails the guard deletes nothing; image records go before the post; every image URL is sent to S3 and an S3 failure does not stop the post's deletion |
| PostHandlers.LikeHandler | backend/internals/handlers/post_handlers.go:685-747 | the repository is called exactly for an authenticated caller and a non-empty post id; 200 exactly when it succeeds |
| PostHandlers.ProcessImage | backend/internals/handlers/post_handlers.go:79-121 | an image is saved exactly when it opens, uploads and its record is written, with the uploaded URL; it is cleaned up from S3 exactly when only the record write fails |
| SportRepo.SanitizeSportName | backend/internals/db/repositories/sport_repository.go:73-81 | the name is trimmed of spaces at both ends and its other spaces become "_"; it is refused with the sport ValidationError exactly when it then holds one of !@#$%^&*()+; otherwise the result is that string lower-cased |
| SportRepo.Underscored | backend/internals/db/repositories/sport_repository.go:74-75 | after the trim and the replacement no space is left |
| SportRepo.SanitizedShape | backend/internals/db/repositories/sport_repository.go:73-81 | an accepted name has no space, no upper-case letter and no forbidden character |
| SportRepo.LowerStaysAllowed | backend/internals/db/repositories/sport_repository.go:76-79 | lower-casing a character that is neither a space nor forbidden gives such a character that is not upper-case |
| SportRepo.SanitizeIdempotent | backend/internals/db/repositories/sport_repository.go:73-81 | sanitising an accepted name's result gives the same result |
| SportRepo.BlankNameAccepted | backend/internals/db/repositories/sport_repository.go:73-81 | an empty or all-space name is accepted and becomes "" |
| SportRepo.GetSportByName | backend/internals/db/repositories/sport_repository.go:41-55 | a refused name is the validation error; the lookup uses the sanitised name; no row is NotFound with the name as given; other errors pass through |
| SportRepo.CreateSport | backend/internals/db/repositories/sport_repository.go:57-71 | a refused name is the validation error; the sanitised name is inserted; a unique violation on name becomes AlreadyExists("sport", "name", sanitised name); other errors pass through |
| SportRepo.SameSportName | backend/internals/db/repositories/sport_repository.go:73-81 | names equal after trimming the end spaces sanitise alike |
| SportHandlers.SportsPage | backend/internals/handlers/sport_handelers.go:28-44 | the limit must parse to 1..100 and the offset to ≥ 0, else 400 "Invalid limit" or "Invalid offset" (limit checked first); bad values are rejected, not clamped |
| SportHandlers.SportsPageRoundTrip | backend/internals/handlers/sport_handelers.go:28-44 | every accepted limit and offset, sent as decimal text, is accepted as itself |
| SportHandlers.SportsPageDefaults | backend/internals/handlers/sport_handelers.go:28-37 | with no parameters the page is limit 10, offset 0 |
| SportHandlers.GetSportsHandler | backend/internals/handlers/sport_handelers.go:26-61 | a bad page is its 400; otherwise the list runs with the validated page, and 200 echoes that limit and offset beside the sports |
| SportHandlers.CreateSportHandler | backend/internals/handlers/sport_handelers.go:81-106 | a missing body or empty name is 400; the reply carries the id the repository returned with the sanitised name the repository wrote back; a repository error becomes its HTTP reply |
| SportHandlers.CreateRepliesStoredRow | backend/internals/handlers/sport_handelers.go:93-104 | the replied sport is the inserted row: the insert of its name returned its id, and its name is the sanitised name, itself stable under sanitising |
| SportHandlers.GetSportByNameHandler | backend/internals/handlers/sport_handelers.go:118-140 | an empty name is 400 "Sport name is required"; otherwise the repository's sport or its error reply |
| S3.ObjectURL | backend/internals/services/s3_service.go:71 | an object's URL is the bucket's virtual-hosted prefix followed by the key, unchanged |
| S3.ExtractKey | backend/internals/services/s3_service.go:317-329 | a URL without the bucket's prefix is "invalid S3 URL format", the bare prefix is "empty S3 key"; an extracted key is non-empty and its object URL is the URL given |
| S3.ExtractObjectURL | backend/internals/services/s3_service.go:317-329 | extracting the key from the URL of any non-empty key gives that key back |
| S3.ExtractOtherBucket | backend/internals/services/s3_service.go:318-321 | a URL whose prefix is not this bucket's is refused |
| S3.KeysExtract | backend/internals/services/s3_service.go:317-329 | the key of a profile picture, post image, tournament banner or certificate is recovered from its object URL |
| S3.ProfilePictureURL | backend/internals/services/s3_service.go:76-82 | an empty extension means ".jpg"; the URL is the object URL of profile-pictures/<user><ext> |
| S3.Ext | backend/internals/services/s3_service.go:54 | the extension is empty or starts with "." and ends the path, holds no "/" and no other "."; its partners ExtOfSuffix and ExtEmptyNoDot say which suffix it is |
| S3.ExtOfSuffix | backend/internals/services/s3_service.go:54 | a path ending in "." followed by characters that are neither "." nor "/" has exactly that suffix as its extension ("a/b.png" gives ".png") |
| S3.ExtEmptyNoDot | backend/internals/services/s3_service.go:54 | the extension is empty only when every "." of the path is followed by a "/" |
| S3.ValidTypeBySuffix | backend/internals/services/s3_service.go:332-370 | IsValidImageType and IsValidCertificateType accept only names whose lower-cased form ends in one of their extensions, and for a name with a proper extension they accept exactly when the lower-cased extension is in the list |
| S3.ImageIsCertificate | backend/internals/services/s3_service.go:332-370 | every image extension is accepted for certificates, and the only other accepted one is ".pdf" in any case |
| S3.ContentType | backend/internals/services/s3_service.go:345-356 | the content type is a specific one exactly when the lower-cased extension is .jpg, .jpeg, .png or .gif, "application/octet-stream" otherwise |
| S3.CertificateContentType | backend/internals/services/s3_service.go:372-385 | a specific content type exactly for the certificate extensions, and "application/pdf" exactly for ".pdf" |
| S3.ContentTypesAgree | backend/internals/services/s3_service.go:345-385 | for every extension other than ".pdf", and for every image extension, the two content-type tables agree |
| S3.ContentTypeIgnoresCase | backend/internals/services/s3_service.go:346-373 | both tables look at the lower-cased extension only |
| S3.Upload | backend/internals/services/s3_service.go:40-73 | a file of a refused type is never read nor put and fails; a put uses the kind's key and content type; the upload succeeds exactly when the type is accepted and neither read nor put fails, and then returns the object URL of the key (same shape at 123-155, 207-239, 262-294) |
| S3.UploadedURLExtracts | backend/internals/services/s3_service.go:317-329 | the URL an upload returns extracts back to the key it put |
| S3.DeleteByURL | backend/internals/services/s3_service.go:158-176 | a URL that does not extract sends no delete and fails; otherwise the delete goes to the extracted key and fails exactly when the DeleteObject call does (same shape at 242-259, 297-314) |
| ImageHandlers.ClaimValue | backend/internals/handlers/image_handlers.go:126-143 | a missing claim is 401 "User ID not found in token", a non-string one 401 "Invalid user ID format", a string one is returned |
| ImageHandlers.UploadClaims | backend/internals/handlers/image_handlers.go:41-59 | both the user id and the e-mail are needed; a missing one is reported before a mistyped one |
| ImageHandlers.Dotted | backend/internals/handlers/image_handlers.go:152-154 | the result starts with "."; one already dotted is kept, otherwise a "." is put in front |
| ImageHandlers.DottedIdempotent | backend/internals/handlers/image_handlers.go:152-154 | dotting twice is dotting once |
| ImageHandlers.ExtensionParam | backend/internals/handlers/image_handlers.go:151-154 | the extension is ".jpg" when the parameter is absent, otherwise the parameter dotted |
| ImageHandlers.ExtensionExamples | backend/internals/handlers/image_handlers.go:151-154 | "png" and ".png" both give ".png", an empty value gives ".", no parameter gives ".jpg" |
| ImageHandlers.UploadProfilePictureHandler | backend/internals/handlers/image_handlers.go:38-108 | claims, then a file, then the 5 MiB limit are checked before any upload; valid claims and a file of at most 5 MiB are always uploaded under the caller's profile-picture key; a failed upload is 500 with its message; a successful upload is always stored against the e-mail; 200 exactly when it is stored without error |
| ImageHandlers.OversizeNeverUploaded | backend/internals/handlers/image_handlers.go:73-79 | a file over 5 MiB never reaches S3 and is never a 200 |
| ImageHandlers.TargetUser | backend/internals/handlers/image_handlers.go:145-148 | a non-empty user_id parameter replaces the caller |
| ImageHandlers.GetProfilePictureURLHandler | backend/internals/handlers/image_handlers.go:123-165 | with a string user claim the reply is 200 with the URL of the target user's picture for the requested extension; otherwise the claim's 401 |
| ImageHandlers.DeleteProfilePictureHandler | backend/internals/handlers/image_handlers.go:177-218 | the caller's own picture key with the requested extension is deleted; a failed delete is 500 with the wrapped S3 message; 200 exactly when the delete succeeds |
| ImageHandlers.GetAndDeleteAgree | backend/internals/handlers/image_handlers.go:145-205 | without user_id, the URL GET returns extracts to the key DELETE removes |
| ImageHandlers.UploadThenGet | backend/internals/handlers/image_handlers.go:81-157 | the URL an upload stores is the one GET returns to the caller for the uploaded file's extension |
| Referral.RunsAreRanges | backend/internals/utils/generate_referal_code.go:6 | the three runs of the alphabet are exactly the letters a-z, the letters A-Z and the digits 0-9 |
| Referral.LowercaseRange | backend/internals/utils/generate_referal_code.go:6 | a character is in the lower-case run exactly when it lies between 'a' and 'z' |
| Referral.UppercaseRange | backend/internals/utils/generate_referal_code.go:6 | a character is in the upper-case run exactly when it lies between 'A' and 'Z' |
| Referral.DigitsRange | backend/internals/utils/generate_referal_code.go:6 | a character is in the digit run exactly when it lies between '0' and '9' |
| Referral.DomainsAreAlphanumerics | backend/internals/utils/generate_referal_code.go:6-11 | the alphabet has 62 characters and holds exactly the ASCII letters and digits |
| Referral.GenerateReferralCode | backend/internals/utils/generate_referal_code.go:9-16 | whatever indices the random source returns, the code is 6 characters long and each is an ASCII letter or digit |
| Cognito.HandleCognitoError | backend/internals/auth/cognito.go:51-87 | no error stays no error; an error carrying none of the mapped SDK exceptions is returned unchanged; one carrying a mapped exception becomes an authentication error, and the user-related ones name the e-mail given |
| Cognito.AuthErrorHasNoException | backend/internals/auth/cognito.go:51-87 | a translated error carries no SDK exception |
| Cognito.HandleCognitoErrorIdempotent | backend/internals/auth/cognito.go:51-87 | translating a translated error changes nothing |
| Cognito.UsernameExistsFirst | backend/internals/auth/cognito.go:66-68 | an error that carries a UsernameExistsException anywhere in its chain becomes UserExists for the e-mail, whatever else it carries |
| Cognito.TranslateException | backend/internals/auth/cognito.go:66-86 | each SDK exception maps to its own error, as the switch lists them (the password message and the parameter message are kept); any other exception is returned unchanged |
| Cognito.CallCognito | backend/internals/auth/cognito.go:126-131 | a failed input check is returned without calling Cognito; a successful call is passed through; a failed one is translated with the e-mail |
| Cognito.Signup | backend/internals/auth/cognito.go:89-132 | an empty e-mail, password or role is the "email, password, and role are required" parameter error; success means all three are present and Cognito's user sub is returned |
| Cognito.Confirm | backend/internals/auth/cognito.go:134-156 | an empty e-mail or code is refused; success exactly when both are present and Cognito succeeds |
| Cognito.Login | backend/internals/auth/cognito.go:158-183 | an empty e-mail or password is refused; success exactly when both are present and Cognito succeeds |
| Cognito.ForgotPassword | backend/internals/auth/cognito.go:185-206 | an empty e-mail is refused; success exactly when it is present and Cognito succeeds |
| Cognito.ResetPassword | backend/internals/auth/cognito.go:208-231 | an empty e-mail, code or new password is refused; success exactly when all are present and Cognito succeeds |
| Cognito.ResendConfirmationCode | backend/internals/auth/cognito.go:314-332 | an empty e-mail is refused; success exactly when it is present and Cognito succeeds |
| Cognito.CheckBeforeRemote | backend/internals/auth/cognito.go:90-95 | when the input check fails, what Cognito would have answered does not matter |
| Cognito.SignupAttributes | backend/internals/auth/cognito.go:97-116 | the attributes are the e-mail and custom:role, followed by phone_number exactly when a phone is given |
| Cognito.GoogleLoginURL | backend/internals/auth/cognito.go:234-240 | the URL is empty exactly when the domain, client id or redirect URI is missing; otherwise it starts with the domain's authorize endpoint and the response type code |
| Cognito.ExchangeGoogleCode | backend/internals/auth/cognito.go:243-312 | an empty code and an incomplete configuration are parameter errors; 400 is an invalid or expired code, 401 invalid credentials; a 200 body with an error is the oauth parameter error; the ID token is returned exactly when the reply is 200 with a body, no error and a non-empty token |
| AuthHandlers.MapError | backend/internals/handlers/auth_handlers.go:108-125 | an error matching none of an endpoint's cases gets the default reply; otherwise the reply is one of the cases' |
| AuthHandlers.MapErrorPicks | backend/internals/handlers/auth_handlers.go:108-125 | the first case in order whose error kind the error carries decides the reply, as in the switch of errors.As tests |
| AuthHandlers.MapErrorAvoids | backend/internals/handlers/auth_handlers.go:108-125 | a status used by no case and not by the default is never replied |
| AuthHandlers.SignupHandler | backend/internals/handlers/auth_handlers.go:29-75 | an unbound body is 400, a role other than admin, recruiter or player is 400 "Invalid role"; the user row (sub, e-mail, role) is created exactly when Cognito's sign-up succeeds; 200 exactly when that row is written |
| AuthHandlers.SignupRolesAreRoles | backend/internals/handlers/auth_handlers.go:37 | the roles signup accepts are exactly the roles of the model |
| AuthHandlers.SignupFailureStatus | backend/internals/handlers/auth_handlers.go:46-63 | a failed Cognito sign-up replies 400, 409, 429 or 500 |
| AuthHandlers.VerifyHandler | backend/internals/handlers/auth_handlers.go:96-128 | an unbound body is 400; 200 exactly when the confirmation succeeds |
| AuthHandlers.ForgotPasswordHandler | backend/internals/handlers/auth_handlers.go:143-169 | an unbound body is 400; 200 exactly when the reset request succeeds |
| AuthHandlers.ResetPasswordHandler | backend/internals/handlers/auth_handlers.go:184-219 | an unbound body is 400; 200 exactly when the password reset succeeds |
| AuthHandlers.LoginHandler | backend/internals/handlers/auth_handlers.go:234-267 | an unbound body is 400; 200 exactly when the login succeeds, and then it carries the ID token |
| AuthHandlers.ResendCodeHandler | backend/internals/handlers/auth_handlers.go:305-331 | an unbound body is 400; 200 exactly when the resend succeeds |
| AuthHandlers.LoginAnswer | backend/internals/handlers/auth_handlers.go:244-262 | a translated Cognito exception gets the reply of the first login case it matches |
| AuthHandlers.VerifyAnswer | backend/internals/handlers/auth_handlers.go:106-123 | a translated Cognito exception gets the reply of the first verify case it matches |
| AuthHandlers.LoginWrongPassword | backend/internals/handlers/auth_handlers.go:250-251 | a NotAuthorizedException is 401 "Invalid email or password" |
| AuthHandlers.LoginUnknownUser | backend/internals/handlers/auth_handlers.go:254-255 | example: a UserNotFoundException is 401 "Invalid email or password" |
| AuthHandlers.LoginHidesUnknownUser | backend/internals/handlers/auth_handlers.go:250-255 | a wrong password and an unknown user get the same reply |
| AuthHandlers.LoginUnconfirmed | backend/internals/handlers/auth_handlers.go:252-253 | example: an unconfirmed account is 403 |
| AuthHandlers.VerifyUnknownUser | backend/internals/handlers/auth_handlers.go:111-112 | verifying an unknown user is 404 "User not found" |
| AuthHandlers.VerifyWrongCode | backend/internals/handlers/auth_handlers.go:113-114 | example: a code mismatch is 400 "Invalid verification code" |
| AuthHandlers.VerifyExpiredCode | backend/internals/handlers/auth_handlers.go:115-116 | example: an expired code is 400 "Verification code has expired" |
| AuthHandlers.GoogleLoginURLHandler | backend/internals/handlers/auth_handlers.go:335-344 | 200 with the hosted login URL exactly when the configuration is complete |
| AuthHandlers.GoogleCallbackHandler | backend/internals/handlers/auth_handlers.go:347-395 | a missing code is 400; a player row (sub, e-mail) is created only when the exchange and the token parse succeed and the user is not found; 200 with the ID token exactly when the exchange and parse succeed and the user exists or is created |
| AuthHandlers.SignInGoogleUser | backend/internals/handlers/auth_handlers.go:370-393 | after a successful exchange: the player row is created only for a user not found; 200 with the ID token exactly when the parse succeeds and the user exists or is created |
| AuthMiddleware.CheckClaims | backend/internals/middleware/auth.go:168-209 | the claims are accepted unchanged exactly when no numeric exp lies before now, no numeric nbf or iat after now, and no string aud, iss or token_use differs from the client id, the pool's issuer and "id"; an expired token is "token has expired" |
| AuthMiddleware.NoClaimsAccepted | backend/internals/middleware/auth.go:168-209 | a token with none of the checked claims passes every check |
| AuthMiddleware.DroppingClaimKeepsAccepted | backend/internals/middleware/auth.go:168-209 | removing a claim from accepted claims keeps them accepted, since each check applies only when its claim is present |
| AuthMiddleware.AcceptedUntilExpiry | backend/internals/middleware/auth.go:171-187 | accepted claims stay accepted at any later time that is not past their expiry |
| AuthMiddleware.Authenticate | backend/internals/middleware/auth.go:212-277 | an empty header, a header without "Bearer " and a bare "Bearer " are each 401 with their own message; every abort is 401; the request proceeds only with a token that parses and passes the claim checks, carrying its string email, sub and custom:role |
| AuthMiddleware.AuthenticateAccepts | backend/internals/middleware/auth.go:229-276 | a bearer token that parses, passes the checks and has string email, sub and custom:role proceeds with exactly those three |
| AuthMiddleware.InvalidTokenSameMessage | backend/internals/middleware/auth.go:238-244 | every failed claim check gives the same 401 "Invalid token" |
| AuthMiddleware.IndexOfKid | backend/internals/middleware/auth.go:80-92 | the index is that of the first key with the kid, or the length when none has it |
| AuthMiddleware.KeyCache.GetPublicKey | backend/internals/middleware/auth.go:67-96 | a cached key is returned without fetching; a failed fetch, a missing kid and a failed decode leave the cache as it was; the first key with the kid is decoded and cached under it; no cached key is ever changed |
| OpeningRepo.PresentArgs | backend/internals/db/repositories/opening_repository.go:659-729 | a filter contributes at most one argument per field |
| OpeningRepo.Range | backend/internals/db/repositories/opening_repository.go:651-746 | the consecutive placeholder numbers from the first up to, not including, the last |
| OpeningRepo.PlaceholdersAppend | backend/internals/db/repositories/opening_repository.go:659-739 | the placeholders of two lists of conditions are those of the first followed by those of the second |
| OpeningRepo.FieldPlaceholders | backend/internals/db/repositories/opening_repository.go:659-729 | the present fields add one condition each, and their placeholders are numbered consecutively from the first index, one per argument |
| OpeningRepo.FieldArgsMatch | backend/internals/db/repositories/opening_repository.go:659-729 | every field condition compares its own field with the argument that its placeholder designates |
| OpeningRepo.WhereClause | backend/internals/db/repositories/opening_repository.go:743-745 | WHERE appears exactly when there is a condition |
| OpeningRepo.ConditionTexts | backend/internals/db/repositories/opening_repository.go:743-745 | one SQL text per condition |
| OpeningRepo.AddFieldCondition | backend/internals/db/repositories/opening_repository.go:659-663 | adding one field's condition keeps the conditions, arguments and index built so far in step with the fields seen |
| OpeningRepo.FieldStep | backend/internals/db/repositories/opening_repository.go:659-729 | one more field adds a condition numbered after the arguments so far and its argument exactly when the field is present |
| OpeningRepo.AddSportAndAgeConditions | backend/internals/db/repositories/opening_repository.go:659-681 | the sport, status and age fields are added in that order, as the fixed order requires |
| OpeningRepo.AddSalaryAndCountryConditions | backend/internals/db/repositories/opening_repository.go:683-705 | the salary, country-restriction and country fields are added in that order |
| OpeningRepo.AddPlaceConditions | backend/internals/db/repositories/opening_repository.go:707-729 | the state, city, company-name and position fields are added in that order |
| OpeningRepo.BuildFilterQuery | backend/internals/db/repositories/opening_repository.go:619-749 | an applied filter without a player is the authentication validation error, and otherwise the query is built; the arguments are the player (if any), the present fields in order, then limit and offset; field placeholders start after the player; LIMIT and OFFSET take the last two |
| OpeningRepo.RangeConcat | backend/internals/db/repositories/opening_repository.go:651-746 | adjacent ranges of placeholder numbers join into one |
| OpeningRepo.ConditionPlaceholders | backend/internals/db/repositories/opening_repository.go:659-739 | the applied condition takes no placeholder, so the placeholders of all conditions are those of the fields |
| OpeningRepo.RangeOfOne | backend/internals/db/repositories/opening_repository.go:654-656 | the range of one number is that number |
| OpeningRepo.RangeOfTwo | backend/internals/db/repositories/opening_repository.go:746 | the range of two numbers is those numbers, LIMIT's and OFFSET's |
| OpeningRepo.PlaceholdersConsecutive | backend/internals/db/repositories/opening_repository.go:651-749 | the query uses every placeholder $1 to $n exactly once and in order, n being the number of arguments |
| OpeningRepo.PlaceholdersMatchArgs | backend/internals/db/repositories/opening_repository.go:651-749 | every placeholder of a field condition designates an argument holding that field's value, and the last two arguments are limit and offset |
| OpeningRepo.ConditionCount | backend/internals/db/repositories/opening_repository.go:659-739 | there is one condition per present field, plus one when applied is set |
| OpeningRepo.NormalizeSportName | backend/internals/db/repositories/opening_repository.go:31-35 | a blank name is the "Sport name cannot be empty" validation error; otherwise the name trimmed of white space and lower-cased, never empty |
| OpeningRepo.NormalizeSportNameIdempotent | backend/internals/db/repositories/opening_repository.go:31-35 | normalising a normalised name changes nothing |
| OpeningRepo.CreateOpeningAsWritten | backend/internals/db/repositories/opening_repository.go:14-78 | as written: a failed begin fails with nothing kept; otherwise the result is that of the steps, and the transaction commits exactly when no step's error reached the deferred handler and the commit succeeded |
| OpeningRepo.CommitFailureReportedAsSuccess | backend/internals/db/repositories/opening_repository.go:19-77 | as written, a failed commit still returns the new opening's id although nothing is kept |
| OpeningRepo.MarshalFailureCommits | backend/internals/db/repositories/opening_repository.go:62-66 | as written, a failed stats marshal returns an error while the address already inserted is committed |
| OpeningRepo.CreateOpening | backend/internals/db/repositories/opening_repository.go:14-78 | corrected: the id is returned exactly when the transaction commits, a failure keeps nothing, a success has inserted the opening and needs a non-blank sport name |
| OpeningRepo.CreateOpeningAgrees | backend/internals/db/repositories/opening_repository.go:14-78 | when neither the marshal nor the commit fails, the corrected and the written transaction return the same result |
| OpeningRepo.SportIndex | backend/internals/db/repositories/opening_repository.go:40 | the SELECT on "Sports" finds the first row with the name, or none: no earlier row has it |
| OpeningRepo.TableLookup | backend/internals/db/repositories/opening_repository.go:40-50 | over a table the SELECT never fails, finds no rows exactly when no row has the name, and otherwise that row's id |
| OpeningRepo.LookupOrInsert | backend/internals/db/repositories/opening_repository.go:40-50 | the table only grows, by one row exactly when no row had the name, and afterwards a lookup of the name finds the returned id |
| OpeningRepo.SportIndexAppend | backend/internals/db/repositories/opening_repository.go:40 | appending a row keeps every row already found, and finds the new one only when no earlier row has the name |
| OpeningRepo.LookupOrInsertIdempotent | backend/internals/db/repositories/opening_repository.go:40-50 | a second lookup-or-insert of the same name returns the same id and inserts nothing |
| OpeningRepo.CreateOpeningSport | backend/internals/db/repositories/opening_repository.go:31-50 | a blank name is refused, and any other is looked up or inserted under its trimmed lower-cased form |
| OpeningRepo.CreateStepsOverTable | backend/internals/db/repositories/opening_repository.go:31-50 | over a real table, CreateOpening writes a sport row exactly when the normalised name is new to it |
| OpeningRepo.UpdateSportName | backend/internals/db/repositories/opening_repository.go:97-108 | UpdateOpening looks up or inserts the sport under the name exactly as given; a failed SELECT is the query error, and a failed INSERT of a new name the insert error |
| OpeningRepo.CreateAndUpdateNamesDiffer | backend/internals/db/repositories/opening_repository.go:31-98 | a name with leading white space is normalised on create to a string other than the raw name the update looks up |
| OpeningRepo.CreateThenUpdateAddsSport | backend/internals/db/repositories/opening_repository.go:31-108 | after CreateOpening stores such a name, UpdateOpening with the same name inserts a second sport row under the raw name, exactly when the table had none, and moves the opening to it |
| OpeningHandlers.PageParams | backend/internals/handlers/opening_handlers.go:505-518 | the page is accepted exactly when limit (default 10) parses to a positive number and offset (default 0) to a non-negative one, with those values; otherwise 400 for the limit first, then the offset |
| OpeningHandlers.PageDefaults | backend/internals/handlers/opening_handlers.go:505-518 | no parameters mean limit 10, offset 0 |
| OpeningHandlers.PlayerFor | backend/internals/handlers/opening_handlers.go:803-809 | the player id passed to the queries is the caller's exactly when it is non-empty and the role is "player" |
| OpeningHandlers.NonNegativeParam | backend/internals/handlers/opening_handlers.go:728-762 | an empty parameter is no filter; otherwise it must parse to a non-negative number, else 400 "Invalid <name> parameter" |
| OpeningHandlers.TextParam | backend/internals/handlers/opening_handlers.go:715-786 | an empty text parameter leaves the filter field unset; otherwise it is the parameter |
| OpeningHandlers.ParseFilter | backend/internals/handlers/opening_handlers.go:694-800 | the filter is refused exactly when the status is not open or closed, a number parameter is invalid, or applied is not empty, "true" or "false"; an accepted filter holds exactly the parameters given |
| OpeningHandlers.CreateOpeningHandler | backend/internals/handlers/opening_handlers.go:147-205 | no caller is 401, an unbound body 400, a status other than open or closed 400; the opening is created exactly when all three pass; 201 exactly when the create succeeds and the new opening is read back |
| OpeningHandlers.OwnedOpening | backend/internals/handlers/opening_handlers.go:227-253 | the guard passes exactly for an authenticated caller, a non-empty id and an opening whose recruiter is the caller; another recruiter's opening is 403 |
| OpeningHandlers.UpdateOpeningHandler | backend/internals/handlers/opening_handlers.go:224-327 | an update is written exactly for the owner with a valid body and status; it keeps the opening id, the recruiter, the address id and the address row id, and takes the new status and sport name; a failed update is its error reply; 200 exactly when the update succeeds and the re-read succeeds |
| OpeningHandlers.DeleteOpeningHandler | backend/internals/handlers/opening_handlers.go:329-384 | the delete is attempted exactly for the owner; 200 exactly when it succeeds |
| OpeningHandlers.UpdateOpeningStatusHandler | backend/internals/handlers/opening_handlers.go:386-458 | the status is written exactly for the owner with a valid status, and it is the status sent; a failed update is its error reply, as is a failed re-read after it; 200 exactly when the checks pass, the update succeeds and the re-read succeeds |
| OpeningHandlers.OnlyOwnersChangeOpenings | backend/internals/handlers/opening_handlers.go:249-414 | update, delete and status change touch only an existing opening of the caller, and a status change writes only open or closed |
| OpeningRepo.CreateSteps | backend/internals/db/repositories/opening_repository.go:14-78 | the steps yield the opening id exactly when the name normalises, the sport is found or inserted, the address is inserted, the details marshal and the opening is inserted; the id is the opening insert's; a sport row is written exactly when the lookup finds no row and the insert succeeds |
| ApplicationRepo.ValidStatuses | backend/internals/db/repositories/application_repository.go:12-20 | the valid statuses are exactly pending, accepted, rejected and withdrawn, case included |
| ApplicationRepo.CheckNewApplication | backend/internals/db/repositories/application_repository.go:45-63 | a missing application, then a blank player id, then a blank opening id are validation errors; an empty status becomes pending; any other status must be valid; an accepted application keeps its ids |
| ApplicationRepo.CheckStatusPage | backend/internals/db/repositories/application_repository.go:295-305 | the listing by status is allowed exactly for a valid status, a positive limit and a non-negative offset; the limit is checked before the offset |
| ApplicationRepo.CheckPairLookup | backend/internals/db/repositories/application_repository.go:137-142 | both ids are trimmed and must be non-empty, else the one combined validation error |
| ApplicationRepo.ApplicationStore.CheckApplicationExists | backend/internals/db/repositories/application_repository.go:23-43 | blank player id, then blank opening id, are validation errors; otherwise the answer is whether an application of that pair exists |
| ApplicationRepo.ApplicationStore.CreateApplication | backend/internals/db/repositories/application_repository.go:45-108 | a refused application, an existing pair and any failure leave the table unchanged, an existing pair giving the already-exists error; a failed begin is "begin transaction", a failed commit "commit transaction", and a failed insert that is a unique violation on either column the already-exists error, any other "insert"; success exactly when nothing fails and the id is new, and then exactly one row with the new id, the ids and the checked status is added |
| ApplicationRepo.InsertError | backend/internals/db/repositories/application_repository.go:94-99 | an INSERT failure is the already-exists error for the pair exactly when it is a unique violation naming player_id or opening_id, and a database error of the insert otherwise |
| ApplicationRepo.InsertRaceIsConflict | backend/internals/db/repositories/application_repository.go:94-99 | a pair inserted concurrently after the existence check reaches the client as 409 |
| ApplicationRepo.ApplicationStore.GetApplicationByID | backend/internals/db/repositories/application_repository.go:110-135 | a blank id is a validation error; a known id gives its row, an unknown one not-found |
| ApplicationRepo.ApplicationStore.GetApplicationByPlayerAndOpening | backend/internals/db/repositories/application_repository.go:137-162 | after the trim check, the row of that player and opening is returned exactly when one exists, else not-found naming the opening id |
| ApplicationRepo.ApplicationStore.UpdateApplicationStatus | backend/internals/db/repositories/application_repository.go:199-230 | a blank id, an invalid status, a failed statement and an unknown id leave the table unchanged; otherwise only that row's status changes |
| ApplicationRepo.ApplicationStore.DeleteApplication | backend/internals/db/repositories/application_repository.go:232-257 | a blank id, a failed statement and an unknown id leave the table unchanged; otherwise exactly that row is removed |
| ApplicationHandlers.CreateApplicationHandler | backend/internals/handlers/application_handeler.go:103-150 | no caller is 401, a non-player 403; the application submitted is the caller's, for the path's opening, pending, exactly when the caller is a player and the opening id is present; 201 exactly when it is created and read back |
| ApplicationHandlers.SubmittedApplicationIsValid | backend/internals/handlers/application_handeler.go:125-130 | what the handler submits passes the repository's checks unchanged |
| ApplicationHandlers.GetApplicantsHandler | backend/internals/handlers/application_handeler.go:167-233 | the applicants are listed exactly for a recruiter who owns the opening; another recruiter's opening is 403 |
| ApplicationHandlers.GetApplicationsByPlayerHandler | backend/internals/handlers/application_handeler.go:235-282 | only a player lists applications, and only their own |
| ApplicationHandlers.StatusGuards | backend/internals/handlers/application_handeler.go:329-394 | the guards pass only for the required role, both ids present, a UUID applicant id and an application found that is not withdrawn; a recruiter must own the opening, a player the application; a withdrawn application is 400 |
| ApplicationHandlers.Finish | backend/internals/handlers/application_handeler.go:396-411 | one more reply is written after those already written; the status update is made exactly when it does not fail |
| ApplicationHandlers.UpdateStatusAsWritten | backend/internals/handlers/application_handeler.go:329-412 | as written: a status update is made only after the guards pass and the update does not fail |
| ApplicationHandlers.UpdateStatus | backend/internals/handlers/application_handeler.go:329-412 | corrected: exactly one reply; the update is made exactly when the guards pass, the action is not a player action other than withdraw, and it does not fail; it writes the action's status on a non-withdrawn application; 200 exactly when the update is made and the re-read succeeds |
| ApplicationHandlers.ToHTTPErrorNot200 | backend/internals/handlers/application_handeler.go:396-409 | a failed update or re-read never replies 200 |
| ApplicationHandlers.PlayerActionUpdatesDespite403 | backend/internals/handlers/application_handeler.go:390-393 | as written, a player action other than withdraw replies 403 and still updates the status |
| ApplicationHandlers.PlayerActionRefused | backend/internals/handlers/application_handeler.go:390-393 | corrected, such an action replies 403 and updates nothing |
| ApplicationHandlers.RegisteredActionsAgree | backend/internals/handlers/application_handeler.go:284-326 | for accept, reject and withdraw, the three registered actions, the written and the corrected handler behave the same |
| ApplicationHandlers.WithdrawnIsTerminal | backend/internals/handlers/application_handeler.go:329-394 | no registered action updates a withdrawn application; accept and reject need the opening's owner, withdraw the application's player |
| CommentRepo.Utf8Width | backend/internals/db/repositories/comment_repository.go:23 | a character takes one to four bytes in UTF-8 |
| CommentRepo.ByteLength | backend/internals/db/repositories/comment_repository.go:23 | the byte length of a string lies between its character count and four times it |
| CommentRepo.CheckNewComment | backend/internals/db/repositories/comment_repository.go:19-25 | a comment is accepted exactly when the user, post and content are non-empty and the content is at most 500 bytes; an empty field is reported first |
| CommentRepo.AsciiLengthIsByteLength | backend/internals/db/repositories/comment_repository.go:23 | for ASCII content the 500 limit counts characters |
| CommentRepo.TopLevel | backend/internals/db/repositories/comment_repository.go:104-113 | the top-level comments are exactly those without a parent, in order |
| CommentRepo.RepliesTo | backend/internals/db/repositories/comment_repository.go:104-109 | the replies of a comment are exactly the comments whose parent it is, in order |
| CommentRepo.OfPost | backend/internals/db/repositories/comment_repository.go:62-66 | the comments of a post are exactly those with its post id |
| CommentRepo.ThreadsFollowTopLevel | backend/internals/db/repositories/comment_repository.go:117-141 | there is one thread per top-level comment, in the same order |
| CommentRepo.LastReplyIsLatest | backend/internals/db/repositories/comment_repository.go:134-136 | the reply shown is the last reply in creation order: no later row replies to the same comment |
| CommentRepo.ThreadShape | backend/internals/db/repositories/comment_repository.go:117-141 | a thread holds its comment, the total number of its replies, and at most one reply, present exactly when there is any |
| CommentRepo.Paginate | backend/internals/db/repositories/comment_repository.go:145-159 | an offset past the end gives an empty page; a positive limit gives the slice from the offset, at most limit long; a limit of zero or less returns everything; only a negative offset with a positive limit fails (the slice would panic) |
| CommentRepo.SqlPage | backend/internals/db/repositories/comment_repository.go:210-218 | SQL LIMIT and OFFSET with non-negative values give the rows from the offset, at most limit of them |
| CommentRepo.RepliesStep | backend/internals/db/repositories/comment_repository.go:104-109 | one more row adds itself to the replies of its parent only |
| CommentRepo.GroupStep | backend/internals/db/repositories/comment_repository.go:104-109 | adding one more row to the reply map keeps every comment's replies in order |
| CommentRepo.GroupReplies | backend/internals/db/repositories/comment_repository.go:78-113 | the loop keeps every row and groups every reply under its parent, in creation order |
| CommentRepo.ThreadFor | backend/internals/db/repositories/comment_repository.go:117-141 | the response built for a top-level comment is its thread |
| CommentRepo.BuildThreads | backend/internals/db/repositories/comment_repository.go:78-141 | the responses are the threads of the top-level comments, in order |
| CommentRepo.RemoveKeepsValid | backend/internals/db/repositories/comment_repository.go:305-333 | removing a comment keeps the ids unique and leaves none with its id |
| CommentRepo.CommentStore.IndexOf | backend/internals/db/repositories/comment_repository.go:172-186 | the position of the comment with that id, or the count when there is none |
| CommentRepo.CommentStore.CreateComment | backend/internals/db/repositories/comment_repository.go:11-53 | a refused comment, a missing parent (not-found) and a parent that is a reply ("Cannot reply to a reply comment") leave the table unchanged; otherwise exactly the new comment is appended |
| CommentRepo.CommentStore.GetCommentsByPostId | backend/internals/db/repositories/comment_repository.go:55-160 | an empty post id is a validation error; otherwise the page of the post's threads, or the slice panic |
| CommentRepo.CommentStore.GetCommentById | backend/internals/db/repositories/comment_repository.go:162-266 | an empty id is a validation error, a failed query its database error, an unknown id not-found; a known id with no query failure and non-negative paging is found, with its total reply count and, when it has replies, the SQL page of them, the reply count being the page's length |
| CommentRepo.CommentStore.UpdateComment | backend/internals/db/repositories/comment_repository.go:268-303 | an empty id or content is refused; then the first failing step decides the error, as StepError gives it; every error leaves the table unchanged; otherwise only that comment's content changes |
| CommentRepo.CommentStore.DeleteComment | backend/internals/db/repositories/comment_repository.go:305-333 | an empty id is refused; then the first failing step decides the error, as StepError gives it; every error leaves the table unchanged; otherwise exactly that comment is removed |
| CommentRepo.StepError | backend/internals/db/repositories/comment_repository.go:273-303 | no error exactly when no step fails and the row exists; a failed begin is "begin_transaction", a failed statement or rows-affected read the statement's own label, zero rows not-found, and a failed commit ("commit", "transaction"), checked in that order |
| CommentRepo.IndexIn | backend/internals/db/repositories/comment_repository.go:268-333 | the position of the first comment with that id, or the count when there is none |
| CommentRepo.PageIsTopLevel | backend/internals/db/repositories/comment_repository.go:117-159 | with a non-negative offset the post's page never panics and holds only top-level comments of the post |
| CommentHandlers.CommentLimit | backend/internals/handlers/comment_handlers.go:79-85 | the limit is the parameter when it parses into 1..50, else 10 |
| CommentHandlers.ReplyLimit | backend/internals/handlers/comment_handlers.go:128-134 | the reply limit is the parameter when it parses into 0..50, else 10 |
| CommentHandlers.Offset | backend/internals/handlers/comment_handlers.go:87-139 | an offset is the parameter when it parses to a non-negative number, else 0 |
| CommentHandlers.ZeroLimits | backend/internals/handlers/comment_handlers.go:83-132 | a limit of 0 becomes 10 but a reply limit of 0 stays 0 |
| CommentHandlers.GetCommentsHandler | backend/internals/handlers/comment_handlers.go:69-108 | an empty post id is the validation reply; otherwise the clamped page is asked for; 200 exactly when it is found, and a failure is its error reply |
| CommentHandlers.CommentPagesNeverPanic | backend/internals/handlers/comment_handlers.go:79-93 | the clamped parameters never make the repository's slice panic, and a page holds at most 50 threads |
| CommentHandlers.GetCommentHandler | backend/internals/handlers/comment_handlers.go:118-150 | an empty comment id is the validation reply; otherwise the clamped reply page is asked for; 200 exactly when the comment is found; a failure is its error reply, an unknown comment 404 "comment with ID '<id>' not found" |
| CommentHandlers.ReplyPageBounded | backend/internals/handlers/comment_handlers.go:128-142 | a comment read through the handler carries at most 50 replies, and its reply count is their number |
| CommentHandlers.CreateCommentHandler | backend/internals/handlers/comment_handlers.go:29-54 | no caller is 401, an unbound body 400; the comment created is the caller's, with the body's post, content and parent; 201 exactly when it is created |
| CommentHandlers.OwnedComment | backend/internals/handlers/comment_handlers.go:169-203 | the guard passes exactly for an authenticated caller, a non-empty id, a valid body and a comment whose author is the caller; another author's comment is 403 |
| CommentHandlers.UpdateCommentHandler | backend/internals/handlers/comment_handlers.go:169-230 | the content is updated exactly for the comment's author with non-empty content, and to that content; 200 exactly when the update succeeds |
| CommentHandlers.DeleteCommentHandler | backend/internals/handlers/comment_handlers.go:232-273 | the delete is attempted exactly for the comment's author; 200 exactly when it succeeds |
| CommentHandlers.OwnershipLookupReadsNoReplies | backend/internals/handlers/comment_handlers.go:192 | the ownership lookup asks for a page of zero replies and gets none |
| SAddressRepo.FirstBlankAt | backend/internals/db/repositories/saddress_repository.go:17-34 | the position of the first blank field, every earlier one being filled |
| SAddressRepo.FirstBlank | backend/internals/db/repositories/saddress_repository.go:17-34 | no error exactly when no field is blank; otherwise the validation error of the first blank field |
| SAddressRepo.CheckCreate | backend/internals/db/repositories/saddress_repository.go:12-34 | a missing address is refused; an address is accepted exactly when country, state, city, street, building and postal code are all filled |
| SAddressRepo.CheckUpdate | backend/internals/db/repositories/saddress_repository.go:99-124 | a missing address and then a blank id are refused; otherwise the same checks as create |
| SAddressRepo.UpdateChecksAsCreate | backend/internals/db/repositories/saddress_repository.go:107-124 | with an id, update checks the fields exactly as create does |
| SAddressRepo.CountryFirst | backend/internals/db/repositories/saddress_repository.go:17-19 | a blank country is reported whatever else is blank |
| SAddressRepo.PostalCodeLast | backend/internals/db/repositories/saddress_repository.go:32-34 | the postal code is reported only when every other field is filled |
| SAddressRepo.CheckPage | backend/internals/db/repositories/saddress_repository.go:212-219 | the listing is allowed exactly for a positive limit and a non-negative offset; the limit is checked first |
| SAddressRepo.NewestFirst | backend/internals/db/repositories/saddress_repository.go:224 | the addresses in reverse creation order |
| SAddressRepo.IndexIn | backend/internals/db/repositories/saddress_repository.go:70-200 | the position of the first address with that id, or the count when there is none |
| SAddressRepo.RemoveKeepsUnique | backend/internals/db/repositories/saddress_repository.go:170-202 | removing an address keeps the ids unique and leaves none with its id |
| SAddressRepo.SAddressStore.CreateSAddress | backend/internals/db/repositories/saddress_repository.go:12-68 | a refused address is its error; a failed begin is "begin transaction", a failed insert "insert", a failed commit "commit transaction"; every failure leaves the table unchanged; otherwise the address is appended with the new id |
| SAddressRepo.SAddressStore.GetSAddressByID | backend/internals/db/repositories/saddress_repository.go:70-97 | a blank id is a validation error; a known id gives its address, an unknown one not-found |
| SAddressRepo.SAddressStore.UpdateSAddress | backend/internals/db/repositories/saddress_repository.go:99-168 | a refused address is its error; then the first failing step decides the error, as StepError gives it; every error leaves the table unchanged; otherwise only that address is replaced |
| SAddressRepo.SAddressStore.DeleteSAddress | backend/internals/db/repositories/saddress_repository.go:170-210 | a blank id is refused; then the first failing step decides the error, as StepError gives it; every error leaves the table unchanged; otherwise exactly that address is removed |
| SAddressRepo.StepError | backend/internals/db/repositories/saddress_repository.go:126-168 | no error exactly when no step fails and the row exists; a failed begin is "begin transaction", a failed statement its own label, a failed rows-affected read "check rows affected", zero rows not-found, and a failed commit "commit transaction", checked in that order |
| SAddressRepo.SAddressStore.ListSAddresses | backend/internals/db/repositories/saddress_repository.go:212-250 | a bad limit or offset is refused; otherwise the page from the offset, at most limit long, of the addresses newest first |
| CommentHandlers.BindCreate | backend/internals/model/comment_model.go:20-24 | the body binds exactly when it is present with a non-empty post id and content, and is then kept as sent |
| UserProfileRepo.CheckProfile | backend/internals/db/repositories/user_profile_repoitory.go:13-33 | a value that is not a player or recruiter profile is the profile-type validation error, an empty user id the missing-user-id error; otherwise the profile is accepted as given |
| UserProfileRepo.Referrer | backend/internals/db/repositories/user_profile_repoitory.go:360 | a code has a referrer exactly when some user's details carry it, and that user's code is the one given |
| UserProfileRepo.Reward | backend/internals/db/repositories/user_profile_repoitory.go:375-386 | a failed Meta read is a database error, a missing referal_reward row not-found; the reward is read exactly when the row exists and parses as an integer, and is that integer |
| UserProfileRepo.Referred | backend/internals/db/repositories/user_profile_repoitory.go:367-388 | the referred user's referred_by names the referrer and the referrer's coins grow by the reward; no other row and no profile detail changes |
| UserProfileRepo.ReferrerIsUnique | backend/internals/db/repositories/user_profile_repoitory.go:360 | with referral codes unique, the user whose details carry a code is its referrer |
| UserProfileRepo.ReferredKeepsCodes | backend/internals/db/repositories/user_profile_repoitory.go:367-388 | recording a referral keeps referral codes unique |
| UserProfileRepo.ReferGuards | backend/internals/db/repositories/user_profile_repoitory.go:346-389 | the referral goes through exactly when no statement fails, the code belongs to a user, the referred user exists and the reward is readable; an unknown code is not-found naming the code, an unknown user not-found naming the user, a failed coin update a database error |
| UserProfileRepo.ReferUserAsWritten | backend/internals/db/repositories/user_profile_repoitory.go:346-389 | as written: an error leaves the table as it was; no error is reported exactly when the begin, the referrer lookup and the referred_by update succeed, the code is known and the reward reads, so a failing coin update or commit is reported as success while nothing is written |
| UserProfileRepo.ReferralOutcome | backend/internals/db/repositories/user_profile_repoitory.go:346-389 | corrected: an error leaves the table as it was; no error exactly when the guards pass; no profile detail ever changes |
| UserProfileRepo.ReferralRewardLost | backend/internals/db/repositories/user_profile_repoitory.go:352-389 | as written, a failed coin update rolls the referral back yet reports success; corrected, it reports the update error |
| UserProfileRepo.UnknownUserStillPaysReferrer | backend/internals/db/repositories/user_profile_repoitory.go:367-388 | as written, an unknown referred user (the UPDATE touches no row, which is not ErrNoRows) still pays the referrer and reports success; corrected, it is not-found |
| UserProfileRepo.ReferUserAgreesWithoutFault | backend/internals/db/repositories/user_profile_repoitory.go:346-389 | for an existing user and no failing statement the written and corrected referral agree |
| UserProfileRepo.UpdateGuards | backend/internals/db/repositories/user_profile_repoitory.go:167-207 | a refused profile keeps its error, an unknown user is not-found; the update goes ahead exactly when the profile is accepted, no statement fails and the user exists |
| UserProfileRepo.ReferredKeepsConsistent | backend/internals/db/repositories/user_profile_repoitory.go:367-388 | recording a referral keeps every profile table consistent with the users' roles |
| UserProfileRepo.InsertKeepsConsistent | backend/internals/db/repositories/user_profile_repoitory.go:70-95 | inserting the details and the role's row of a new profile keeps the tables consistent |
| UserProfileRepo.UpdateKeepsConsistent | backend/internals/db/repositories/user_profile_repoitory.go:209-237 | updating the details (keeping the referral code) and the role's row keeps the tables consistent |
| UserProfileRepo.UserProfileStore.GetUserProfile | backend/internals/db/repositories/user_profile_repoitory.go:106-165 | a failed role read is a database error and an unknown user not-found; a found profile has the user's id, role, details and role row; an admin is the invalid-role validation error; a player without a player row is not-found |
| UserProfileRepo.UserProfileStore.CreateUserProfile | backend/internals/db/repositories/user_profile_repoitory.go:13-104 | a refused profile, an unknown user (not-found), a role mismatch (authorization error), existing details (already-exists) and any failing statement leave every table unchanged; otherwise exactly the details (no referrer, 0 coins) and the role's row are inserted, and reading the profile back gives it |
| UserProfileRepo.UserProfileStore.UpdateProfile | backend/internals/db/repositories/user_profile_repoitory.go:167-246 | a refused update leaves every table unchanged; otherwise the user's details are replaced except the referral code, and the row of the profile's role is replaced where it exists |
| UserProfileRepo.UserProfileStore.WriteReferral | backend/internals/db/repositories/user_profile_repoitory.go:367-388 | the two referral updates give the referred table, and no profile as read changes |
| UserProfileRepo.UserProfileStore.FindReferrer | backend/internals/db/repositories/user_profile_repoitory.go:360 | the search finds the referrer of the code |
| UserProfileRepo.UserProfileStore.ReferUser | backend/internals/db/repositories/user_profile_repoitory.go:346-390 | the corrected referral: its error and the new details table are the referral outcome; nothing else changes and no profile as read changes |
| UserProfileRepo.ProfilesAreReadable | backend/internals/db/repositories/user_profile_repoitory.go:106-165 | in a consistent store every user with details has a readable profile of the user's role |
| UserRegistration.IsValidLevel | backend/internals/handlers/user_registration_handlers.go:606-613 | a level is valid exactly when it is the name of one of the five levels |
| UserRegistration.ParseLevel | backend/internals/handlers/user_registration_handlers.go:186-204 | a level is accepted exactly when its lower-cased form is valid, and it is stored lower-cased |
| UserRegistration.ParseGender | backend/internals/handlers/user_registration_handlers.go:116-122 | a gender is accepted exactly when its lower-cased form is male, female, other or rather_not_say, and it is stored lower-cased |
| UserRegistration.GenderIgnoresCase | backend/internals/handlers/user_registration_handlers.go:116 | "MALE" is accepted as "male" |
| UserRegistration.CreatorRole | backend/internals/handlers/user_registration_handlers.go:92-114 | no role claim is 401; only player and recruiter may create a profile, admin and anything else being 400 |
| UserRegistration.DrawFrom | backend/internals/handlers/user_registration_handlers.go:139-150 | the code drawn is the first candidate found free, every earlier one being taken; a failing check stops the draw with its error; the draw runs out exactly when every candidate is taken |
| UserRegistration.DrawReferralCode | backend/internals/handlers/user_registration_handlers.go:139-150 | the loop draws exactly what the specification of the draw says |
| UserRegistration.AnsweredIsNotExhausted | backend/internals/handlers/user_registration_handlers.go:142-150 | when some candidate is free or its check fails, the loop ends before the candidates run out |
| UserRegistration.NewProfile | backend/internals/handlers/user_registration_handlers.go:183-225 | a player needs a level and an interest level, both valid, stored lower-cased; a recruiter needs the organization name, id and phone; each gets the new details with the drawn code; an admin gets no profile |
| UserRegistration.NewPlayer | backend/internals/handlers/user_registration_handlers.go:185-206 | the player profile is built exactly when both levels are present and valid |
| UserRegistration.NewRecruiter | backend/internals/handlers/user_registration_handlers.go:208-225 | the recruiter profile is built exactly when organization name, id and phone are present |
| UserRegistration.CreateChecks | backend/internals/handlers/user_registration_handlers.go:73-137 | an unbound body is 400; the checks pass exactly for a bound body, an authenticated user, a player or recruiter role, a valid gender and a referral code that is absent or known; an unknown code is 400 "Referal code does not exist" |
| UserRegistration.CreatePlan | backend/internals/handlers/user_registration_handlers.go:73-225 | a profile is planned only after the checks, a drawn fresh code and a free username; it is the role's profile with the drawn code; a taken username is 400 |
| UserRegistration.AdminNeverPlanned | backend/internals/handlers/user_registration_handlers.go:101-114 | an admin never gets a profile: the reply is the invalid-role 400 |
| UserRegistration.CreateProfileHandler | backend/internals/handlers/user_registration_handlers.go:73-263 | corrected: the referral step is the corrected ReferralOutcome, so a failed coin update sets "Failed to refer user" where the program as written reports nothing; a refused plan is its reply with the store unchanged; 201 exactly when the planned profile can be created (the user exists with that role, has no details row, the code is free and nothing fails); then the details gain the profile's row, the player or recruiter table its info, and a named referral code is recorded as ReferralOutcome says, a failed referral only setting "Failed to refer user"; users and meta never change |
| UserRegistration.PlanProfile | backend/internals/handlers/user_registration_handlers.go:73-225 | the handler's steps compute exactly the planned profile |
| UserRegistration.StoreProfile | backend/internals/handlers/user_registration_handlers.go:227-249 | corrected: the referral is recorded by the corrected ReferralOutcome, so a failed coin update is reported where the program as written reports nothing; 201 exactly when the profile can be created; a non-201 changes no table; a 201 stores the profile so that it reads back, adds its details row and its player or recruiter info, and records a named referral code as ReferralOutcome says, a referral failure not undoing the 201 |
| UserRegistration.GetProfileHandler | backend/internals/handlers/user_registration_handlers.go:265-287 | an empty id is 400; the profile found is returned with 200, a failure mapped to its reply |
| UserRegistration.GetMyProfileHandler | backend/internals/handlers/user_registration_handlers.go:300-345 | no e-mail claim is 401; the profile of the user with the caller's e-mail is returned exactly when both lookups succeed |
| UserRegistration.MergeDetails | backend/internals/handlers/user_registration_handlers.go:400-480 | each non-empty field sent replaces the stored one; the username and the referral code are kept |
| UserRegistration.MergeProfile | backend/internals/handlers/user_registration_handlers.go:397-492 | an unknown profile type is 500; the merged profile keeps the id and role; a recruiter's non-empty fields replace its own; a player's update fails exactly when a level sent is invalid, and its levels are stored lower-cased |
| UserRegistration.MergeProfileLaws | backend/internals/handlers/user_registration_handlers.go:397-492 | an empty update changes nothing, and applying the same update twice is applying it once |
| UserRegistration.UpdateProfileHandler | backend/internals/handlers/user_registration_handlers.go:347-506 | no e-mail is 401, a failed user lookup 500, a missing body 400, a failed profile read its error reply, an invalid gender 400, an unknown profile type 500; a request that passes these checks and merges writes exactly the merge of the stored profile with it, and a refused merge is its own reply; a failed write is its error reply; 200 exactly when it is written |
| UserRegistration.MergedPassesCheck | backend/internals/handlers/user_registration_handlers.go:397-500 | a merged profile passes the repository's profile check |
| UserRegistration.GenerateReferralCodeHandler | backend/internals/handlers/user_registration_handlers.go:508-554 | no caller is 401; a user with a code gets it back and nothing is written; a user without one has the first free candidate written, and 200 with that code exactly when the write succeeds; 200 exactly when a code is returned, and a written code is the one returned |
| UserRegistration.RegisterDeviceTokenHandler | backend/internals/handlers/user_registration_handlers.go:556-585 | the token and endpoint are stored for the caller exactly when both are bound and the caller is known; 200 exactly when that succeeds |
| TournamentHandlers.FirstMissing | backend/internals/handlers/tournament_handlers.go:108-148 | nothing is missing exactly when every required form field is non-empty; otherwise the first empty one in the order title, location, sport id, start date, end date |
| TournamentHandlers.FormTournament | backend/internals/handlers/tournament_handlers.go:150-210 | the tournament takes its host from the caller and every field from the form; the status defaults to scheduled; the ages are what Atoi makes of them; level and gender are set exactly when given |
| TournamentHandlers.CreateTournamentHandler | backend/internals/handlers/tournament_handlers.go:87-253 | no caller is 401, an empty caller id 401, the first missing field 400 "<Field> is required"; once the checks pass and any banner sent is uploaded, the tournament is created, with the new id and the banner URL, exactly when the insert succeeds, and a failed insert is 500 "Failed to create tournament" and removes the uploaded banner; 201 exactly when created |
| TournamentHandlers.BannerUrl | backend/internals/handlers/tournament_handlers.go:210-237 | a banner URL is kept exactly when a file was sent, opened and uploaded |
| TournamentHandlers.CreatedIsComplete | backend/internals/handlers/tournament_handlers.go:108-210 | a created tournament has every required field, a non-empty status and the caller as host |
| TournamentHandlers.TitleCheckedFirst | backend/internals/handlers/tournament_handlers.go:110-116 | a missing title is reported whatever else is missing |
| TournamentHandlers.FilterOf | backend/internals/handlers/tournament_handlers.go:275-300 | the host filter wins over the sport filter, which wins over the status filter; with none the list is unfiltered |
| TournamentHandlers.PageStart | backend/internals/handlers/tournament_handlers.go:314 | from page 1 on with a non-negative limit the page starts inside the list or after it, and page 1 starts at 0 |
| TournamentHandlers.PageSlice | backend/internals/handlers/tournament_handlers.go:314-323 | the slice panics exactly when the start is not past the end and the start or the limit is negative; from page 1 on with a non-negative limit the page is the clamped slice, at most limit long |
| TournamentHandlers.PageParamsAsWritten | backend/internals/handlers/tournament_handlers.go:311-312 | as written, page and limit are whatever Atoi leaves, 0 on a parse error, with no lower bound |
| TournamentHandlers.UnparsablePagePanics | backend/internals/handlers/tournament_handlers.go:311-323 | as written, page=first gives page 0, a start of -10 and a slice panic |
| TournamentHandlers.NegativeLimitPanics | backend/internals/handlers/tournament_handlers.go:312-323 | as written, limit=-1 makes the slice panic |
| TournamentHandlers.PageParams | backend/internals/handlers/tournament_handlers.go:311-312 | corrected: page and limit are at least 1, and a value that parses to at least 1 is kept |
| TournamentHandlers.PageParamsNeverPanic | backend/internals/handlers/tournament_handlers.go:311-323 | with the corrected parameters the page never panics and holds at most limit tournaments |
| TournamentHandlers.ListPage | backend/internals/handlers/tournament_handlers.go:311-331 | corrected: the reply carries the corrected page and limit, the slice of the list they select, and as total the length of that slice |
| TournamentHandlers.GetTournamentsHandler | backend/internals/handlers/tournament_handlers.go:273-333 | corrected: no caller is 401, a failed fetch 500; otherwise 200 with the page of the filtered list under the corrected page parameters |
| TournamentHandlers.ListPageAsWritten | backend/internals/handlers/tournament_handlers.go:311-331 | as written: the reply exists exactly when the slice does not panic, and then carries the page and limit Atoi left, that slice, and its length as total |
| TournamentHandlers.ListPageAgrees | backend/internals/handlers/tournament_handlers.go:311-331 | when page and limit both parse to at least 1, the reply as written and the corrected one are the same |
| TournamentHandlers.ZeroLimitDiffers | backend/internals/handlers/tournament_handlers.go:311-331 | limit=0 as written gives an empty page echoing limit 0, where the corrected reply uses limit 10 |
| TournamentHandlers.GetTournamentsHandlerAsWritten | backend/internals/handlers/tournament_handlers.go:273-333 | as written: no caller is 401, a failed fetch 500; the handler panics exactly when the fetch succeeds and the slice panics; otherwise 200 with the page as written |
| TournamentHandlers.LookupReply | backend/internals/handlers/tournament_handlers.go:360-372 | a missing tournament is 404, any other failure 500 "Failed to retrieve tournament" |
| TournamentHandlers.GetTournamentHandler | backend/internals/handlers/tournament_handlers.go:348-380 | no caller is 401; the tournament found is returned with 200; a failure gets the lookup reply |
| TournamentHandlers.MergeTournament | backend/internals/handlers/tournament_handlers.go:440-495 | id and host are kept; each non-empty string and each present optional field sent replaces the stored one |
| TournamentHandlers.MergeLaws | backend/internals/handlers/tournament_handlers.go:440-495 | an empty update changes nothing, and the same update twice is the update once |
| TournamentHandlers.HostedTournament | backend/internals/handlers/tournament_handlers.go:404-438 | the guard passes exactly for a caller who hosts the tournament found; another host's tournament is 403 |
| TournamentHandlers.UpdateTournamentHandler | backend/internals/handlers/tournament_handlers.go:396-505 | an unbound body is 400 with the binding error; the merged tournament is written exactly for its host; 200 exactly when the write succeeds |
| TournamentHandlers.DeleteTournamentHandler | backend/internals/handlers/tournament_handlers.go:507-569 | the delete is attempted exactly for the host; 200 exactly when it succeeds |
| TournamentHandlers.JoinTournamentHandler | backend/internals/handlers/tournament_handlers.go:571-673 | a pending participation of the caller is added exactly for an existing tournament the caller has not joined; an existing participation is 400 "already registered"; 201 exactly when it is added |
| TournamentHandlers.JoinOnlyOnce | backend/internals/handlers/tournament_handlers.go:620-655 | after a successful join the same join is refused as already registered |
| TournamentHandlers.LeaveTournamentHandler | backend/internals/handlers/tournament_handlers.go:675-718 | no caller is 401; a missing participation is 404 "not registered"; 200 exactly when it is removed |
| TournamentHandlers.ParticipantsFilter | backend/internals/handlers/tournament_handlers.go:720-763 | the participants are filtered by status exactly when one is given |
| TournamentHandlers.UpdateParticipantStatusHandler | backend/internals/handlers/tournament_handlers.go:765-839 | an unbound body is 400; the change is written exactly for the tournament's host; a missing participant is 404; 200 exactly when it is written |
| TournamentHandlers.GetUserTournamentsHandler | backend/internals/handlers/tournament_handlers.go:841-865 | no caller is 401; the caller's tournaments are returned exactly when found |
| AchievementHandlers.LeapDays | backend/internals/handlers/achievement_handlers.go:95 | example: the layout 2006-01-02 accepts 2024-02-29 and refuses 2023-02-29, a one-digit month, month 13 and the empty string |
| AchievementHandlers.LeapDayAccepted | backend/internals/handlers/achievement_handlers.go:95 | example: 29 February of a leap year is a date |
| AchievementHandlers.NonLeapDayRejected | backend/internals/handlers/achievement_handlers.go:95 | example: 29 February of a common year is not |
| AchievementHandlers.MonthThirteenRejected | backend/internals/handlers/achievement_handlers.go:95 | example: month 13 is not a date |
| AchievementHandlers.OwnedAchievement | backend/internals/handlers/achievement_handlers.go:213-262 | the guard passes exactly for a string caller id, a non-empty achievement id, a bound body and an achievement of the caller; a missing one is 404, another user's 403 |
| AchievementHandlers.CreateAchievementHandler | backend/internals/handlers/achievement_handlers.go:64-148 | the achievement is built exactly for a caller with a bound body and a valid date, as the caller's with the body's fields and no certificate; an invalid date is 400; 201 exactly when it is stored |
| AchievementHandlers.GetUserAchievementsHandler | backend/internals/handlers/achievement_handlers.go:150-211 | the caller's achievements are returned exactly when listed; a failed list is 500 |
| AchievementHandlers.GetAchievementHandler | backend/internals/handlers/achievement_handlers.go:213-292 | the achievement is returned exactly to its owner |
| AchievementHandlers.MergeAchievement | backend/internals/handlers/achievement_handlers.go:353-395 | a date sent must be valid, else 400; id, owner and certificate are kept; each non-empty field sent replaces the stored one |
| AchievementHandlers.MergeLaws | backend/internals/handlers/achievement_handlers.go:353-395 | an empty update changes nothing, and the same update twice is the update once |
| AchievementHandlers.UpdateAchievementHandler | backend/internals/handlers/achievement_handlers.go:294-418 | the merged achievement is written exactly for its owner with a valid date; 200 exactly when the write succeeds |
| AchievementHandlers.Certificate | backend/internals/handlers/achievement_handlers.go:682-685 | an achievement has a certificate exactly when its URL is set and non-empty |
| AchievementHandlers.DeleteAchievementHandler | backend/internals/handlers/achievement_handlers.go:420-492 | the row is deleted exactly for the owner, and its certificate, if any, is deleted from S3 first; nothing is deleted otherwise; 200 exactly when the row delete succeeds |
| AchievementHandlers.UploadCertificateHandler | backend/internals/handlers/achievement_handlers.go:510-615 | nothing happens unless the owner sends a file of at most 10 MiB; no file is 400 and a larger one 400; for such a file the previous certificate, if any, is deleted first, even when the upload then fails; a failed upload is 500 with its message; a successful one is always written to the achievement; if that write fails the new upload is deleted after the previous one; 200 with the URL exactly when the write succeeds |
| AchievementHandlers.DeleteCertificateHandler | backend/internals/handlers/achievement_handlers.go:631-716 | without a certificate the owner gets 404; the owner's existing certificate is always deleted from S3, and only it; a failed S3 delete is 500 with nothing written; the URL is cleared exactly when that delete succeeds; 200 exactly when the clear is written |
| AchievementHandlers.DeleteCertificateTwice | backend/internals/handlers/achievement_handlers.go:682-688 | after a certificate is deleted, deleting it again is 404 with no effect |
| AchievementHandlers.UploadThenDelete | backend/internals/handlers/achievement_handlers.go:588-716 | the certificate an upload stores is the object a later delete removes |
| TournamentHandlers.JoinTarget | backend/internals/handlers/tournament_handlers.go:575-596 | the tournament id is taken from the JSON body, where binding requires it, or from the form, where an empty one is refused; an accepted id is never empty |
| AchievementHandlers.DaysIn | backend/internals/handlers/achievement_handlers.go:95 | a month has 28 to 31 days, and February 29 exactly in a leap year |
| AchievementHandlers.CallerId | backend/internals/handlers/achievement_handlers.go:66-83 | the caller id is found exactly when the context holds a string id; otherwise 401 |
| Migrations.UpBaseNames | backend/internals/db/migration_system.go:28-35 | exactly the plain files ending in .up.sql are listed: each listed name is such a file without the suffix, and every such file is listed; no more names than entries |
| Migrations.Insert | backend/internals/db/migration_system.go:36 | inserting into a sorted list keeps it sorted and adds exactly the one name |
| Migrations.SortStrings | backend/internals/db/migration_system.go:36 | the names come out in byte order and are a permutation of the names listed |
| Migrations.GetMigrationFiles | backend/internals/db/migration_system.go:22-38 | a failed directory read is returned; otherwise the base names of the up files, sorted, each backed by a plain .up.sql entry |
| Migrations.CreatedAtIsPrefix | backend/internals/db/migration_system.go:67-71 | the created-at of a migration is its name up to the first underscore, the whole name when there is none |
| Migrations.LoadEntry | backend/internals/db/migration_system.go:47-79 | an unreadable up file fails with its wrapped error, and an unreadable down file that exists fails with "failed to read down migration file …"; the entry loads exactly when the up file reads and the down file is absent or reads; a loaded entry carries the base name, its created-at and the up file's text, and the down text is empty without a down file and the down file's text otherwise |
| Migrations.LoadAll | backend/internals/db/migration_system.go:46-81 | a successful load has one entry per name, in order, each the entry of that name |
| Migrations.LoadAllFailureSticks | backend/internals/db/migration_system.go:52-64 | once a file fails to load, loading more names returns that first failure |
| Migrations.LoadAllStep | backend/internals/db/migration_system.go:46-80 | one more name appends its entry or ends the load with its error |
| Migrations.LoadMigrations | backend/internals/db/migration_system.go:40-82 | a failed listing is returned; otherwise the load of the sorted up files |
| Migrations.MigrationFileNames | backend/internals/db/migration_system.go:199-202 | the files of a new migration are timestamp_name.up.sql and timestamp_name.down.sql |
| Migrations.CreatedFilesAreListed | backend/internals/db/migration_system.go:199-202 | a file created with a timestamp is listed under its base name, and its created-at is that timestamp |
| Migrations.CreateMigrationFile | backend/internals/db/migration_system.go:194-251 | a failed mkdir creates nothing; the call succeeds exactly when no step fails and then returns the two paths, both created; a failure after the up file was created leaves that file behind |
| Migrations.Pending | backend/internals/db/migration_system.go:148-152 | no more pending migrations than loaded ones |
| Migrations.PendingAreNew | backend/internals/db/migration_system.go:148-152 | every pending migration is loaded and not applied |
| Migrations.UpScripts | backend/internals/db/migration_system.go:156 | the scripts run are the pending migrations' up SQL, in order |
| Migrations.NamesAppend | backend/internals/db/migration_system.go:135-143 | the names of two lists of rows are the union of their names |
| Migrations.UniqueAppend | backend/internals/db/migration_system.go:173-179 | adding a row with a new name keeps names unique |
| Migrations.PendingStep | backend/internals/db/migration_system.go:148-180 | one more loaded migration is skipped when applied and appended, with its script, otherwise |
| Migrations.PendingCovers | backend/internals/db/migration_system.go:148-180 | every loaded migration is applied already or pending |
| Migrations.NothingPendingWhenCovered | backend/internals/db/migration_system.go:148-152 | when every loaded migration is applied nothing is pending |
| Migrations.ApplyStep | backend/internals/db/migration_system.go:148-180 | applying the next new migration extends the transaction's rows and scripts by it |
| Migrations.ApplyPending | backend/internals/db/migration_system.go:148-180 | without error the transaction holds the old rows plus the pending migrations, in order, with their up scripts run, and the count applied is their number; names stay unique; there is no error exactly when every pending script runs, the row inserts succeed and the names stay unique |
| Migrations.CleanRunStep | backend/internals/db/migration_system.go:155-178 | a run of one more migration is clean exactly when the shorter run is, its script runs, its name is new and the row insert succeeds |
| Migrations.StepFailureSpoilsRun | backend/internals/db/migration_system.go:148-180 | a migration that cannot be applied after the ones before it makes the whole run fail |
| Migrations.ApplyOne | backend/internals/db/migration_system.go:155-178 | one migration applies exactly when its script runs, its name is new and its row is inserted; a failing script is reported wrapped with the migration's name |
| Migrations.FindTarget | backend/internals/db/migration_system.go:364-370 | the index is the first newest-first row with the target name, -1 exactly when there is none |
| Migrations.MigrationDb.AppliedNames | backend/internals/db/migration_system.go:128-147 | the names read are those of the migrations table |
| Migrations.MigrationDb.RunMigrations | backend/internals/db/migration_system.go:102-192 | a failed table creation or load is returned wrapped; any failure leaves the table and schema as they were; otherwise exactly the pending migrations are appended with their up scripts run, and their number is returned; the run succeeds exactly when the table is created, the files load, and, when there are files, the transaction begins, the applied names are read, every pending migration applies cleanly and the commit succeeds |
| Migrations.MigrationDb.GetAppliedMigrations | backend/internals/db/migration_system.go:253-287 | a failed query is returned wrapped; the read succeeds exactly when the query does, and then gives the rows newest first |
| Migrations.MigrationDb.RollbackMigration | backend/internals/db/migration_system.go:290-340 | the details query runs first, and its failure is "failed to get migration details: …" for any name; with the query done, an unapplied name is "migration … not found or not applied"; the rollback succeeds exactly when the row exists and RollbackSucceeds holds (down SQL present and no step fails); it then removes exactly that row and runs its down SQL; a failure changes nothing |
| Migrations.MigrationDb.RollbackLastMigration | backend/internals/db/migration_system.go:343-354 | an empty table is "no migrations to rollback"; the rollback succeeds exactly when the read succeeds, the table is not empty and the newest row rolls back cleanly; success removes exactly the newest row and runs its down SQL; a failure changes nothing |
| Migrations.MigrationDb.RollbackToMigration | backend/internals/db/migration_system.go:357-392 | an unapplied target is reported and changes nothing; rows are only removed from the newest end; success exactly when the read succeeds, the target is applied and every newer row rolls back cleanly, and it then leaves the target as the newest row and counts the rows removed |
| Migrations.MigrationDb.RollbackNewer | backend/internals/db/migration_system.go:376-382 | the loop removes the newest rows one at a time and stops at the first failure; it ends without failure exactly when each of the rows it reaches rolls back cleanly, and then removes exactly the rows newer than the target |
| Migrations.MigrationDb.RollbackNewest | backend/internals/db/migration_system.go:290-340 | rolling back the newest row removes it or, on failure, changes nothing; it succeeds exactly when that row rolls back cleanly |
| Migrations.NewestFirst | backend/internals/db/migration_system.go:259 | ORDER BY created_at DESC returns the rows in reverse order of application |
| Migrations.RowIndex | backend/internals/db/migration_system.go:300-312 | the row found carries the name and is the first such row |
| Migrations.IndexOfUnique | backend/internals/db/migration_system.go:300-312 | with unique names the row of a name is found at its own position |
| Migrations.LastRowFound | backend/internals/db/migration_system.go:353 | the newest applied row is found by its name |
| Migrations.RunIsIdempotent | backend/internals/db/migration_system.go:148-152 | after a run nothing of the same migrations is pending: running again applies nothing |
| MigrateCli.Dispatch | backend/cmd/migrate/main.go:27-53 | -help wins; an empty command is "command is required" and an unknown one "unknown command"; both exit with the help, exactly when the command is not one of the five |
| MigrateCli.CleanName | backend/cmd/migrate/main.go:63 | the clean name has no space, no upper-case letter and no white space at either end |
| MigrateCli.UnderscoredShape | backend/cmd/migrate/main.go:63 | replacing spaces leaves no space and keeps the trimmed ends |
| MigrateCli.LoweredShape | backend/cmd/migrate/main.go:63 | lower-casing keeps that shape and leaves no upper-case letter |
| MigrateCli.CleanNameIdempotent | backend/cmd/migrate/main.go:63 | cleaning a clean name changes nothing |
| MigrateCli.CleanEmptyIffBlank | backend/cmd/migrate/main.go:63-67 | a name cleans to nothing exactly when it is all white space |
| MigrateCli.CreateMigration | backend/cmd/migrate/main.go:56-86 | an empty name and a blank name are fatal with their messages; the files are created in the absolute path under the clean name exactly when the name is not blank and the path resolves; the command succeeds exactly when the files are created |
| MigrateCli.RunUp | backend/cmd/migrate/main.go:88-112 | a failed run is fatal and changes nothing; success appends exactly the pending migrations; the command succeeds exactly when the run does |
| MigrateCli.DownCount | backend/cmd/migrate/main.go:137-148 | the number of rollbacks is the steps clamped to between 0 and the number applied |
| MigrateCli.RunMigrationsDown | backend/cmd/migrate/main.go:114-155 | a failed read of the applied rows is fatal and changes nothing; rows only leave from the newest end; the command succeeds exactly when the read succeeds and each of the clamped number of rollbacks succeeds, and then rolls back exactly that many rows |
| MigrateCli.ShowMigrationStatus | backend/cmd/migrate/main.go:187-247 | a missing directory, a failed load, no files and a failed read of the applied rows are reported as such; otherwise a report with one line per file, numbered from 1, marked applied exactly when a row carries its name |
| MigrateCli.RollbackTo | backend/cmd/migrate/main.go:157-185 | an empty target is fatal and changes nothing; the command succeeds exactly when the target is given, the read succeeds, the target is applied and every newer row rolls back cleanly, and then leaves the target as the newest row |

## Left out

- Goroutines, channels and the mutex are not modelled as concurrency. Hub events are a pending queue that `Run` drains one event at a time. The Redis subscription, websocket framing, deadlines and pong handling are left out. So is the background mark-read goroutine of GetMessages.
- The broker, the database, S3, SNS and Cognito are parameters: each call is the `Result` or `Option` it returns. SQL text is modelled only where a property is about it (the opening filter builder).
- The JWKS fetch and the RSA key reconstruction are inputs, given as the key set fetched. The jwt library's parsing and signature check are an input function that yields the verified claims or an error.
- ParseToken (internals/auth/cognito.go:334-345) is not modelled, because it only calls jwt's unverified parser. The Google callback takes the claims it yields as an input.
- JWT time claims are integer seconds; the source reads them as float64.
- GenerateReferalCode draws its characters by nondeterministic choice, not from a random distribution. The alphabet literal is checked as the three runs a-z, A-Z and 0-9.
- The referral-code loops of the profile handlers try a finite list of candidate codes. The model does not capture a loop that never finds a free code.
- `strings.ToLower` is modelled for ASCII letters only; Go's also lowers other Unicode letters.
- `uuid.Parse` is modelled by the canonical 8-4-4-4-12 hexadecimal form. The other forms it accepts (32 bare hex digits, `urn:uuid:` and braces) are left out.
- `time.Parse` is modelled for the layout 2006-01-02 of achievements only. The migration timestamp parse, `time.Now` and `NOW()` are left out; timestamps are not part of the stored rows.
- `filepath.Abs` is an input. `filepath.Join` is modelled as a join with one separator, without `filepath.Clean`.
- ORDER BY created_at DESC is modelled as reverse order of insertion.
- int64 overflow is not modelled, for example in (page-1)*limit.
- Logging, debug printing, the templates written into new migration files, the swagger docs and route registration are left out.
- The migrate command's database connection and `.env` loading are left out, and so is its printing. Its fatal exits are outcomes.
- S3's DeletePostFolder (a paginated list-and-delete loop) and GeneratePresignedURL are not modelled.
- GetChatRooms and GetChatRoomsForUser are not modelled: they list rows without Go-side logic. GetUserSnsEndpointArn is an input of SendMessage.
- The following single-statement queries are not modelled on their own; their results are inputs of the handlers that use them:
  - UpdateProfilePicture, GetUserIdByReferalCode, ReferalCodeExists, UserHasReferalCode, CreateReferalCode, GetReferalCode and UsernameExists (user_profile_repoitory.go);
  - GetApplicationsByPlayerID, GetApplicationsByOpeningID and GetApplicantsByOpeningID (application_repository.go);
  - GetOpeningByID, GetOpeningsByRecruiterID, GetAllOpenings, GetOpeningsBySport, DeleteOpening and UpdateOpeningStatus (opening_repository.go);
  - the row scans of GetAllPostsWithComments and GetAllPostsByUserIdWithComments (post_repository.go), beyond their parameter checks.
- UpdateOpening (opening_repository.go) is modelled for its sport lookup-or-insert only (UpdateSportName); the outcome of its transaction is an input of UpdateOpeningHandler.
- GetOpeningByIDHandler and the response converters toSAddress and toOpeningResponse are not modelled separately.
- GetEmailFromContext, GetUserIDFromContext and GetRoleFromContext are not modelled separately. Each handler takes the context value as a `Claim` or an `Option`.
- Profiles:
  - referral codes are assumed unique;
  - a new profile has 0 coins and no referrer;
  - isPremium and the timestamps are not stored;
  - the Meta query's unquoted identifier is modelled as a lookup by key.
- UserRegistration.CreatorRole: for a role that does not parse, the source writes its 400 reply without a `return`, and the next check writes a second 400 body. The model keeps only the first message.
- post_likes is a multiset of (post, user) pairs.
- GroupReplies builds the reply map one reply at a time, through AddReply; the source fills a Go map in a loop.
- Cognito.Login: a successful InitiateAuth is taken to carry an id token. Go dereferences AuthenticationResult.IdToken without a check (internals/auth/cognito.go:182), so a challenge response with no AuthenticationResult panics; the model has no such answer.
- TournamentHandlers.ListPage: the reply's total is the length of the page, as in the source, not the number of tournaments.

## Findings

| source | as written | input that shows it | evidently intended | confidence | as-written member | corrected member |
|---|---|---|---|---|---|---|
| backend/internals/chat/redis/hub.go:30-32 | unregister deletes the user's entry whenever the key is present, whichever client asks | client A registers for user u, then client B registers for u, then A unregisters | an unregister removes the entry only when it is the same client | not executed | ChatHub.StaleUnregisterLeaks | ChatHub.StaleUnregisterFixed |
| backend/internals/handlers/chat_handlers.go:247 | the room is found with FindOrCreateChatRoom(ChatRoomId, userID), passing the room id as a user id | any send with a valid room id: the recipient becomes the room id | the room is looked up by its id, and the recipient is the other participant | not executed | ChatHandlers.SendMessageAsWritten | ChatHandlers.SendMessage |
| backend/internals/db/repositories/opening_repository.go:19-77 | the deferred commit's error is dropped, because the result is unnamed; a marshal error is shadowed, so the transaction commits | commit fails after every insert succeeds; or the stats marshal fails | a failed commit is reported; a failed marshal rolls back | not executed | OpeningRepo.CreateOpeningAsWritten, OpeningRepo.CommitFailureReportedAsSuccess, OpeningRepo.MarshalFailureCommits | OpeningRepo.CreateOpening |
| backend/internals/handlers/application_handeler.go:390-393 | the 403 for a player action other than withdraw has no `return`, so the status update still runs | a player calls a player-side action with status accepted | the 403 ends the request | not executed; latent: no registered route uses a player action other than withdraw | ApplicationHandlers.UpdateStatusAsWritten, ApplicationHandlers.PlayerActionUpdatesDespite403 | ApplicationHandlers.UpdateStatus, ApplicationHandlers.PlayerActionRefused |
| backend/internals/db/repositories/user_profile_repoitory.go:352-389 | a failed coin update returns nil, while the deferred handler rolls back | the coin UPDATE fails | the update error is returned | not executed | UserProfileRepo.ReferUserAsWritten, UserProfileRepo.ReferralRewardLost | UserProfileRepo.ReferralOutcome, UserProfileRepo.UserProfileStore.ReferUser, UserRegistration.CreateProfileHandler, UserRegistration.StoreProfile |
| backend/internals/db/repositories/user_profile_repoitory.go:367-388 | an UPDATE that touches no row is not ErrNoRows, so an unknown referred user still pays the referrer | a referral code of an existing user for a user id with no details row | an unknown user is not found and nothing is paid | not executed | UserProfileRepo.UnknownUserStillPaysReferrer | UserProfileRepo.ReferralOutcome, UserProfileRepo.UserProfileStore.ReferUser, UserRegistration.CreateProfileHandler, UserRegistration.StoreProfile |
| backend/internals/db/repositories/post_like_repository.go:57-69 | unlike lowers like_count by one even when no like row was deleted | unlike of a post the user never liked, with like_count 0 | the count drops only when a like is removed | not executed | PostLikeRepo.AfterUnlikeAsWritten, PostLikeRepo.UnlikeWithoutLikeDiverges, PostLikeRepo.CountGoesNegative | PostLikeRepo.AfterUnlike, PostLikeRepo.UnlikeKeepsCounted |
| backend/internals/handlers/tournament_handlers.go:311-323 | page and limit keep what Atoi returns, 0 on error and negative when negative; the slice bounds are not checked | page=first (start -10), or limit=-1; the correction also changes limit=0, which as written gives an empty page echoing limit 0 | page and limit are at least 1, so the slice is in range; limit=0 then means the default 10 | not executed | TournamentHandlers.PageParamsAsWritten, TournamentHandlers.UnparsablePagePanics, TournamentHandlers.NegativeLimitPanics, TournamentHandlers.ListPageAsWritten, TournamentHandlers.GetTournamentsHandlerAsWritten, TournamentHandlers.ZeroLimitDiffers | TournamentHandlers.PageParams, TournamentHandlers.PageParamsNeverPanic, TournamentHandlers.ListPage, TournamentHandlers.GetTournamentsHandler |
