# FriendZone in Dafny

FriendZone is a small Django social network. Users send each other friend
requests, and a request can be cancelled, accepted or declined. Friends can be
removed. Users see a feed of their own and their friends' posts, search other
users, and chat with a friend over a websocket. This project models the core of
that system and proves properties of the model.

The centre of the model is the relationship store. It is a map from a
canonical pair `(user1, user2)` with `user1 < user2` to a row
(`pending_user1_user2`, `pending_user2_user1` or `friends`) with its
modification time. `Models.Db` holds the tables:

- users, keyed by primary key;
- relationship rows;
- posts;
- chat messages;
- a logical clock standing for `auto_now` / `auto_now_add`;
- the next primary key.

Its invariant `Valid` requires the following:

- emails are unique and usernames are unique;
- every relationship key is ordered and names two users;
- modification times are earlier than the clock and distinct;
- messages are between users, are at most 500 characters long, and are stored oldest first.

The modelling follows the same pattern throughout:

- Each REST handler of `social_media/apis.py` is a pure function over the store (`Apis.Send`, …). A method on `Db` is proved equal to that function (`Apis.SendFriendRequest`, …).
- The page views of `social_media/views.py` are methods that run the same loops as the source, proved against declarative predicates. Examples are `FriendsOf`, `SearchResults` and `NewestRequestFirst` over the store.
- The form cleaners of `social_media/forms.py` are pure functions.
- The chat room view of `chat/views.py` is a method over `Db`.
- The websocket consumer of `chat/consumers.py` is a class `ChatConsumer` over a class `ChannelLayer`. The layer holds the group memberships and the frames each channel has been sent. It also keeps a ghost record of the order in which messages are stored and broadcast.

Modules, one per file:

| file | module | models |
|---|---|---|
| results.dfy | Results | `Option`, `Result` |
| text.dfy | Text | `str.lower` on ASCII, `in` / `icontains`, Python string order, `str(int)`, `int(str)`, `str.split` |
| collections.dfy | Collections | `sorted` / `list.sort`, `filter`, unordered query rows |
| models.dfy | Models | social_media/models.py, chat/models.py and the `Db` class |
| apis.dfy | Apis | social_media/apis.py |
| views.dfy | Views | social_media/views.py |
| forms.dfy | Forms | social_media/forms.py |
| chat_views.dfy | ChatViews | chat/views.py |
| chat_consumers.dfy | ChatConsumers | chat/consumers.py |

Where the caller of a view or handler is the logged-in user, the model takes
their primary key as a parameter. The request `id` of the relationship
handlers is an `Option<int>`: `None` stands for a missing key, and `0` is falsy as in Python.

## Model

| member | source | states |
|---|---|---|
| Text.Lower | social_media/forms.py:16 | `lower()` keeps the length, maps each character by `LowerChar` and leaves no upper-case letter |
| Text.LowerIdempotent | social_media/forms.py:16 | lower-casing twice equals lower-casing once |
| Text.LowerOfLower | social_media/forms.py:48 | an already lower-case string is unchanged by `lower()` |
| Text.Contains | social_media/views.py:219 | the `icontains` test holds iff the needle occurs as a contiguous block of the haystack |
| Text.ContainsSelf | social_media/views.py:219 | every string contains itself |
| Text.IContains | social_media/views.py:219 | case-insensitive containment: the empty query and the text itself are contained, and a contained query is no longer than the text |
| Text.StrLe | social_media/apis.py:329 | Python's `<=` on strings: a prefix sorts first, and a proper extension does not sort before its prefix (totality, transitivity and antisymmetry are the next rows) |
| Text.StrLeTotal | social_media/apis.py:329 | any two usernames are comparable by the sort key |
| Text.StrLeTransitive | social_media/apis.py:329 | the sort key order is transitive |
| Text.StrLeAntisymmetric | social_media/apis.py:329 | two usernames that sort both ways are equal |
| Text.NatToString | chat/views.py:12 | `str(pk)` is a non-empty string of digits without a leading zero |
| Text.ParseNat | chat/consumers.py:66-69 | parsing succeeds iff the text is a non-empty run of digits |
| Text.ParseNatToString | chat/consumers.py:66-69 | parsing `str(n)` gives back n |
| Text.ParseInt | chat/consumers.py:66-69 | `int(text)` succeeds iff the text is a digit string, optionally after one '-' or '+'; a digit string parses to its value, '-' negates it and '+' keeps it, and a negative result needs a leading '-' |
| Text.ParseIntOfNumeral | chat/consumers.py:66-69 | `int(str(n)) == n` |
| Text.NatToStringInjective | chat/views.py:12 | distinct primary keys print differently |
| Text.Split | chat/consumers.py:65 | `split('_')` yields at least one part, no part contains the separator, and joining the parts with the separator gives back the text |
| Text.SplitJoin | chat/consumers.py:65 | splitting `a + "_" + b` gives `[a, b]` when neither part has `_` |
| Collections.SortBy | social_media/apis.py:329 | the sorted list is a permutation of the input, ordered by the key |
| Collections.SortedPermutationsEqual | social_media/views.py:308 | when the key orders distinct elements strictly, there is only one sorted permutation |
| Collections.Enumerate | social_media/apis.py:318-319 | the rows of an unordered query: every element of the set exactly once |
| Collections.Filter | social_media/views.py:33 | `filter` keeps exactly the elements satisfying the predicate (as a set of elements; multiplicities and sortedness are kept by `FilterMultiset` and `FilterSorted`) and is no longer than its input |
| Collections.FilterMultiset | social_media/views.py:33 | filtering keeps each selected element's multiplicity and drops the rest |
| Collections.FilterSorted | social_media/views.py:33 | filtering a sorted list leaves it sorted |
| Models.RelationTypeName | social_media/models.py:65-69 | each state is one of the three stored choice strings |
| Models.RelationTypeNamesDistinct | social_media/models.py:65-69 | distinct states store distinct strings |
| Models.UserWithUsername | social_media/views.py:153 | the lookup finds the user with that username, or reports that none has it (`DoesNotExist`) |
| Models.UserWithEmail | chat/consumers.py:60 | the lookup finds the user with that email, or reports that none has it |
| Models.LookupOwnKeys | social_media/models.py:52-54 | since email and username are unique, looking up a user's own email or username finds that user |
| Models.PkText | social_media/models.py:14 | `str(instance.pk)` is the numeral of the key, or "None" for an unsaved post |
| Models.ProfileImagePath | social_media/models.py:10-11 | the path is "images/profile_images/", the user's key, then "/profile_image.jpg" (injectivity is `ProfileImagePathInjective`) |
| Models.PostImagePath | social_media/models.py:13-14 | the path is "images/post_images/", the owner's key, "/", the post's key (or "None"), then "/post_image.jpg" (owner and key are recovered by `PostImagePathInjective`) |
| Models.PkTextInjective | social_media/models.py:14 | distinct keys, saved or not, print differently |
| Models.PostImagePathInjective | social_media/models.py:13-14 | the post image path determines both the owner and the post key |
| Models.ProfileImagePathInjective | social_media/models.py:10-11 | distinct users get distinct profile image paths |
| Models.PostCleanAsWrittenNeverRaises | social_media/models.py:104-107 | as written, `self.image is None` never holds, so `clean` accepts every post, including one with neither image nor text, which the corrected check refuses |
| Models.PostClean | social_media/models.py:104-107 | corrected `clean`: fails, with "Image or text should not be empty.", iff there is no image file (no name or an empty name) and the text is None |
| Models.NormalizeEmail | social_media/models.py:26 | an address without '@' is unchanged; otherwise everything up to the last '@' is kept and the domain after it is lower-cased |
| Models.NormalizeEmailIdempotent | social_media/models.py:44-46 | normalising an already-normalised email changes nothing |
| Models.NewUser | social_media/models.py:18-31 | an empty email or password raises `ValueError` with the source's messages (email checked first); otherwise the user has the normalised email, the given username, the password as given (its hashing is not modelled), the default image, and the flags from the extra fields |
| Models.NewSuperuser | social_media/models.py:33-46 | staff, superuser and active default to True; an explicit False for staff or superuser raises, in that order; a created superuser is staff and superuser |
| Models.SuperuserEmailNormalizedOnce | social_media/models.py:43-46 | normalising twice (in create_superuser and again in create_user) stores the once-normalised email |
| Models.Db.InsertRelationship | social_media/apis.py:135-137 | saving a new row adds exactly that row, stamped with the current time, and keeps the store well formed |
| Models.Db.DeleteRelationship | social_media/apis.py:170 | deleting removes exactly that row |
| Models.Db.AcceptFriendRequest | social_media/models.py:83-85 | the row under the same `(user1, user2)` becomes `friends` with a fresh modification time, and nothing else changes |
| Models.Db.CreateMessage | chat/models.py:5-15 | a message of at most 500 characters is appended, stamped with the current time; a longer one is not stored |
| Models.Db.SaveNewUser | social_media/models.py:29 | saving fails with an integrity error iff the email or username is taken; otherwise the user is stored under a fresh key |
| Models.Db.CreateUser | social_media/models.py:18-31 | the validation errors of `NewUser` are returned with the table unchanged; a valid user fails with an integrity error, the table unchanged, iff a stored user has its email or username; otherwise it is stored under a fresh key |
| Models.Db.CreateSuperuser | social_media/models.py:33-49 | as `CreateUser`, for `NewSuperuser`: validation errors and integrity errors (iff the email or username is taken) leave the table unchanged; the stored user is staff and superuser |
| Apis.Canonical | social_media/apis.py:12-24 | the pair is the two users ordered by primary key, strictly when they differ |
| Apis.CanonicalSymmetric | social_media/apis.py:12-24 | swapping the arguments gives the same pair |
| Apis.CanonicalUnique | social_media/models.py:71-78 | an ordered key made of two users is their canonical pair |
| Apis.SenderPending | social_media/apis.py:136 | the pending state chosen for a new request names the caller as the sender |
| Apis.ReceiverPending | social_media/apis.py:203 | the state accept and decline look for is pending with the caller as the receiver |
| Apis.AreFriendsSymmetric | social_media/views.py:187 | friendship does not depend on the order of the two users |
| Apis.RelationStatesExclusive | social_media/models.py:65-78 | two users never have requests pending in both directions, nor a request pending while they are friends |
| Apis.Target | social_media/apis.py:114-127 | falsy id gives "Invalid request."; an id that is the caller or no user gives "Invalid request Id."; otherwise the target is that user |
| Apis.Send | social_media/apis.py:107-141 | succeeds iff the target is valid and the pair has no row; then exactly one row is added, pending from the caller, stamped with the current time; otherwise 400 with the right detail and nothing changes |
| Apis.Cancel | social_media/apis.py:143-175 | succeeds iff the target is valid and the caller has a request pending to them; then exactly that row is deleted; otherwise 400 and nothing changes |
| Apis.Accept | social_media/apis.py:177-210 | succeeds iff the target has a request pending to the caller; then that row, and only it, becomes `friends` at the current time; otherwise 400 and nothing changes |
| Apis.Decline | social_media/apis.py:212-244 | the same receiver check as accept; on success that row is deleted; otherwise 400 and nothing changes |
| Apis.Remove | social_media/apis.py:246-278 | succeeds iff the two are friends, whichever of them calls; then the row is deleted; a pending row is left intact with a 400 |
| Apis.StepPreservesWellFormed | social_media/models.py:71-78 | every handler keeps keys ordered and naming users, and modification times distinct and in the past |
| Apis.RunPreservesWellFormed | social_media/models.py:71-78 | any sequence of handler calls keeps the store well formed |
| Apis.SendThenReverseSendRejected | social_media/apis.py:134-141 | after A sends to B, both B→A and a second A→B are refused with "Invalid request." |
| Apis.SendThenAccept | social_media/apis.py:201-210 | after A sends to B, A cannot accept it, B can, and then they are friends |
| Apis.SendThenCancel | social_media/apis.py:167-175 | after A sends to B, A's cancel restores the original store, and B cannot cancel |
| Apis.SendThenDecline | social_media/apis.py:236-244 | after A sends to B, B's decline restores the original store, and A cannot decline |
| Apis.RemoveThenSend | social_media/apis.py:270-278 | after a friend is removed the two are no longer friends, and a new request can be sent |
| Apis.SendFriendRequest | social_media/apis.py:107-141 | the handler's response and new store are those of `Send` |
| Apis.CancelFriendRequest | social_media/apis.py:143-175 | the handler's response and new store are those of `Cancel` |
| Apis.AcceptFriendRequest | social_media/apis.py:177-210 | the handler's response and new store are those of `Accept` |
| Apis.DeclineFriendRequest | social_media/apis.py:212-244 | the handler's response and new store are those of `Decline` |
| Apis.RemoveFriend | social_media/apis.py:246-278 | the handler's response and new store are those of `Remove` |
| Apis.ByUsernameTotalPreorder | social_media/apis.py:329 | sorting by username uses a total preorder |
| Apis.CollectFriends | social_media/apis.py:318-326 | the loop collects the other party of every `friends` row of the user, once each, as the users table has them |
| Apis.PermutedCards | social_media/apis.py:329 | sorting the friend list keeps its cards and their distinctness |
| Apis.FriendList | social_media/apis.py:304-331 | an unknown username is an error (404); otherwise exactly the user's friends, once each, sorted by username |
| Apis.UserPosts | social_media/apis.py:69-76 | exactly the posts whose owner has the username, with their multiplicities, newest first |
| Views.EntryOf | social_media/views.py:36-42 | a feed entry copies the owner's username and image and the post's text and date; the image is None iff the post has none |
| Views.FeedPosts | social_media/views.py:33 | the feed's posts are exactly those of the viewer and their friends, with their multiplicities, newest first |
| Views.FeedUsers | social_media/views.py:21-30 | the owner set is the viewer plus the other party of every `friends` row; pending rows add no one |
| Views.PostsOf | social_media/views.py:33 | the query result holds exactly the posts whose owner is in `post_users`, newest first |
| Views.PostsOfFeedUsers | social_media/views.py:33 | selecting posts by that owner set is selecting the feed |
| Views.Feed | social_media/views.py:33-42 | the loop builds one entry per feed post, in feed order |
| Views.Index | social_media/views.py:14-44 | the home page lists an entry for each feed post, in feed order |
| Views.RelationLabelOf | social_media/views.py:174-196 | `not_friend` iff the pair has no row; `friends` only for a row in the friends state (what the other labels mean is `RelationLabelMeaning`) |
| Views.RelationLabelMeaning | social_media/views.py:174-196 | the label is `sender` iff the viewer has a request pending to them, `receiver` iff the request is the other way, `friends` iff friends, and `not_friend` iff there is no row (always so on one's own profile) |
| Views.Profile | social_media/views.py:146-198 | unknown username is a 404; otherwise the profile's user details, `is_authenticated` iff logged in, `is_own_profile` iff same key, and when logged in the label and `is_friend` iff friends |
| Views.NumPages | social_media/views.py:229 | with 5 per page, the page count is the least that holds all results, and 1 when there are none |
| Views.ValidateNumber | social_media/views.py:231-236 | a page that is not an integer is `PageNotAnInteger`, an integer out of range is `EmptyPage`, an integer in range is accepted as is, and a missing page is 1 |
| Views.ResolvePage | social_media/views.py:229-238 | the shown page is the requested one when in range, 1 for a missing or non-integer page, the last page when out of range |
| Views.PageStartMonotone | social_media/views.py:232 | pages start every 5 items, in increasing order |
| Views.Page | social_media/views.py:232 | a page is the slice of the results starting at its offset: 5 items on every page but the last, at most 5 and at least 1 (if any results) on the last |
| Views.PagesFromSuffix | social_media/views.py:229-238 | the pages from page p onward cover exactly the results from p's offset |
| Views.PagesPartition | social_media/views.py:229-238 | the pages, in order, concatenate to the whole result list |
| Views.CollectCards | social_media/views.py:221-226 | the loop collects the card of every user that passes the filter, once each |
| Views.MatchingUsers | social_media/views.py:216-226 | the results are exactly the other users whose email or username contains the query case-insensitively, once each, sorted by username |
| Views.SearchUser | social_media/views.py:202-245 | an empty or missing query is a 404; otherwise those results, with the resolved page of them, the page count and the query |
| Views.Matches | social_media/views.py:218-219 | the viewer never matches; any other user matches the empty query, their own username and their own email |
| Views.SearchResultsUnique | social_media/views.py:219 | the result list is determined by the users table, since usernames are unique |
| Views.FriendListView | social_media/views.py:274-314 | unknown username is a 404; otherwise exactly that user's friends sorted by username, `is_own` iff the viewer is that user, and the username |
| Views.CollectIncoming | social_media/views.py:326-331 | the loop collects each user with a request pending to the viewer, once, with the row's modification time |
| Views.IncomingRequests | social_media/views.py:326-344 | exactly the users with a request pending to the viewer, once each, newest row first |
| Views.FriendRequestsList | social_media/views.py:318-344 | the page lists exactly the users with a request pending to the viewer, once each, newest first |
| Views.OrderedRequestsProperties | social_media/views.py:327 | ordering by modification time descending puts the newer request first |
| Forms.CleanUnique | social_media/forms.py:14-36 | a cleaner returns the lower-cased value iff it is not taken, else the given error |
| Forms.RegistrationCleanEmail | social_media/forms.py:14-24 | succeeds iff no user has the lower-cased email, returning it; else "Email is already in use." |
| Forms.RegistrationCleanUsername | social_media/forms.py:26-36 | succeeds iff no user has the lower-cased username, returning it; else "Username already in use." |
| Forms.LoginCleanEmail | social_media/forms.py:46-48 | only lower-cases: the result has the input's length and each character is the lower-cased input character (so it is `email.lower()`), a lower-case input comes back unchanged; no uniqueness check |
| Forms.ProfileCleanEmail | social_media/forms.py:67-77 | as for registration, but the form's own user is not counted |
| Forms.ProfileCleanUsername | social_media/forms.py:79-89 | as for registration, but the form's own user is not counted |
| Forms.RegistrationCleanIdempotent | social_media/forms.py:14-36 | cleaning a cleaned value gives the same result |
| Forms.ProfileKeepsOwnValues | social_media/forms.py:67-89 | a user may keep their own (lower-case) email and username |
| Forms.OthersValuesRejected | social_media/forms.py:14-36 | another user's email or username, in any letter case, is rejected at registration and at profile update |
| Forms.CleanedRegistrationIsFree | social_media/forms.py:14-36 | a value that passes registration is not any user's |
| ChatViews.CreateRoomName | chat/views.py:10-14 | the room name is `str(min) + "_" + str(max)` |
| ChatViews.RoomNameSymmetric | chat/views.py:10-14 | swapping the two users gives the same room |
| ChatViews.RoomNameSplits | chat/views.py:10-14 | splitting a room name on '_' gives the two numerals, lower first |
| ChatViews.RoomNameInjective | chat/views.py:10-14 | two pairs share a room name only if they are the same pair |
| ChatViews.ChatEntryOf | chat/views.py:35-47 | an entry copies the message's content and date and its sender's and receiver's usernames and images |
| ChatViews.History | chat/views.py:31-32 | the history holds exactly the messages between the two users, in either direction |
| ChatViews.HistoryOrdered | chat/models.py:13-15 | the history is oldest first and keeps each message's multiplicity |
| ChatViews.HistoryEntries | chat/views.py:34-47 | the loop builds one entry per history message, in order |
| ChatViews.ChatRoom | chat/views.py:18-62 | "Invalid request" iff the two are not friends (a pending row does not authorise); otherwise the room name of the pair, the history entries and the target's username and image |
| ChatConsumers.GroupName | chat/consumers.py:12 | the group name starts with "chat_" and the rest is the room name |
| ChatConsumers.GroupNameInjective | chat/consumers.py:12 | distinct rooms have distinct groups |
| ChatConsumers.EventOf | chat/consumers.py:37-45 | the group event `receive` sends is routed to the `chat_message` handler |
| ChatConsumers.ChatMessage | chat/consumers.py:47-56 | for a `chat_message` event, the frame sent to the socket rebuilds that event: nothing is lost |
| ChatConsumers.EchoRoundTrip | chat/consumers.py:37-56 | the frame `chat_message` sends for the event `receive` builds is the frame the client sent |
| ChatConsumers.PersistThenBroadcast | chat/consumers.py:33-45 | storing a message and then broadcasting it keeps every broadcast right after the storing of its message |
| ChatConsumers.ReceiverFromRoom | chat/consumers.py:64-69 | the derived receiver, when there is one, is a user |
| ChatConsumers.ReceiverOfOwnRoom | chat/consumers.py:64-69 | for distinct s and r, the receiver derived for s from the room of s and r is r |
| ChatConsumers.ReceiverOfAnyNumeralRoom | chat/consumers.py:64-69 | for any room name "x_y" of two stored users, canonical or not, the first user's messages go to the second and anyone else's go to the first |
| ChatConsumers.OutsiderAddressesFirstUser | chat/consumers.py:64-69 | a sender who is not the room's first user has their messages addressed to that user, whether or not they belong to the room |
| ChatConsumers.ChannelLayer.GroupAdd | chat/consumers.py:14-17 | the channel is added to the group and no other group changes |
| ChatConsumers.ChannelLayer.GroupDiscard | chat/consumers.py:22-25 | only that channel leaves that group; an unknown group is left alone |
| ChatConsumers.ChannelLayer.GroupSend | chat/consumers.py:37-56 | every channel of the group is sent the event's frame once, no other channel is sent anything, and the broadcast is recorded |
| ChatConsumers.ChatConsumer.Connect | chat/consumers.py:10-19 | the room and group names are set from the route, the channel joins the group and the socket is accepted; no friendship is checked |
| ChatConsumers.ChatConsumer.Disconnect | chat/consumers.py:21-25 | the channel leaves its room's group |
| ChatConsumers.ChatConsumer.SaveMessageToDb | chat/consumers.py:58-72 | a message is stored iff the sender is a user, the room names a receiver and the content fits; it then has that sender, receiver and content and is the only row added |
| ChatConsumers.ChatConsumer.Receive | chat/consumers.py:27-45 | stores exactly one message with that sender, receiver and content and then sends the client's frame to every channel of the group; if storing fails nothing is sent; broadcasts always follow their storing; the clock advances once iff a message is stored |

## Findings

| source | as written | input that shows it | evidently intended | confidence | as-written member | corrected member |
|---|---|---|---|---|---|---|
| social_media/models.py:104-107 | `clean` tests `self.image is None`, but the image attribute of a model instance is always a `FieldFile` wrapper, never `None` | a post with no image and no text, `Post(pk, owner, None, None, date)`: `clean` accepts it | refuse a post with no image file (no name or an empty name) and no text | not executed | Models.PostCleanAsWrittenNeverRaises | Models.PostClean |

## Left out

- Authentication, sessions, the login form's `clean`, `authenticate`, the password-change, register, login and logout views: foreign library behaviour. The logged-in user is a parameter.
- Template rendering, redirects, URL routing, the admin, file storage and the `.url` of images: presentation and filesystem I/O. Image fields are modelled by their stored path.
- `strftime` formatting in `UserPostList.get_queryset` and the DRF serializers: library formatting. Timestamps are naturals from a logical clock.
- JSON parsing of websocket frames, the async transport and concurrent requests: one handler runs at a time. A missing key in a frame (`KeyError`) is not modelled.
- `CreatePost`, `PostForm`, `UserDetail`, `UserSearchList` and the commented-out `create_post` and post constraint: not part of the modelled core.
- Text.Lower: ASCII letters only. Python's `lower()` also maps other Unicode letters.
- Text.ParseInt: ASCII digits with an optional sign only. Python's `int()` also accepts surrounding whitespace, `_` between digits and non-ASCII Unicode decimal digits (such as Arabic-Indic digits), which the model refuses.
- Apis.Target: an `id` that is not an integer makes the source's lookup raise a server error; the model takes the id as an integer.
- Apis.Target: the id is the parsed request value. A form-encoded request carries "0" as a non-empty, truthy string, so the source answers "Invalid request Id." where the model's falsy `0` answers "Invalid request."; the model's falsy case is the JSON body with a numeric 0 or a missing id.
- Models.NormalizeEmail: lower-cases the domain in ASCII only, and does not strip surrounding whitespace as Django's `normalize_email` does when the address has an '@'.
- Models.Db.CreateMessage: treats the 500-character limit of the content column as enforced by the database. SQLite does not enforce it. `blank=False` is not checked by `objects.create`, so an empty message is stored.
- Models.PostClean: models the evidently intended check (see Findings), not the one as written; the as-written check is `PostCleanAsWritten`.
- Models.NewUser: stores the password as given. `set_password` hashing is not modelled; the model only records which password was set.
- Views.SearchUser: models the GET request only. For any other method the source never binds `context` (social_media/views.py:208), so `render` at social_media/views.py:245 raises `UnboundLocalError` and the request fails with a server error; the model has no request method and does not capture that path.
- Views.EntryOf: a post image of `None` is shown as no image, like `""`. In the source (social_media/views.py:40) `.url` of a file field with no file raises `ValueError`, so the feed fails with a server error where the model shows no image.
- Views.FeedPosts: posts with equal creation times are ordered by the insertion sort. The database leaves their order unspecified.
- ChatConsumers.ChatConsumer.Disconnect: requires a prior `connect`. Without one the source raises `AttributeError`.
- ChatConsumers.ChatConsumer.Receive: the raising paths of `save_message_to_db` end the handler with nothing stored and nothing sent:
  - an unknown sender email;
  - a room part that is not a number;
  - a missing second part;
  - an unknown receiver.
- The frame broadcast by `receive` carries the username and image path the client sent. It is echoed as is and is not checked against the sender.
