# Bright Ideas — a Dafny model of its rules

Bright Ideas is an idea board. Signed-in users post ideas, like ideas and comments, comment on
ideas, and receive notifications. Live notifications reach them over a socket.
The server is an Express/Mongoose application; the client is a React application.

This project models the rules both sides apply, and proves what they guarantee:

- **Server**
  - the schemas of ideas, comments, notifications and users, as validators;
  - the response envelope and the error normaliser;
  - the idea, comment, user and notification controllers, as stores that the operations update;
  - the JWT middleware;
  - the socket registry that routes live notifications.
- **Client**
  - the field rules of the registration, login and idea forms;
  - the list transforms of the notification context and the comment section;
  - the services' error classification;
  - the profile's reaction total;
  - the theme toggle.

What the code leaves to libraries is a parameter of the model:

- hashing and comparing passwords;
- signing and verifying tokens;
- parsing JSON;
- the outcome of each HTTP call, seen from the client;
- new ids and the current time.

JavaScript values whose truthiness matters are a datatype `Js.Val`. Strings are sequences of Unicode characters, and every length rule measures them as JavaScript's `.length` and Mongoose's `minlength` do, in UTF-16 code units (`Js.Length`): a character outside the Basic Multilingual Plane, such as an emoji, counts twice. Ids are opaque strings, and `""` stands for a missing id.

Parts of the code disagree with each other; the model follows the schemas and controllers:

- The profile page (client/src/components/UserProfile.jsx:42-43) and the idea routes (server/routes/idea.routes.js:17-18) name `supports` and `inspirations`, while the idea schema (server/models/idea.model.js:24) has one `likes` list, toggled by `toggleLike`.
- The notification schema's type enum is `like`/`comment` (server/models/notification.model.js:6), while the dispatcher's allow-list is `support`, `inspiration` and `comment` (server/controllers/notification.controller.js:5). So only `comment` notifications can be stored (`NotificationController.OnlyCommentAdmitted`).
- The dispatcher passes a `content` field (server/controllers/notification.controller.js:68) that the notification schema has no path for. Mongoose's strict mode drops it, so stored notifications have no content.
- The comment controller names the owner `creator` (server/controllers/comment.controller.js:15, 51, 98), while the comment schema's path is `author`. See "Findings".
- The profile page sums `supports` and `inspirations`. Server ideas carry neither, so the total is always 0 (`UserProfile.ServerIdeasShowNoReactions`).

## Model

| member | source | states |
|---|---|---|
| Js.Trim | client/src/components/Register.jsx:31 | the result is empty exactly when the input is all blanks, has no surrounding blanks, is no longer than the input, and is the input itself when that had none |
| Js.Length | client/src/components/Register.jsx:41 | `.length` counts UTF-16 code units: between one and two per character, zero only for "", and one per character for text inside the Basic Multilingual Plane |
| Js.LengthConcat | client/src/components/Register.jsx:41 | the length of a concatenation is the sum of the lengths |
| Js.LengthPrefix | client/src/components/Register.jsx:41 | dropping characters from the end never makes the `.length` larger |
| Js.LengthSuffix | client/src/components/Register.jsx:41 | dropping characters from the front never makes the `.length` larger |
| Js.LengthBmp | client/src/components/Register.jsx:41 | for text inside the Basic Multilingual Plane the `.length` is the number of characters |
| Js.TrimLength | client/src/components/Home.jsx:48-54 | trimming never makes the `.length` larger |
| Js.EmojiCountTwice | client/src/components/Register.jsx:41 | three emoji are three characters and six code units |
| Js.Capitalize | client/src/components/AuthForm.jsx:26 | same length and tail; a lower-case first letter becomes its own capital (`toUpperCase`), any other is kept |
| Js.ParseIntDecimal | server/controllers/notification.controller.js:11-12 | `parseInt` of a decimal digit string is its value |
| Js.DecimalUnsigned | server/controllers/notification.controller.js:11-12 | a decimal digit string, read as the digits after the sign, is read in base 10 to its end |
| Js.ParseIntNonNumeric | server/controllers/notification.controller.js:11-12 | `parseInt` of text whose first non-blank character is not a sign or digit is NaN |
| Js.ParseInt | server/controllers/notification.controller.js:11-12 | `parseInt` of a missing value, or of text that is all white space, is NaN |
| NormalizeError.Normalize | server/utils/normalizeError.js:4-24 | name, status and message fall back to 'Server Error', 500 and 'Something went wrong' when falsy; a ValidationError is 400; validations are set exactly for a ValidationError with extracted messages |
| NormalizeError.NormalizeIdempotent | server/utils/normalizeError.js:6-20 | normalising the normalised name, status and message changes none of them |
| NormalizeError.ErrorVal | server/controllers/comment.controller.js:20 | a caught error passed to `response` is truthy, so it is always sent as data |
| Response.Respond | server/utils/response.js:2-17 | the HTTP status equals the body's statusCode; data and error are included exactly when truthy, and then unchanged |
| Response.ReadBack | server/utils/response.js:4-14 | a client reading the JSON body gets the truthy data and error back, or undefined; the body never has a `response` key |
| Likes.Pull | server/controllers/idea.controller.js:58 | every occurrence of the user is removed, other members are kept, and no duplicates appear |
| Likes.Toggle | server/controllers/idea.controller.js:54-62 | the caller is in the result exactly when it was not in the list; a newcomer is appended last, and a present caller's removal shortens the list |
| Likes.ToggleMembership | server/controllers/idea.controller.js:54-62 | after a toggle the caller is a member exactly when it was not before; every other user's membership is unchanged |
| Likes.ToggleKeepsNoDuplicates | server/controllers/idea.controller.js:54-62 | toggling keeps a duplicate-free likes list duplicate-free |
| Likes.ToggleLength | server/controllers/idea.controller.js:54-62 | on a duplicate-free list a toggle changes the count by exactly one, down or up |
| Likes.PullOnce | server/controllers/idea.controller.js:58 | pulling a present user from a duplicate-free list removes exactly one entry |
| Likes.ToggleTwice | server/controllers/comment.controller.js:76-83 | two toggles restore the list (the user moves to the end when it was present) and restore membership |
| Likes.PullAppended | server/controllers/comment.controller.js:79-83 | pushing a new liker and then pulling it restores the list |
| IdeaModel.IdeaErrors | server/models/idea.model.js:5-23 | title and content are refused exactly below 5 and 25 UTF-16 code units, with the schema's messages; creator is required |
| IdeaModel.EmojiTitleLongEnough | server/models/idea.model.js:8 | a title of three emoji, three characters long, meets `minlength` 5 |
| CommentModel.CommentErrors | server/models/comment.model.js:5-18 | idea and author are required; content is optional |
| NotificationModel.NotificationErrors | server/models/notification.model.js:5-8 | recipient and idea are required; type must be 'like' or 'comment'; sender is optional |
| NotificationModel.NewNotification | server/models/notification.model.js:9 | read defaults to false; the given fields are kept |
| NotificationModel.SchemaRejectsSupportAndInspiration | server/models/notification.model.js:6 | 'support' and 'inspiration' fail the type enum; 'comment' passes |
| UserModel.DomainShape | server/models/user.model.js:17 | a domain accepted by the pattern holds a dot, no '@', and starts and ends with a label character |
| UserModel.EmailShape | server/models/user.model.js:17 | an accepted non-empty email has exactly one '@', with a non-empty local part and a dotted domain |
| UserModel.PathErrors | server/models/user.model.js:7-25 | name below 2 and password below 8 UTF-16 code units are refused; the email is refused when empty or not matching the pattern, with the schema's messages |
| UserModel.UserErrors | server/models/user.model.js:6-46 | the path errors (lengths in UTF-16 code units) plus the pre-validate hook: confirmPassword is invalid exactly when it differs from password |
| UserModel.ValidIff | server/models/user.model.js:6-46 | a new user passes validation exactly when the name and password meet their minimum lengths, the email is present and matches the pattern, and the confirmation equals the password |
| Socket.Lookup | server/utils/socket.js:40 | the socket found is defined exactly for a registered user, and is the recorded one |
| Socket.Assign | server/utils/socket.js:20-23 | registering gives the user's entry the new socket in place, or appends it for a new user; every other entry is unchanged and user keys stay unique |
| Socket.AssignLookup | server/utils/socket.js:20-23 | after registering, the user maps to the new socket and every other user to what it had |
| Socket.FirstWith | server/utils/socket.js:27-28 | the index is that of the first entry holding the socket, or the length when none does |
| Socket.DisconnectRemovesFirstOnly | server/utils/socket.js:27-32 | disconnect removes only the first entry with the socket and keeps the rest in order; with no such entry nothing changes |
| Socket.DisconnectLookup | server/utils/socket.js:26-34 | after a disconnect only the removed user is unregistered |
| Socket.StaleDisconnectKeepsNewer | server/utils/socket.js:20-34 | after a user re-registers on a new socket, the old socket's disconnect leaves the new registration |
| Socket.Route | server/utils/socket.js:39-43 | a notification is routed exactly when the server is up and the user has a truthy socket id |
| Socket.LiveRegistry.Init | server/utils/socket.js:7-8 | the server becomes initialised |
| Socket.LiveRegistry.Register | server/utils/socket.js:20-23 | the registry becomes the assigned one and stays unique |
| Socket.LiveRegistry.Disconnect | server/utils/socket.js:26-34 | the loop removes exactly the first entry with that socket |
| Socket.LiveRegistry.SendNotificationToUser | server/utils/socket.js:39-44 | exactly one 'new-notification' emit to the routed socket, or none; the registry is not touched |
| NotificationController.NumberOr | server/controllers/notification.controller.js:11-12 | `parseInt(q) || d`: the parsed number unless it is NaN or 0 |
| NotificationController.GetNotifications | server/controllers/notification.controller.js:9-25 | a missing, non-numeric or zero page gives the reply for page 1, and such a limit the reply for limit 10; otherwise the numbers `parseInt` reads are used |
| NotificationController.ForRecipient | server/controllers/notification.controller.js:15 | exactly the caller's notifications, each at most as often as stored |
| NotificationController.SortNewest | server/controllers/notification.controller.js:16 | newest createdAt first, and a permutation of the input |
| NotificationController.InsertKeepsOrder | server/controllers/notification.controller.js:16 | inserting into a newest-first list keeps it newest-first |
| NotificationController.SortKeepsMembers | server/controllers/notification.controller.js:15-16 | sorting introduces nothing new |
| NotificationController.Window | server/controllers/notification.controller.js:13-18 | a negative skip is refused; otherwise the slice from skip of at most the absolute limit, ordered as its source |
| NotificationController.List | server/controllers/notification.controller.js:9-25 | a 500 'Error retrieving notifications' exactly for a negative skip; otherwise at most the absolute limit of the caller's own notifications, newest first |
| NotificationController.DefaultQuery | server/controllers/notification.controller.js:11-18 | with no query, the first 10 of the caller's notifications, newest first |
| NotificationController.NumberOrDecimal | server/controllers/notification.controller.js:11-12 | a positive decimal query value is taken as is |
| NotificationController.ExplicitQuery | server/controllers/notification.controller.js:11-18 | positive decimal page and limit are used as given |
| NotificationController.PositivePage | server/controllers/notification.controller.js:13-18 | for page, limit >= 1 the skip is not negative and the answer is the stretch of the caller's newest-first list starting (page-1)*limit places in, `limit` long, cut short where the list ends |
| NotificationController.SkipArithmetic | server/controllers/notification.controller.js:13 | consecutive pages start limit apart |
| NotificationController.PagesTile | server/controllers/notification.controller.js:13-18 | two consecutive pages are one contiguous slice: no gap, no overlap |
| NotificationController.MarkRead | server/controllers/notification.controller.js:31-34 | only the record with that id and recipient becomes read; every record keeps its other fields and place |
| NotificationController.MarkAllRead | server/controllers/notification.controller.js:44-47 | every record of the caller becomes read; other recipients' records are unchanged |
| NotificationController.MarkAllLeavesNoUnread | server/controllers/notification.controller.js:44-47 | afterwards the caller has no unread notification |
| NotificationController.MatchIndex | server/controllers/notification.controller.js:96-99 | the index of the first record with that id and recipient, or the length |
| NotificationController.DeleteOneExact | server/controllers/notification.controller.js:96-103 | with unique ids, exactly the matching record is removed; nothing is removed when none matches |
| NotificationController.Admit | server/controllers/notification.controller.js:58-71 | a type outside support/inspiration/comment fails with the controller's message; an allowed type can still fail schema validation |
| NotificationController.OnlyCommentAdmitted | server/controllers/notification.controller.js:55-71 | only 'comment' can ever be stored: 'like' fails the controller, 'support' and 'inspiration' fail the schema |
| NotificationController.NotificationStore.MarkAsRead | server/controllers/notification.controller.js:29-39 | the store becomes MarkRead of the old one; the answer is 200 even when nothing matched |
| NotificationController.NotificationStore.MarkAllAsRead | server/controllers/notification.controller.js:42-52 | the store becomes MarkAllRead of the old one; the answer is 200 |
| NotificationController.NotificationStore.DeleteNotification | server/controllers/notification.controller.js:94-109 | removes the matching record and answers 200, or answers 404 and changes nothing |
| NotificationController.NotificationStore.IdTaken | server/controllers/notification.controller.js:63 | reports exactly whether a stored record already has the id, which is what makes the create fail with a duplicate key |
| NotificationController.NotificationStore.SendNotification | server/controllers/notification.controller.js:55-92 | a refused type, an invalid record or a taken id fails before anything is stored or emitted; otherwise the record is appended with read=false and pushed to the recipient's socket |
| IdeaController.Gate | server/controllers/idea.controller.js:73-82 | lets the request on exactly for the creator of an existing idea; otherwise 404 or 403 with the operation's message |
| IdeaController.Patch | server/controllers/idea.controller.js:85-88 | each truthy field replaces the old value; creator and likes are kept |
| IdeaController.EmptyFieldsKeepIdea | server/controllers/idea.controller.js:86-88 | an update with no truthy field leaves the idea as it was |
| IdeaController.PatchIdempotent | server/controllers/idea.controller.js:85-88 | applying the same update twice equals applying it once |
| IdeaController.PatchValidity | server/controllers/idea.controller.js:85-90 | a valid idea stays valid exactly when each given title and content meets its minimum in UTF-16 code units |
| IdeaController.IdeaStore.ToggleLike | server/controllers/idea.controller.js:48-69 | 404 without change, or the caller toggled in that idea only |
| IdeaController.IdeaStore.Update | server/controllers/idea.controller.js:71-96 | 404/403 without change; a patch that fails validation goes to the error middleware unsaved; otherwise it is saved and returned |
| IdeaController.IdeaStore.Delete | server/controllers/idea.controller.js:99-114 | only the creator removes the idea; otherwise 404 or 403 and no change |
| CommentController.NewContent | server/controllers/comment.controller.js:56 | the body's content when truthy, the old content otherwise |
| CommentController.BuildAsWritten | server/controllers/comment.controller.js:12-16 | the record created as written has no author |
| CommentController.CreateAsWritten | server/controllers/comment.controller.js:6-22 | as written, every create answers 400 'Failed to add comment' |
| CommentController.UpdateAsWritten | server/controllers/comment.controller.js:41-63 | as written, a missing comment is 404 and every existing one answers 400, whoever asks |
| CommentController.DeleteAsWritten | server/controllers/comment.controller.js:92-107 | as written, a missing comment is 404 and every existing one is forwarded and answered 500, whoever asks |
| CommentController.CreateAsWrittenNeverStores | server/controllers/comment.controller.js:12-20 | as written, no comment ever passes validation |
| CommentController.AsWrittenLocksOutAuthor | server/controllers/comment.controller.js:51-105 | as written, even the author gets 400 on update and 500 on delete, while the corrected check lets the author through |
| CommentController.Gate | server/controllers/comment.controller.js:46-53 | with the owner read from `author`, only the author of an existing comment passes; otherwise 404 or 403 |
| CommentController.ToggleMessage | server/controllers/comment.controller.js:86 | 'Unliked' exactly when the caller had liked, 'Liked' otherwise |
| CommentController.CorrectedCreateValidates | server/controllers/comment.controller.js:12-16 | with the owner stored as `author`, a comment by a signed-in user on an idea validates |
| CommentController.CommentStore.Create | server/controllers/comment.controller.js:6-22 | an invalid record or a taken id answers 400 and stores nothing; otherwise the comment is stored with no likes and answered 201 |
| CommentController.CommentStore.Update | server/controllers/comment.controller.js:41-63 | 404/403 without change; otherwise only the content changes, to the truthy body content |
| CommentController.CommentStore.ToggleLike | server/controllers/comment.controller.js:66-90 | 404 without change, or the caller toggled in that comment only, with 'Unliked'/'Liked' |
| CommentController.CommentStore.Delete | server/controllers/comment.controller.js:92-107 | only the author removes the comment; otherwise 404 or 403 and no change |
| UserController.UserData | server/controllers/user.controller.js:30 | the answer holds every field of the user but the password |
| UserController.FindByEmail | server/controllers/user.controller.js:11 | finds a user with that email exactly when one exists |
| UserController.Login | server/controllers/user.controller.js:38-73 | a token for the user is issued exactly when the email exists and the password is a string that matches its hash; an unknown email and a wrong string password give the same 400; a known email with a non-string password is forwarded as bcrypt's rejection and answered 500 |
| UserController.LoginStringFailuresAlike | server/controllers/user.controller.js:45-55 | with string passwords, an unknown email and a wrong password give identical answers |
| UserController.MissingPasswordRevealsEmail | server/controllers/user.controller.js:51 | without a password, a registered email gets a 500 and an unknown one the 400, so the answers differ |
| UserController.LoginChecked | server/controllers/user.controller.js:45-55 | corrected login: every failure, including a non-string password, is the same 400; a token exactly as before |
| UserController.LoginCheckedAgreesOnStrings | server/controllers/user.controller.js:51-55 | for string passwords the corrected login answers as the source does |
| UserController.LoginFailuresAlike | server/controllers/user.controller.js:45-55 | with the corrected login, any two failures give identical answers, whatever the body holds |
| UserController.LoginFindsOwner | server/controllers/user.controller.js:43-58 | with unique emails, a successful login (as written or corrected) is for the user holding that email |
| UserController.UserStore.Register | server/controllers/user.controller.js:8-35 | a known email is 400 and an invalid body goes to the middleware, both storing nothing; otherwise the user is stored with the hashed password, answered 201 without it, and given a token |
| JwtConfig.Decide | server/config/jwt.config.js:4-25 | no token, an expired token and any other verify error are 401 with their messages; a verified token passes the payload's id on |
| JwtConfig.Request.Authenticate | server/config/jwt.config.js:4-25 | on success `userId` is the payload's id and `next` runs once; otherwise the request is untouched |
| Services.HandleError | client/src/services/userService.jsx:10-20 | a response gives its data, or 'Unknown server error' when falsy; else a sent request gives 'No response from server'; else the error's message. The response is checked first. The notification service's `handleError` has the same three branches in the same order |
| Services.ThrownHasNoResponseData | client/src/services/userService.jsx:26 | the thrown value carries no `response`, so `err?.response?.data` on it is undefined |
| Services.MarkAsReadSends | client/src/services/notificationService.jsx:46-50 | a request is sent exactly for a truthy id |
| ClientLists.Without | client/src/context/NotificationContext.jsx:53 | the filter keeps exactly the entries with another id, in both directions, and a list without the id whole |
| ClientLists.WithoutConcat | client/src/components/CommentSection.jsx:45 | the filter distributes over concatenation, so the kept entries keep their order |
| ClientLists.WithoutIdempotent | client/src/context/NotificationContext.jsx:53 | filtering twice is filtering once |
| ClientLists.Replace | client/src/components/CommentSection.jsx:54 | same length and order; exactly the entries with the id are replaced |
| NotificationContext.MarkedRead | client/src/context/NotificationContext.jsx:31 | the copy is read, keeps its id, and keeps every other property |
| NotificationContext.MarkRead | client/src/context/NotificationContext.jsx:29-33 | exactly the entries with that id are marked read; length and order are kept |
| NotificationContext.MarkAll | client/src/context/NotificationContext.jsx:44 | every entry is marked read; length and order are kept |
| NotificationContext.UnreadCount | client/src/context/NotificationContext.jsx:59 | the count is at most the list's length, and 0 exactly when no entry is unread |
| NotificationContext.MarkAllLeavesNoUnread | client/src/context/NotificationContext.jsx:44-59 | after mark-all, unreadCount is 0 |
| NotificationContext.MarkReadCount | client/src/context/NotificationContext.jsx:29-59 | marking an id read lowers unreadCount by exactly its unread entries |
| NotificationContext.DeleteCount | client/src/context/NotificationContext.jsx:53-59 | deleting an id lowers unreadCount by the same amount |
| NotificationContext.NotificationProvider.Load | client/src/context/NotificationContext.jsx:13-24 | the fetched list replaces the state; a failure keeps it; loading ends |
| NotificationContext.NotificationProvider.MarkAsRead | client/src/context/NotificationContext.jsx:26-37 | a request goes out only for a truthy id; the list is mapped unless a sent request failed; unreadCount never grows |
| NotificationContext.NotificationProvider.MarkAllAsRead | client/src/context/NotificationContext.jsx:41-48 | on success every entry is read and unreadCount is 0; on failure nothing changes |
| NotificationContext.NotificationProvider.DeleteNotification | client/src/context/NotificationContext.jsx:50-57 | on success exactly the entries with that id are gone; on failure nothing changes |
| CommentSection.ReplaceIdempotent | client/src/components/CommentSection.jsx:54 | applying the same liked comment twice gives the list applying it once gives |
| CommentSection.AddThenDeleteRestores | client/src/components/CommentSection.jsx:34-45 | deleting a freshly prepended comment restores the list |
| CommentSection.Section.HandleAddComment | client/src/components/CommentSection.jsx:29-40 | blank input calls nothing; success prepends and clears the input; failure toasts and keeps both |
| CommentSection.Section.HandleDelete | client/src/components/CommentSection.jsx:42-49 | success removes exactly the entries with that id; failure toasts |
| CommentSection.Section.HandleLike | client/src/components/CommentSection.jsx:51-58 | the returned comment replaces the entries with its own id; failure toasts |
| CommentSection.Section.HandleUpdate | client/src/components/CommentSection.jsx:60-72 | blank content toasts and calls nothing; success replaces by id and leaves edit mode; failure toasts and stays |
| RegisterForm.InitialError | client/src/components/Register.jsx:15-21 | every field starts with a non-empty error |
| RegisterForm.LengthRule | client/src/components/Register.jsx:39-60 | no error exactly for a non-empty value within the bounds (in UTF-16 code units); a blank value gets the required message, a shorter one the too-short message, a longer one the too-long message |
| RegisterForm.FieldError | client/src/components/Register.jsx:29-65 | no error exactly when the trimmed value is accepted (name 2..30, alias 2..15, password 8..128 code units, a matching email, a confirmation equal to the password); the required, 'at least', 'at most', 'Enter a valid email' and 'Passwords do not match' messages each for its case |
| RegisterForm.PaddedPasswordNeverConfirms | client/src/components/Register.jsx:62-65 | a password with surrounding blanks can never be confirmed |
| RegisterForm.ClientAcceptedServerAccepts | client/src/components/Register.jsx:38-65 | a form the client accepts, with unpadded email and confirmation, passes the server's user schema |
| RegisterForm.PaddedConfirmPassesClientOnly | client/src/components/Register.jsx:62-65 | a confirmation equal to the password only after trimming passes the form and fails the server's hook |
| RegisterForm.ClearServerError | client/src/components/Register.jsx:68 | the field's server error is set to null; the other properties are kept |
| RegisterForm.ServerMessagesNeverShown | client/src/components/Register.jsx:88-95 | after a failed call the errors are always the 'Unknown error' fallback |
| RegisterForm.Form.Change | client/src/components/Register.jsx:29-69 | stores the raw value and rewrites that field's error only, checked against the current password |
| RegisterForm.Form.EnabledOnlyAfterEveryField | client/src/components/Register.jsx:15-27 | in register mode an enabled button means every error is empty and every field was edited |
| RegisterForm.Form.ToggleMode | client/src/components/Register.jsx:193 | switches between login and register |
| RegisterForm.Form.Submit | client/src/components/Register.jsx:71-96 | while the button is disabled (register mode with an error on record, Register.jsx:185) nothing is sent and nothing changes; otherwise calls login or register by mode, register only with every error empty and every field edited; success stores the data and navigates; failure sets the errors |
| AuthForm.AuthError | client/src/components/AuthForm.jsx:23-31 | no error exactly for a non-blank value, at least 8 UTF-16 code units (blanks counted) for the password, and equal to the password for the confirmation |
| AuthForm.RegisterPasswordRuleIsStricter | client/src/components/AuthForm.jsx:27-28 | every password the Register form accepts, this one accepts |
| AuthForm.BlankPaddedPasswordPassesHereOnly | client/src/components/AuthForm.jsx:25-28 | seven blanks and a letter pass here and fail on the Register form |
| AuthForm.Form.Change | client/src/components/AuthForm.jsx:18-34 | stores the value and writes that field's error only |
| AuthForm.Form.Submit | client/src/components/AuthForm.jsx:37-49 | calls register whatever the field errors say (only the browser's `type="email"` check, not modelled, can stop it); failure sets the errors to the data or 'Registration failed' |
| HomeForm.HomeError | client/src/components/Home.jsx:41-57 | no error exactly for a trimmed title of 5 or more code units, a trimmed content of 25 or more, and any emotional context; a blank value gets the required message and a short one the 'must be at least' message |
| HomeForm.InitialErrors | client/src/components/Home.jsx:13-17 | title and content start with errors; emotional context does not |
| HomeForm.HomeAcceptedServerAccepts | client/src/components/Home.jsx:48-55 | a title and content the form accepts pass the server's idea schema |
| HomeForm.Board.Change | client/src/components/Home.jsx:41-59 | stores the raw value, rewrites that field's error only, and nulls its server error |
| HomeForm.Board.Submit | client/src/components/Home.jsx:61-76 | creates exactly when no error is recorded; success resets data, errors and the entered flag; failure shows the server's data or 'Something went wrong' |
| HomeForm.Board.ResetBlocksResubmit | client/src/components/Home.jsx:65-70 | after the reset the form cannot be submitted |
| HomeForm.ServerAnswerShown | client/src/components/Home.jsx:74 | the raw error's truthy data is shown as is |
| EditIdea.LoadsServerIdea | client/src/components/EditIdea.jsx:22-24 | loading an idea as the server sends it fills the form with its title, content and emotional context |
| EditIdea.MissingFieldsLoadEmpty | client/src/components/EditIdea.jsx:22-24 | absent fields load as '' |
| EditIdea.ClientAcceptsWhatSchemaRefuses | client/src/components/EditIdea.jsx:35 | content of 20 to 24 code units passes this check and fails the idea schema |
| EditIdea.Editor.Load | client/src/components/EditIdea.jsx:17-31 | a loaded object fills the fields; a failure or a null idea sets 'Could not load idea' |
| EditIdea.Editor.EditTitle | client/src/components/EditIdea.jsx:64 | the title becomes the typed value and counts as edited |
| EditIdea.Editor.EditContent | client/src/components/EditIdea.jsx:76 | the content becomes the typed value and counts as edited |
| EditIdea.Editor.EditEmotionalContext | client/src/components/EditIdea.jsx:91 | the emotional context becomes the typed value and counts as edited |
| EditIdea.Editor.Submit | client/src/components/EditIdea.jsx:33-81 | with no form shown, or when the browser's required, minLength and maxLength checks refuse, nothing happens; otherwise content under 20 code units (blanks counted) sets the error and sends nothing, and other content is sent, then the page navigates or shows 'Update failed' |
| EditIdea.Editor.HandlerErrorOnlyForLoadedContent | client/src/components/EditIdea.jsx:35-37 | the handler's length message can appear only for non-empty content the load effect put there, never for typed content |
| UserProfile.Posts | client/src/components/UserProfile.jsx:20 | an array is kept; anything else becomes [] |
| UserProfile.TotalReactions | client/src/components/UserProfile.jsx:41-45 | the empty list totals 0 |
| UserProfile.TotalConcat | client/src/components/UserProfile.jsx:41-45 | the total of two runs of posts is the sum of their totals |
| UserProfile.NoArraysNoReactions | client/src/components/UserProfile.jsx:42-44 | posts without supports or inspirations arrays total 0 |
| UserProfile.ServerIdeasShowNoReactions | client/src/components/UserProfile.jsx:41-45 | the server's ideas always total 0 reactions |
| ThemeContext.Toggle | client/src/context/ThemeContext.jsx:44-46 | dark exactly when the previous mode is 'light', light otherwise |
| ThemeContext.ToggleTwice | client/src/context/ThemeContext.jsx:44-46 | two toggles from either theme return it |
| ThemeContext.ToggleTwiceNormalises | client/src/context/ThemeContext.jsx:45 | two toggles from any saved theme give the built-in theme of the same kind |
| ThemeContext.InitialTheme | client/src/context/ThemeContext.jsx:32-36 | a non-empty saved string is parsed; otherwise the light theme |
| ThemeContext.Provider.ToggleTheme | client/src/context/ThemeContext.jsx:44-46 | the theme becomes the toggle of the old one, always one of the two built-in themes |

## Left out

- I/O, libraries and runtime
  - HTTP transport, routes, cookies and `server.js`.
  - Socket.io transport: emits are recorded in an outbox.
  - `populate`, Mongoose casting and database failures: the catch branches for a failing store are not modelled.
  - bcrypt, jsonwebtoken and `JSON.parse` are parameters.
  - Clocks: `now` and `createdAt` are given numbers.
  - localStorage persistence of the theme and `console` logging.
- Concurrency
  - The read-modify-write race of concurrent toggles.
  - Interleavings of disconnect and send on the event loop.
  - Each operation is one sequential step.
- React
  - Batched `setState` and stale closures: each handler acts on the current state.
  - Rendering, toasts' appearance, navigation targets.
  - Components that only render: IdeaForm, CommentCard, ideaCard, IdeaList, Navbar, ThemeToggle, LikeStatus, PrivateRoute, EditProfile.
- Operations outside the modelled rules
  - idea `create`, `getAll` and `getOne`;
  - comment `getAllByIdea`;
  - user `logout`;
  - `initSocket`'s server options;
  - the profile page's user fetch.
- `extractValidationErrors` (server/utils/ErrorExtractor.js) is not part of this model: its result is a parameter.
- Mongoose's full ValidationError messages ("Idea validation failed: …") are abbreviated to the model's name.
- Js.Trim: the white space removed is tab, vertical tab, form feed, the byte-order mark, the Unicode space separators (U+0020, U+00A0, U+1680, U+2000 to U+200A, U+202F, U+205F, U+3000) and the line terminators (LF, CR, U+2028, U+2029), as of Unicode 15; a later Unicode version that adds a space separator is not followed.
- Js.Length: strings are sequences of Unicode scalar values, so a lone surrogate, which a JavaScript string may hold, is not representable.
- EditIdea.Editor.Submit: the browser's minLength and maxLength checks apply to a value the user has typed (`EditTitle`, `EditContent`, `EditEmotionalContext`); that maxLength also stops typing past the limit is not modelled, so an edit may be any string.
- CommentSection.Section.HandleAddComment: the text input's maxLength of 200 only stops typing; the model accepts any typed text.
- UserController.Login: the email is a string; a body whose email is missing or not a string, which Mongoose casts or drops from the query, is not modelled.
- AuthForm.Form.Submit: the browser's own check of the `type="email"` input (client/src/components/AuthForm.jsx:78-79), which refuses a non-empty value outside HTML's email grammar before `handleSubmit` runs, is not modelled; the model counts a register call on every submit.
- RegisterForm.Form.Submit: the browser's own check of the `type="email"` input, which refuses a non-empty value outside HTML's email grammar, is not modelled.
- Socket.LiveRegistry: the registry keeps registration order, while `Object.entries` lists integer-like keys first; for numeric user ids the first match found on disconnect can differ. MongoDB ObjectId strings are never integer-like.
- NotificationController.SortNewest: MongoDB leaves the order of equal `createdAt` values open; the model fixes one order and proves only newest-first and permutation.
- EditIdea.Editor.Load: a truthy non-string value under title, content or emotionalContext is not modelled; the schema stores strings there.
- RegisterForm.ClearServerError: spreading a string's characters into the error object is not modelled; a non-object spreads to nothing.
- ThemeContext.Provider.ToggleTheme: requires a theme that is not null or undefined; the source throws on one, for example a saved "null".
- UserProfile.TotalReactions: requires posts that are not null or undefined; the source throws on one.
- JavaScript numbers are integers here: NaN, -0 and fractional `parseInt` inputs beyond the digit prefix are not modelled.

## Findings

| source | as written | input that shows it | evidently intended | confidence | as-written member | corrected member |
|---|---|---|---|---|---|---|
| server/controllers/user.controller.js:51 | `bcrypt.compare` is awaited on whatever `password` the body holds, and its rejection goes to the error middleware | a body `{ email }` naming a registered email and no password answers 500 'data and hash arguments required'; the same body with an unknown email answers 400 'Invalid email or password' | refuse a missing or non-string password with the same 400, so a failed login never reveals whether the email is registered | medium, not executed | UserController.MissingPasswordRevealsEmail | UserController.LoginChecked |
| server/controllers/comment.controller.js:12-16 | the owner is written to `creator` and read back from `comment.creator`, which is not a schema path; the schema requires `author` | any create: `{ content: "hi" }` on idea `i1` by user `u1` fails validation; any existing comment's author updating or deleting it gets 400 or 500 | store and check the owner under the schema's `author` | high, not executed | CommentController.CreateAsWritten | CommentController.CommentStore.Create |
