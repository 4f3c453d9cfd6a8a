# Chat client core in Dafny

This project models the logic core of a real-time chat web client written in
TypeScript with React and zustand. The model covers:

- the input validators (email, password, username, chat message);
- the chat store: the message list, the online users, the loading and error
  flags, and the two realtime subscription slots;
- the auth store and the auth service that turns a backend reply into a
  `{ user, session, error }` response and keeps the `auth_token` slot;
- the gatekeeping logic of the login form, the registration form and the
  chat view: per-field errors, the validation gate in front of the store
  calls, the send button's disabled rule, and the mount/unmount effect.

Each store, form and view is a `class` whose fields are the state the source
updates in place, and each action is a `method` with a `modifies` clause.
Pure computations are functions: the email test, a reply-to-response mapping,
list reversal, the replace-by-id update, and `trim`. Every asynchronous
action is one atomic step. What the backend or browser answers is a
parameter: a resolved value, or a rejection carrying an `Error` message or
some other thrown value (`Types.Settled`). JavaScript truthiness of optional
strings is written out (`Types.Truthy`), because the source tests
`response.error`, `errors[name]` and `messageError` for truthiness.

Validators push messages onto a local list in a fixed order. They are
methods doing the same, proved equal to `FailedMessages` of the validator's
list of rules. The lemmas about `FailedMessages` give the order, the
membership of each message, and the first message.

Modules: `Types`, `Text` (the `\s` class and `trim`), `Validation`,
`ChatStore`, `AuthClient` (the auth service), `AuthStore`, `LoginForm`,
`RegisterForm` and `ChatRoom`.

## Model

| member | source | states |
|---|---|---|
| Text.TrimStart | src/utils/validation.ts:61 | the result is a suffix of the input, everything removed is white space, and the result does not start with white space |
| Text.TrimEnd | src/utils/validation.ts:61 | the result is a prefix of the input, everything removed is white space, the result does not end with white space, and it is empty exactly when the input is blank |
| Text.TrimEmptyIffBlank | src/utils/validation.ts:61 | `s.trim()` is empty exactly when every character of `s` is white space |
| Validation.FailedMessages | src/utils/validation.ts:9-25 | a validator reports at most one message per rule |
| Validation.FailedMessagesEmpty | src/utils/validation.ts:27-30 | no message is reported exactly when every rule passes |
| Validation.FailedMessagesSnoc | src/utils/validation.ts:9-25 | running one more rule after the others adds its message, if it fails, at the end of the list |
| Validation.FailedMessagesOfTwo | src/utils/validation.ts:59-67 | the messages of a two-rule validator are those of the first rule, then those of the second |
| Validation.FailedMessagesOfThree | src/utils/validation.ts:36-48 | the messages of a three-rule validator, in rule order |
| Validation.FailedMessagesOfFour | src/utils/validation.ts:9-25 | the messages of a four-rule validator, in rule order |
| Validation.FailedMessagesMember | src/utils/validation.ts:9-25 | a message is reported exactly when some failing rule carries it |
| Validation.FailedMessagesFirst | src/utils/validation.ts:9-25 | the first message reported is that of the first failing rule |
| Validation.ValidateEmailHasShape | src/utils/validation.ts:1-4 | an accepted address has no white space and exactly one '@', with a non-empty local part and a '.' inside the domain that is neither its first nor its last character |
| Validation.ShapeIsValidEmail | src/utils/validation.ts:1-4 | every address of that shape is accepted by the regular expression |
| Validation.ValidateEmailIffShape | src/utils/validation.ts:1-4 | validateEmail accepts exactly the addresses of that shape |
| Validation.EmptyEmailRejected | src/utils/validation.ts:1-4 | the empty string is not a valid email |
| Validation.FirstPasswordError | src/utils/validation.ts:9-25 | a rejected password has a first message, and for a password shorter than 6 characters it is the length message |
| Validation.PasswordErrorsMeaning | src/utils/validation.ts:9-30 | each password message is reported exactly when its rule fails; no message exactly for a strong password; a short password gets the length message first; at most four messages |
| Validation.ValidatePassword | src/utils/validation.ts:6-31 | the errors are the failed rules' messages in the order length, uppercase, lowercase, digit; isValid holds exactly when there are none, that is for a strong password |
| Validation.ValidateUsername | src/utils/validation.ts:33-54 | the errors are the failed rules' messages in order; the username is valid exactly when its length is in [3, 20] and it uses only letters, digits and '_' (20 itself is accepted); the two length messages never occur together; "" gets the length and the charset messages |
| Validation.ValidateMessage | src/utils/validation.ts:56-73 | the message is valid exactly when it is not blank and has at most 1000 characters; a blank message over the limit gets both messages, the empty one first; the first message is the empty one for a blank message, otherwise the length one |
| ChatStore.Reverse | src/stores/chat/chatStore.ts:45 | reversing keeps the length |
| ChatStore.ReverseAt | src/stores/chat/chatStore.ts:45 | element k of the reversed list is element n-1-k of the original |
| ChatStore.ReverseReverse | src/stores/chat/chatStore.ts:45 | reversing twice gives back the fetched list |
| ChatStore.ReverseNewestFirst | src/stores/chat/chatStore.ts:44-45 | a newest-first page becomes an oldest-first list |
| ChatStore.ReplaceById | src/stores/chat/chatStore.ts:92-96 | the length is kept; each entry with the user's id becomes the user and the others are unchanged |
| ChatStore.ReplaceByIdKeepsIds | src/stores/chat/chatStore.ts:92-96 | no user is added, removed or moved: the id at every position is kept |
| ChatStore.ReplaceByIdAbsent | src/stores/chat/chatStore.ts:92-96 | an update for a user who is not listed changes nothing |
| ChatStore.ReplaceByIdIdempotent | src/stores/chat/chatStore.ts:92-96 | applying the same status update twice equals applying it once |
| ChatStore.OccurrencesAppend | src/stores/chat/chatStore.ts:86-90 | appending a message adds one occurrence of it, whatever the list held |
| ChatStore.ChatStore.constructor | src/stores/chat/chatStore.ts:34-39 | empty lists, not loading, no error, no channels |
| ChatStore.ChatStore.LoadMessages | src/stores/chat/chatStore.ts:41-52 | a fetched page replaces the list, reversed, and clears the error; a rejection keeps the list and records "Failed to load messages"; loading ends low; nothing else changes |
| ChatStore.ChatStore.SendMessage | src/stores/chat/chatStore.ts:54-75 | the inserted row is appended at the tail, a null row changes nothing, a rejection records "Failed to send message"; the loading flag and the rest are untouched |
| ChatStore.ChatStore.LoadOnlineUsers | src/stores/chat/chatStore.ts:77-84 | a fetched list replaces the online users; a rejection records "Failed to load online users" |
| ChatStore.ChatStore.AddMessage | src/stores/chat/chatStore.ts:86-90 | the message is appended without any duplicate check: the length grows by one, the old list is a prefix, and the message occurs once more |
| ChatStore.ChatStore.UpdateUserStatus | src/stores/chat/chatStore.ts:92-96 | the online users become the replace-by-id update of the old list; nothing else changes |
| ChatStore.ChatStore.SubscribeToMessages | src/stores/chat/chatStore.ts:98-107 | with a channel already held nothing happens and the service is not called; otherwise the offered channel is kept |
| ChatStore.ChatStore.SubscribeToUserStatus | src/stores/chat/chatStore.ts:109-118 | the same guard over the user-status slot |
| ChatStore.ChatStore.Unsubscribe | src/stores/chat/chatStore.ts:120-132 | exactly the channels held are released, message channel first; both slots end empty; it is safe with none held |
| ChatStore.ChatStore.ClearError | src/stores/chat/chatStore.ts:134-136 | only the error is reset |
| ChatStore.SendThenEcho | src/stores/chat/chatStore.ts:67-71 | a sent row that also arrives through the realtime insert is shown twice |
| ChatStore.SubscribeTwiceThenUnsubscribe | src/stores/chat/chatStore.ts:98-132 | a second subscribe is a no-op, unsubscribe releases the first channel only, and a later subscribe is accepted again |
| ChatStore.LoadTwice | src/stores/chat/chatStore.ts:41-45 | a second load replaces the first: only the second page is shown, oldest first |
| AuthClient.PayloadOf | src/lib/auth/authService.ts:12-16 | the payload's `name` is the credentials' username; email and password are passed on |
| AuthClient.ResponseOf | src/lib/auth/authService.ts:29-57 | a user exactly when the reply has no error and has a user and a token; a session exactly with a user, holding the token; an error exactly without a user |
| AuthClient.ErrorReplyPassedOn | src/lib/auth/authService.ts:29-31 | a reply with an error gives no user, no session and that error |
| AuthClient.IssuedReplyMapped | src/lib/auth/authService.ts:33-45 | a reply with a user and a token gives that user, with `name` as username and no avatar |
| AuthClient.IncompleteReplyFails | src/lib/auth/authService.ts:47 | a reply with neither an error nor a user and token gives the fallback message |
| AuthClient.ThrownReplyFails | src/lib/auth/authService.ts:48-57 | a thrown Error gives its message; anything else thrown gives "An unexpected error occurred" |
| AuthClient.ResponseDecides | src/lib/auth/authService.ts:29-57 | every response has a user or a truthy error, unless the call threw an Error with an empty message |
| AuthClient.AuthService.constructor | src/lib/auth/authService.ts:121 | the token slot holds what the browser stored |
| AuthClient.AuthService.SignUp | src/lib/auth/authService.ts:10-58 | the payload renames username to name; the response is the mapping with "Registration failed"; the token is stored exactly when the reply issued one |
| AuthClient.AuthService.SignIn | src/lib/auth/authService.ts:60-108 | the response is the mapping with "Login failed"; the token is stored exactly when the reply issued one |
| AuthClient.AuthService.SignOut | src/lib/auth/authService.ts:110-117 | the token slot is emptied |
| AuthClient.AuthService.GetCurrentUser | src/lib/auth/authService.ts:119-131 | the answer is null whether or not a token is stored |
| AuthClient.AuthService.GetSession | src/lib/auth/authService.ts:133-136 | a session exactly when a non-empty token is stored, holding that token |
| AuthClient.SignInThenSession | src/lib/auth/authService.ts:82-95 | after a sign-in that issued a token, the session holds that token |
| AuthClient.SignOutThenSession | src/lib/auth/authService.ts:110-136 | after signing out there is no session |
| AuthStore.UserAfter | src/stores/auth/authStore.ts:36-46 | a settled signIn or signUp replaces the user only with the answer's own user, and does so whenever the answer has a user and no truthy error |
| AuthStore.ErrorAfter | src/stores/auth/authStore.ts:37-51 | an error is left exactly when the call rejected ("An unexpected error occurred") or answered a truthy error (that error) |
| AuthStore.LoadingAfter | src/stores/auth/authStore.ts:34-51 | the loading flag stays raised exactly for an answer with neither a truthy error nor a user, and then no error is shown |
| AuthStore.AuthStore.constructor | src/stores/auth/authStore.ts:27-31 | no user, not authenticated, not loading, no error; the invariant `isAuthenticated == (user != null)` holds |
| AuthStore.AuthStore.Authenticate | src/stores/auth/authStore.ts:33-53 | the shared body of signIn and signUp keeps the invariant and settles the store as the response says |
| AuthStore.AuthStore.SignIn | src/stores/auth/authStore.ts:33-53 | a truthy error is recorded and the user kept; a user is signed in with the error cleared; a rejection records "An unexpected error occurred"; a response with neither leaves loading raised |
| AuthStore.AuthStore.SignUp | src/stores/auth/authStore.ts:55-75 | the same outcomes as signIn, for the sign-up response |
| AuthStore.AuthStore.SignOut | src/stores/auth/authStore.ts:77-93 | on success no user, not authenticated, no error; on failure the user is kept and "Error signing out" recorded; loading ends low |
| AuthStore.AuthStore.GetCurrentUser | src/stores/auth/authStore.ts:95-119 | the user becomes what the service answers, or none when it answers null or throws; the error is untouched |
| AuthStore.AuthStore.ClearError | src/stores/auth/authStore.ts:121-123 | only the error is reset |
| AuthStore.AuthStore.SetUser | src/stores/auth/authStore.ts:125-130 | the user is set and the flag follows it; nothing else changes |
| AuthStore.SignInThroughService | src/stores/auth/authStore.ts:33-53 | through the real service the store never stays loading (except for a thrown Error with an empty message); an issued token both signs in and is stored; otherwise user and token are kept |
| LoginForm.EmailErrorOf | src/components/auth/LoginForm.tsx:39-43 | "Email is required" for an empty email, "Please enter a valid email" for any other malformed one, no message exactly when the email is valid |
| LoginForm.PasswordErrorOf | src/components/auth/LoginForm.tsx:45-49 | "Password is required" when empty, the 6-character message for 1 to 5 characters, no message exactly from 6 characters on |
| LoginForm.LoginForm.constructor | src/components/auth/LoginForm.tsx:10-16 | empty fields and no errors |
| LoginForm.LoginForm.HandleChange | src/components/auth/LoginForm.tsx:26-34 | only the named field changes; its error is cleared only if one was shown; the other error is untouched |
| LoginForm.LoginForm.ValidateForm | src/components/auth/LoginForm.tsx:36-53 | the email and password errors follow their precedence, "required" first; the form passes exactly when no error is set, that is for a valid email and a password of at least 6 characters |
| LoginForm.LoginForm.HandleSubmit | src/components/auth/LoginForm.tsx:55-60 | the errors shown are those validateForm computes; signIn is called, with the form data, exactly when validation passes, and the store is left as that call settles it; otherwise the auth store is untouched |
| RegisterForm.Errors.With | src/components/auth/RegisterForm.tsx:48 | the spread update sets one member and keeps the others |
| RegisterForm.Errors.KeyCount | src/components/auth/RegisterForm.tsx:91 | the object has no key exactly when no member is set |
| RegisterForm.FormErrorsEmptyIffValid | src/components/auth/RegisterForm.tsx:60-91 | the errors object has no key exactly when the email is valid, the name is given and passes its check, the password is strong and the confirmation matches |
| RegisterForm.EmptyFieldsRequired | src/components/auth/RegisterForm.tsx:60-88 | every empty input gets its "required" message, which wins over a content message |
| RegisterForm.ShortPasswordMessage | src/components/auth/RegisterForm.tsx:75-81 | a non-empty password shorter than 6 characters is shown the length message; any non-empty weak password is shown one of the four password messages |
| RegisterForm.SilentNameRejection | src/components/auth/RegisterForm.tsx:68-73 | a name whose check fails with no message still sets the name key, so the form is refused with no message shown for the name |
| RegisterForm.RegisterForm.constructor | src/components/auth/RegisterForm.tsx:14-25 | empty fields and no errors |
| RegisterForm.RegisterForm.HandleChange | src/components/auth/RegisterForm.tsx:42-50 | only the named field changes; its error becomes undefined only if one was shown; the other errors are untouched |
| RegisterForm.RegisterForm.ValidateForm | src/components/auth/RegisterForm.tsx:52-92 | the errors object is rebuilt from scratch as the field rules say, and the form passes exactly when it has no key, that is when every field passes |
| RegisterForm.RegisterForm.HandleSubmit | src/components/auth/RegisterForm.tsx:94-109 | no store call when validation fails; otherwise signUp with email, password and name, then signIn with the same email and password, the whole errors object is the one validateForm builds; the store's loading flag and error are those signIn settles to, and its user is signIn's, else the one signUp left |
| ChatRoom.ChatRoom.constructor | src/components/chat/ChatRoom.tsx:23-24 | empty input and no error |
| ChatRoom.ChatRoom.SendDisabled | src/components/chat/ChatRoom.tsx:294 | the send button is disabled exactly when the input is white space only, which is when validateMessage reports it empty |
| ChatRoom.ChatRoom.OnInputChange | src/components/chat/ChatRoom.tsx:266-269 | the text is replaced and any shown error is cleared |
| ChatRoom.ChatRoom.HandleSendMessage | src/components/chat/ChatRoom.tsx:55-69 | no user: nothing happens; invalid content: the first validation error is shown and nothing is sent; valid content: the error is cleared, sendMessage gets the content and the user's id, name and avatar, and the input is emptied |
| ChatRoom.ChatRoom.Mount | src/components/chat/ChatRoom.tsx:27-33 | with a user, messages and online users are loaded and both channels subscribed; without one the store is untouched |
| ChatRoom.ChatRoom.Cleanup | src/components/chat/ChatRoom.tsx:35-37 | unsubscribe runs: the held channels are released and both slots end empty |
| ChatRoom.MountThenCleanup | src/components/chat/ChatRoom.tsx:27-37 | mounting for a user and then unmounting releases exactly the two channels the mount opened |
| ChatRoom.BlankThenValidSend | src/components/chat/ChatRoom.tsx:55-69 | a blank message shows "Message cannot be empty"; a valid one typed next is sent and its row appended |

## Left out

- The chat service, the API service and the Supabase auth sync are not part of this model. Their answers are parameters: a page of messages, an inserted row or null, a user list, a channel handle, or a rejection.
- ChatStore.ChatStore.LoadMessages: the chat service's `getMessages` turns backend errors into an empty list, so in the running client the store's rejection branch is reached only by errors outside that call. The model keeps the store's branch as written.
- ChatStore.ChatStore.SendMessage: the chat service's `sendMessage` (src/lib/chat/chatService.ts:25-53) catches every error and answers null, so through the real service the "Failed to send message" branch is never reached and a failed insert is silently not shown. The model keeps the store's branch as written; the null answer is the no-row case.
- ChatStore.ChatStore.LoadOnlineUsers: the chat service's `getOnlineUsers` (src/lib/chat/chatService.ts:55-73) catches every error and answers an empty list, so through the real service the "Failed to load online users" branch is never reached. The model keeps the store's branch as written.
- ChatRoom.ChatRoom.Mount: the mount effect starts loadMessages and loadOnlineUsers without awaiting them. The model settles them in call order, messages first. When both fail, the client shows the message of whichever settles last, so the model's "Failed to load online users" is one of the two possible outcomes.
- AuthStore.AuthStore.SignIn: the auth service catches everything and never rejects, so the store's catch branch cannot be reached through it. `AuthStore.SignInThroughService` shows the path through the service.
- `validateName` is imported by the registration form but not defined by the validation module. Its result for the current name is a parameter of `RegisterForm.RegisterForm.ValidateForm`.
- The auto-login error message and the `localStorage` check after registration, and every redirect and `setTimeout` in the forms, are left out: they are navigation and timing.
- `console.log`, JSX, scrolling to the newest message and `handleSignOut` (a plain call of the store's signOut) are left out.
- The input's `maxLength={1000}` is a browser limit on typing; the model lets the text be any string, which validateMessage then judges.
- AuthGuard, the date formatting helpers and the presentational components are left out: they are navigation, wall-clock formatting and markup.
- Interleaving of asynchronous actions and the realtime transport are not modelled. Each action is one atomic step.
- Timestamps are the instants they denote (`int`), not ISO strings.
- String length is the sequence length of the model's strings, one element per character. JavaScript counts UTF-16 code units, so a character outside the Basic Multilingual Plane (an emoji, say) counts once here and twice in the client. The bounds on password length (at least 6), username length (3 to 20) and message length (at most 1000) therefore agree with the client only for text within that plane. There is no Unicode normalisation.
