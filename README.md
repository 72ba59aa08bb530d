# Margdarshi: session and chat pipeline, modelled in Dafny

Margdarshi is a web app. A logged-in user asks questions and gets answers from an AI service, framed by the Bhagavad Gita. This project models the parts of it that hold real logic:

- **Chat handler** (`ChatController`). This is the server's `POST /api/chat/geeta` handler, written as one pure function. It validates the question, makes at most one AI call with the trimmed text, and maps every AI failure to a fixed reply. The AI service is a parameter, a function from the question sent to the outcome. The handler returns its reply together with the list of questions it sent to the AI, so "at most one call, only after validation, with the trimmed text" is a property of that list.
- **Client session** (`AuthContext`). This covers the stored-token slot, the `Authorization` header, the decoded user and the `loading` flag. `Session` is that state as a value. `Restore`, `AfterLogin`, `LoggedOut` and `Register` are the transitions. The class `AuthProvider` holds the same state in fields, and each of its methods is proved to make exactly its transition. `jwtDecode` is a parameter, a partial function `string -> Option<Claims>`. The server's replies and `Date.now()` are parameters too.
- **Signup page** (`SignupPage`). `Validate` is the ordered five-step check. It is proved equal to "the message of the first failing step" over an explicit list of the steps. The class `SignupForm` covers `handleChange` and `handleSubmit`.
- **Login page** (`LoginPage`). The class `LoginForm` covers the empty-field guard, `loading`, and the result of calling `login`.
- **Chat page** (`ChatPage`). The class `ChatView` holds the transcript and the input/loading/typing fields. Its invariant says the transcript is the greeting followed by alternating user and AI messages, and that it ends on a user message exactly while a request is pending.

Shared pieces:

- `JsText`: the JavaScript white-space set and `String.prototype.trim`.
- `JsParseInt`: `parseInt` without a radix, following ECMAScript section 19.2.5. This includes the `0x`/`0X` prefix, which switches to radix 16, so `validateForm` would accept the age `"0x14"` as 20; the page's number input cannot produce that value. Decimal parsing stops at the first non-digit, so `"13.9"` is read as 13 and `"1e2"` as 1.
- `EmailPattern`: the regular expression `/\S+@\S+\.\S+/`. Its literal meaning (some substring matches) is proved equivalent to a two-separator condition that can be computed.
- `Navigation`: where a page sends the browser, with its optional state message.

Each page handler has three methods. `BeginSubmit` runs up to the network call. `CompleteSubmit` runs after the call returns. `Submit` composes the two with the session, or with the reply the request ended with. Because of this split, the state while a request is pending (`loading`, `typing`) is visible in the model.

`Scenario` holds two separate scenarios. `LogInThenReload` logs in and then reloads the page, building a new session from the stored token. `AskOnChatPage` starts from a fresh chat page and asks "What is dharma?" against the server handler. The second does not depend on the session of the first.

Error detail is attached only when `NODE_ENV` is exactly `development` (backend/controllers/chatController.js:65), not in every non-production mode; `IsDevelopment` does the same.

## Model

| member | source | states |
|---|---|---|
| JsText.LeadingSpace | backend/controllers/chatController.js:22 | the count is the longest prefix of white space: every counted character is white space and the next one is not |
| JsText.TrailingSpace | backend/controllers/chatController.js:22 | the count is the longest suffix of white space, with the character before it not white space |
| JsText.Trim | backend/controllers/chatController.js:22 | `trim` returns a contiguous slice of the input, everything removed is white space, the result neither starts nor ends with white space, and it is empty exactly when the input is all white space |
| JsText.TrimPadded | frontend/src/pages/ChatPage.jsx:30-32 | padding a trimmed string with white space on either side and trimming gives that string back |
| JsText.TrimIdempotent | backend/controllers/chatController.js:22 | trimming twice equals trimming once |
| JsParseInt.DigitRun | frontend/src/pages/SignupPage.jsx:38 | the digit run read by `parseInt` is the longest prefix of digits of the radix |
| JsParseInt.ParseInt | frontend/src/pages/SignupPage.jsx:38 | `parseInt` gives NaN exactly when no digit follows the white space, the sign and the hex prefix; a negative result needs a minus sign |
| JsParseInt.ParseIntOfDecimal | frontend/src/pages/SignupPage.jsx:38 | white space, an optional sign, a decimal number, and then anything that does not continue the number, parse to exactly that signed number |
| JsParseInt.DecimalReadBack | frontend/src/pages/SignupPage.jsx:38 | `parseInt(String(n))` is `n` for every natural number |
| JsParseInt.ParseIntBounds | frontend/src/pages/SignupPage.jsx:38-41 | the boundary ages "13" and "120" parse to 13 and 120 |
| JsParseInt.ParseIntHex | frontend/src/pages/SignupPage.jsx:38 | "0x14" parses to 20, so `validateForm` would accept it as an age; the page's number input cannot produce that value |
| JsParseInt.ParseIntNaN | frontend/src/pages/SignupPage.jsx:39 | "", "abc" and "0x" are NaN |
| EmailPattern.RegexMatches | frontend/src/pages/SignupPage.jsx:33 | the literal, unanchored reading of `/\S+@\S+\.\S+/.test(email)`: some substring is a non-space run, `@`, a non-space run, `.`, a non-space run |
| EmailPattern.HasEmailShape | frontend/src/pages/SignupPage.jsx:33 | the e-mail test the form runs: an `@` with a non-space character before it, then non-space characters up to a `.` that has a non-space character after it |
| EmailPattern.EmailShapeIsRegex | frontend/src/pages/SignupPage.jsx:33 | the two-separator condition holds exactly when some substring matches `\S+@\S+\.\S+` |
| EmailPattern.NoSeparatorNoMatch | frontend/src/pages/SignupPage.jsx:33 | a string with no `@`, or with no `.`, is not an e-mail address |
| EmailPattern.EmailExamples | frontend/src/pages/SignupPage.jsx:33-36 | `validateForm`'s test is unanchored ("mail: a@b.c!" passes it, though the browser's e-mail input would refuse that value first), and "arjun@gita" fails |
| ChatController.Validate | backend/controllers/chatController.js:13-29 | the question is refused as invalid exactly when it is not a string or is blank; as too long exactly when its trimmed text exceeds 1000; otherwise the trimmed text, of length 1 to 1000, goes on |
| ChatController.Classify | backend/controllers/chatController.js:48-60 | an upstream 429 is rate limiting, an upstream 401 is misconfiguration, and everything else, including no status at all, is unknown |
| ChatController.MessageOf | backend/controllers/chatController.js:17-64 | the five fixed messages, one per error class; the apology is exactly the message of unclassified errors |
| ChatController.MessagesDistinct | backend/controllers/chatController.js:17-64 | two error classes share a message only when they are the same class |
| ChatController.IsDevelopment | backend/controllers/chatController.js:65 | strict equality with "development": unset, "production", "test" or "Development" do not count |
| ChatController.StatusOf | backend/controllers/chatController.js:13-66 | every error class is reported as 400, 429 or 500 |
| ChatController.Handle | backend/controllers/chatController.js:7-68 | at most one AI call, none when validation fails, otherwise exactly one with the trimmed question; success exactly when the AI answered, with status 200, the question echoed and the answer unchanged; the status is always one of 200/400/429/500 and never 401; it is 429 exactly for an upstream 429; a refused question gets 400, no detail and the message of its own validation error; a thrown AI error gets the status and message of its own class; error detail appears only in development, only for unclassified errors, and is then the error's own message |
| ChatController.TooLongRefused | backend/controllers/chatController.js:22-29 | every question whose trimmed text is longer than 1000 gives 400 with the too-long message and no AI call |
| ChatController.BlankQuestionRefused | backend/controllers/chatController.js:13-19 | a missing, non-string or blank question gives 400 "Please provide a valid question" and no AI call |
| ChatController.LengthBoundary | backend/controllers/chatController.js:22-29 | a trimmed question of length 1000 is sent to the AI; one of length 1001 gives 400 with the too-long message and no call |
| ChatController.UpstreamRateLimited | backend/controllers/chatController.js:48-53 | an upstream 429 gives 429 with exactly "Too many requests. Please wait a moment and try again." |
| ChatController.UpstreamUnauthorized | backend/controllers/chatController.js:55-60 | an upstream 401 gives 500 with the configuration-error message and no detail |
| ChatController.UpstreamOtherFailure | backend/controllers/chatController.js:62-66 | any other failure gives 500 with the apology; the error's message is attached exactly in development |
| ChatController.AnsweredQuestionEchoed | backend/controllers/chatController.js:37-42 | a padded question that the AI answers gives 200 with the trimmed question, the answer and the timestamp, after exactly one call |
| AuthContext.Unexpired | frontend/src/context/AuthContext.jsx:26 | claims without `exp` never count as unexpired (the comparison with NaN is false); unexpired claims have `now < exp*1000`, strictly |
| AuthContext.HasToken | frontend/src/context/AuthContext.jsx:21-22 | `if (token)`: no stored token, or the empty string, is not a token, so the start-up check skips it and leaves it in storage |
| AuthContext.Usable | frontend/src/context/AuthContext.jsx:21-26 | the condition for keeping the session at start-up: a non-empty stored token that decodes to claims with `exp*1000 > now` |
| AuthContext.Initial | frontend/src/context/AuthContext.jsx:16-17 | before the start-up check there is no user and no header, `loading` is true, and storage is as found |
| AuthContext.Restore | frontend/src/context/AuthContext.jsx:19-37 | `loading` ends false on every path; the session is kept when the stored token decodes to claims with `exp*1000 > now`, and then the user is those claims and the header is "Bearer " + token; an expired or undecodable token is removed and the user and header stay as they were; with no token (or an empty one) only `loading` changes |
| AuthContext.MessageOr | frontend/src/context/AuthContext.jsx:54 | the server's message when it is a non-empty string, else the fallback |
| AuthContext.AfterLogin | frontend/src/context/AuthContext.jsx:39-57 | success exactly when a token came back and decodes; any returned token is stored and put in the header even if decoding then fails ("Login failed"); success sets the user to the decoded claims; failure leaves the user unchanged; a rejection leaves the whole session unchanged and reports the server's message or "Login failed" |
| AuthContext.LoggedOut | frontend/src/context/AuthContext.jsx:77-81 | storage empty, header absent, user null, `loading` untouched |
| AuthContext.Register | frontend/src/context/AuthContext.jsx:59-75 | the posted body carries `parseInt(age)`; success exactly when the server accepted, with "Registration successful! Please login."; otherwise the server's message or "Registration failed" |
| AuthContext.LogoutIdempotent | frontend/src/context/AuthContext.jsx:77-81 | logging out twice equals logging out once |
| AuthContext.LogoutThenRestoreFindsNothing | frontend/src/context/AuthContext.jsx:77-81 | after a logout, the start-up check finds no user and no token, whatever the state was |
| AuthContext.ExpiredTokenDropped | frontend/src/context/AuthContext.jsx:26-30 | a decodable token with `exp*1000 <= now` is removed at start-up, leaving no user and no header |
| AuthContext.ExpiryIsStrict | frontend/src/context/AuthContext.jsx:26 | the session is kept one millisecond before `exp*1000` and dropped at `exp*1000` |
| AuthContext.LoginIgnoresExpiry | frontend/src/context/AuthContext.jsx:47-48 | login sets the user from an already-expired token |
| AuthContext.AuthProvider.constructor | frontend/src/context/AuthContext.jsx:15-17 | the provider starts in the initial state |
| AuthContext.AuthProvider.RestoreSession | frontend/src/context/AuthContext.jsx:19-37 | the fields make exactly the `Restore` transition |
| AuthContext.AuthProvider.Login | frontend/src/context/AuthContext.jsx:39-57 | the fields and the result are exactly those of `AfterLogin` |
| AuthContext.AuthProvider.Signup | frontend/src/context/AuthContext.jsx:59-75 | no field changes; the request sent carries `parseInt(age)`; success exactly when the server accepted |
| AuthContext.AuthProvider.Logout | frontend/src/context/AuthContext.jsx:77-81 | the fields make exactly the `LoggedOut` transition |
| SignupPage.WithField | frontend/src/pages/SignupPage.jsx:20-25 | the named field takes the value and every other field keeps its own |
| SignupPage.AllFilled | frontend/src/pages/SignupPage.jsx:28 | no field is the empty string; a field of spaces counts as filled |
| SignupPage.AgeInRange | frontend/src/pages/SignupPage.jsx:38-39 | `parseInt(age)` is a number, at least 13 and at most 120 |
| SignupPage.Checks | frontend/src/pages/SignupPage.jsx:27-53 | the five steps in the page's order: all filled, e-mail, age, password length, confirmation, each with its message |
| SignupPage.FirstFailure | frontend/src/pages/SignupPage.jsx:27-55 | the message of the first failing step, none when all pass |
| SignupPage.FirstFailureSpec | frontend/src/pages/SignupPage.jsx:27-55 | no message exactly when every step passes; otherwise the message of a failing step whose predecessors all pass |
| SignupPage.Validate | frontend/src/pages/SignupPage.jsx:27-55 | valid exactly when all fields are filled, the e-mail matches, the age parses to 13..120, the password has at least 6 characters and equals its confirmation; an unfilled field always gives "Please fill in all fields" |
| SignupPage.ValidateIsFirstFailure | frontend/src/pages/SignupPage.jsx:27-55 | the chain of checks gives exactly the message of the first failing step in the listed order |
| SignupPage.ValidateExamples | frontend/src/pages/SignupPage.jsx:38-52 | as `validateForm` is called: age 12 fails on age; age 13 with a 6-character confirmed password passes; age 120 with a 5-character password fails on the password; a mismatch fails last |
| SignupPage.SignupForm.constructor | frontend/src/pages/SignupPage.jsx:7-15 | all fields empty, no error, not loading |
| SignupPage.SignupForm.HandleChange | frontend/src/pages/SignupPage.jsx:20-25 | only the named field changes |
| SignupPage.SignupForm.BeginSubmit | frontend/src/pages/SignupPage.jsx:57-65 | the error is cleared first; proceed exactly when the form is valid, then loading; otherwise the error is the validation message |
| SignupPage.SignupForm.CompleteSubmit | frontend/src/pages/SignupPage.jsx:67-75 | loading off; on success navigate to `/login` with the registration message; otherwise the error is the result's error |
| SignupPage.SignupForm.Submit | frontend/src/pages/SignupPage.jsx:57-76 | an invalid form posts nothing and shows its message; a valid one posts the registration with `parseInt(age)` and navigates exactly when the server accepted, then to `/login` with "Registration successful! Please login to continue." |
| LoginPage.LoginForm.constructor | frontend/src/pages/LoginPage.jsx:7-10 | empty fields, no error, not loading |
| LoginPage.LoginForm.SetEmail | frontend/src/pages/LoginPage.jsx:77 | only the e-mail changes |
| LoginPage.LoginForm.SetPassword | frontend/src/pages/LoginPage.jsx:92 | only the password changes |
| LoginPage.LoginForm.BeginSubmit | frontend/src/pages/LoginPage.jsx:15-24 | the error is cleared first; an empty field sets "Please fill in all fields" and stops; otherwise loading |
| LoginPage.LoginForm.CompleteSubmit | frontend/src/pages/LoginPage.jsx:25-32 | loading off; on success navigate to `/chat`; otherwise the error is the result's error and there is no navigation |
| LoginPage.LoginForm.Submit | frontend/src/pages/LoginPage.jsx:15-33 | with an empty field the session is untouched; otherwise the session makes the login transition and the page goes to `/chat` exactly when it succeeded |
| ChatPage.AiMessage | frontend/src/pages/ChatPage.jsx:52-62 | the AI message carries the answer on success and the fixed apology on any error |
| ChatPage.ReplyFor | frontend/src/pages/ChatPage.jsx:44-56 | the page receives an answer exactly for a 2xx reply that has one |
| ChatPage.ShownReply | frontend/src/pages/ChatPage.jsx:43-62 | the page shows the AI's answer exactly when the server accepted the question and the AI answered; every refusal and upstream failure shows the apology |
| ChatPage.WellFormed | frontend/src/pages/ChatPage.jsx:7-62 | the transcript is the greeting, then user and AI messages alternating, ending on a user message exactly while a request is pending |
| ChatPage.WellFormedAppend | frontend/src/pages/ChatPage.jsx:38-62 | appending the message of the expected role keeps the transcript alternating |
| ChatPage.ChatView.Valid | frontend/src/pages/ChatPage.jsx:28-66 | the page's invariant: `typing` equals `loading`, and the transcript is well formed for that pending state |
| ChatPage.ChatView.constructor | frontend/src/pages/ChatPage.jsx:7-15 | the transcript is exactly the greeting; empty input; neither loading nor typing |
| ChatPage.ChatView.SetInput | frontend/src/pages/ChatPage.jsx:160 | only the input changes |
| ChatPage.ChatView.BeginSubmit | frontend/src/pages/ChatPage.jsx:28-41 | a blank input or a pending request changes nothing and sends nothing; otherwise the trimmed text is sent and appended as a user message, the input is cleared, and loading and typing are on |
| ChatPage.ChatView.CompleteSubmit | frontend/src/pages/ChatPage.jsx:49-65 | exactly one AI message is appended and loading and typing are off |
| ChatPage.ChatView.Submit | frontend/src/pages/ChatPage.jsx:28-66 | either nothing changes, or exactly the user's trimmed message and then the AI message are appended after the unchanged transcript |
| Scenario.LogInThenReload | frontend/src/pages/LoginPage.jsx:15-33 | logging in with a token that decodes to unexpired claims goes to `/chat`, and a reload keeps the token, the header and the user |
| Scenario.AskOnChatPage | frontend/src/pages/ChatPage.jsx:28-66 | input that trims to "What is dharma?" gets a 200 reply echoing exactly that question, and the transcript becomes the greeting, the question and the answer |

## Left out

- The internals of `jwtDecode` (parsing, signatures): it is a foreign library, modelled as the parameter `decode`.
- The AI call `getAIResponse`: backend/config/aiConfig.js is not part of this model. It is the parameter `ai`.
- The timestamp `new Date().toISOString()` and `Date.now()`: both are parameters.
- Network I/O (axios), console logging, and the persistence of `localStorage` across reloads. A reload is modelled as a new `AuthProvider` built from the stored token.
- Asynchronous interleaving and races between tabs. Each handler is modelled as begin-then-complete in sequence.
- The request body is assumed to be an object, as Express's JSON parser supplies. A missing body makes the destructuring throw, which leads to the generic 500; this is not modelled.
- ChatController.Validate: lengths are counted in characters, not UTF-16 code units. A question containing characters outside the Basic Multilingual Plane is therefore measured shorter than JavaScript measures it.
- SignupPage.Validate: the password length is counted in characters, not UTF-16 code units, for the same reason.
- JsParseInt.ParseInt: results are exact integers. JavaScript rounds numbers beyond 2^53 to floating point, which cannot move a value across the 13..120 age range.
- AuthContext.Claims: `exp` is an integer or missing. A fractional or non-numeric `exp` is not modelled.
- Server error messages are strings or absent. A `message` of another JSON type is not modelled.
- A successful login reply without a `token` field (JavaScript would store the text "undefined") is not modelled.
- `handleChange` for an input name other than the five form fields is not modelled: the page has only those five inputs.
- The browser's form checks (`type="number"` with `min`/`max` at frontend/src/pages/SignupPage.jsx:151-157, `type="email"` at SignupPage.jsx:135 and LoginPage.jsx:75) and its cleaning of input values (a number input that does not hold a valid number reads as ""), which stop the submit event or change `formData` before the handlers run, are not modelled; `Validate` and the `Submit` methods model the handlers as called, on any strings.
- Presentation: the disabled state of buttons and inputs, React rendering, framer-motion, scrolling, AnimatedBackground.jsx and tailwind.config.js.
- HomePage.jsx's `handleAskQuestion` (lines 12-18), which sends the user to `/chat` when logged in and to `/login` otherwise, and Navbar.jsx's `handleLogout` (lines 12-16), which calls `logout`, navigates to `/` and closes the mobile menu: both only route the browser and call into the modelled session.
- App.jsx's routes: the `ProtectedRoute` component they rely on is not part of this model.
