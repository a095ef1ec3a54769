# Mental-health assistant: a verified model of its logic

This project models the logic of a small Next.js mental-health companion app in
Dafny and proves properties of that model. The app has five parts:

- **Guided breathing exercise** (`useBreathingExercise`). A four-phase state
  machine (idle, inhale, hold, exhale). A run ends after five exhales.
  - Model: the class `Breathing.BreathingExercise`. Each method is tied to a pure
    transition function of the hook's four state variables.
- **Emotion journal** (`useEmotionJournal`, `EmotionJournal.tsx`).
  - A same-day upsert keeps at most one entry per calendar day.
  - A seven-day window looks up each day's entry.
  - Emoji and colour lookups fall back to defaults.
  - The view labels dates relative to now, labels the chart days, and sorts the
    history newest first in place.
- **Chat** (`useChat` and the `/api/qwen` route).
  - A turn appends the user's message and then the assistant's answer.
  - The answer is the route's message, or after any failure a keyword fallback:
    the first matching rule with a non-empty response list, else `general`.
  - The route builds its prompt from the system prompt, the mapped history and
    the user's message, checks the shape of the upstream answer, and maps it to
    status 200 or 500.
- **Authentication service** (`lib/auth.ts`). `registerUser`, `loginUser` and
  `verifyToken` work over a users table. The table is a map from username to row.
  - bcrypt is a `Hasher` value.
  - jsonwebtoken is a `Signer` value.
  - The properties those libraries are trusted to have are predicates
    (`HasherSound`, `HasherBinding`, `HasherTruncates`, `SignerSound`,
    `SignerExpires`). The lemmas that need them require them.
  - bcrypt reads only the first 72 bytes of a password's UTF-8 encoding.
    The model spells that encoding out, and a hash accepts exactly the
    passwords that share those 72 bytes.
- **Authentication routes and client state.**
  - The register, login and verify routes: input validation, status codes, the
    session cookie, and token extraction from header or cookie.
  - The `AuthProvider` session: the user, the signed-in flag and the stored token.
  - Lemmas connect the client calls with the routes that answer them.

What the model takes as inputs instead of computing:

- The outcome of every network call, database access and library call, and each
  point where one of them may throw.
- The current time.
- `Math.random()`, as a real in [0, 1).
- The calendar day, month and day of month of a date.
- `process.env.NODE_ENV === 'production'`, as a flag.

Stateful code is written as classes whose methods state the new state as a
function of the old one. The rest is functions, with lemmas about them.

## Model

| member | source | states |
|---|---|---|
| Breathing.Start | src/hooks/useBreathingExercise.ts:23-30 | When not running, the run starts at inhale with progress 0 and cycle 0. When already running, nothing changes. |
| Breathing.ArmedTimer | src/hooks/useBreathingExercise.ts:42-56 | No phase timer while stopped or idle. Otherwise the timer length is the current phase's duration: inhale, hold or exhale duration respectively. |
| Breathing.TimerFired | src/hooks/useBreathingExercise.ts:67-88 | Without a timer nothing changes. Otherwise progress returns to 0 and the phase advances (inhale→hold→exhale→inhale). Inhale and hold keep the cycle. An exhale moves to cycle+1 at inhale while cycle+1 < 5, and to the stopped state (cycle 0) once cycle+1 reaches 5; that is the only way to the stopped state. |
| Breathing.NextPhase | src/hooks/useBreathingExercise.ts:71-75 | The next phase is idle exactly when the current one is, and a running phase always changes. |
| Breathing.NextPhaseCycles | src/hooks/useBreathingExercise.ts:71-83 | Three phase changes bring a phase back to itself: inhale, hold, exhale, inhale. |
| Breathing.ProgressTicked | src/hooks/useBreathingExercise.ts:59-64 | Without an armed timer nothing changes. Otherwise one tick adds exactly 100 / (duration / 16) = 1600 / duration while that stays below 100, and gives 100 once it would reach it; a zero duration gives 100 at once. Progress never decreases; phase, running flag and cycle are unchanged. |
| Breathing.StateTextInjective | src/hooks/useBreathingExercise.ts:98-109 | The four phases have four distinct prompt texts. |
| Breathing.StateText | src/hooks/useBreathingExercise.ts:98-109 | Idle gives '点击开始呼吸练习', inhale '慢慢地吸气...', hold '保持...', exhale '缓缓地呼气...'. |
| Breathing.ValidPreserved | src/hooks/useBreathingExercise.ts:15-88 | start, reset, the phase timer and the progress tick keep the reachable-state invariant: running iff not idle, cycle in 0..4, idle only with cycle 0 and progress 0, progress in 0..100. |
| Breathing.RunSchedule | src/hooks/useBreathingExercise.ts:71-86 | After n < 15 timer events from a start, the phase is inhale, hold, exhale by n mod 3, the cycle is n div 3, progress is 0 and the run is still going. |
| Breathing.RunEndsAfterFiveExhales | src/hooks/useBreathingExercise.ts:76-86 | A run keeps going for the first 14 timer events. The 15th, the end of the fifth exhale, brings it back to the stopped state. |
| Breathing.BreathingExercise.constructor | src/hooks/useBreathingExercise.ts:8-11 | The hook starts idle, with progress 0, not running and at cycle 0, a reachable state. |
| Breathing.BreathingExercise.ResetExercise | src/hooks/useBreathingExercise.ts:15-20 | The new state is idle, progress 0, not running, cycle 0, a reachable state. |
| Breathing.BreathingExercise.StartExercise | src/hooks/useBreathingExercise.ts:23-30 | The new state is `Start` of the old one, and a reachable state stays reachable. |
| Breathing.BreathingExercise.StopExercise | src/hooks/useBreathingExercise.ts:33-35 | The new state is the stopped state, which is reachable. |
| Breathing.BreathingExercise.TimerFires | src/hooks/useBreathingExercise.ts:67-88 | The new state is `TimerFired` of the old one, and a reachable state stays reachable. |
| Breathing.BreathingExercise.ProgressTick | src/hooks/useBreathingExercise.ts:59-64 | The new state is `ProgressTicked` of the old one, and a reachable state stays reachable. |
| Text.TrimIsInnerSlice | src/hooks/useChat.ts:118 | `trim()` yields a contiguous slice of the input. Neither of its ends is whitespace. Everything cut off was whitespace. |
| Text.TrimEmptyIffAllSpace | src/hooks/useChat.ts:118 | A trimmed text is empty (falsy) exactly when the input is whitespace only. |
| Text.TrimIdempotent | src/hooks/useChat.ts:118-119 | Trimming a trimmed text changes nothing. |
| Text.Trim | src/hooks/useChat.ts:118 | The trimmed text is no longer than the input, and neither of its ends is whitespace. |
| Text.NatToString | src/hooks/useEmotionJournal.ts:41 | A natural number renders as a non-empty run of decimal digits whose value is the number, with no leading zero except for 0 itself. |
| Text.NatToStringInjective | src/hooks/useEmotionJournal.ts:41 | Two numbers render to the same text exactly when they are equal, so ids from different milliseconds differ. |
| Text.IntToString | src/hooks/useEmotionJournal.ts:41 | A number in a template literal renders as its decimal digits, read back to the number, without leading zeros. A negative number gets a minus sign before the digits of its absolute value. |
| Text.Utf16Length | src/app/api/auth/register/route.ts:18 | `length` counts UTF-16 code units: one character counts 1 up to U+FFFF and 2 beyond it. The total lies between the character count and twice it; it equals the character count iff no character lies beyond U+FFFF, and twice it iff every character does. |
| Text.Utf16LengthAppend | src/app/api/auth/register/route.ts:18 | The length of a concatenation is the sum of the lengths. |
| Text.Utf16LengthOfEmoji | src/app/api/auth/register/route.ts:18 | Three emoji beyond U+FFFF have length 6. |
| EmotionJournal.FirstOnDay | src/hooks/useEmotionJournal.ts:52-56 | The result is the first index of an entry dated on that calendar day, or none when no entry is dated on it. |
| EmotionJournal.EntryOnDay | src/hooks/useEmotionJournal.ts:87-91 | None exactly when no entry is on that day. Otherwise the first entry dated on that day. |
| EmotionJournal.Upserted | src/hooks/useEmotionJournal.ts:47-67 | The new entry is in the result. The journal grows by one exactly when no entry was on that day, and otherwise keeps its length. Entries of other days all stay. |
| EmotionJournal.NoteOf | src/hooks/useEmotionJournal.ts:44 | The stored note is absent exactly when the typed note is whitespace only. Otherwise it is the trimmed, non-empty note. |
| EmotionJournal.UpsertReplacesFirstSameDay | src/hooks/useEmotionJournal.ts:58-62 | With an entry on the same day, only the first such index is replaced. The length is unchanged and every other entry is untouched. |
| EmotionJournal.UpsertAppendsNewDay | src/hooks/useEmotionJournal.ts:63-66 | Without an entry on that day, the new entry is appended at the end. |
| EmotionJournal.UpsertThenFind | src/hooks/useEmotionJournal.ts:47-67 | After an upsert, looking up the new entry's day finds the new entry. Every other day's lookup is unchanged. |
| EmotionJournal.FirstOnDayUnique | src/hooks/useEmotionJournal.ts:52-56 | The first index on a day is the one `findIndex` reports. |
| EmotionJournal.UpsertKeepsOnePerDay | src/hooks/useEmotionJournal.ts:47-67 | If the journal held at most one entry per calendar day before the upsert, it still does after. |
| EmotionJournal.FindDayIndex | src/hooks/useEmotionJournal.ts:52-56 | The `findIndex` loop returns the first index on the day, or -1 exactly when no entry is on that day. |
| EmotionJournal.GetRecentEmotions | src/hooks/useEmotionJournal.ts:76-97 | Exactly 7 slots, oldest day first, the last being today. A slot is empty iff its day has no entry; otherwise it holds the first entry of that day. |
| EmotionJournal.FirstOnDayFindIndex | src/hooks/useEmotionJournal.ts:87-91 | The entry found by the `find` loop is the journal's entry for that day. |
| EmotionJournal.FindOption | src/hooks/useEmotionJournal.ts:101 | Returns the first option carrying the label, or none iff no option carries it. |
| EmotionJournal.EmotionEmoji | src/hooks/useEmotionJournal.ts:100-103 | The emoji of the first option with that label. An unknown label gives '😐'. |
| EmotionJournal.EmotionColor | src/hooks/useEmotionJournal.ts:106-109 | The colour of the first option with that label. An unknown label gives 'bg-gray-100 text-gray-800'. |
| EmotionJournal.JournalState.constructor | src/hooks/useEmotionJournal.ts:8-11 | The journal starts empty, with the form cleared. |
| EmotionJournal.JournalState.AddEmotionEntry | src/hooks/useEmotionJournal.ts:37-73 | With no emotion selected, nothing changes. Otherwise the journal becomes the same-day upsert of the new entry (id `emotion-<ms>`, the selected emotion, the stored note), and the selection, the note and the adding flag are cleared. |
| JournalView.DiffDays | src/components/EmotionJournal.tsx:32 | The day difference is the floor of the millisecond difference over 86,400,000. |
| JournalView.MonthDayText | src/components/EmotionJournal.tsx:38 | The month/day label contains '/', does not start with '0', and ends in a digit; its field values are stated by MonthDayTextParses. |
| JournalView.MonthDayTextParses | src/components/EmotionJournal.tsx:38 | The label holds one '/'. Before it are the decimal digits of month+1, after it those of the day of month, neither with a leading zero (the day is "0" only for day 0). |
| JournalView.DiffDaysBands | src/components/EmotionJournal.tsx:32-36 | The day difference is 0 iff the millisecond difference is under one day, and 1 iff it is one to two days. It is negative iff the millisecond difference is, between 2 and 6 iff that is 2 to 7 days, and at least 7 beyond that. |
| JournalView.FormatDate | src/components/EmotionJournal.tsx:29-39 | '今天' iff the difference is under one day. '昨天' iff it is one to two days. `<n>天前` iff it is negative or between 2 and 7 days. month/day iff it is at least seven days. |
| JournalView.GetDayLabels | src/components/EmotionJournal.tsx:42-55 | Exactly 7 labels, oldest day first. Label k is the month/day of day today-6+k, so the last one is today. |
| JournalView.SortNewestFirst | src/components/EmotionJournal.tsx:147-148 | After the in-place sort the entries are newest first, and they are the same entries as before (a permutation). |
| JournalView.SortJournal | src/components/EmotionJournal.tsx:147-148 | Sorting the array the hook returns reorders the hook's own entries in place: they become newest first, stay the same entries, and the entry form is untouched. |
| JournalView.OnePerDayNoRepeats | src/hooks/useEmotionJournal.ts:52-66 | A journal with at most one entry per day holds no entry twice. |
| JournalView.OnePerDayUnderPermutation | src/hooks/useEmotionJournal.ts:52-66 | Any reordering of a one-entry-per-day journal, such as the in-place sort, is still one entry per day. |
| Chat.RandomIndex | src/hooks/useChat.ts:70 | `Math.floor(Math.random() * n)` is an index below n. |
| Chat.FirstUsable | src/hooks/useChat.ts:65-73 | The first rule whose pattern matches and whose category has a non-empty list. Earlier matching rules with a missing or empty list are skipped. The result is none iff no rule qualifies. |
| Chat.FallbackList | src/hooks/useChat.ts:65-79 | The list the fallback draws from is never empty. |
| Chat.FallbackAnswerSource | src/hooks/useChat.ts:65-79 | A fallback answer is an element of the first usable rule's category, or of `general` when no rule is usable. |
| Chat.FallbackAnswerNonEmpty | src/hooks/useChat.ts:61-80 | The catch branch always yields an answer. When all candidate answers are non-empty, so is the answer. |
| Chat.FallbackAnswer | src/hooks/useChat.ts:64-79 | The fallback answer is an element of the fallback list. |
| Chat.AssistantAnswer | src/hooks/useChat.ts:47-80 | The route's message when the call succeeded with `ok` and `success`. Otherwise an element of the fallback list. |
| Chat.RemoteAnswerUnchanged | src/hooks/useChat.ts:47-60 | The route's message is returned unchanged exactly when the call succeeded with `ok` and `success`. Any throw, non-ok status, unreadable body or `success: false` gives the fallback answer. |
| Chat.Fallback | src/hooks/useChat.ts:64-80 | The `for…of` scan with early return computes the fallback answer, an element of the fallback list. |
| Chat.GetAssistantResponse | src/hooks/useChat.ts:30-81 | Posts the message with the history as given, and returns the route's answer or the fallback answer. It never fails. |
| Chat.ChatSession.constructor | src/hooks/useChat.ts:8-10 | No messages, empty input, not thinking. |
| Chat.ChatSession.SetInputText | src/hooks/useChat.ts:132-134 | Only the input text changes. |
| Chat.ChatSession.BeginTurn | src/hooks/useChat.ts:84-97 | The user turn is appended, the input cleared and thinking raised. The history to send is the list without the new turn. |
| Chat.ChatSession.FinishTurn | src/hooks/useChat.ts:101-109 | The assistant turn is appended and thinking lowered. |
| Chat.ChatSession.AddUserMessage | src/hooks/useChat.ts:84-114 | Exactly two turns are appended: the user's, then the assistant's answer. The request carries the history before the user turn. Input is left empty and thinking off. |
| Chat.ChatSession.HandleSendMessage | src/hooks/useChat.ts:117-121 | A blank input sends nothing and changes nothing. Otherwise the trimmed input is sent and the messages become the old ones plus the user turn (`user-<ms>`, trimmed text) and the assistant turn (`assistant-<ms>`, the route's or the fallback answer). |
| Chat.ChatSession.HandleKeyPress | src/hooks/useChat.ts:124-129 | Only Enter without Shift sends, with the same outcome as the send button: nothing for blank input, otherwise the same two turns. Any other key changes nothing. |
| QwenRoute.MappedRole | src/app/api/qwen/route.ts:55 | A history item becomes a user turn iff its `role` is 'user'. Otherwise it becomes an assistant turn, never a system one. |
| QwenRoute.History | src/app/api/qwen/route.ts:10 | A missing `conversationHistory` defaults to empty. A given one is used as is. |
| QwenRoute.BuildMessages | src/app/api/qwen/route.ts:52-59 | The prompt has length of the history plus 2: first the system prompt, then each history item in order with its content and mapped role, then the user's message. |
| QwenRoute.WireItem | src/hooks/useChat.ts:41-44 | A chat turn reaches the route with its content and without a `role`. |
| QwenRoute.WireRequest | src/hooks/useChat.ts:41-44 | The posted body carries the user's message and one history item per earlier turn. |
| QwenRoute.ClientHistoryAllAssistant | src/app/api/qwen/route.ts:54-57 | The hook's turns carry `sender` while the route reads `role`, so every earlier turn, the user's own included, reaches the API as an assistant turn. |
| QwenRoute.WellShaped | src/app/api/qwen/route.ts:90-92 | Missing `choices`, empty `choices`, or a first choice without `message` fails the check. Passing it means the first choice has a message. |
| QwenRoute.Respond | src/app/api/qwen/route.ts:80-115 | Success iff the upstream call answered `ok` with a readable body whose `choices` is non-empty and whose first choice has a `message`. Success gives 200 with that content. Everything else gives 500 with the fixed apology. |
| QwenRoute.Post | src/app/api/qwen/route.ts:7-117 | An unreadable body gives 500 without an upstream call. Otherwise the prompt `BuildMessages` is sent and the reply is `Respond` of the upstream outcome: 200 with the content exactly on success, 500 otherwise. |
| Auth.FindUserByUsername | src/lib/auth.ts:30-35 | Returns the row iff the username is in the table. The row carries that username. |
| Auth.FindById | src/lib/auth.ts:108 | Returns a row with that id, or none iff no row has it. |
| Auth.ToPublic | src/lib/auth.ts:87 | The public user copies the row's id, username and creation time. It has no password field. |
| Auth.Register | src/lib/auth.ts:38-66 | Success iff the name was free and nothing threw, and success iff there is no error. A failure carries '用户名已存在' or '注册失败': a taken name that could be looked up gives '用户名已存在', and every throw (lookup, hash, insert, close) gives '注册失败'. The table is either unchanged or, with a free name, gains the row (next id, username, hash, time) with the next id advanced; it changes exactly when the name was free and the insert ran, i.e. without a throw or with the throw at closing. |
| Auth.Utf8 | src/lib/auth.ts:50 | A character encodes to its shortest UTF-8 form: 1 byte below U+0080, 2 below U+0800, 3 below U+10000, 4 beyond. The lead byte announces the length (0xxxxxxx, 110xxxxx, 1110xxxx, 11110xxx), the rest are continuation bytes 10xxxxxx, and the payload bits decode back to the character. |
| Auth.Utf8Two | src/lib/auth.ts:50 | A code point in U+0080..U+07FF becomes a 110xxxxx lead and one continuation byte that decode back to it. |
| Auth.Utf8Three | src/lib/auth.ts:50 | A code point in U+0800..U+FFFF becomes a 1110xxxx lead and two continuation bytes that decode back to it. |
| Auth.Utf8Four | src/lib/auth.ts:50 | A code point in U+10000..U+10FFFF becomes a 11110xxx lead and three continuation bytes that decode back to it. |
| Auth.Utf8Injective | src/lib/auth.ts:50 | Two characters have the same encoding iff they are equal. |
| Auth.Utf8Encode | src/lib/auth.ts:50 | A one-character text encodes to that character's `Utf8` bytes; a text encodes to between one and four bytes per character. With Utf8EncodeAppend this is the concatenation of the characters' encodings. |
| Auth.Utf8EncodeAppend | src/lib/auth.ts:50 | The encoding of a concatenation is the concatenation of the encodings. |
| Auth.BcryptKey | src/lib/auth.ts:50 | The bytes bcrypt hashes: a prefix of the UTF-8 encoding, the whole encoding when it has at most 72 bytes, and exactly the first 72 bytes otherwise. |
| Auth.SharedPrefixSameKey | src/lib/auth.ts:81 | Two passwords sharing their first 72 characters give bcrypt the same bytes. |
| Auth.RegisterDuplicateFails | src/lib/auth.ts:43-46 | A taken username fails with '用户名已存在' and leaves the table as it was. |
| Auth.RegisterAddsOneRow | src/lib/auth.ts:49-61 | A successful registration adds exactly one row, under the new username, holding the password's hash and the next id. Every other row is untouched. |
| Auth.RegisterKeepsValid | src/lib/auth.ts:20 | Every registration outcome keeps the invariant: unique usernames and ids, ids below the next AUTOINCREMENT value. |
| Auth.RegisterOutcomes | src/lib/auth.ts:38-66 | Success iff the name was free and nothing threw. A failure carries '用户名已存在' or '注册失败', and any throw gives '注册失败'. The table changes exactly when the name was free and the insert ran; a throw while closing reports failure although the row stays inserted. |
| Auth.LoginUser | src/lib/auth.ts:69-99 | Unknown user gives '用户不存在'. Failed hash comparison gives '密码错误'. A throw gives '登录失败'. Success gives the row without password plus a token over `{ id, username }` signed for 7 days. User, token and error are present exactly as success says. |
| Auth.VerifyToken | src/lib/auth.ts:102-116 | A token that does not verify, or a failing read, gives none. Any result is the row with the token's id, re-read from the table, without password. Conversely, a verified token, a working read and a row with that id give exactly that row without password. |
| Auth.RegisterTwiceFails | src/lib/auth.ts:43-46 | A second registration of the same username fails with '用户名已存在'. |
| Auth.RegisterThenLogin | src/lib/auth.ts:79-84 | After registering, the same password logs in as the new user, and so does any password with the same first 72 UTF-8 bytes. A password differing in those bytes gets '密码错误' and no token. |
| Auth.LongPasswordVariantLogsIn | src/lib/auth.ts:81 | After registering a password of at least 72 characters, another password with the same first 72 characters logs in too. |
| Auth.LoginTokenVerifies | src/lib/auth.ts:88-92 | A login token verifies to the logged-in user until seven days have passed, and to nothing afterwards. |
| Auth.UserStore.constructor | src/lib/auth.ts:17-24 | The table starts empty, with ids starting at 1, and satisfies the invariant. |
| Auth.UserStore.RegisterUser | src/lib/auth.ts:38-66 | The imperative lookup-hash-insert gives the result and the new table that `Register` specifies, and keeps the invariant. |
| RegisterRoute.Validate | src/app/api/auth/register/route.ts:10-23 | A missing or empty username or password gives 400 '用户名和密码是必需的'. Only after that check does a password shorter than 6 UTF-16 code units give 400 '密码长度至少为6个字符'. The body passes iff neither applies. |
| RegisterRoute.ThreeEmojiPasswordPasses | src/app/api/auth/register/route.ts:18 | A password of three emoji, three characters long, passes the length check, because its `length` is 6. |
| RegisterRoute.ToRegisterData | src/app/api/auth/register/route.ts:7-25 | `registerUser` receives the body's username and password, and its confirmation or empty text when it has none. |
| RegisterRoute.ResultResponse | src/app/api/auth/register/route.ts:27-37 | Success gives 201 '用户注册成功'. Failure gives 400 with `registerUser`'s error. |
| RegisterRoute.Post | src/app/api/auth/register/route.ts:5-45 | An unreadable body gives 500. A rejected body gives its 400 and the table is untouched, so `registerUser` is not called. A valid body gives `registerUser`'s outcome as response (201 or 400 with its error) and its new table. 201 iff validation passed and registration succeeded. The table keeps its invariant. |
| RegisterRoute.DuplicateGives400 | src/app/api/auth/register/route.ts:32-36 | A valid body with a taken username gives 400 '用户名已存在' and leaves the table unchanged. |
| LoginRoute.AuthCookie | src/app/api/auth/login/route.ts:27-32 | The cookie is 'auth-token' holding the token: httpOnly, secure in production, maxAge equal to the token's 604800-second lifetime, path '/'. |
| LoginRoute.Post | src/app/api/auth/login/route.ts:5-48 | An unreadable body gives 500. A missing username or password gives 400 without a login attempt. A valid body gives 200 with '登录成功', the user's id and username and the cookie when `loginUser` succeeded, and 401 with `loginUser`'s error otherwise. A cookie is set iff the status is 200. |
| LoginRoute.WrongPasswordGives401 | src/app/api/auth/login/route.ts:35-40 | An existing user with a wrong password gets 401 '密码错误' and no cookie. |
| VerifyRoute.UntilSpace | src/app/api/auth/verify/route.ts:6 | The text before the first space: a space-free prefix followed by a space or the end. |
| VerifyRoute.Split | src/app/api/auth/verify/route.ts:6 | `split(' ')` gives at least one space-free piece. It gives exactly one iff the text has no space. |
| VerifyRoute.JoinSplit | src/app/api/auth/verify/route.ts:6 | Joining the pieces with single spaces gives back the original text. |
| VerifyRoute.SplitJoin | src/app/api/auth/verify/route.ts:6 | Splitting space-free pieces joined by single spaces gives back the pieces. |
| VerifyRoute.SecondField | src/app/api/auth/verify/route.ts:6 | `header?.split(' ')[1]` is the second piece. It is none iff there is no header or the header has no space. |
| VerifyRoute.SelectToken | src/app/api/auth/verify/route.ts:6-7 | The header's second piece when it is non-empty, otherwise the cookie value. |
| VerifyRoute.BearerHeaderWins | src/app/api/auth/verify/route.ts:6 | `Authorization: Bearer <token>` selects that token, whatever the cookie holds. |
| VerifyRoute.CookieWithoutHeader | src/app/api/auth/verify/route.ts:6-7 | Without an Authorization header the cookie's value is the token. |
| VerifyRoute.Get | src/app/api/auth/verify/route.ts:4-36 | No token or an empty one gives 401 '未提供认证令牌' without verification. 200 iff `verifyToken` finds the user: its id and username, re-read from the table. Otherwise 401 '无效的认证令牌'. |
| VerifyRoute.LoginCookieVerifies | src/app/api/auth/verify/route.ts:16-22 | The cookie a successful login sets is accepted for the same user until it expires. After that it is refused as invalid. |
| AuthContext.Delivered | src/contexts/AuthContext.tsx:51 | `response.ok` holds exactly for a status in 200..299. |
| AuthContext.ErrorOr | src/contexts/AuthContext.tsx:56 | `result.error \|\| fallback` gives the error when it is a non-empty text, else the fallback. |
| AuthContext.Checked | src/contexts/AuthContext.tsx:18-33 | An ok reply with a user sets the user and the flag. Any other reply, or a rejection, removes the stored token and nothing else. The flag-iff-user consistency is kept. |
| AuthContext.LoginRequest | src/contexts/AuthContext.tsx:39-47 | `login` posts the username and the password as given. |
| AuthContext.LoggedIn | src/contexts/AuthContext.tsx:39-61 | An ok reply sets the user from the body, raises the flag and returns the body. Otherwise the session is unchanged and the call throws the body's error, or '登录失败', or the rejection itself. |
| AuthContext.LoggedOut | src/contexts/AuthContext.tsx:93-102 | Once the request went through: no user, no flag, no stored token. If it failed, nothing changes. |
| AuthContext.Register | src/contexts/AuthContext.tsx:64-90 | Differing passwords throw '两次输入的密码不一致' and send nothing. Otherwise only username and password are sent, never confirmPassword. The call returns the body iff the reply was ok. A non-ok reply throws its error, or '注册失败' when that is empty. A rejected request rethrows its reason. |
| AuthContext.LoginAgainstRoute | src/contexts/AuthContext.tsx:51-57 | Against the login route, the client signs in iff the route answered 200, as that user. Otherwise it throws the route's error with its session unchanged. |
| AuthContext.CheckAgainstRoute | src/contexts/AuthContext.tsx:23-31 | Against the verify route, the client is signed in after the check iff the route answered 200. Otherwise only the stored token is dropped. |
| AuthContext.RegisterAgainstRoute | src/contexts/AuthContext.tsx:77 | Against the register route, the call returns iff the route answered 201. `registerUser` then receives an empty confirmation, because the client never sends it. |
| AuthContext.AuthProvider.constructor | src/contexts/AuthContext.tsx:13-14 | No user and not signed in. The stored token is whatever `localStorage` held. |
| AuthContext.AuthProvider.CheckAuthStatus | src/contexts/AuthContext.tsx:18-33 | The new session is `Checked` of the old one. |
| AuthContext.AuthProvider.Login | src/contexts/AuthContext.tsx:39-61 | Posts `LoginRequest`. The new session and the outcome are those of `LoggedIn`. |
| AuthContext.AuthProvider.Logout | src/contexts/AuthContext.tsx:93-102 | The new session is `LoggedOut` of the old one. |

## Left out

- Rendering, animation and UI-only components are not modelled: JSX, framer-motion, `getAnimationStyle`, `animationRef`, the chart's random bar heights, scrolling, and the login and register pages.
- The timers are not modelled as schedules. The phase timer and the progress interval become the events `TimerFires` and `ProgressTick`. `Breathing.ArmedTimer` states which timer is armed, but not when it goes off. The five-minute mindfulness tip of `useChat` is left out because it is timing only.
- Breathing.ProgressTicked: progress uses exact reals, not IEEE doubles. The rounding of `100 / (duration / 16)` is not modelled, and how many ticks a phase takes to fill the bar is not stated as a lemma. A zero duration gives 100, as JavaScript's `Infinity` does after the cap.
- `localStorage` is not modelled beyond removing `auth-token`. The journal's load and save, with their JSON parsing, are left out.
- `setSelectedEmotion`, `setEmotionNote` and `setIsAddingEntry` are plain setters and are not modelled.
- Calendar arithmetic is not modelled. A date carries its calendar-day number, month and day of month as given values. `setHours(0,0,0,0)` comparisons become comparisons of day numbers. `setDate(d - i)` becomes day `today - i`.
- EmotionJournal.JournalState.AddEmotionEntry: one instant `now` gives the id's milliseconds (`Date.now()`), the new entry's date (`new Date()`) and the "today" of the upsert. The source reads the clock separately for each, so the id's number may differ from the entry's timestamp, and the readings could straddle midnight.
- JournalView.MonthDayText: its own contract states only the label's shape (a '/', no leading zero, a final digit). The two field values are stated by the lemma JournalView.MonthDayTextParses instead, because quantified postconditions on the function itself made its callers too expensive to verify.
- JournalView.SortNewestFirst: stability is not stated. Entries with equal timestamps may end up in any order, although the source's sort is stable.
- JournalView.SortJournal: the source sorts during every render of the history view; the model offers the sort as a separate step on the journal, so when it happens relative to `addEmotionEntry` is up to the caller. The save of the reordered list to `localStorage` is not modelled.
- Chat.FallbackList: the response table must hold a non-empty `general` list. With an empty one the source returns `undefined`, and with none it throws out of the catch branch. The same precondition is on these members, for the same reason:
  - Chat.Fallback
  - Chat.GetAssistantResponse
  - Chat.ChatSession.AddUserMessage
  - Chat.ChatSession.HandleSendMessage
  - Chat.ChatSession.HandleKeyPress
- Chat.ChatSession.AddUserMessage: the `await` of the assistant's answer is modelled as atomic, so overlapping sends are not modelled. The send button is disabled only by a blank input, so a second message can go out while a reply is pending: the turns then interleave, the second request's history lacks the pending answer, and the first reply lowers `isThinking` while the second is still outstanding. The same holds for Chat.ChatSession.HandleSendMessage and Chat.ChatSession.HandleKeyPress, whose two-turn results assume no send is in flight.
- Chat.ChatSession.AddUserMessage: one instant (`sentAt`, `repliedAt`) gives both a message's id and its timestamp. The source reads the clock separately for each (`Date.now()` and `new Date()`), so the two may differ by a millisecond. The same holds for Chat.ChatSession.BeginTurn, Chat.ChatSession.FinishTurn, Chat.ChatSession.HandleSendMessage and Chat.ChatSession.HandleKeyPress.
- Chat.ChatSession.AddUserMessage: `addUserMessage`'s own catch branch is not modelled. It cannot be reached, because `getAssistantResponse` never throws once `general` is present.
- The response tables and keyword regular expressions are app data that is not part of this model. The rules are opaque predicates and the tables are parameters.
- QwenRoute.Post: a `conversationHistory` of `null` is not modelled. It would throw and give 500. A missing history counts as empty, as the default does.
- QwenRoute.Post: the outgoing request's other fields are not modelled: model name, temperature, token limit, API key, URL. Logging is left out too.
- SQLite, bcrypt and jsonwebtoken are not modelled as algorithms. They are replaced by the map-based table and by the `Hasher` and `Signer` values, with trusted properties as predicates. The JWT secret and its fallback value are left out.
- Auth.LoginUser: all of its throw points are a single `fails` flag, because each of them leads to the same '登录失败' result.
- VerifyRoute.Get: it never answers 500. The source's catch branch cannot be reached, because `verifyToken` absorbs every error.
- The logout route is not part of this model. It only clears the cookie with constant attributes.
- React context plumbing (`createContext`, the provider's children) is left out. A thrown error is modelled by its message.
- QwenRoute.Respond: a first choice whose `message` has no string `content` is not modelled; the content is always a string here. In the source such a reply passes the shape check and gives 200 with `success: true` and a missing or null message, which Chat.AssistantAnswer then returns as the assistant's turn without a fallback.
- Auth.Utf8Encode: characters are Unicode scalar values, so lone surrogates, which JavaScript strings can hold, are not modelled.
