# Chat relay, session and completion client: a Dafny model

This project models the parts of the programming-assistant chat app that can be stated exactly. The rest of the app is a UI around a hosted completion API.

- **Relay** (`relay.dfy`, the `ai-chat` edge function). It builds the upstream `messages` list: a fixed system entry, then one entry per chat turn, with `type` mapped to a role. When files are attached it appends a file summary to the *last* entry only. It then shapes the outcome into a `{response}` body or a status-500 `{error, details}` body. A preflight `OPTIONS` request gets the CORS headers and no body.
- **Session** (`session.dfy`, the chat page). A class holds the turn list, the input draft, the selected files, the typing flag and the replies that are scheduled but not yet delivered. It has the guarded send, the deferred canned reply (`getAIResponse` with its fixed precedence), adding files and removing a file by index.
- **Client** (`client.dfy`, the `useAIChat` hook). One call sets `isLoading`, builds the payload (the turns unchanged plus one `{name, size, type}` descriptor per file) and classifies the invoke result three ways. It shows one notification per failure, rethrows, and always resets the flag.
- `text.dfy` holds the JavaScript string operations the code uses: `trim`, ASCII `toLowerCase`, `includes`, number interpolation and `join`. `chat_types.dfy` holds the shared data: `Kind`, `File`, `FileDesc`, `Message`.

Several things become explicit inputs: the upstream reply, the invoke result, fresh ids, timestamps, and which pending timer fires. The model says exactly which state or response each input produces.

Three behaviours of the relay are worth stating outright:
- Every non-ok upstream status gives the same `details = "OpenAI API error: <status>"`; no status gets a message of its own.
- Upstream text is relayed as it is, even when blank, and a `null` or missing text is relayed as a missing `response`.
- An empty `messages` list is relayed. Any file summary then goes on the system entry, which is the last entry.

## Model

| member | source | states |
|---|---|---|
| Text.Trim | src/pages/Index.tsx:33 | `s.trim()` is empty exactly when every character of `s` is ECMAScript whitespace; otherwise it starts and ends with a non-whitespace character, and it is never longer than `s` |
| Text.Lower | src/pages/Index.tsx:66 | lower-casing keeps the length and lower-cases each ASCII letter in its position, leaving other characters alone |
| Text.Contains | src/pages/Index.tsx:66 | `includes` never finds a text longer than the one it searches |
| Text.ContainsIffOccurs | src/pages/Index.tsx:66 | the `includes` scan holds exactly when the substring occurs at some position |
| Text.NatToString | supabase/functions/ai-chat/index.ts:44 | a number renders as a non-empty string of decimal digits with no leading zero |
| Text.NatToStringRoundTrip | supabase/functions/ai-chat/index.ts:44 | reading the rendered digits back gives the number |
| Text.NatToStringInjective | supabase/functions/ai-chat/index.ts:67 | different numbers (sizes, statuses) never render the same |
| Text.Join | supabase/functions/ai-chat/index.ts:44 | a definition with no contract of its own: the parts with the separator between neighbours; its properties are stated by `Text.JoinCons` and `Text.JoinContainsPart` |
| Text.JoinSnoc | supabase/functions/ai-chat/index.ts:44 | one more part adds the separator and that part, or just the part when there was nothing before |
| Text.JoinCons | supabase/functions/ai-chat/index.ts:44 | `join` puts the separator between neighbours only: the first part, the separator, then the join of the rest |
| Text.JoinContainsPart | supabase/functions/ai-chat/index.ts:44 | every joined part occurs in the joined string |
| Relay.WireHistory | src/hooks/useAIChat.ts:26 | the relay sees each turn's kind and content, in order, one per turn |
| Relay.RoleOf | supabase/functions/ai-chat/index.ts:37 | a turn gets role `user` exactly when it is a user turn, and never the `system` role |
| Relay.MapHistory | supabase/functions/ai-chat/index.ts:36-39 | one entry per turn in order; same content; role `user` exactly for user turns, otherwise `assistant`, never `system` |
| Relay.FileLine | supabase/functions/ai-chat/index.ts:44 | a file's summary line contains the file's name and its size in decimal |
| Relay.FileLines | supabase/functions/ai-chat/index.ts:44 | one `File: name (size bytes)` line per file, in file order |
| Relay.AppendToLast | supabase/functions/ai-chat/index.ts:45 | the `+=` on the last entry keeps the length and every entry's role |
| Relay.Upstream | supabase/functions/ai-chat/index.ts:23-46 | N turns give N+1 entries, with the system entry first |
| Relay.UpstreamShape | supabase/functions/ai-chat/index.ts:23-46 | the system entry's content changes only when the history is empty and files are attached, and then it gains the summary |
| Relay.UpstreamEntry | supabase/functions/ai-chat/index.ts:36-45 | entry i+1 has turn i's role mapping and content, plus the summary only when it is the last turn and files exist |
| Relay.UpstreamWithoutFiles | supabase/functions/ai-chat/index.ts:43 | with files absent or empty, the list is the mapped list and nothing is appended |
| Relay.UpstreamWithFiles | supabase/functions/ai-chat/index.ts:43-46 | with files, every entry but the last is untouched; the last gains `\n\nFile allegati:\n` and the file lines |
| Relay.SummaryOnEmptyHistory | supabase/functions/ai-chat/index.ts:36-45 | with an empty history and files, the single system entry receives the summary |
| Relay.FileInfoSnoc | supabase/functions/ai-chat/index.ts:44 | the file lines are joined by single newlines with no trailing separator |
| Relay.FileInfoCons | supabase/functions/ai-chat/index.ts:44 | read from the front, the summary is the first line, a newline, then the rest |
| Relay.FileInfoSingle | supabase/functions/ai-chat/index.ts:44 | the exact line format `File: <name> (<size> bytes)` |
| Relay.UpstreamMentionsFiles | supabase/functions/ai-chat/index.ts:43-46 | with files, the last upstream entry contains every file's name and size |
| Relay.AttachmentScenario | supabase/functions/ai-chat/index.ts:43-46 | a turn with `a.py` (120 bytes) attached sends text that contains `a.py` and `120` |
| Relay.Respond | supabase/functions/ai-chat/index.ts:12-88 | every response has status 200 or 500; it is 500 exactly when it carries an `{error, details}` body, and that body has the fixed error text |
| Relay.OptionsPreflight | supabase/functions/ai-chat/index.ts:14-16 | OPTIONS gets status 200, the CORS headers and a null body, and nothing is sent upstream |
| Relay.UpstreamStatusError | supabase/functions/ai-chat/index.ts:65-86 | a non-ok status gives 500, the fixed Italian error and `OpenAI API error: <status>`, and the status can be read back from the details |
| Relay.UpstreamSuccess | supabase/functions/ai-chat/index.ts:73-77 | an ok reply's first choice text, present or not, is returned as `{response}` with status 200 and the JSON headers |
| Relay.ResponseClassification | supabase/functions/ai-chat/index.ts:65-86 | apart from preflight, a response is either 200 `{response}` or 500 `{error, details}` with the fixed text; 200 exactly when the body was read, the fetch succeeded with an ok status and a first choice existed |
| Relay.AppendInPlace | supabase/functions/ai-chat/index.ts:45 | the `+=` on the array's last element leaves it holding the list with the suffix on its last entry |
| Relay.Assemble | supabase/functions/ai-chat/index.ts:23-46 | the fresh array, after the in-place append to its last element, holds exactly the upstream list |
| Relay.Handle | supabase/functions/ai-chat/index.ts:12-88 | the handler's response is the classification above and it sends the assembled list upstream exactly when the request is not preflight and the body was read |
| Session.GetAIResponse | src/pages/Index.tsx:61-64 | any attached file gets the files reply, and only then; that reply carries the number of files |
| Session.CannedReply.Text | src/pages/Index.tsx:63-74 | a definition with no contract of its own: the four reply texts; its properties are stated by `Session.FilesAckCount` and `Session.RepliesDistinct` |
| Session.ReplyPrecedence | src/pages/Index.tsx:61-75 | without files, `errore`/`error` wins, then `imparare`/`tutorial`, otherwise the default; each case both ways |
| Session.FilesAckCount | src/pages/Index.tsx:63 | the files reply spells out the file count, which can be read back |
| Session.RepliesDistinct | src/pages/Index.tsx:61-75 | different replies have different texts; two files replies differ whenever their counts do |
| Session.ErroreImpliesError | src/pages/Index.tsx:66 | the `errore` test adds nothing beyond the `error` test |
| Session.UpperCaseKeywordScenario | src/pages/Index.tsx:66 | `Errore` with no files gets the error reply: the test ignores case |
| Session.MentionsIgnoreCase | src/pages/Index.tsx:66-70 | both keyword tests give the same answer for a message and its lower-cased form |
| Session.KeepOthers | src/pages/Index.tsx:82-84 | the index filter removes the element at the index when it is in range, and keeps the list otherwise |
| Session.RemoveIndex | src/pages/Index.tsx:83 | `removeFile`'s filter drops exactly the element at the index when it is in range, and keeps the list otherwise |
| Session.RemoveIndexInRange | src/pages/Index.tsx:82-84 | in range, the result is one shorter, elements before the index keep their place and later ones move down by one |
| Session.SendButtonDisabled | src/pages/Index.tsx:243 | the send button is disabled exactly when the draft is all whitespace and no file is selected |
| Session.ChatSession.constructor | src/pages/Index.tsx:18-28 | the session starts with exactly one `ai` turn with id `1`, an empty draft and selection, typing off and nothing pending |
| Session.ChatSession.SetInput | src/pages/Index.tsx:229 | typing replaces the draft and changes nothing else |
| Session.ChatSession.HandleSendMessage | src/pages/Index.tsx:32-48 | accepted exactly when the button is enabled. A rejected send changes nothing. An accepted send appends one user turn with the draft and the files, clears both, sets typing and schedules one reply that captures the draft and the files |
| Session.ChatSession.DeliverReply | src/pages/Index.tsx:49-58 | one `ai` turn with the canned reply to the captured draft and files goes after all existing turns; earlier turns are unchanged; typing goes off; that pending reply is removed |
| Session.ChatSession.HandleFileSelect | src/pages/Index.tsx:77-80 | the new files come after the old selection, in order; a null list adds nothing |
| Session.ChatSession.RemoveFile | src/pages/Index.tsx:82-84 | removes exactly the file at the index, or nothing when the index is out of range; the rest of the state is unchanged |
| Client.Descriptors | src/hooks/useAIChat.ts:27-31 | one descriptor per file, in order, with the same name, byte size and type |
| Client.FilesField | src/hooks/useAIChat.ts:27-31 | an absent file list sends `[]`; otherwise there is one descriptor per file |
| Client.Classify | src/hooks/useAIChat.ts:35-46 | a transport error is rethrown as is; a non-empty `data.error` throws an error with that text; only the remaining case returns, and it returns `data.response` |
| Client.AIChat.constructor | src/hooks/useAIChat.ts:15 | the flag starts false, with no calls and no notifications |
| Client.AIChat.SendMessageToAI | src/hooks/useAIChat.ts:18-59 | every write of the flag is recorded: it is true while the call is pending and false after every outcome. Exactly one invocation carries the turns unchanged and the descriptors. The outcome is the classification. Every failure adds exactly one notification and still fails to the caller |
| Client.GreetingRoundTrip | src/hooks/useAIChat.ts:24-46 | `Ciao` sends the system entry then one user entry; an upstream `Salve!` comes back as `{response: "Salve!"}`, and the caller receives `Salve!` |

## Left out

- The page's rendering, styling, icons and hidden file inputs are UI only. `formatFileSize` is also left out, because it relies on floating-point `Math.log`, `Math.pow` and `toFixed`.
- The `setTimeout` delay, `Math.random`, `Date.now` and `new Date()` are left out. Ids and timestamps are parameters. Which scheduled reply fires next is the parameter `k` of `DeliverReply`, so every delivery order is covered.
- The `fetch` to the completion API, the environment key, `serve`, and the model and sampling constants are left out. The upstream outcome is the input `UpstreamResult`: a failed fetch with its message, or a status with the first choice's text (absent when it is `null` or missing), or the message of the error raised reading it. `response.ok` is taken as status 200 to 299.
- Parsing the request JSON is left out. A body that cannot be read, or that has no `messages`, is `Unreadable` with the exception's message.
- The system prompt's wording is left out. `SystemPrompt` stands for it, and no property depends on the text.
- The `supabase.functions.invoke` transport is the input `InvokeResult`. How the transport maps the relay's HTTP status to `error` or `data` is not part of this model. `toast` is recorded as a list of shown notifications, and `console` logging is left out.
- React's asynchronous `setState` and closure semantics are left out. Each handler runs to completion. The reply callback sees the draft and the files captured at send time (`PendingReply`). Two overlapping `sendMessageToAI` calls, which could reset `isLoading` while the other is still pending, are not modelled: each call runs start to finish.
- Text.Lower: lower-cases ASCII letters only, whereas `toLowerCase` follows full Unicode case mapping. The keywords are ASCII, so only non-ASCII letters that lower-case to ASCII could make a difference.
- Text.NatToString: matches `${n}` only below 10^21. From there JavaScript writes numbers in exponent form, which no file size or HTTP status reaches.
- Relay.Msg: a turn's `type` is `user` or `ai` (the `Kind` type). Any other string in the JSON would map to `assistant`, the same as `ai`.
- File objects inside the forwarded turns are serialised as whatever JSON gives them. The relay never reads them.
