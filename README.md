# AI chat: a verified model of message persistence, reply selection and the chat page

The system is a small web chat. A browser page sends the user's text to a
server procedure. That procedure asks Google's generative-language API for a
reply. It stores both the user's message and the reply in a Supabase
`messages` table when a datastore is configured, and returns the reply.
The page shows a time-ordered merge of the stored messages and the ones it
created locally.

The model has eight modules, one file each:

- `Wrappers` (`wrappers.dfy`): `Option`.
- `Text` (`text.dfy`): the JavaScript string operations the code relies on.
  - `String.prototype.trim`, over the ECMAScript WhiteSpace and LineTerminator code points.
  - The truthiness of a trimmed string (`Blank`).
  - `Array.prototype.join`.
- `Config` (`config.dfy`): the process environment as a map from variable names to strings, and the `a || b || ... || ""` alias chain over it.
- `Persistence` (`persistence.dfy`): `getSupabase`.
  - The module-level `cachedClient` becomes a field of the class `Accessor`.
  - Each successful `createClient` yields a fresh `Client` object.
  - Whether `createClient` returns or throws is a parameter.
- `Messages` (`messages.dfy`): the `messages` table.
  - Its rows are a sequence field of the class `MessageTable`.
  - Insert and delete are methods that update it when the store accepts the call.
  - The message records are values.
- `Replies` (`replies.dfy`): how `sendMessage` turns the configured API key and the outcome of the one upstream request into the reply string.
  - The seven fixed replies are reproduced character for character.
- `ChatRouter` (`chat_router.dfy`): the three procedures `list`, `sendMessage` and `clearChat`.
  - They are methods of a `Router` class that holds the accessor and the table.
  - A ghost `effects` log records the outward calls (store select, insert and delete, upstream request) in the order they are made.
- `ChatPage` (`chat_page.dfy`): the page.
  - Its React state (`text`, `isTyping`, `localMessages`) becomes fields of the class `ChatView`.
  - `handleSend` is split at its `await` into `BeginSend` and `CompleteSend`.
  - `handleRestartChat` is modelled.
  - `allMessages` is an insertion sort, proved to be the unique stable sort it stands for.

Every foreign call becomes an input:
- the environment;
- `createClient` succeeding or throwing;
- each store call's `{ error }` or throw;
- the upstream response (status and decoded body) or its throw;
- the clock readings, as integer milliseconds.

The main results:

- **Replies.** The reply is never empty or blank, so the final fallback at
  `chat.ts:137-140` can never fire.
  - Each error reply is selected exactly in its case: 400, 403, any other non-ok status, a throw, no key.
  - An ok response yields the kept part texts joined by newlines and trimmed, or the "couldn't generate" reply when nothing survives the filter.
  - Without a key the upstream outcome is never consulted.
- **Router.**
  - Input is rejected exactly outside `1..4000` characters, and a rejected call touches nothing.
  - An accepted call makes, in order:
    - the user-row insert (when connected);
    - the upstream request (when a key exists), carrying the user's text;
    - the reply-row insert (when connected).
  - Store failures never change the reply.
  - `clearChat` removes exactly the rows created after 1900-01-01, and reports failure with "Failed to clear chat" exactly when the delete fails.
- **Accessor.**
  - A cached handle is returned unchanged.
  - A missing URL or key, or a throwing construction, returns null and leaves the cache empty, so a later call tries again.
  - Each setting is taken from the first non-empty alias in order.
- **Page.**
  - A send is ignored exactly when the trimmed text is empty or a reply is awaited.
  - Every sent prompt is answered by exactly one non-empty AI entry: the router's reply, or the apology when the router rejects the prompt or the call fails.
  - A restart clears the local messages however the clear call ends.
  - The displayed list is sorted by time, holds exactly the listed and local messages, and keeps listed-before-local order and each group's own order among equal times. No other sequence does all three.

## Model

| member | source | states |
|---|---|---|
| Text.TrimStart | src/server/routers/chat.ts:120-122 | the result is a suffix of the input, everything dropped is whitespace, and it does not start with whitespace |
| Text.TrimEnd | src/server/routers/chat.ts:120-122 | the result is a prefix of the input, everything dropped is whitespace, and it does not end with whitespace |
| Text.Trim | src/server/routers/chat.ts:138 | `trim()` yields the empty string exactly when the input is all whitespace; a non-empty result starts and ends with a non-space character |
| Text.TrimIsMiddle | src/server/routers/chat.ts:120-122 | `trim()` returns a contiguous middle part of the input, and what it removes at either end is whitespace only |
| Text.TrimIdempotent | src/server/routers/chat.ts:120-122 | trimming an already trimmed string changes nothing |
| Text.Join | src/server/routers/chat.ts:121 | `join` of no elements is "", of one element is that element, and otherwise starts with the first element |
| Text.JoinSnoc | src/server/routers/chat.ts:121 | appending an element to the list appends the separator and that element to the join, so each later element is preceded by one separator |
| Text.JoinNotBlank | src/server/routers/chat.ts:118-122 | a join whose first element has a visible character is not blank |
| Config.FirstNonEmpty | src/lib/supabaseClient.ts:9-19 | an `a \|\| b \|\| ... \|\| ""` chain over environment variables is "" exactly when every alias is unset or empty; otherwise it is the value of the first non-empty alias |
| Config.EarlierAliasWins | src/lib/supabaseClient.ts:9-19 | when alias k is set and every alias before it is empty, the chain yields alias k's value whatever follows |
| Persistence.SupabaseUrl | src/lib/supabaseClient.ts:9-13 | the URL is taken from `NEXT_PUBLIC_SUPABASE_URL`, `SUPABASE_URL` and `NEXT_PUBLIC_SUPABASE_PROJECT_URL`, in that order, and is "" when all three are empty |
| Persistence.SupabaseKey | src/lib/supabaseClient.ts:14-19 | the key is taken from the four key aliases, from `NEXT_PUBLIC_SUPABASE_ANON_KEY` to `SUPABASE_SERVICE_ROLE_KEY`, in order, and is "" when all four are empty |
| Persistence.Configured | src/lib/supabaseClient.ts:21 | construction is attempted only when both the URL and the key are non-empty |
| Persistence.Accessor.constructor | src/lib/supabaseClient.ts:4 | the cache starts empty |
| Persistence.Client.constructor | src/lib/supabaseClient.ts:30 | a handle carries the URL and key it was built from |
| Persistence.Accessor.GetSupabase | src/lib/supabaseClient.ts:6-37 | a cached handle is returned as is. With an empty cache: a missing URL or key returns none and constructs nothing; a throwing construction returns none and leaves the cache empty; a successful one returns a fresh handle with the chosen URL and key and caches it |
| Persistence.TwoCalls | src/lib/supabaseClient.ts:4-7 | a returned handle is returned again by the next call (and, by the first clause of `GetSupabase`, by every later one); a first call that returned none leaves the second free to succeed when configuration is present |
| Messages.Surviving | src/server/routers/chat.ts:166-169 | `delete().gt('created_at', floor)` keeps exactly the rows created at or before the floor, and keeps ids increasing |
| Messages.MessageTable.Insert | src/server/routers/chat.ts:38-43 | an accepted insert appends a row with a new, larger id and advances the id counter; a failed one changes neither the rows nor the counter; the result reports which |
| Messages.MessageTable.DeleteCreatedAfter | src/server/routers/chat.ts:165-176 | an accepted delete leaves the surviving rows; a failed one changes nothing |
| Replies.WordingNotBlank | src/server/routers/chat.ts:61 | every fixed reply (lines 61, 104, 106, 108, 128, 133, 139) ends in a full stop and is not blank |
| Replies.WordingInjective | src/server/routers/chat.ts:103-109 | no two fixed replies are the same text, so a reply identifies its case |
| Replies.ApiKey | src/server/routers/chat.ts:53 | the key is "" exactly when both `GEMINI_API_KEY_TEXT` and `GEMINI_API_KEY_IMAGE` are empty |
| Replies.StatusReply | src/server/routers/chat.ts:99-109 | a non-ok response gives the "rephrase" reply exactly for 400, the "not authorized" reply exactly for 403, and the "technical difficulties" reply for every other status |
| Replies.IsOk | src/server/routers/chat.ts:99 | `response.ok`: the status is in the range 200-299 |
| Replies.KeptTexts | src/server/routers/chat.ts:118-120 | the texts kept by `map(p => p?.text).filter(t => t && t.trim())` are never blank, no more than the parts, and none exactly when no part has visible text |
| Replies.KeptTextsAppend | src/server/routers/chat.ts:118-120 | the filter keeps order: filtering a concatenation is the concatenation of the filtered halves |
| Replies.KeptTextsSingle | src/server/routers/chat.ts:119-120 | a single part contributes its text exactly when that text is non-blank |
| Replies.FirstParts | src/server/routers/chat.ts:114-117 | there are parts to read exactly when `candidates` is present and non-empty, the first candidate has `content`, and that content has a non-empty `parts` list; those parts are then returned |
| Replies.Extracted | src/server/routers/chat.ts:114-124 | an ok body yields "" exactly when there is no first candidate with parts, or no part survives the filter; otherwise the result is the trimmed newline join of the kept texts and is not blank |
| Replies.GeneratedReply | src/server/routers/chat.ts:57-135 | the reply after the key check and the request is never blank |
| Replies.SelectReply | src/server/routers/chat.ts:57-140 | the final reply is never empty and the fallback never replaces it: no key gives "not configured"; a throw gives "trouble connecting"; non-ok statuses map as above; an ok body gives the extracted text or, when that is empty, "couldn't generate" |
| Replies.NoKeyIgnoresUpstream | src/server/routers/chat.ts:59-62 | without a key every upstream outcome gives the same "not configured" reply |
| ChatRouter.SendResponse | src/server/routers/chat.ts:30-32 | the input is rejected exactly when its length is outside 1..4000; an accepted input gets `success: true` and the selected, non-empty reply |
| ChatRouter.ListResult | src/server/routers/chat.ts:7-28 | without a handle, on a query error or on a throw the list is empty; otherwise it is the returned data, or empty when the data is null |
| ChatRouter.ClearResultFor | src/server/routers/chat.ts:161-181 | the result is a success exactly when there is no handle or the delete succeeds; a failure carries "Failed to clear chat" and a success carries no error |
| ChatRouter.SendEffects | src/server/routers/chat.ts:35-155 | an accepted send makes the user insert first and the reply insert last when connected; with a key it makes the upstream request, carrying the user's text, right after the user insert (first when not connected), and never makes one without a key |
| ChatRouter.Stored | src/server/routers/chat.ts:38-43 | the rows a send adds: one per accepted insert, all of type "text" with the caller's user id (or null, lines 42 and 149); the user's text and time first, the reply and its time last |
| ChatRouter.Router.constructor | src/server/routers/chat.ts:6 | the router starts over the given accessor and table with no effects |
| ChatRouter.Router.InsertBestEffort | src/server/routers/chat.ts:36-48 | with a handle, one insert is attempted and recorded in the effect log; the row is added after the existing ones only when the store accepts it; without a handle nothing happens; failures are swallowed |
| ChatRouter.Router.GenerateReply | src/server/routers/chat.ts:53-135 | exactly one upstream request with the user's text when a key exists, and none otherwise; the reply is the selected one |
| ChatRouter.Router.List | src/server/routers/chat.ts:7-28 | settles the accessor; performs one select exactly when a handle is obtained; returns the list result; leaves the table unchanged |
| ChatRouter.Router.SendMessage | src/server/routers/chat.ts:30-159 | a rejected input changes neither the cache, the table nor the effect log. An accepted one settles the cache, performs the effects in the order above, keeps every existing row in place and adds exactly the accepted inserts (user row, then reply row, as `Stored` describes), and returns the selected reply whatever the store did |
| ChatRouter.Router.Respond | src/server/routers/chat.ts:33-158 | the validated body of `sendMessage`: the same effects, preserved and added rows, and reply as above |
| ChatRouter.Router.ClearChat | src/server/routers/chat.ts:161-181 | settles the cache; with a handle, one delete of the rows created after 1900-01-01 that takes effect only when it succeeds; after a reported success no later row remains |
| ChatPage.Delivered | src/app/chat/page.tsx:63-71 | a rejected input reaches the page as a failed call, and an accepted one as its reply |
| ChatPage.ReplyEntries | src/app/chat/page.tsx:63-79 | a settled send appends at most one AI entry: the reply when it is truthy, the apology on failure, nothing for an empty reply |
| ChatPage.EverySendAnswered | src/app/chat/page.tsx:63-79 | against this router every non-empty prompt gets exactly one non-empty AI entry: the router's reply within the length bound, the apology beyond it |
| ChatPage.AtTime | src/app/chat/page.tsx:101-102 | the messages created at one time are drawn from the sequence and all carry that time |
| ChatPage.AtTimeAppend | src/app/chat/page.tsx:101 | the messages at one time of a concatenation are those of the first part followed by those of the second |
| ChatPage.InsertByTime | src/app/chat/page.tsx:102 | inserting into a sorted list keeps it sorted and adds exactly the new message |
| ChatPage.InsertKeepsTies | src/app/chat/page.tsx:102 | an inserted message goes after every message that shares its time, and no other time's order changes |
| ChatPage.SortByTime | src/app/chat/page.tsx:102 | the sort by `created_at` ascending yields a sorted permutation of its input |
| ChatPage.SortIsStable | src/app/chat/page.tsx:102 | the sort is stable: messages with equal times keep their input order |
| ChatPage.NoneBefore | src/app/chat/page.tsx:102 | a sorted list has no message earlier than its first |
| ChatPage.FirstAtOwnTime | src/app/chat/page.tsx:102 | the first message is the first one at its own time |
| ChatPage.AtTimeTail | src/app/chat/page.tsx:102 | removing the first message removes it from its own time only |
| ChatPage.StableSortUnique | src/app/chat/page.tsx:102 | two sorted sequences that agree on the order at every time are equal, so a stable sort has one possible result |
| ChatPage.AllMessages | src/app/chat/page.tsx:100-102 | the displayed list is sorted by time and holds exactly the listed messages (none before the first load) and the local ones; at each time the listed come first, each group in its own order |
| ChatPage.AllMessagesUnique | src/app/chat/page.tsx:100-102 | any sorted arrangement keeping that order at every time is the displayed list |
| ChatPage.ChatView.constructor | src/app/chat/page.tsx:15-17 | the page starts with empty text, not typing, and no local messages |
| ChatPage.ChatView.EditText | src/app/chat/page.tsx:194-196 | typing sets the text and is only possible while no reply is awaited |
| ChatPage.ChatView.BeginSend | src/app/chat/page.tsx:49-61 | nothing changes exactly when the trimmed text is empty or a reply is awaited; otherwise the text is cleared, typing starts, and exactly one entry is appended: no id, type "text", the trimmed text, the send time, from "me"; the trimmed text is the prompt |
| ChatPage.ChatView.CompleteSend | src/app/chat/page.tsx:63-79 | the settled call appends its reply entries (at most one, with no id, type "text", from "ai") and typing stops, whatever the outcome |
| ChatPage.ChatView.HandleSend | src/app/chat/page.tsx:49-80 | a whole send: ignored under the guard; otherwise the text is cleared, typing ends, and the user's entry is followed by the reply entries |
| ChatPage.ChatView.HandleRestartChat | src/app/chat/page.tsx:89-98 | the local messages are emptied whether the clear call resolves (the success callback at lines 37-42 runs even for `{ success: false }`) or throws |

## Left out

- Network, logging and the clock.
  - The upstream request, its URL, headers, generation settings and safety settings (chat.ts:66-97) are not modelled. Only its outcome is, as a status and a decoded body, or a throw.
  - `console` output is not modelled, including the truncated reply at chat.ts:157.
  - `new Date()` readings are integer milliseconds passed in. ISO strings and parsed dates are not modelled, nor an unparsable date, on which the page's comparator would yield NaN.
- chat.ts:51-52 is not modelled. Those lines are a pasted credential, not program logic. The model takes the API key only from the environment, as line 53 does.
- Supabase query semantics are not modelled.
  - The list query's `order(created_at desc)` and `limit(50)` (chat.ts:15-16): the data it returns is an input, unrelated to the modelled table's rows. So the model does not state that `list` is empty after a successful `clearChat`.
  - The date comparison behind `gt('created_at', '1900-01-01')`: it is an integer comparison against 1900-01-01T00:00:00Z in milliseconds.
  - A failed write is taken to leave the table unchanged.
- Timing.
  - Concurrency between requests, and between the page's handlers, is not modelled.
  - `CompleteSend` is the continuation of a `BeginSend`, with nothing else in between.
  - The page's refetch timers and query refetches (page.tsx:27-35, 40, 96) are not modelled.
  - Auto-scroll and rendering are not modelled, so duplicate display after a refetch is outside the model.
- ChatRouter.SendResponse: zod's `max(4000)` counts UTF-16 code units; the model counts characters.
- Message shapes.
  - Part texts are taken to be strings or absent. A non-string `text` in a part would make `trim` throw in the source; the model cannot produce one.
  - Listed messages always carry a text. The page's `text?` being absent is not modelled.
- The user id comes from the request context (`ctx.userId`), which is a parameter. The auth, tRPC and context files are not part of this model.
