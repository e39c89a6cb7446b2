# Lead-intake assistant: the two message handlers

This project models the server side of a WhatsApp assistant that interviews
lawyers for a website briefing. Messages arrive from the Evolution API. A
language model asks for four fields, one at a time: lawyer name, firm name,
specialties and differentiator. Once the model replies with the
`[FINALIZADO]` marker followed by a JSON block, the lead is stored as
completed.

Two routes do the work, and both are modelled:

- `app/api/process-buffer/route.ts` is called by the delayed-task service
  (QStash) with a `whatsappId`. It drains the conversation's Redis
  buffer of fragments and joins them with blank lines. It asks the Groq
  model, with the conversation history, for a reply. It records the user
  turn and the model turn in `mensagens`, runs the completion extractor,
  writes the `leads` row, and sends the reply to the number without its
  `@s.whatsapp.net` suffix.
- `app/api/webhook/route.ts` is the direct webhook. It drops deliveries
  that are not inbound text messages. It asks the Gemini model through the
  exponential-backoff `fetchWithRetry`, then records, extracts and replies
  in the same way, to the raw `remoteJid`.

Modules:

- `Wrappers`: `Option`.
- `Text`: the JavaScript string operations the routes rely on —
  `includes`/`indexOf`, `replace` with a string pattern (first occurrence
  only), `trim` (ECMAScript white space and line terminators) and `join`.
- `Completion`: the extractor. It covers the trigger test, the greedy
  match of `/\{[\s\S]*\}/` (from the first `{` to the last `}`, and only
  when some `{` comes before some `}`), the cleaning of the reply, and the
  decision on the lead.
- `Store`: the state as a value (`Tables`), plus a `Backend` class whose
  fields are that state and whose methods are the client calls the routes
  make (`lrange`, `del`, the history query, inserts, upserts, the `sendText`
  request).
- `Script`: the interview instruction, in the two copies the routes hold.
- `Turn`: the record-and-extract steps both routes run identically.
- `ProcessBuffer` and `Webhook`: each route has a `Handler` method that runs
  against a `Backend`. Its `ensures` ties the new state and the response to
  a pure function of the old state (`Handle`, `Post`), and the properties
  are lemmas about those functions.

Everything outside the routes is a parameter:

- the model call: `llm` for Groq; `gemini`, which gives how attempt `k`
  with given contents ends;
- `JSON.parse`: `parse`, which returns `None` when it throws;
- the `configuracoes` row;
- how the `sendText` request ends.

A model request names its instruction (`GroqInterview`, `GeminiInterview`)
rather than holding the text. `Script.Wording` gives the exact text,
written as the source's lines. Its middle is `Sentinel`, which is the same
`[FINALIZADO]` the source writes out.

## Behaviour worth knowing

- `app/api/reativar-ia/route.ts` clears `ai_paused` on a lead, but neither
  modelled route reads that column: every accepted message is answered by
  the model, also after the briefing is complete.
- `fetchWithRetry` rethrows after its last attempt
  (app/api/webhook/route.ts:19), and `POST` then answers 500 (:144-146)
  before anything is written or sent
  (`Webhook.ModelUnreachableWritesNothing`). The buffer route instead
  catches a failed model call and uses its fallback text
  (app/api/process-buffer/route.ts:97-100).
- The open-lead upsert is sent with `ignoreDuplicates`
  (app/api/process-buffer/route.ts:139, app/api/webhook/route.ts:131), so an
  existing lead row is left exactly as it was, `updated_at` included; the
  comment at app/api/webhook/route.ts:126 says the timestamp is updated.
- The buffer is read with `lrange` and then deleted with two separate `del`
  calls (app/api/process-buffer/route.ts:26, :37-38).
- The buffer is deleted (:37-38) before the Groq key is checked (:42-45);
  without a key the fragments are gone and the answer is 500
  (`ProcessBuffer.ConfigMissingDropsFragments`).
- In the webhook, `responseText || "Recebido."` (app/api/webhook/route.ts:140)
  never falls back: `aiText` defaults to a non-empty string (:87), and a
  cleaned reply that comes out empty becomes the thank-you message (:119)
  (`Webhook.AcceptedProcessed`).

## Model

| member | source | states |
|---|---|---|
| ProcessBuffer.Handler | app/api/process-buffer/route.ts:19-172 | running the route against the backend yields exactly the state and response of `Handle` on the old state |
| Store.ListAt | app/api/process-buffer/route.ts:26 | the reading of `lrange 0 -1`, with a missing key as the empty list; `EmptyBufferIsNoOp` and `BufferDrained` state its use |
| Store.Backend.LRange | app/api/process-buffer/route.ts:26 | the call returns `ListAt` of the current Redis state and changes nothing |
| ProcessBuffer.EmptyBufferIsNoOp | app/api/process-buffer/route.ts:26-31 | an empty or missing buffer answers `processed: 0` and changes nothing at all |
| ProcessBuffer.KeysDistinct | app/api/process-buffer/route.ts:26-38 | a buffer key never equals a schedule key, and each key names exactly one conversation |
| ProcessBuffer.Handle | app/api/process-buffer/route.ts:19-172 | the route as a function of the old state; its properties are `EmptyBufferIsNoOp`, `BufferDrained`, `ConfigMissingDropsFragments`, `BufferProcessed` and `ModelFailureFallsBack` |
| Store.Backend.Del | app/api/process-buffer/route.ts:37-38 | deleting a key removes that key and leaves every other key and every table unchanged |
| ProcessBuffer.BufferDrained | app/api/process-buffer/route.ts:26-38 | once the buffer is non-empty, both of the conversation's keys are gone whatever follows, the other Redis keys are intact, and the response never reports 0 |
| Text.Join | app/api/process-buffer/route.ts:33 | `join`; `JoinSplit` and `JoinSnoc` state that the fragments appear in order with one separator between neighbours |
| Text.JoinSplit | app/api/process-buffer/route.ts:33 | the joined text is the fragments in order, with exactly one separator at every cut between neighbours |
| Text.JoinSnoc | app/api/process-buffer/route.ts:33 | one more fragment adds one separator and that fragment at the end |
| ProcessBuffer.TwoFragmentsCombine | app/api/process-buffer/route.ts:33 | two fragments become one turn with a blank line between them |
| ProcessBuffer.ConfigMissingDropsFragments | app/api/process-buffer/route.ts:36-45 | without a Groq key the buffer is already cleared, the answer is the 500, and no table or outgoing message changes |
| Store.History | app/api/process-buffer/route.ts:48-51 | the history holds exactly the rows of the conversation and is no longer than the table |
| Store.HistoryAppend | app/api/process-buffer/route.ts:48-51 | appending rows to the table appends the conversation's share of them to its history, in order |
| Store.Backend.SelectHistory | app/api/process-buffer/route.ts:48-51 | the query returns the conversation's rows in insertion order |
| ProcessBuffer.ChatRoleOf | app/api/process-buffer/route.ts:54 | `model` is the assistant and every other stored role is the user; `FormatHistory` and `FormatExchange` state its use |
| ProcessBuffer.FormatHistory | app/api/process-buffer/route.ts:53-56 | one chat message per row, in the same order, with `model` mapped to the assistant and every other role to the user |
| ProcessBuffer.FormatAppend | app/api/process-buffer/route.ts:53-56 | formatting the history distributes over appending rows |
| ProcessBuffer.FormatExchange | app/api/process-buffer/route.ts:53-56 | a recorded turn formats as a user message followed by an assistant message |
| Script.InstructionNamesMarker | app/api/process-buffer/route.ts:61-81 | each copy of the instruction contains the very marker the extractor tests for, so a reply that repeats it triggers extraction |
| ProcessBuffer.Prompt | app/api/process-buffer/route.ts:85-91 | the request carries the interview instruction, then the whole formatted history, then the combined text as the last user message |
| ProcessBuffer.ReplyOf | app/api/process-buffer/route.ts:83-100 | the model's text, or the fallback when the call threw; `ModelFailureFallsBack` and `FallbackUntriggered` state the fallback case |
| ProcessBuffer.ModelFailureFallsBack | app/api/process-buffer/route.ts:83-100 | when the model call throws, the fallback is stored as the model's row and sent, and the lead is only opened if absent |
| ProcessBuffer.FallbackUntriggered | app/api/process-buffer/route.ts:99 | the fallback text has neither the marker nor a `{`, so it never triggers extraction |
| ProcessBuffer.FallbackHasNoBracket | app/api/process-buffer/route.ts:99 | the fallback text has no `[` |
| ProcessBuffer.FallbackHasNoBrace | app/api/process-buffer/route.ts:99 | the fallback text has no `{` |
| Store.Backend.InsertMessages | app/api/process-buffer/route.ts:103-106 | rows are appended in order and nothing else changes |
| Turn.Record | app/api/process-buffer/route.ts:102-140 | the record-and-extract steps as a function; `RecordFrame`, `RecordHistory`, `RecordLeadsUntriggered`, `RecordLeadsParseFailure`, `RecordLeadsCompleted` and `RecordResponseNonEmpty` state its effects |
| Turn.RecordTurn | app/api/process-buffer/route.ts:102-140 | the record-and-extract steps yield exactly the state and `responseText` of `Record` |
| Turn.RecordFrame | app/api/process-buffer/route.ts:102-106 | a turn appends exactly its two rows, user first; Redis, the outgoing messages and other conversations' leads are untouched |
| Turn.RecordHistory | app/api/process-buffer/route.ts:102-106 | after a turn, the conversation's history is the old history plus the user row and then the model row |
| ProcessBuffer.NextPromptSeesExchange | app/api/process-buffer/route.ts:47-106 | the next turn's request contains the recorded exchange as a user message and an assistant message, just before the new text |
| Text.IndexOf | app/api/process-buffer/route.ts:111 | the result is the leftmost occurrence: none occurs earlier, and `None` means it occurs nowhere |
| Text.IndexFrom | app/api/process-buffer/route.ts:111 | the result is the first occurrence at or after the start, and `None` means there is none from there on |
| Text.AbsentLead | app/api/process-buffer/route.ts:111 | a pattern whose first character is absent from the text does not occur in it |
| Completion.Triggered | app/api/process-buffer/route.ts:111 | the reply has the marker or a `{`; `Decide` opens the lead exactly when it does not hold, and `UntriggeredHasNoMatch` relates it to the match |
| Completion.Decide | app/api/process-buffer/route.ts:108-140 | the lead is opened exactly when the reply has neither marker nor `{`; the reply passes unchanged unless the lead completes, and then the text is non-empty and trimmed (or is the thank-you message) |
| Completion.FirstOf | app/api/process-buffer/route.ts:113 | the index holds the character and no earlier index does |
| Completion.LastOf | app/api/process-buffer/route.ts:113 | the index holds the character and no later index does |
| Completion.GreedyMatch | app/api/process-buffer/route.ts:113 | the pattern matches exactly when some `{` precedes some `}`, and the match runs from the first `{` to the last `}` |
| Completion.JsonMatch | app/api/process-buffer/route.ts:113-115 | there is a matched text exactly when the pattern matches, and it starts with `{` and ends with `}` |
| Completion.GreedyMatchIs | app/api/process-buffer/route.ts:113 | any range starting at the first `{` and ending at the last `}` is the match |
| Completion.UntriggeredHasNoMatch | app/api/process-buffer/route.ts:111-113 | a reply that does not trigger extraction cannot match the pattern |
| Text.OccursBetween | app/api/process-buffer/route.ts:74 | a pattern placed between two texts occurs right after the first |
| Text.ReplaceFirst | app/api/process-buffer/route.ts:128 | an absent pattern leaves the text as it is; otherwise one occurrence's length is exchanged for the replacement's; `ReplaceAtFirst` pins the occurrence to the leftmost one |
| Text.ReplaceAtFirst | app/api/process-buffer/route.ts:128 | `replace` rewrites the leftmost occurrence and keeps everything around it |
| Text.ReplaceAbsent | app/api/process-buffer/route.ts:128 | replacing a pattern that does not occur changes nothing |
| Completion.RemoveMatch | app/api/process-buffer/route.ts:115-128 | removing the matched string cuts out exactly the matched range, because it cannot occur earlier |
| Text.TrimStart | app/api/process-buffer/route.ts:128 | the result is a suffix, everything removed is white space, and it does not start with white space |
| Text.TrimEnd | app/api/process-buffer/route.ts:128 | the result is a prefix, everything removed is white space, and it does not end with white space |
| Text.Trim | app/api/process-buffer/route.ts:128 | the result is a slice with white space removed on both sides, and neither of its ends is white space |
| Text.TrimStartNoSpace | app/api/process-buffer/route.ts:128 | a text that does not start with white space is not changed by removing leading white space |
| Text.TrimEndNoSpace | app/api/process-buffer/route.ts:128 | a text that does not end with white space is not changed by removing trailing white space |
| Text.TrimIdempotent | app/api/process-buffer/route.ts:128 | trimming twice is trimming once |
| Completion.Clean | app/api/process-buffer/route.ts:128-129 | the cleaned reply is never empty, and it is trimmed unless it is the thank-you message |
| Completion.DecideCompleted | app/api/process-buffer/route.ts:113-129 | a parsed match completes the lead with the parsed fields; the user sees the reply with the matched range cut out, the first marker removed and the rest trimmed, or the thank-you message if that is empty |
| Completion.ExampleMatch | app/api/process-buffer/route.ts:113-128 | in the example, the match is the whole JSON block and cutting it leaves the greeting and the marker |
| Completion.ExampleMarker | app/api/process-buffer/route.ts:128 | in the example, removing the marker leaves the greeting and the newlines |
| Completion.ExampleTrim | app/api/process-buffer/route.ts:128 | in the example, trimming drops the newlines |
| Completion.ExampleCompleted | app/api/process-buffer/route.ts:111-129 | a greeting followed by the marker and a JSON block completes the lead and leaves only the greeting |
| Store.StatusTextInjective | app/api/process-buffer/route.ts:120 | the two statuses are stored as different texts (`Briefing Concluído`, `Em Aberto`), so the column determines the status |
| Store.Upserted | app/api/process-buffer/route.ts:118-126 | the upsert replaces the conversation's row, or adds it, and changes no other row |
| Store.Backend.UpsertLead | app/api/process-buffer/route.ts:118-126 | the upsert changes only the conversation's lead row |
| Turn.RecordLeadsCompleted | app/api/process-buffer/route.ts:113-126 | a triggered reply whose match parses makes the lead completed with the four parsed fields |
| Completion.DecideParseFailure | app/api/process-buffer/route.ts:131-133 | a triggered reply with no match, or an unparsable one, leaves the lead untouched and passes unchanged |
| Turn.RecordLeadsParseFailure | app/api/process-buffer/route.ts:112-133 | when the match is missing or does not parse, `leads` keeps its old value and the reply is sent as it came |
| Store.InsertedIfAbsent | app/api/process-buffer/route.ts:134-140 | the row is added only when the conversation has none; every existing row stays exactly as it was |
| Store.Backend.InsertLeadIfAbsent | app/api/process-buffer/route.ts:134-140 | the insert-if-absent changes only `leads`, as `InsertedIfAbsent` says |
| Completion.DecideUntriggered | app/api/process-buffer/route.ts:134-140 | a reply with neither marker nor `{` only opens the lead, and passes unchanged |
| Turn.RecordLeadsUntriggered | app/api/process-buffer/route.ts:134-140 | without marker or `{`, an existing lead is kept as it was, and a new one is opened otherwise |
| ProcessBuffer.Recipient | app/api/process-buffer/route.ts:144 | the number is never longer than the id and equals it when the suffix is absent; `RecipientStripsSuffix` states the suffix case |
| ProcessBuffer.RecipientStripsSuffix | app/api/process-buffer/route.ts:144 | an id made of a phone number and the WhatsApp suffix is dispatched to the bare number |
| ProcessBuffer.RecipientWithoutSuffix | app/api/process-buffer/route.ts:144 | an id without the suffix is dispatched to itself |
| Turn.OrReceived | app/api/process-buffer/route.ts:148 | the sent text is never empty, and a non-empty `responseText` is sent as it is |
| Turn.RecordResponseNonEmpty | app/api/process-buffer/route.ts:108-148 | a non-empty reply never falls back to `"Recebido."`; an empty reply always does |
| Store.Backend.Send | app/api/process-buffer/route.ts:152-159 | the request is appended to the outgoing messages and nothing else changes |
| ProcessBuffer.BufferProcessed | app/api/process-buffer/route.ts:47-167 | the outcome of a processed buffer: history gains the combined text and the reply; the lead follows the extractor; one `sendText` request is issued to the recipient; `processed` is the fragment count unless the send threw |
| Webhook.Succeeded | app/api/webhook/route.ts:15-17 | an attempt yields a body only for an ok status whose body parses; `FetchFrom` states how failures are retried |
| Webhook.FetchFrom | app/api/webhook/route.ts:13-23 | attempts never exceed the budget; delays double from `backoff`; every attempt before the last failed; the result is the last attempt's body, missing only when the budget is spent |
| Webhook.DelaysDouble | app/api/webhook/route.ts:20-21 | waiting `backoff` before a schedule that starts at twice `backoff` gives the doubling schedule |
| Webhook.FirstSuccessWins | app/api/webhook/route.ts:13-17 | the first attempt that succeeds within the budget is the last one, and its body is the result |
| Webhook.DefaultScheduleAllFail | app/api/webhook/route.ts:13-21 | with the defaults and each of the six attempts failing: six requests, waits of 1, 2, 4, 8 and 16 s (31 s in all), then the error is rethrown |
| Webhook.UserText | app/api/webhook/route.ts:36 | the conversation text wins when it is non-empty, otherwise the extended text; `None` exactly when neither is non-empty |
| Webhook.Classify | app/api/webhook/route.ts:30-38 | an accepted delivery carries non-empty text and the first message's `remoteJid`; `AcceptedIff` states both directions of the filter |
| Webhook.AcceptedIff | app/api/webhook/route.ts:30-38 | a delivery is processed exactly when it is `messages.upsert`, its first message is not our own, and it carries text (both directions) |
| Webhook.IgnoredIsNoOp | app/api/webhook/route.ts:30-38 | a filtered-out delivery is acknowledged, and nothing is written or sent |
| Webhook.PassThrough | app/api/webhook/route.ts:47-50 | one entry per history row, in order, with the stored role unchanged |
| Webhook.Contents | app/api/webhook/route.ts:78 | the instruction comes first as a user turn, then the history as stored, then the new message as a user turn |
| Webhook.AiText | app/api/webhook/route.ts:87 | the first candidate's text when it is non-empty, otherwise the fallback; never empty |
| Webhook.ModelUnreachableWritesNothing | app/api/webhook/route.ts:80-146 | when the six attempts all fail, the request ends in a 500, and nothing is written or sent |
| Webhook.AcceptedProcessed | app/api/webhook/route.ts:89-143 | an answered delivery: the message table gains exactly the text and the model text as two rows, and nothing else in it changes; the lead follows the extractor; one `sendText` request is issued to the raw `remoteJid`, and the `"Recebido."` default is never used |
| Webhook.Post | app/api/webhook/route.ts:25-148 | the route as a function of the old state; its properties are `IgnoredIsNoOp`, `ModelUnreachableWritesNothing` and `AcceptedProcessed` |
| Webhook.Handler | app/api/webhook/route.ts:25-148 | running the route against the backend yields exactly the state and response of `Post` on the old state |

## Left out

- `app/page.jsx` and `app/api/reativar-ia/route.ts` are not part of this model.
- Request authentication: the delayed-task signature check around the buffer handler is not modelled.
- Scheduling side of the debounce: appending fragments and scheduling the flush happen elsewhere, and the scheduling timer is not modelled.
- Retry timing: the waits in `fetchWithRetry` are recorded as numbers (`delays`), not waited.
- Logging: nothing the routes log is modelled.
- Timestamps: `created_at` is modelled as insertion order, and `updated_at` is not modelled. Neither route sets `created_at`; the user row and the model row come from one `insert([...])` call, so they may share a timestamp, and `.order('created_at')` does not order ties. The model puts the user row first, and `RecordHistory` and `NextPromptSeesExchange` rest on that reading.
- Model call settings: the model names, `temperature` and `maxTokens` are left out, because they only parameterise the external model.
- Request details: URLs, API keys and headers are left out.
- Table columns: only the columns the routes write are modelled.
- Client failures: Supabase error results are taken to succeed, and a thrown Redis call is not modelled, because the external clients are not part of this model.
- Request body: a body that `req.json()` cannot read is not modelled.
- A delivery without `data` or `key` is folded into the empty `messages` case, which the model treats as a thrown error (500).
- Upstash client: automatic JSON decoding of list items is not modelled; fragments are strings.
- `JSON.parse`: the parser's internals are left out; it is the parameter `parse`, and the four fields are taken as strings.
- Concurrency: no interleaving of requests is modelled, including the race between `lrange` and `del`.
- Characters: a string is a sequence of Unicode scalar values, so a code point above U+FFFF is one `char` here but two code units in JavaScript, and a lone surrogate cannot be represented; none of the modelled operations (`includes`, string `replace`, `trim`, the brace match) exposes an index, so their results agree.
- Delivery of sent messages: `outbox` records every `sendText` request a route issues, including one whose `fetch` threw (`Unreachable`, answered 500), so an entry does not mean the Evolution API received it.
- Rejected sends: a `sendText` request answered with a non-ok status is only logged, so `Rejected` behaves like `Delivered`.
- Completion.Clean: states that the cleaned reply is trimmed or is the thank-you message, rather than that it is always trimmed, because the thank-you text itself is not reasoned about character by character.
- Completion.Decide: for a completed lead, states the same weaker trimmedness as `Clean`, for the same reason.
