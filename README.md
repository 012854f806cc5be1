# Noah chat handler, modelled in Dafny

This project models `api/chat.js`, the serverless HTTP handler behind the "Noah" chatbot.
For each POST request the handler does these steps:

1. It sends the conversation (`messages`) to the OpenAI chat-completion endpoint, with model `gpt-5-nano`.
2. It takes `choices[0].message.content` from the answer, or `"[No response]"` when there is none.
3. It splits that reply at the first `"[CLASSIFICATION]"` marker. The text before the marker is the visible reply. The text after it is a JSON payload whose `leverage` and `object` members are read.
4. It inserts two rows into the Supabase `logs` table, both with `bot_name` "Noah":
   - the user's latest message, at turn `messages.length`;
   - the assistant's clean reply with the two classification fields, at turn `messages.length + 1`.
5. It answers 200 with `{reply, leverage, object}`.

A request whose method is not POST gets 405 `{error: "Method not allowed"}`. Anything that throws inside the `try` gets 500 `{error: "Something went wrong"}`.

Modules:

- `Wrappers` (`wrappers.dfy`): `Option`.
- `Text` (`text.dfy`): strings as `seq<char>`.
  - `indexOf` is `IndexOf`, with its first-occurrence contract.
  - Containment is `Contains`.
  - `trim` is `Trim`. It removes exactly the ECMAScript WhiteSpace and LineTerminator characters (`IsWhitespace`).
- `Json` (`json.dfy`): parsed JSON values and the JavaScript semantics the handler applies to them.
  - Truthiness, for `x || fallback`.
  - Property access on a non-null value.
  - Optional chaining, `?.`.
  - `JSON.parse` is the parameter `parse: Parser`. It gives `None` where the parse throws.
- `Classification` (`classification.dfy`): `extractClassification`, as the pure function `ExtractClassification`, with lemmas.
- `Handler` (`handler.dfy`): the request pipeline.
  - `Run` is the specification of one request. It returns the ordered trace of outbound requests and the response.
  - `Handle` performs the request step by step on an `Outbox` (the outbound requests issued) and a `ServerResponse` (the `res` object). Its `ensures` equates the outcome with `Run`.
  - The outcomes of the three network calls are inputs (`Outcomes`):
    - the completion `fetch` rejects, its `.json()` rejects, or it yields a decoded body;
    - each log `fetch` resolves or rejects.

The model follows what the code does, including these behaviours that are easy to miss:

- A non-2xx answer from the completion endpoint is not an error in the code. Its JSON body is read, `choices` is missing, and the reply becomes `"[No response]"`. The request still ends in 200.
- A log insert whose `fetch` rejects is not swallowed. It lands in the `catch`, so the response is 500. After a failed user-row insert, no assistant row is sent.
- When the marker is absent, the reply is returned as it is, not trimmed.
- `leverage` and `object` are passed through as whatever truthy JSON value the payload holds, not only strings.
- An empty `messages` array is accepted. The user row then carries `"unknown"` at turn 0, and the assistant row is at turn 1.

## Model

| member | source | states |
|---|---|---|
| `Text.IsWhitespace` | api/chat.js:17-18 | the characters `trim` removes are exactly the ECMAScript LineTerminators (LF, CR, U+2028, U+2029), TAB, VT, FF, U+FEFF and the seventeen space separators of category Zs |
| `Text.IndexOf` | api/chat.js:11 | `indexOf` gives the first index where the pattern occurs, and `None` (for -1) exactly when the pattern occurs nowhere |
| `Text.IndexFrom` | api/chat.js:11 | the search from a start index finds the first occurrence at or after it, or proves there is none |
| `Text.SkipWhitespace` | api/chat.js:17-18 | the leading whitespace ends at the first non-whitespace character |
| `Text.SkipWhitespaceBack` | api/chat.js:17-18 | the trailing whitespace begins after the last non-whitespace character |
| `Text.Trim` | api/chat.js:17-18 | `trim` yields a string that neither starts nor ends with whitespace; it is a contiguous part of its input, and everything before and after that part is whitespace |
| `Text.TrimIsInfix` | api/chat.js:17-18 | `trim` yields the part of the input between its leading and trailing whitespace, and drops only whitespace |
| `Text.TrimOfTrimmed` | api/chat.js:17-18 | a string with no whitespace at either end is unchanged by `trim` |
| `Text.NotContainsSlice` | api/chat.js:17 | a substring of a string that lacks the pattern also lacks it |
| `Text.TrimKeepsAbsence` | api/chat.js:17 | trimming cannot create an occurrence of the marker |
| `Text.PrefixBeforeFirst` | api/chat.js:11-17 | the text before the first occurrence of a non-empty pattern does not contain it |
| `Text.ShorterNotContains` | api/chat.js:11 | a string shorter than the marker cannot contain it |
| `Json.Truthy` | api/chat.js:24-25 | a JSON value is falsy exactly when it is `null`, `false`, `0` or `""`, which is what `\|\|` tests at lines 24, 25, 48 and 84 |
| `Json.Member` | api/chat.js:24-25 | property access on a non-null value finds a member only in an object that has that key, and gives that member's value |
| `Json.OptionalMember` | api/chat.js:48 | `x?.key` is undefined when `x` is undefined or null; when `x` is an object with that key it is that member; in every other case it is undefined |
| `Json.OptionalFirst` | api/chat.js:48 | `x?.[0]` is the first element of a non-empty array, the first character of a non-empty string, or the member "0" of an object that has one; it is undefined otherwise |
| `Json.OrNull` | api/chat.js:24-25 | `x \|\| null` keeps a truthy value unchanged and turns a missing or falsy value into null |
| `Classification.ReadFields` | api/chat.js:20-30 | each field is set exactly when the payload parses to an object that has that member with a truthy value, and then it is that value; a parse failure or a non-object (including `null`, whose member access throws) leaves both fields null |
| `Classification.ExtractClassification` | api/chat.js:9-31 | the clean reply never contains the marker; without the marker the reply comes back unchanged with both fields null; with it, the clean reply is the trimmed text before the first occurrence, and the fields are read from the trimmed text after it; any field that is set is truthy |
| `Classification.MarkerFirstAfter` | api/chat.js:10-11 | in `p + "[CLASSIFICATION]" + q` with `p` free of the marker, the first occurrence starts right after `p`, because the marker cannot overlap itself |
| `Classification.ExtractSplitsAtMarker` | api/chat.js:11-26 | for a reply `p + marker + q` with `p` free of the marker, the clean reply is `trim(p)` and the fields are those read from `trim(q)` |
| `Classification.UnreadablePayloadFallsBack` | api/chat.js:20-30 | a payload that does not parse, or parses to a non-object, gives the trimmed prefix with both fields null, and nothing is raised |
| `Classification.GreetingClassified` | api/chat.js:9-31 | "Hello![CLASSIFICATION]{"leverage":"rapport","object":"greeting"}" gives reply "Hello!", leverage "rapport" and object "greeting" |
| `Handler.Content` | api/chat.js:48 | `data.choices?.[0]?.message?.content` is the `content` of the first choice when `choices` is a non-empty array (or an object with a member "0") whose first choice is an object with a `message` object that has `content`; it is undefined in every other case, including a body without `choices` |
| `Handler.FullReply` | api/chat.js:48 | the full reply is the content when that is truthy, and `"[No response]"` when the content is missing or falsy; it is always truthy |
| `Handler.ExtractFrom` | api/chat.js:52 | a string reply `s` gives exactly `extractClassification(s)`, whose reply part is free of the marker; an array reply (which has its own `indexOf`) comes back as itself with null fields, unless it holds the marker string, in which case `substring` throws; any other value throws |
| `Handler.UserMessage` | api/chat.js:84 | the logged user message is truthy; with no messages it is `"unknown"`; otherwise it is `"unknown"` or the last message's `content` |
| `Handler.UserMessageIsLastContent` | api/chat.js:84 | a last message that is an object with truthy `content` is logged with exactly that content |
| `Handler.UserRow` | api/chat.js:65-85 | the user's row is at turn `messages.length`, role user, bot name "Noah", the request's `convo_id`, `leverage` and `object` null (the helper's defaults), and a truthy message that is `"unknown"` or the last message's `content` |
| `Handler.AssistantRow` | api/chat.js:65-88 | the assistant's row is one turn after the user's, role assistant, bot name "Noah", the request's `convo_id`, and carries the clean reply and both classification fields |
| `Handler.Run` | api/chat.js:1-101 | only 405, 200 or 500 are answered; a non-POST request gets 405 with nothing sent; on POST the completion request goes out first; a failed completion call or an undecodable body gives 500 with no log write; call k ≥ 1 is a log insert at turn N + k − 1 (user first, then assistant), with bot name "Noah" and the request's `convo_id`; the user row is `UserRow`; a null body, missing `messages` or a reply `extractClassification` throws on gives exactly the completion request and 500; with a usable reply the user row is sent even if its insert rejects (then exactly those two calls and 500), once it resolves the assistant row follows, and the answer is 200 `{reply, leverage, object}` from the classification exactly when both inserts resolve; 200 only when all three calls resolved, and its body repeats the assistant row's message and fields |
| `Handler.SuccessCarriesClassification` | api/chat.js:48-95 | when the content is a string `s`, a 200 response and the assistant row both carry `extractClassification(s)`: the marker-free clean reply and its fields |
| `Handler.CompletionBodyReply` | api/chat.js:47-48 | a body `{"choices":[{"message":{"content": s}}]}` with non-empty `s` yields `s` as the full reply |
| `Handler.GreetingExample` | api/chat.js:1-101 | `messages = [{role: "user", content: "Hi"}]`, answered with "Hello![CLASSIFICATION]{...rapport...greeting}", gives exactly the completion request, then the user row "Hi" at turn 1, then the assistant row "Hello!" with "rapport"/"greeting" at turn 2, then 200 with the same reply and fields |
| `Handler.Outbox.Send` | api/chat.js:68-80 | each `fetch` appends its request to the outbound trace and changes nothing else |
| `Handler.ServerResponse.Status` | api/chat.js:3 | `res.status(code)` sets the status and leaves the body alone |
| `Handler.ServerResponse.SendJson` | api/chat.js:91-95 | `res.json(body)` sends the body and leaves the status alone |
| `Handler.Attempt` | api/chat.js:33-96 | the `try` block issues exactly `Run`'s outbound requests, in order; it completes (with status 200 and `Run`'s body) exactly when `Run` answers 200; otherwise it leaves the response untouched for the `catch` |
| `Handler.Handle` | api/chat.js:1-101 | the handler issues exactly `Run`'s outbound requests, in order, and sets the status and body that `Run` specifies |

## Left out

- Network I/O is not modelled: the `fetch` calls to OpenAI and Supabase, their URLs, headers, bearer and API-key values, and `Prefer: return=minimal`. Each call is recorded as a `Call` (the model name and messages, or the inserted row), and its outcome is an input.
- When a log `fetch` rejects, the model cannot tell whether the store kept the row. The trace records the request as issued.
- `process.env` reads are configuration only and are not modelled.
- `console.error` on a payload parse failure and in the `catch` is side output only and is not modelled.
- `JSON.parse` is a parameter, not a parser. `JSON.stringify` of the outbound bodies is not modelled; an absent `convo_id` is `None` where `stringify` would drop the key.
- JSON numbers carry the value the parser produced as a `real` (a double is never NaN, so truthiness is "non-zero").
- A request without a body is not modelled. The destructuring on line 6 then throws outside the `try`, so the handler's promise rejects and the handler writes no response. `Request` carries `messages` (possibly absent) and `convo_id` directly.
- A `messages` value that is present but is not an array is not modelled. A string or an object would give `.length` and `.at` other meanings.
- Strings are sequences of Unicode scalar values; JavaScript strings are UTF-16 code units. The marker and every whitespace character are single code units, so `indexOf`, `substring` and `trim` cut at the same characters in both, and only the numeric index values differ. A lone surrogate is different: a JSON escape such as `"\ud800"` can put one into the completion content, and a Dafny `string` cannot hold it, so such replies are not modelled.
- Errors thrown while writing the response (`res.json`) are not modelled.
- `async`/`await` is not modelled: the handler is strictly sequential, and the calls appear in the trace in the order they are awaited.
