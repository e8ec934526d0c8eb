# Provider adapters of the chat relay, in Dafny

This project models the provider layer of the relay, `src/lib/providers.js`.
That layer takes one conversation and sends it to up to three configured
chat providers (slots `slotA`, `slotB`, `slotC`). For each slot it builds an
HTTP request in one of three protocols:

- OpenRouter and OpenAI-compatible, which share the chat-completions shape;
- a generic JSON protocol, whose request body comes from a `{{name}}` template.

It then reads the reply text out of the response along a dotted path, and it
turns every failure into an error result instead of an exception.

The model has seven files:

- `optional.dfy` holds `Option`, which stands for `undefined`.
- `text.dfy` holds the regular-expression character classes (`\w`, `\d`, `\s`), greedy runs and ASCII upper-casing.
- `json.dfy` holds the JSON values the layer sends and receives, and JavaScript truthiness.
- `template.dfy` models `substituteTemplate`. Substitution is a left-to-right scan that never re-scans an inserted value. It is proved to agree with `Fill`, an independent definition over templates written as placeholders and literal pieces. A literal piece must contain no `{{` and must not end in `{`.
- `path.dfy` models `getByPath`.
  - `GetByPath` is the loop, proved against the function `PathValue`.
  - `MatchSegment` is the unanchored segment pattern `(\w+)(?:\[(\d+)\])?`.
  - `Property` is JavaScript property access on JSON values.
- `requests.dfy` models the requests the two OpenAI-style functions and `callGeneric` build, and how the reply text is extracted.
- `providers.dfy` models `callProvider` (the early checks, the dispatch and the `catch` block) and `callAllProviders`. The latter is a method that fills the result map in a loop.

Two things are parameters of the model rather than part of it. The network is a
function `transport` from the request handed to `axios` to the outcome.
`JSON.stringify` is a function `serialize`.

## Model

| member | source | states |
|---|---|---|
| Template.VariableValue | src/lib/providers.js:5 | The definition of the replacer: the value of an own key of `variables`, else the empty string. `SubstitutePlaceholder` and `SubstituteRendered` use it. |
| Template.Substitute | src/lib/providers.js:3-7 | The definition of `substituteTemplate`: a left-to-right scan that emits the variable's value at a match and resumes after it, else copies one character. Its properties are stated by `SubstitutePlaceholder`, `SubstituteNoMatch`, `SubstituteInertPrefix` and `SubstituteRendered`. |
| Template.PlaceholderAt | src/lib/providers.js:4 | The definition of the match that starts at a position. It is `{{`, the maximal run of spaces, a non-empty maximal run of word characters, the maximal run of spaces, then `}}`. Its parts are `NameAt` and `CloseAt`. The classes are disjoint, so no backtracking is needed. `PlaceholderAtText`, `PlaceholderAtShape` and `SubstituteNoMatch` state its properties. |
| Template.PlaceholderAtText | src/lib/providers.js:4 | The pattern matches `{{`, optional `\s` padding, a `\w+` name, optional padding and `}}` at the front of any text. It captures exactly the name and covers the whole placeholder. |
| Template.PlaceholderAtShape | src/lib/providers.js:4 | The converse of `PlaceholderAtText`. Every match at the front of a text covers placeholder text: `{{`, `\s` padding, a non-empty `\w` name that is the capture, padding and `}}`. The match's length is exactly that text's length. |
| Template.SubstitutePlaceholder | src/lib/providers.js:3-7 | A placeholder is replaced by its variable's value if the name is an own key, else by the empty string. Scanning resumes after the closing braces, so the inserted value is never re-scanned. |
| Template.SubstituteNoMatch | src/lib/providers.js:3-7 | A template in which the pattern matches at no position comes back unchanged. This includes templates whose `{{` never completes a placeholder, such as `{{}}` or `{{ a }`. |
| Template.SubstituteInert | src/lib/providers.js:3-7 | A template with no `{{` that does not end in `{` comes back unchanged. |
| Template.SubstituteInertPrefix | src/lib/providers.js:3-7 | Literal text with no `{{` that does not end in `{` is copied unchanged in front of whatever the rest substitutes to. |
| Template.SubstituteNoMatchPrefix | src/lib/providers.js:3-7 | Text at none of whose positions a match starts, with what follows it in view, is copied unchanged in front of whatever the rest substitutes to. This covers text such as `{{}} ` before `{{model}}`. |
| Template.SubstituteRendered | src/lib/providers.js:3-7 | For a template made of placeholders and literal pieces, each piece with no `{{` and not ending in `{`, substitution equals `Fill`: literal text is kept and each placeholder gets its variable's value or `""`. |
| Template.DefaultBodyTemplateText | src/lib/providers.js:69 | The default body template is the text `{"messages":{{messages_json}}}`. |
| Template.DefaultBodyFilled | src/lib/providers.js:69 | The default template gives `{"messages":` + the `messages_json` value + `}`, whatever characters that value contains. |
| JsonPath.Split | src/lib/providers.js:11 | The definition of `path.split('.')`, which always gives at least one piece. `JoinSplit` and `SplitJoin` relate it to joining. |
| JsonPath.JoinSplit | src/lib/providers.js:11 | Joining the pieces of `path.split('.')` with dots gives back the path. |
| JsonPath.SplitJoin | src/lib/providers.js:11 | Splitting dot-free segments joined with dots gives back the segments. |
| JsonPath.MatchSegment | src/lib/providers.js:15 | The definition of `part.match(/(\w+)(?:\[(\d+)\])?/)`: the leftmost run of word characters, then an optional bracketed index. `MatchSegmentNone`, `MatchSkipsAround` and `MatchIndexedSegment` state its properties. |
| JsonPath.Property | src/lib/providers.js:19-24 | The definition of `cur[key]` on a non-null JSON value: own keys of objects, canonical indices and `length` of arrays and strings, and nothing else. `PlainSegmentLookup` and `IndexedSegmentLookup` use it. |
| JsonPath.Step | src/lib/providers.js:15-25 | The definition of one iteration of the loop body on a non-null value. `PlainSegmentLookup` and `IndexedSegmentLookup` state what it does. |
| JsonPath.Walk | src/lib/providers.js:12-26 | The definition of the loop over the segments, stopping with `undefined` at `null` or `undefined`. `WalkConcat` and `NullStops` state its properties. |
| JsonPath.PathValue | src/lib/providers.js:9-28 | The definition of `getByPath` as a function: `undefined` for the empty path, else the walk over the split path. `GetByPath` is proved equal to it, and `PathValueBasics` and `ReplyPathLookup` are about it. |
| JsonPath.GetByPath | src/lib/providers.js:9-28 | The loop returns exactly `PathValue(obj, path)`, the walk over the split path. |
| JsonPath.PathValueBasics | src/lib/providers.js:10-14 | The empty path gives `undefined`, even on a value. A dot-free path is a single step, so a final `null` is returned as `null`. |
| JsonPath.NullStops | src/lib/providers.js:13-14 | A `null` or `undefined` reached before the last segment ends the lookup with `undefined`, whatever segments remain. |
| JsonPath.WalkConcat | src/lib/providers.js:12-26 | Walking a path in two stretches is the same as walking it in one. |
| JsonPath.MatchSegmentNone | src/lib/providers.js:15-22 | The segment pattern fails exactly when the segment has no `\w` character. A digit-only segment always matches, so the `/^\d+$/` branch is unreachable. |
| JsonPath.MatchSkipsAround | src/lib/providers.js:15-19 | The pattern is unanchored. Non-word characters before the name, and a following character that is neither `\w` nor `[`, are ignored. |
| JsonPath.MatchIndexedSegment | src/lib/providers.js:15-18 | `name[digits]` captures the name and the decimal value of the digits. |
| JsonPath.PlainSegmentLookup | src/lib/providers.js:15-19 | A plain word segment, digits included, is a property lookup. So `0` reads key `"0"` of an object as well as element 0 of an array. |
| JsonPath.IndexedSegmentLookup | src/lib/providers.js:17-20 | `name[i]` reads property `name`. It then reads element `i` when that property is an array, and gives `undefined` otherwise. |
| JsonPath.ArrayElement | src/lib/providers.js:20 | The definition of `Array.isArray(cur) ? cur[idx] : undefined`. `IndexedSegmentLookup` states what it gives. |
| JsonPath.Element | src/lib/providers.js:20 | An array element exists exactly when the index is below the length. |
| JsonPath.ReplyPathSegments | src/lib/providers.js:43 | The reply path is `choices.0.message.content` and splits into those four segments. |
| JsonPath.ReplyPathLookup | src/lib/providers.js:43 | On any response whose `choices` is an array with a first object holding a `message` object with `content`, the reply path finds that content, whatever its value. Other keys (`id`, `usage`, `role`, `finish_reason`, ...) do not matter. |
| Text.DigitsValue | src/lib/providers.js:18 | The definition of `Number(match[2])` on a digit string: its decimal value, leading zeros allowed. `MatchIndexedSegment` and `IndexedSegmentLookup` use it. |
| Text.ToUpperAscii | src/lib/providers.js:63 | Upper-casing keeps the length and maps each ASCII lower-case letter to its capital. |
| Requests.StripTrailingSlash | src/lib/providers.js:35 | At most one trailing `/` is removed, and only when there is one. |
| Requests.ChatCompletionsUrl | src/lib/providers.js:35 | The URL is the stripped base URL followed by `/chat/completions`. |
| Requests.OpenAIHeaders | src/lib/providers.js:36-40 | The keys are the slot's headers plus `Authorization` and `Content-Type`. A slot header overrides either default, and the defaults are `Bearer <key>` and `application/json`. |
| Requests.ChatBody | src/lib/providers.js:30-32 | The body is an object with `messages` and with `model` exactly when the model is defined, and with no other key. |
| Requests.OpenAIRequest | src/lib/providers.js:34-42 | The request throws exactly when `baseUrl` is undefined. Otherwise it is a POST to the completions URL with those headers, that body and a 60 s timeout, read along the reply path. |
| Requests.GenericUrl | src/lib/providers.js:62 | The URL is `g.url` when it is non-empty, else the slot's `baseUrl`. |
| Requests.GenericMethod | src/lib/providers.js:63 | The method is `POST` when unset, else the configured method upper-cased character by character. It never contains a lower-case ASCII letter. |
| Requests.GenericHeaders | src/lib/providers.js:64 | The generic headers win over the slot's headers, which win over `Content-Type: application/json`. The key set is the union. |
| Requests.TemplateVariables | src/lib/providers.js:65-68 | The variables are exactly `model` (empty when unset) and `messages_json` (the serialized conversation). |
| Requests.BodyTemplate | src/lib/providers.js:69 | The definition of the template in use: the configured one when non-empty, else `{"messages":{{messages_json}}}`. `GenericDefaults` states what the default yields. |
| Requests.ResponsePath | src/lib/providers.js:71 | The definition of the path the reply is read from: the configured one when non-empty, else `choices.0.message.content`. `GenericDefaults` states the default. |
| Requests.GenericRequest | src/lib/providers.js:60-70 | The definition of the request `callGeneric` hands to `axios`, which is never a throw. `GenericDefaults`, `GenericTemplateBody` and the rows for its parts state its properties. |
| Requests.GenericDefaults | src/lib/providers.js:69-71 | Without a template the body is `{"messages":` + serialized messages + `}` and the timeout is 60 s. |
| Requests.GenericResponsePath | src/lib/providers.js:70-71 | Whatever the template, the reply is read along the configured path, or along `choices.0.message.content` when none is configured, and the timeout is 60 s. |
| Requests.GenericTemplateBody | src/lib/providers.js:65-70 | A configured template of literal text and placeholders yields a body with `{{model}}` and `{{messages_json}}` filled in and other names emptied. |
| Requests.ExtractText | src/lib/providers.js:43-44 | The definition of reading the reply: the value at the path if it is a string, else the serialized response. `ExtractReply` and `ExtractMissing` state its properties. |
| Requests.ExtractReply | src/lib/providers.js:43-44 | On any response shaped as in `ReplyPathLookup`, whatever its other keys, the output is the first choice's content when it is a string, else the serialized response. |
| Requests.ExtractMissing | src/lib/providers.js:72-73 | When the path finds nothing, the output is the serialized response. |
| Providers.Prepare | src/lib/providers.js:85-97 | The definition of the dispatch: the OpenAI-style request for `openrouter`, `openai_compatible` and any other type, and the generic request for `generic_json`. `DefaultArm` and `GenericNeedsNoKey` state its properties. |
| Providers.ErrorText | src/lib/providers.js:100 | The definition of the `catch` message. It prefers the serialized response data when that is truthy, then a non-empty `err.message`, then `Unknown error`. `ErrorTextNonEmpty` and `SentOutcome` use it. |
| Providers.Sent | src/lib/providers.js:76-97 | The requests a call hands to `axios`: at most one, and none after an early error or a throw while building. `OnlySentRequestsMatter`, `EarlyErrors` and `SentOutcome` state its properties. |
| Providers.NotConfigured | src/lib/providers.js:78 | The definition of the first check: the slot is missing or its `providerType` is empty. `EarlyErrors`, `ResultShape` and `SentOutcome` state what follows from it. |
| Providers.MissingKey | src/lib/providers.js:81 | The definition of `!slot.apiKey && slot.providerType !== 'generic_json'`. `EarlyErrors`, `ResultShape` and `GenericNeedsNoKey` state what follows from it. |
| Providers.ProtocolOf | src/lib/providers.js:85-97 | Only `generic_json` selects the generic protocol and only `openrouter` selects OpenRouter. Every other type takes the OpenAI-compatible arm. |
| Providers.LabelOr | src/lib/providers.js:79 | The label is the given non-empty label, else the slot key. |
| Providers.CallProvider | src/lib/providers.js:76-103 | Every result carries the slot key it was called with. |
| Providers.ResultShape | src/lib/providers.js:78-101 | A result has `providerType` exactly when neither early check fired. It is then the slot's type, and the label falls back to the slot key. |
| Providers.EarlyErrors | src/lib/providers.js:78-83 | A missing slot or type gives `Provider not configured`, with the label falling back to the key. A missing key outside `generic_json` gives `Missing API key` with the raw label. Neither sends a request. |
| Providers.OnlySentRequestsMatter | src/lib/providers.js:84-101 | The result depends on the network only through the replies to the requests actually sent, so an early error uses no transport at all. |
| Providers.DefaultArm | src/lib/providers.js:95-98 | An unknown provider type sends the same request and gives the same answer and label as `openai_compatible`. Only the reported type differs. |
| Providers.GenericNeedsNoKey | src/lib/providers.js:81 | A `generic_json` slot without an API key still sends its one request. |
| Providers.MissingBaseUrl | src/lib/providers.js:35 | An OpenAI-style slot without `baseUrl` reports the `TypeError` message and sends nothing. |
| Providers.SentOutcome | src/lib/providers.js:84-101 | Exactly the prepared request is sent. A reply gives the extracted output, and a failure gives the error text. |
| Providers.ErrorTextNonEmpty | src/lib/providers.js:100 | The error message is never empty, provided serialization never returns the empty string. |
| Providers.SlotOf | src/lib/providers.js:107 | The definition of `slots[k]`, which is `undefined` for a key without a slot. `CallAllProviders` uses it. |
| Providers.CallAllProviders | src/lib/providers.js:105-113 | The result's keys are exactly `slotA`, `slotB` and `slotC`. Each entry is that slot's `callProvider` result, and its `slotKey` equals its key. |

## Left out

- The HTTP transport (`axios`), its timeout behaviour and response parsing are a parameter `transport`. The model only records the 60 s timeout in the request.
- The concurrency of `Promise.all` is left out. The three calls are independent (each sees its own transport), so only their results matter.
- The text `JSON.stringify` produces is a parameter `serialize`. Where a claim needs it, the lemma states what it assumes about `serialize`.
- Property access sees only own keys, array and string indices, and `length`. Inherited members such as `constructor` or `toString` are treated as absent.
- JsonPath.Property: indexes a string and gives its `length` in code points, not in the UTF-16 code units JavaScript uses. So `"😀"[0]` (a lone surrogate in JavaScript) and `"😀".length` (2 in JavaScript) differ, and strings holding lone surrogates cannot be represented.
- JSON numbers are exact reals. `NaN`, infinities and the rounding of very long digit strings by `Number` are not modelled.
- Text.ToUpperAscii, Requests.GenericMethod: upper-case ASCII letters only and so keep the length, because full Unicode case mapping (`ß` to `SS`, `é` to `É`) is not modelled.
- Requests.OpenAIRequest: models an undefined `baseUrl` only. A `null` one throws with "of null" in the message instead, and values of other types are not modelled.
- `callOpenRouter` and `callOpenAICompatible` have identical bodies, so both are `Requests.OpenAIRequest`.
- An absent `providerType`, `apiKey` or `generic` field is the empty string. This is sound because an empty `providerType` or `apiKey` is answered by an early error before the value is compared, copied into the result or put into a header. The exception is an empty `apiKey` on a `generic_json` slot, which is never read again. The `generic` fields are only read through `||`. Non-string values of these fields are not modelled.
- The reply path is defined as the join of its four segments. Its literal text is a lemma.
- Template examples are stated over templates written as pieces (literal text and placeholders), not over arbitrary literal strings.
- The HTTP server and admin routes that call this layer are not part of this model.
