# Chat-Ollama browser client: the streaming decoder and message rendering

This project is a Dafny model of the logic in `static/script.js`, the browser
client of a small chat front end for a local Ollama server. It covers the
client's two pieces of real logic and the rules around them:

- **The streaming response decoder** in `handleSend`. Each chunk read from the
  `/api/chat` response body is split on line feeds by itself. Empty lines are
  skipped. Each other line goes to `JSON.parse`. The display text of a parsed
  record is taken from the first truthy field among `response`,
  `message.content` and `error`; an `error` is shown as `"\n\nERRO: " + error`
  and also logged. The first parsed line replaces the placeholder text of the
  model's entry, and every later one appends to it. A line that fails to parse
  is logged and skipped. A failed request, a non-2xx status or a failed read
  overwrites the entry with `"Erro: " + message`.
- **Code-block segmentation** in `addMessage`. A new message is split on triple
  backticks. Odd-indexed parts become code blocks and lose one leading line
  feed. Even-indexed parts become plain text. A text without a fence is a
  single plain span.
- **The rules around them**: the send guard (trimmed prompt and model both
  non-empty), appending to an existing element, the request body with the
  pending images, and the attachments list that file loading fills.

Modules, one per concern:

| file | module | models |
|---|---|---|
| `wrappers.dfy` | `Wrappers` | `Option`, also standing for JavaScript's `undefined` |
| `js_string.dfy` | `JsString` | the string built-ins used: `includes`, `split` with a non-empty separator (and the leftmost search it performs), `trim` |
| `messages.dfy` | `Messages` | `addMessage`: segmentation (with `startsWith('\n')`/`substring(1)` on code parts), and `Entry.Append` for the element branch |
| `records.dfy` | `Records` | what `JSON.parse` yields for a line, and the display-text priority |
| `decoder.dfy` | `Decoder` | the read/split/parse loop: a specification fold, a stateless reference, the theorem tying them, and the `StreamSession` class that runs the loop |
| `client.dfy` | `Client` | the send guard, the outcome of one exchange, `handleSend` and the attachments list (`ChatClient`) |

`JSON.parse` is an oracle: the session and the client hold a function
`parse: string -> Json`, and nothing is assumed about it. The result has three
shapes. `Malformed` means the parse throws. `Null` is the literal `null`:
reading `parsed.response` then throws inside the same `try`, so it is logged
and skipped like a malformed line. `Record` is any other value, with optional
string fields. JavaScript truthiness is modelled: a field that is absent or
empty counts as absent.

The network is a parameter too. An `Exchange` says whether `fetch` rejected,
the status, the chunks read from the body (already decoded to text), and
whether a later read rejected.

The model follows the code as written, including where a careful decoder would behave otherwise:

- The code does not carry an unterminated line over to the next chunk. A line
  cut by a chunk boundary is parsed as two lines (lemma `Decoder.NoCarryOver`).
- The code chooses fields by truthiness, not by presence. A record with an
  empty `response` falls through to `message.content`.
- Text streamed into the model's entry is never segmented. The entry is the
  single span that `addMessage('', 'model')` creates, so code fences in a
  reply stay literal text.
- When `fetch` rejects, the pending images are kept. They are cleared only
  once a response arrives (static/script.js:96).

## Model

| member | source | states |
|---|---|---|
| `JsString.IndexOf` | static/script.js:44-45 | the result is the first occurrence of the separator at or after the start position, and `None` means there is none |
| `JsString.Contains` | static/script.js:44 | `text.includes(sep)`: some position holds the separator; `JsString.SplitSingle` ties it to the split having more than one piece, and `JsString.ContainsChar` to membership for a one-character separator |
| `JsString.Split` | static/script.js:45 | `split` with a non-empty separator (also used on line feeds at static/script.js:111), never empty; its meaning is given by `JsString.JoinSplit` (joining the pieces restores the text), `JsString.SplitPiecesFree` (no piece holds the separator) and `JsString.SplitSingle` |
| `JsString.Trim` | static/script.js:78 | `trim()` as `TrimEnd` after `TrimStart`, whose contracts fix each end; `JsString.TrimEnds` and `JsString.TrimEmpty` give the trimmed prompt's meaning |
| `JsString.JoinSplit` | static/script.js:45 | joining the pieces of a split with the separator gives back the original text: no character is lost or added |
| `JsString.SplitPiecesFree` | static/script.js:111 | no piece of a split contains the separator, so no stream line contains a line feed and no message part contains a fence |
| `JsString.SplitSingle` | static/script.js:44-45 | a split yields the text itself as its only piece exactly when the separator does not occur, and at least two pieces when it does |
| `JsString.SplitAtChar` | static/script.js:111 | splitting on a character cuts at its first occurrence and continues with the rest |
| `JsString.TrimStart` | static/script.js:78 | the result is a suffix of the input, everything removed is white space, and it does not start with white space |
| `JsString.TrimEnd` | static/script.js:78 | the result is a prefix of the input, everything removed is white space, and it does not end with white space |
| `JsString.TrimEnds` | static/script.js:78 | a non-empty trimmed prompt neither starts nor ends with white space |
| `JsString.TrimEmpty` | static/script.js:78-80 | the trimmed prompt is empty exactly when the input is all white space |
| `Messages.DropLeadingNewline` | static/script.js:50 | a code part that `startsWith('\n')` loses exactly that first character (`substring(1)`), any other is kept; stated for every segment in `Messages.ClassifyShape` |
| `Messages.Segments` | static/script.js:44-65 | the spans `addMessage` builds for a text; `Messages.SegmentsShape`, `Messages.SegmentsWithoutFence`, `Messages.SegmentsFenceFree` and `Messages.SegmentsRoundTrip` state what they are |
| `Messages.Classify` | static/script.js:46-58 | one segment per part of the split |
| `Messages.ClassifyShape` | static/script.js:46-58 | for any list of parts, kinds alternate starting with Text, Text bodies are their parts verbatim, and a Code body is its part minus exactly one leading line feed when there is one |
| `Messages.SegmentsAreClassifiedSplit` | static/script.js:44-65 | the `includes` test is only a shortcut: its else branch gives the same single span as the split loop would |
| `Messages.SegmentsShape` | static/script.js:45-59 | one segment per fence-separated part; the kinds alternate Text, Code, Text, ...; Text bodies are the parts verbatim; a Code body is its part with exactly one leading line feed removed if there was one; a fenced text has at least two segments |
| `Messages.SegmentsWithoutFence` | static/script.js:61-64 | a text without triple backticks is one Text segment equal to the text |
| `Messages.SegmentsFenceFree` | static/script.js:45-58 | no segment body contains a fence |
| `Messages.SegmentsRoundTrip` | static/script.js:45-58 | when no code part starts with a line feed, joining the segment bodies with fences restores the message text |
| `Messages.Entry.constructor` | static/script.js:62-64 | a new span holds the given text |
| `Messages.Entry.Append` | static/script.js:70-71 | appending to an existing element makes its text the old text followed by the new text, and nothing else changes |
| `Records.SourceOf` | static/script.js:119-126 | which field the `if`/`else if` chain takes, the first truthy of `response`, `message.content`, `error`; `Records.ExtractionPriority` states the resulting display text case by case |
| `Records.Content` | static/script.js:115-126 | the display text is empty exactly when the record has no truthy `response`, `message.content` or `error` |
| `Records.ExtractionPriority` | static/script.js:119-126 | a truthy `response` wins over everything; otherwise a truthy `message.content`; otherwise a truthy `error`, shown as the error prefix followed by the error; otherwise the empty string |
| `Decoder.StepLine` | static/script.js:112-138 | the body of the `forEach` for one line; `Decoder.LineEffect` and `Decoder.ErrorRecordEffect` state its effect in every case |
| `Decoder.StepLines` | static/script.js:111 | the `forEach` over a chunk's lines, as a left fold of `StepLine`; `Decoder.StepLinesMeaning` equates it with the stateless reference outcome, and `Decoder.StreamSession.ProcessChunk` runs it as a loop |
| `Decoder.StepChunks` | static/script.js:106-111 | the read loop, each chunk split on line feeds by itself; `Decoder.StepChunksLines` and `Decoder.DecodeMeaning` state its meaning, `Decoder.NoCarryOver` the missing carry-over |
| `Decoder.Failed` | static/script.js:142-145 | the `catch`: the text becomes `"Erro: " + message` and the failure is logged; `Client.ReplyMeaning` states its effect after each exchange |
| `Decoder.LineEffect` | static/script.js:112-138 | an empty line has no effect; a malformed line leaves the text and `firstChunk` unchanged and adds one diagnostic; a parsed line clears `firstChunk` and either sets the text to its content (when `firstChunk` was set, even for empty content) or appends the content, and its log is the old log plus a `BackendError` carrying the error exactly when the content came from `error`, and nothing else |
| `Decoder.ErrorRecordEffect` | static/script.js:123-133 | a record whose content comes from `error` adds exactly `"\n\nERRO: " + error` to the text and logs that error once |
| `Decoder.StepLinesMeaning` | static/script.js:111-139 | processing lines one by one with the `firstChunk` flag gives the reference outcome: the concatenated display texts of the parsed lines replace the text if `firstChunk` was set and are appended otherwise, `firstChunk` stays set only if nothing parsed, and each line adds its diagnostics in order |
| `Decoder.StepLinesAppend` | static/script.js:111 | processing two runs of lines in sequence is processing their concatenation |
| `Decoder.StepChunksLines` | static/script.js:106-112 | processing the chunks in order, each split on its own, is processing all their lines in chunk order and, within a chunk, line order |
| `Decoder.DecodeMeaning` | static/script.js:104-141 | from a fresh start: if at least one line parsed, the entry text is exactly the concatenation of the parsed lines' display texts in order; otherwise the placeholder is unchanged and `firstChunk` is still set; the log holds one entry per malformed line and per error record, in order |
| `Decoder.NoCarryOver` | static/script.js:110-111 | chunks are split independently: a line cut across two chunks is processed as two separate lines, while the same text in one chunk is one line |
| `Decoder.MalformedLineBetweenGoodLines` | static/script.js:111-138 | a malformed line between two response lines does not stop the second one: the entry shows both responses in order and the log holds one diagnostic |
| `Decoder.StreamSession.constructor` | static/script.js:104 | a session starts with `firstChunk` set, an empty log and the entry's current text |
| `Decoder.StreamSession.ProcessLine` | static/script.js:112-138 | the new entry text, flag and log are those of one line step |
| `Decoder.StreamSession.ProcessChunk` | static/script.js:110-111 | the new state is the old state after all lines of the chunk's split, in order |
| `Decoder.StreamSession.ReadStream` | static/script.js:106-109 | the new state is the old state after all chunks, in order |
| `Decoder.StreamSession.Fail` | static/script.js:142-145 | the entry text becomes `"Erro: " + message`, whatever was streamed before; `firstChunk` is unchanged and the failure is logged |
| `Client.CanSend` | static/script.js:80 | the guard `!prompt || !selectedModel` negated; `Client.SendGuard` states it as "not all white space and a model is selected" |
| `Client.Outcome` | static/script.js:89-145 | the decoder state one exchange leads to; `Client.ReplyMeaning` states its text and log for each kind of exchange, and `Client.Converse` runs it on a session |
| `Client.SendGuard` | static/script.js:77-80 | a send goes ahead exactly when the prompt is not all white space and a model is selected |
| `Client.Converse` | static/script.js:89-145 | the session ends in the state the exchange determines: a failure text for a rejection or bad status, otherwise the streamed state, overwritten if a read fails |
| `Client.ReplyMeaning` | static/script.js:89-145 | a rejected request shows `Erro: <message>`; a bad status shows `Erro: Erro na API: <status text>`; a read failure shows `Erro: <message>` and discards the streamed text; a stream that ends shows the concatenated display texts of its parsed lines; the log holds the stream's diagnostics and then the failure |
| `Client.ImagePayload` | static/script.js:160 | the payload is undefined exactly when the data URL has no comma, and never contains a comma |
| `Client.ImagePayloadOfDataUrl` | static/script.js:155-160 | for a data URL `<header>,<data>` the payload is exactly the data |
| `Client.ChatClient.constructor` | static/script.js:13 | the client starts with no pending images |
| `Client.ChatClient.HandleSend` | static/script.js:77-145 | a refused send changes nothing and sends nothing; otherwise the request carries the model, the trimmed prompt and the pending images, the input is cleared, the prompt is rendered as a segmented user message followed by a model message whose span holds the reply, the pending images are dropped unless `fetch` rejected, and the console receives the reply's diagnostics |
| `Client.ChatClient.Dispatch` | static/script.js:82-145 | after the guard: the request carries the selected model, the trimmed prompt and the pending images; the input is cleared; the transcript gains the segmented prompt and then the model message with the reply; pending images are dropped unless `fetch` rejected; the log gains the reply's diagnostics |
| `Client.ChatClient.ClearAttachments` | static/script.js:151-152 | choosing files empties the pending images and changes nothing else |
| `Client.ChatClient.AttachImage` | static/script.js:160 | a loaded file appends its data-URL payload to the pending images and changes nothing else |

## Left out

- `loadModels`, the delete button and the new-chat button (static/script.js:16-35, 166-186): network calls and DOM rewrites with no decoding logic.
- DOM construction, `innerHTML`, scroll positions, the input's height, the preview images, `confirm` and the event wiring (static/script.js:3-11, 67-69, 84-85, 151-159, 188-196): user interface only.
- The element `addMessage` returns (`span:last-child` or the bubble): the only caller that uses the returned element (static/script.js:87) passes an empty text, whose rendering is one span, so the model returns that span (`Entry`). The other calls (static/script.js:29, 33, 82) ignore it.
- `fetch`, `reader.read()` and the HTTP endpoints: the network outcome is the `Exchange` parameter.
- `TextDecoder` (static/script.js:103, 110): chunks arrive as already decoded text; partial UTF-8 sequences across chunks are not modelled.
- `JSON.parse` internals: an uninterpreted oracle. A truthy field value that is not a string (a number, an object) is outside the `Json` shape; the template literal's conversion of such a value to text is not modelled.
- `console.error` arguments are reduced to one `Diagnostic` per call, carrying the line, the backend error or the failure message.
- The asynchronous interleaving of two concurrent sends, and the order in which `FileReader` loads complete: `AttachImage` is called in completion order, whatever it is.
- Client.ChatClient.HandleSend: is one atomic step, so it does not capture what happens during the `await fetch` (static/script.js:90): an image whose `FileReader` load completes while the request is pending is pushed (static/script.js:160) and then lost when `uploadedImages = []` runs (static/script.js:96). The model only offers `AttachImage` before or after a whole send.
- Client.ChatClient.HandleSend: the transcript records the reply's final text; the intermediate renderings while it streams are not part of the transcript value.
- backend.py: a proxy to the Ollama server; backend.py is not part of this model.
