# LEAD-Filter-IA webhook: a verified model of the conversation store

This project models the `/webhook` handler of `server.js` in Dafny: a WhatsApp
lead-qualification bot that keeps one transcript per sender in the process-wide
dictionary `CONVERSAS_ATIVAS`. Each request does six things in order:

1. It creates the sender's entry, or appends a `Cliente: …` line to it.
2. It builds a prompt from the updated transcript.
3. It asks the generation service (Gemini) for a reply.
4. It appends a `Heloísa: …` line.
5. It sends the reply through the gateway (Twilio) from the sandbox number.
6. If the lower-cased reply contains the marker "especialista entrará em contato", it logs a lead record and deletes the entry.

The request answers 200, or 500 if either remote call throws.

Modules:

- `Text` (text.dfy): lower-casing (`toLowerCase`) and substring search (`includes`), with the proof that the recursive scan finds an occurrence exactly when one exists.
- `TurnPrompt` (prompt.dfy): the prompt, as an unspecified prefix, then the transcript, then an unspecified suffix.
- `Conversation` (conversation.dfy):
  - the entities: `Entry`, `Collected` (`dadosColetados`), `Lead`, the outcomes of the two remote calls and the outgoing message;
  - `Turn`, the whole request as a pure function of the store before it;
  - one lemma per promised behaviour.
- `Transcript` (transcript.dfy): the line structure of a transcript.
  - `TurnLines` gives, for every sender, the sequence of customer and assistant lines after one turn.
  - `Tracks` ties those lines to the store: each transcript is the text of a non-empty sequence in which every assistant line follows a customer line, and `dadosColetados` stays all null.
  - Every turn keeps `Tracks`. It appends exactly one customer line, and one assistant line when generation succeeded. Over a run of turns with no eviction, the sender has one customer line per message and at most as many assistant lines.
- `Server` (server.dfy): class `Webhook`.
  - The field `conversas` is the mutable dictionary.
  - The ghost field `lines` holds the line sequences, and `Valid()` is `Tracks(lines, conversas)`.
  - Its method `HandleTurn` does the handler's steps in the source's order (in `Respond`). It is proved equal to `Turn` and `TurnLines`, and it keeps `Valid()`.

The two remote calls are parameters, each an arbitrary pure function:

- `generate: string -> GenOutcome` maps the prompt to a reply, or to a failure. The failure covers an exception from `generateContent` or from `response.text()`.
- `send: Outgoing -> SendOutcome` maps the outgoing message to delivery or failure.

So the model says exactly which prompt is handed to generation and which message is handed to the gateway.

The model follows `server.js`, which differs from the handler's documented flow on two points:

- The assistant line is appended (server.js:56) before the reply is sent (server.js:59-63). So a failed send answers 500, yet the transcript keeps a reply the customer never received. The documented flow sends first and appends after.
- The documented flow counts one or two generation calls per turn. `server.js` makes exactly one, with no retry and no extraction call, and so does the model.

## Model

| member | source | states |
|---|---|---|
| `Text.Lower` | server.js:69 | lower-casing keeps the length and maps each character through the per-character fold |
| `Text.Upper` | server.js:69 | upper-casing keeps the length and maps each character through the per-character capitalisation (used only to state the closing test's case-insensitivity) |
| `Text.CaseRoundTrip` | server.js:69 | every small letter of the modelled range has a capital that lower-cases back to it, and every capital of that range is the capital of its lower-case form |
| `Text.LowerOfUpper` | server.js:69 | lower-casing a capitalised string gives the same as lower-casing the string itself |
| `Text.Contains` | server.js:69 | `includes`: the empty needle is always found, and a needle that is found is no longer than the text |
| `Text.ContainsIff` | server.js:69 | the left-to-right scan `Contains(s, m)` is true exactly when `m` occurs at some index of `s` (both directions) |
| `Text.LowerIdempotent` | server.js:69 | a lower-cased string has no capitals, and lower-casing it again changes nothing |
| `Text.LowerKeepsContained` | server.js:69 | a pattern with no capitals that occurs in a text still occurs after the text is lower-cased |
| `TurnPrompt.Prompt` | server.js:29-49 | the prompt is the instruction text, then the transcript unchanged at the position right after it, then the closing instruction; its length is the sum of the three |
| `TurnPrompt.PromptContainsTranscript` | server.js:29-49 | the rendered prompt contains the whole transcript, whatever the template wording |
| `Conversation.CustomerLine` | server.js:14-23 | no contract; defined as `"Cliente: " + body + "\n"` |
| `Conversation.AssistantLine` | server.js:56 | no contract; defined as `"Heloísa: " + reply + "\n"` |
| `Conversation.IsClosing` | server.js:69 | `respostaBot.toLowerCase().includes(marker)`; a closing reply is at least as long as the marker |
| `Conversation.MakeLead` | server.js:70-76 | no contract; defined as the lead with the three placeholder strings, `telefone = from` and `historicoCompleto` = the given transcript |
| `Conversation.Record` | server.js:11-24 | step 1: the sender's transcript becomes its prior transcript (empty if unseen) plus exactly `Cliente: body\n`; its collected data is the prior data (all null if new); every other key is unchanged |
| `Conversation.Turn` | server.js:4-92 | one request answers 200 or 500; every other sender's key is unchanged in presence and value |
| `Conversation.FirstMessageCreatesEntry` | server.js:11-20 | an unseen sender gets the entry `historico = "Cliente: " + body + "\n"` with `nome`, `email` and `interesse` all null |
| `Conversation.KnownSenderAppends` | server.js:21-24 | a known sender's old transcript is a prefix of the new one, which is the old one plus exactly `"Cliente: " + body + "\n"`; collected data unchanged |
| `Conversation.PromptHasCustomerLine` | server.js:26-49 | the prompt handed to generation is rendered from the transcript after the customer line was appended, and contains that line |
| `Conversation.GenerationFailureKeepsCustomerLine` | server.js:51-91 | when generation fails: status 500, nothing dispatched, no lead, and the entry holds the new customer line with no assistant line |
| `Conversation.ReplyAppendedAndDispatched` | server.js:53-63 | when generation succeeds: the reply is dispatched from `whatsapp:+14155238886` to the sender, and a surviving entry's transcript is prior + customer line + `Heloísa: reply\n` |
| `Conversation.DispatchFailureKeepsAssistantLine` | server.js:56-91 | when dispatch fails: status 500, no lead, no eviction, and the assistant line is already appended |
| `Conversation.EvictedIffClosing` | server.js:69-86 | after a delivered reply: status 200, and the entry is deleted exactly when the lower-cased reply contains "especialista entrará em contato"; a lead exists exactly when it is deleted |
| `Conversation.LeadRecordsFullTranscript` | server.js:70-76 | the lead has the placeholder name, email and interest, `telefone = from`, and `historicoCompleto` = the full transcript including the closing assistant line |
| `Conversation.LeadOnlyWhenClosed` | server.js:69-86 | a lead is produced exactly when the request answers 200 and the sender's entry is gone |
| `Conversation.StatusReflectsRemoteCalls` | server.js:51-91 | the request answers 200 exactly when a message was dispatched and its delivery succeeded |
| `Conversation.TurnTouchesOnlySender` | server.js:11-83 | a turn changes no other key; the sender's collected data, if the entry survives, is what it was created with |
| `Conversation.FreshAfterEviction` | server.js:11-83 | after an eviction, the next message from the same sender is handled as a first contact: the prompt holds only the new customer line and the collected data is all null |
| `Conversation.MarkerIsLowerCase` | server.js:69 | the marker has no capitals, so lower-casing the reply can never hide an exact occurrence of it |
| `Conversation.LiteralMarkerCloses` | server.js:69 | a reply that contains the marker verbatim is a closing reply |
| `Conversation.ClosingIgnoresCase` | server.js:69 | the closing test gives the same answer on a reply and on its lower-cased form |
| `Conversation.AnyCasingOfMarkerCloses` | server.js:69 | any spelling of the marker whose lower-case form is the marker, embedded in any text, closes the conversation |
| `Conversation.CapitalisedMarkerCloses` | server.js:69 | the marker in capitals, accented letters included, embedded in any text, closes the conversation |
| `Transcript.AssistantsAtMostCustomers` | server.js:14-56 | in a sequence where every assistant line follows a customer line, assistant lines never outnumber customer lines |
| `Transcript.TurnLinesCounts` | server.js:11-56 | after one turn the sender keeps lines exactly when it is not evicted; its prior lines are a prefix of the new ones; it gains exactly one customer line, and one assistant line exactly when generation succeeded; no other sender's lines change |
| `Transcript.SenderAfterTurn` | server.js:11-83 | the sender's entry survives the turn exactly when the reply was not a delivered closing reply; a surviving transcript is the prior one plus the customer line, plus the assistant line when generation succeeded; its collected data is unchanged |
| `Transcript.TurnKeepsTracks` | server.js:11-83 | every turn keeps every transcript the text of a non-empty alternating line sequence, and every entry's collected data all null |
| `Transcript.TrackedTurnCounts` | server.js:11-56 | on a tracked store, a surviving sender's lines after a turn extend its prior lines with one more customer line and at most one more assistant line, and hold no more assistant lines than customer lines |
| `Transcript.RunCounts` | server.js:11-83 | from a tracked store, a run of messages from a new sender that never closes keeps the store tracked and leaves that sender exactly one customer line per message and at most one assistant line per message |
| `Server.Webhook.constructor` | server.js:2 | the store starts empty and satisfies the invariant |
| `Server.Webhook.HandleTurn` | server.js:4-92 | on the mutable dictionary, leaves exactly `Turn`'s store, status, lead and dispatched message and `TurnLines`'s lines; keeps `Valid()`; a surviving sender gains one customer line and at most one assistant line, and never has more assistant than customer lines |
| `Server.Webhook.Respond` | server.js:11-86 | the handler's steps in the source's order (customer line, prompt, generation, assistant line before dispatch, eviction on a delivered closing reply) leave exactly `Turn`'s results and `TurnLines`'s lines |
| `Server.Webhook.AppendCustomer` | server.js:11-24 | creates the entry `Cliente: body\n` with no collected data, or appends that line to the existing entry, and appends the customer line to the sender's lines |
| `Server.Webhook.AppendAssistant` | server.js:56 | appends `Heloísa: reply\n` to the sender's transcript and the assistant line to its lines; nothing else changes |
| `Server.Webhook.Evict` | server.js:83 | deletes the sender from the store and from the lines |

## Left out

- Express routing and form-body parsing: `From` and `Body` are plain string parameters. An absent field, which JavaScript would render as "undefined", is not modelled.
- The Gemini and Twilio clients are network calls. They are modelled only as the `generate` and `send` outcome functions. A network call is therefore treated as deterministic in its request, which does not restrict any single turn.
- `console.log` and `console.error` are output only. So is the `JSON.stringify` formatting of the lead. The lead is returned from `HandleTurn` instead of being printed.
- `TurnPrompt.Prompt`: the wording of the template is not modelled. `TurnPrefix` and `TurnSuffix` are constants whose value is left unspecified, so only where the transcript sits in the prompt is stated.
- `Text.Lower`: folds only ASCII `A`–`Z` and the Latin-1 capitals U+00C0–U+00DE (except `×`). The full Unicode `toLowerCase` mapping is not modelled. The UTF-16 code units of JavaScript strings are modelled as Unicode code points.
- Sender ids are keys of a plain map of their own. JavaScript's inherited property names are not modelled: a `From` of "constructor" would be looked up on `Object.prototype`.
- Concurrent requests for the same sender can interleave across the two `await`s. This is a race, not designed behaviour. The model runs one turn at a time.
- The model has no retry or backoff around generation, and no parsing of a lead out of JSON in prose. Neither exists in `server.js`: the lead's name, email and interest are fixed placeholder strings, and they are modelled as such.
