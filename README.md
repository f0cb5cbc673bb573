# Voice-control extension: background router and the "go to" command

This project models, in Dafny, the two pieces of sequential logic at the core of a
browser extension that lets a user drive web pages by voice:

- **The background router** (`src/routes.js`). At start-up it reads the default
  language, the capitalisation flag and the text-replacement map from the settings
  store and fetches the backend commands for that language. It then answers bus
  topics. `processInput` takes recognised or typed text, applies a whole-string
  replacement, asks the command matcher for a command, and either runs the command
  (relaying a truthy callback message as "/message") or passes the text to the active
  tab as "/sr_text". "/toggle_sr" and "/restart_sr" drive the microphone state machine
  and the context-menu label. Three worker routes ("/get_emoji", "/get_emoji_list",
  "/get_translated_message") post to a worker with a fresh correlation id and answer
  their requester when a reply with that id arrives. Translations are kept in a
  read-through memo. "/commands_list_translated" projects the command list into rows.
  The remaining small routes are modelled as well.
- **The "go to" command** (`src/services/commands/go_to.js`): a descriptor with a fixed
  id whose `exec` cuts the first occurrence of the alias out of the text, lower-cases
  and trims it, and sends one "/go_to" message to the background context.

Modules, one per file:

- `Wrappers`: `Option`.
- `JsString`: the ECMAScript built-ins the core uses: `indexOf` and `replace` with a
  string pattern (section 22.1.3.19 of ECMA-262, first occurrence only),
  `toLowerCase` on ASCII letters, `trim` (section 22.1.3.32, with the exact
  WhiteSpace and LineTerminator code points), and `Array.prototype.join`.
- `Messaging`: bus envelopes. Targets are the background context or the active tab,
  and each outgoing topic has its own payload shape.
- `Commands`: command descriptors, what an `exec` does, and the command service as a
  record of functions.
- `GoToCommand`: the "go to" command.
- `Routes`: the router's pure effect functions, and a `Router` class whose fields are
  the closure variables of `Routes` (`commands`, `textReplacementObj`,
  `translationsLocal`), plus the store, the worker listeners, a uid counter and the
  trace of effects.
- `Scenarios`: client sequences of handler calls, proved from the handlers' contracts.

External collaborators are recorded, not executed. Each of these becomes an event
appended to `Router.trace`: a bus send, a responder call, a worker post, a call to
the voice engine (`start`, `stop`, `setLanguage`, `speak`), a context-menu update,
opening the help page, and creating a tab. The settings store is a map. Other
contexts may write to it (`Router.SettingChanged`). `permissionGranted()` and
`chrome.runtime.getURL("option.html")` become method parameters. Worker replies are
separate events (`Router.OnWorkerMessage`).

The command matcher and `getCommands`/`getAllCommands` are not shown, so they are
ASSUMED to be pure functions of their arguments. They are fields of
`Commands.Service`. So is the `exec` of every command other than "go to". The model
gives the matcher no prefix semantics of its own. `Scenarios.PrefixService` is a
stand-in used only by the two concrete scenarios.

Four behaviours of the code that a reader of the message protocol might expect to be
otherwise. The model follows the code:

- The capitalisation branch computes `text[0].toUpperCase()` and throws the result
  away, so the text reaches the matcher unchanged (`Routes.CapitalizationHasNoEffect`).
  The setting never capitalises the first character, although its name says it should.
- Two toggles from idle answer `true` and then `false`. The answer is the new listening
  state, not the state the toggle found.
- "/go_to" goes to the background context through `sendMessage`. The other command
  messages ("/message", "/sr_text") go to the active tab.
- A worker listener is never removed, so it is not one-shot. A second reply with the
  same uid answers the requester again. Nothing resolves "exactly once".

Two consequences of the code as written:

- The memo key `${langId}-${key}` is the same for ("zh-CN", "hello") and
  ("zh", "CN-hello") (`Routes.LocalKeysCollide`).
- "/commands_list_translated" calls `match.join(", ")`. A descriptor whose `match` is
  a strategy string, as the "go to" descriptor's "startsWith" is, has no `join`. The
  handler then fails and answers nothing (`Routes.CommandRows` returns None).

## Model

| member | source | states |
|---|---|---|
| JsString.IndexOf | src/services/commands/go_to.js:17 | the result is None exactly when the pattern occurs nowhere; otherwise it is an occurrence with no earlier one |
| JsString.IndexOfFrom | src/services/commands/go_to.js:17 | the search from an index finds the least occurrence at or after it, or proves there is none |
| JsString.RemoveFirst | src/services/commands/go_to.js:17 | `replace(alias, "")` leaves text without the alias unchanged; otherwise it is exactly one alias length shorter |
| JsString.RemoveFirstAt | src/services/commands/go_to.js:17 | only the first occurrence is cut out: the result is what surrounds the least index holding the pattern |
| JsString.RemoveFirstPrefix | src/services/commands/go_to.js:17 | text that starts with the pattern loses exactly that prefix |
| JsString.LowerChar | src/services/commands/go_to.js:18 | an ASCII capital maps to its lower-case letter (code point + 32); any other character is kept |
| JsString.ToLower | src/services/commands/go_to.js:18 | lower-casing keeps the length, turns each ASCII capital into the letter 32 code points above it, and keeps every other character in place |
| JsString.ToLowerIdempotent | src/services/commands/go_to.js:18 | lower-casing twice equals lower-casing once |
| JsString.ToLowerOfLower | src/services/commands/go_to.js:18 | text without ASCII capitals is its own lower-case form |
| JsString.TrimStart | src/services/commands/go_to.js:19 | the result is a suffix that does not start with white space, and everything dropped is white space |
| JsString.TrimEnd | src/services/commands/go_to.js:19 | the result is a prefix that does not end with white space, and everything dropped is white space |
| JsString.Trim | src/services/commands/go_to.js:19 | `trim()` returns a string no longer than its input with no white space at either end |
| JsString.TrimIsSlice | src/services/commands/go_to.js:19 | the trim is the slice that starts after the leading white space, and only white space lies outside it |
| JsString.TrimNoEdges | src/services/commands/go_to.js:19 | text with no white space at either end is its own trim |
| JsString.TrimAfterWhiteSpace | src/services/commands/go_to.js:19 | one leading white-space character before edge-free text is trimmed away |
| JsString.TrimIdempotent | src/services/commands/go_to.js:19 | trimming twice equals trimming once |
| JsString.Join | src/routes.js:214 | `join(sep)` has the total length of the parts plus one separator between each pair, and starts with the first part |
| JsString.JoinAppend | src/routes.js:214 | joining two non-empty arrays equals joining each and gluing them with one separator |
| GoToCommand.Descriptor | src/services/commands/go_to.js:4-14 | every language's descriptor has the id "59A7532E-805F-8882-A6F1-6BF822E96612" and `match` "startsWith"; its name is the translated alias, its description the translated description, and it executes the go-to action for that alias |
| GoToCommand.Content | src/services/commands/go_to.js:16-19 | the URL has no white space at either end and no ASCII capital; text without the alias yields just its lower-cased, trimmed form |
| GoToCommand.Exec | src/services/commands/go_to.js:15-22 | `exec` sends exactly one "/go_to" with `{url}` to the background context, then calls its callback with no message |
| GoToCommand.ContentAt | src/services/commands/go_to.js:16-19 | where the alias first occurs at i, the URL is built from the text before i and after the alias |
| GoToCommand.ContentAfterAlias | src/services/commands/go_to.js:16-19 | alias followed by a remainder gives the lower-cased, trimmed remainder |
| GoToCommand.CaseDifferentAliasStays | src/services/commands/go_to.js:16-18 | the alias is cut out before lower-casing, so "Go to" is not removed from "go to Example.com", and the URL is "go to example.com" |
| GoToCommand.GoToExample | src/services/commands/go_to.js:15-22 | with alias "go to", "go to example.com" sends "/go_to" with the URL "example.com" |
| GoToCommand.ExampleContent | src/services/commands/go_to.js:19 | with alias "go to", the URL derived from "go to example.com" is "example.com" |
| Routes.LocalKey | src/routes.js:181 | the memo key is the language id, then "-", then the message key |
| Routes.LocalKeysOfOneLanguage | src/routes.js:181 | within one language, different message keys have different memo keys |
| Routes.LocalKeysCollide | src/routes.js:181 | the memo key `${langId}-${key}` is shared by distinct (language, key) pairs |
| Commands.Callback.HasMessage | src/routes.js:36 | a callback message counts exactly when the callback was called with a defined, non-empty string |
| Messaging.Mode.Name | src/routes.js:56-65 | speech input carries the mode "speech" and popup input the mode "text", and the two names differ |
| Routes.Truthy | src/routes.js:101 | JavaScript truthiness of a setting: undefined is false, a flag is its own value, a string is true exactly when non-empty, and an object is always true |
| Routes.MicListening | src/routes.js:100-101 | the listening test holds only when the flag is stored, and for a stored boolean it is that boolean |
| Routes.LanguageOf | src/routes.js:105-106 | a language is available exactly when the stored `defaultLanguage` is a language record, and then it is that record; otherwise reading `.code` fails |
| Routes.WorkerRequest.Action | src/routes.js:153-187 | the emoji, emoji-list and translation requests carry the actions "emoji", "emoji_list" and "getMessage", one per kind |
| Routes.ReplacementsOf | src/routes.js:16-21 | the replacement map (read at start-up and again by "/update_text_replacement_obj") is available exactly when the stored `textReplacementMap` is an object, and then it is that object |
| Routes.MatcherInput | src/routes.js:26-31 | a truthy replacement for the whole text is what the matcher receives; otherwise it receives the text unchanged |
| Routes.CapitalizationHasNoEffect | src/routes.js:29-31 | the capitalisation setting never changes the matcher's input |
| Routes.Execute | src/routes.js:35 | a matched "go to" command sends one "/go_to" with the URL derived from the command content and calls back with no message; any other command does what its own `exec` does with the content and the original text |
| Routes.SrTextEvent | src/routes.js:46-52 | the "/sr_text" message goes to the active tab and carries the text, the language's code and label, and the mode |
| Routes.SendsOf | src/routes.js:35 | a command's own sends appear in the trace one for one, in order |
| Routes.InputEffects | src/routes.js:32-54 | with no match, exactly one "/sr_text" goes to the active tab with `{text, langId, langLabel, mode}`; with a match, the command's sends come first, then one "/message" to the active tab exactly when the callback got a truthy message |
| Routes.GoToMatchSendsOnlyGoTo | src/routes.js:32-44 | when the "go to" command matches, the only message is its "/go_to"; there is no "/message" and no "/sr_text" |
| Routes.Fires | src/routes.js:154-192 | a listener answers only a reply that carries its own uid, and a translation listener answers only replies from the translation worker |
| Routes.ReplyOf | src/routes.js:155-192 | an emoji listener answers with the reply's emoji, an emoji-list listener with its list, and a translation listener with its message |
| Routes.Deliveries | src/routes.js:154-159 | every response goes to the requester of a listener of that worker whose uid equals the reply's, with that listener's reply, and there are no more responses than listeners |
| Routes.DeliveriesComplete | src/routes.js:154-159 | every firing listener answers its requester, and there are exactly as many responses as firing listeners |
| Routes.MemoAfter | src/routes.js:188-194 | the memo only grows, and an entry changes only to the reply's message, under the key of a firing translation listener |
| Routes.MismatchIsIgnored | src/routes.js:156 | a reply whose uid no listener has answers nobody and leaves the memo unchanged |
| Routes.SingleDelivery | src/routes.js:167-172 | with distinct uids, a reply answers exactly the requester of the listener with its uid, once, with that listener's field |
| Routes.ReplyFillsMemo | src/routes.js:190-192 | a reply matching a translation listener leaves its message in the memo under that listener's key |
| Routes.CommandRows | src/routes.js:209-220 | the rows are defined exactly when every `match` is an array; then there is one row per command, in the same order, each `[match.join(", "), description, id]` |
| Routes.Router.constructor | src/routes.js:12-23 | start-up keeps the stored language and capitalisation, caches the replacement map, fetches the "backend" commands for that language, and begins with an empty memo, no listeners and no effects |
| Routes.Router.ProcessInput | src/routes.js:25-55 | the trace grows by exactly the effects of `InputEffects`; when the replacement map is undefined, nothing is emitted |
| Routes.Router.OnSpeech | src/routes.js:56-60 | recognised speech is processed in mode "speech" |
| Routes.Router.OnProcessInput | src/routes.js:62-65 | popup text is processed in mode "text" |
| Routes.Router.OnNavigationReq | src/routes.js:67-70 | opens the help page at the requested sub-path |
| Routes.Router.OnSetSelectedText | src/routes.js:72-75 | stores the data under "data" and changes nothing else |
| Routes.Router.OnGetData | src/routes.js:77-80 | answers with the stored "data" |
| Routes.Router.OnStartSpeechRecognition | src/routes.js:82-91 | only with permission "granted": sets the stored language, then starts |
| Routes.Router.OnStopSpeechRecognition | src/routes.js:93-95 | stops the voice engine |
| Routes.Router.OnToggleSr | src/routes.js:97-119 | the stored flag and the answer are both the negation of the flag read. When listening: stop, then the title "Start Speech Recognition Toolkit". When idle: setLanguage before start, then the title "Stop Speech Recognition Toolkit" |
| Routes.Router.OnRestartSr | src/routes.js:121-136 | replaces the command set wholesale; only when listening does it stop, set the language and start, in that order; it never writes the flag |
| Routes.Router.OnSpeakSr | src/routes.js:138-142 | speaks the text in the stored language |
| Routes.Router.OnGetMountAck | src/routes.js:144-147 | answers with the stored mount acknowledgement id |
| Routes.Router.AddListener | src/routes.js:152-154 | takes a uid used by no existing listener and appends one listener; none is removed |
| Routes.Router.OnGetEmoji | src/routes.js:149-160 | exactly one "emoji" post with a fresh uid, and one listener added for the requester |
| Routes.Router.OnGetEmojiList | src/routes.js:162-173 | exactly one "emoji_list" post with a fresh uid, and one listener added for the requester |
| Routes.Router.OnGetTranslatedMessage | src/routes.js:179-196 | a truthy memo entry is answered at once with no post. Otherwise there is exactly one "getMessage" post and one listener. The memo is not written here |
| Routes.Router.OnWorkerMessage | src/routes.js:154-159 | every listener runs in the order it was added; the trace and the memo change exactly as `Deliveries` and `MemoAfter` say |
| Routes.Router.OnOpenTextReplacementView | src/routes.js:198-202 | opens a tab at the option page URL with `?path=textReplacer&text=` and the text |
| Routes.Router.OnUpdateTextReplacementObj | src/routes.js:204-207 | re-reads the replacement map from the store into the cache |
| Routes.Router.OnCommandsListTranslated | src/routes.js:209-220 | answers with `CommandRows` of all commands of the language, or answers nothing when a row cannot be built |
| Routes.Router.SettingChanged | src/routes.js:204-207 | a setting written by another context replaces the stored value at that key and nothing else, and later store reads such as "/update_text_replacement_obj" see it |
| Scenarios.ToggleTwice | src/routes.js:97-119 | from idle, two toggles answer true and then false, and the stored flag ends idle |
| Scenarios.TranslationIsMemoized | src/routes.js:179-196 | a miss posts once; the matching reply answers the first requester and fills the memo; the second request is answered from the memo without a post |
| Scenarios.MemoOnlyAtKey | src/routes.js:188-194 | with distinct uids, a reply changes the memo at its own listener's key only |
| Scenarios.RepliesInReverseOrder | src/routes.js:149-160 | two emoji requests answered in reverse order each get the emoji carrying their own uid, with no cross-talk |
| Scenarios.HelloWorldPassesThrough | src/routes.js:45-52 | with English settings, "hello world" that matches no command becomes one "/sr_text" with langId "en", langLabel "English", mode "speech" |
| Scenarios.GoToExampleNavigates | src/routes.js:32-44 | "go to example.com" matched to the go-to command produces one "/go_to" with URL "example.com" and nothing else |

## Left out

- JsString.ToLower: lower-cases the ASCII letters only. Every other character, which `toLowerCase` maps by the Unicode default case conversion (and which can change the length), is left as it is.
- Strings are sequences of Unicode scalar values, not UTF-16 code units.
- The command matcher, `getCommands`, `getAllCommands` and the `exec` of commands other than "go to" are not shown. They are assumed to be pure functions. Their internal behaviour (prefix matching, precedence) is not modelled.
- A command's own sends are placed before the message its callback relays. An asynchronous `exec` could interleave them differently.
- Asynchrony: each handler is one atomic step, and each worker reply is a separate event. Interleavings between awaits, between the two workers and between concurrent store writers are not modelled.
- Store values have one fixed shape per key. A `defaultLanguage` that is missing or is not a language object is treated as the failing `.code` read: the handler stops before its effects. A value of another kind that JavaScript would read as `undefined` without throwing is not distinguished.
- `textReplacementObj` lookups do not see properties inherited from `Object.prototype`, such as "constructor".
- Worker reply bodies are a record with `emoji`, `emojiList` and `message` fields. A field the worker leaves out is empty, and an `undefined` message reads as the empty string.
- `guid.generateGuid` is a counter. Its ids are fresh and distinct, not random strings.
- The message-passing library's own delivery (a missing tab or a closed responder port) is not modelled. Sends and responses are recorded as issued.
- `MessagePassing.setOptions` and the creation of the two workers are not modelled. The workers are named by `Routes.Worker`.
- `translationService.getMessage` is not part of this model. The go-to descriptor takes its translated alias and description as parameters.
