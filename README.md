# Chat popup dispatcher and feedback recorder, modelled in Dafny

This project models the decision logic of a React chat front end. It covers
two components.

- **Chat popup** (`frontend/src/components/chatpopup_original_code.js`).
  - It seeds the conversation with the first response of the first
    configured rule.
  - On every send it ignores blank input. Otherwise it raises the
    `isLoadingSend` flag, appends the user's message and clears the input
    box.
  - It then looks for the first rule with a keyword contained in the input,
    compared case-insensitively. On a hit it appends that rule's first
    response. On a miss it asks the remote query service and appends its
    `result.output`. If the remote step fails it appends a fixed apology
    instead.
  - Finally it lowers the flag. The Enter key sends only while the flag is
    down.
- **Feedback recorder** (`handleFeedback` in
  `frontend/src/components/api/apijsworking.js`). It writes a like/dislike
  signal onto one entry of a chat log, then posts the signal with the
  entry's interaction id. The post's result is only logged.

Modules, one per concern:

- `Wrappers` (`wrappers.dfy`): `Option`, for the JavaScript `undefined`.
- `JsString` (`js_string.dfy`): `trim()`, `toLowerCase()` (ASCII) and
  `includes()`, each with its meaning proved.
- `Rules` (`rules.dfy`): rules, responses and the first-match lookup.
- `Messages` (`messages.dfy`): the message record both components share.
- `Chat` (`chat.dfy`): the `ChatPopup` class, plus the event-trace
  specification of a send. Each React state update of `handleSendMessage`
  is an `Event`. `SendEvents` lists the events in the order the handler
  issues them, and `Replay` gives their effect on the state. The class's
  methods return the events they issue and are proved to leave the state
  that `Replay` predicts. The lemmas then state what such a trace promises.
- `Feedback` (`feedback.dfy`): the `ChatComponent` class and the indexed
  feedback write.

The remote service is a parameter `remote: string -> Remote` with
`Remote = Answer(output) | Failed`. `Failed` stands for every way the
remote step throws inside the handler's `try`:
- a transport error;
- a non-OK status;
- the `{ error }` object that `fetchQuery` returns instead of rejecting
  (`frontend/src/components/api/api.js:19-22`). That object has no
  `result`, so reading `result.output` throws.

Two behaviours of the code are worth stating outright:
- The feedback is written to the log before the post is sent, and it is
  never reverted. The post's outcome is only logged.
- Rules with no responses or no keywords are not rejected anywhere. A rule
  with no responses yields a bot message without text.

## Model

| member | source | states |
|---|---|---|
| `JsString.TrimStart` | frontend/src/components/chatpopup_original_code.js:48 | the result is the suffix of the input left after a prefix made only of whitespace, and it does not start with whitespace |
| `JsString.TrimEnd` | frontend/src/components/chatpopup_original_code.js:48 | the result is the prefix of the input left before a suffix made only of whitespace, and it does not end with whitespace |
| `JsString.Trim` | frontend/src/components/chatpopup_original_code.js:48 | `trim()` returns the slice of the input between a blank prefix and a blank suffix, and the result neither starts nor ends with whitespace |
| `JsString.TrimEmptyIffBlank` | frontend/src/components/chatpopup_original_code.js:48 | `trim()` yields the empty (falsy) string exactly when every character of the input is whitespace |
| `JsString.ToLower` | frontend/src/components/chatpopup_original_code.js:57 | `toLowerCase()` keeps the length and folds each character on its own (ASCII capitals to small letters) |
| `JsString.ToLowerIdempotent` | frontend/src/components/chatpopup_original_code.js:57 | folding is idempotent and leaves no ASCII capital |
| `JsString.Includes` | frontend/src/components/chatpopup_original_code.js:57 | `includes` holds exactly when the needle occurs at some index of the haystack |
| `Rules.KeywordMatches` | frontend/src/components/chatpopup_original_code.js:57 | a keyword matches exactly when the lowercased keyword occurs at some index of the lowercased input |
| `Rules.AnyKeywordMatches` | frontend/src/components/chatpopup_original_code.js:57 | `keywords.some(...)` holds exactly when some keyword, lowercased, occurs in the lowercased input |
| `Rules.FindRule` | frontend/src/components/chatpopup_original_code.js:56-58 | the result is the first rule in configuration order that matches; no earlier rule matches; the result is None exactly when no rule matches |
| `Rules.LaterRulesNotConsulted` | frontend/src/components/chatpopup_original_code.js:56-58 | once rule k wins, replacing every rule after it leaves the lookup at k |
| `Rules.KeywordEdgeCases` | frontend/src/components/chatpopup_original_code.js:57 | a rule with no keywords never matches; a rule holding the empty keyword matches every input |
| `Rules.SameMatchesSameRule` | frontend/src/components/chatpopup_original_code.js:56-58 | two rule lists that match or fail to match position by position select the same index |
| `Rules.CaseInsensitive` | frontend/src/components/chatpopup_original_code.js:57 | two inputs that are equal after lowercasing select the same rule |
| `Rules.KeywordCaseInsensitive` | frontend/src/components/chatpopup_original_code.js:57 | a keyword and its lowercased form match the same inputs |
| `Rules.LowerKeywords` | frontend/src/components/chatpopup_original_code.js:57 | the rules with each keyword lowercased: same length, same responses, each keyword replaced by its lowercased form |
| `Rules.KeywordCaseIgnored` | frontend/src/components/chatpopup_original_code.js:56-58 | lowercasing every configured keyword selects the same rule for every input, so the case of the configuration does not matter |
| `Rules.HelpExample` | frontend/src/components/chatpopup_original_code.js:56-58 | the keyword "help" selects its rule for the input "I need HELP please" |
| `Chat.RuleReply` | frontend/src/components/chatpopup_original_code.js:61-62 | the reply to a rule hit is a bot message, without interaction id or feedback, carrying the text and buttons of the rule's first response; with no response it has empty text and no buttons |
| `Chat.Reply` | frontend/src/components/chatpopup_original_code.js:56-71 | the appended bot message is the winning rule's reply on a hit, the service's output when the service answers a miss, and the fixed apology when the remote step fails |
| `Chat.SendEvents` | frontend/src/components/chatpopup_original_code.js:47-76 | a send issues no event exactly when the input is blank; otherwise six events on a rule miss (one of them the query) and five on a hit |
| `Chat.SendOutcome` | frontend/src/components/chatpopup_original_code.js:47-76 | blank input leaves the state unchanged; any other input grows the conversation by exactly the user message with the untrimmed input and then one bot message, leaving earlier messages as they were, the input box empty and the flag down |
| `Chat.LoadingHeldDuringSend` | frontend/src/components/chatpopup_original_code.js:49-74 | the first event of a send raises the flag and the second appends the user message; the flag is up after every later event but the last, and the last event lowers it |
| `Chat.QueriesOfSend` | frontend/src/components/chatpopup_original_code.js:56-67 | a send issues no remote query on a rule hit or on blank input, and exactly one, carrying the raw input, on a miss |
| `Chat.ReplayTrace` | frontend/src/components/chatpopup_original_code.js:49-74 | replaying a send's events appends the user message and the reply, clears the input and lowers the flag, and the flag stays up after each intermediate step |
| `Chat.ChatPopup.constructor` | frontend/src/components/chatpopup_original_code.js:32-35 | the conversation starts as one bot message holding the first response text of the first rule; the input is empty and the flag is down |
| `Chat.ChatPopup.ChangeInput` | frontend/src/components/chatpopup_original_code.js:227 | typing replaces the input value and changes nothing else |
| `Chat.ChatPopup.Emit` | frontend/src/components/chatpopup_original_code.js:49-73 | one state update: the recorded events grow by that update, and the fields become the replay of all recorded events |
| `Chat.ChatPopup.HandleSendMessage` | frontend/src/components/chatpopup_original_code.js:47-76 | every write goes through `Emit`, so the handler's events are its writes in order; they are exactly those of `SendEvents`, the remote is queried only on a rule miss, and the new state is their replay over the old one: unchanged on blank input, otherwise the two new messages, an empty input box and the flag down |
| `Chat.ChatPopup.HandleKeyDown` | frontend/src/components/chatpopup_original_code.js:124-128 | Enter sends only while the flag is down; any other key, or Enter while loading, issues nothing and changes nothing |
| `Feedback.WithFeedback` | frontend/src/components/api/apijsworking.js:30-32 | the log keeps its length; the addressed entry gets the signal as its feedback and keeps every other field; every other entry is unchanged |
| `Feedback.WithFeedbackIdempotent` | frontend/src/components/api/apijsworking.js:31 | recording the same signal on the same entry twice gives the log that recording it once gives |
| `Feedback.WithFeedbackLastWins` | frontend/src/components/api/apijsworking.js:31 | a later signal on an entry replaces the earlier one |
| `Feedback.WithFeedbackCommutes` | frontend/src/components/api/apijsworking.js:30-32 | signals written on different entries do not interfere, in either order |
| `Feedback.ChatComponent.constructor` | frontend/src/components/api/apijsworking.js:27 | the chat log starts empty |
| `Feedback.ChatComponent.HandleFeedback` | frontend/src/components/api/apijsworking.js:29-53 | for an index outside the log nothing is written or posted (the code throws on `newChatLog[index]`). Otherwise the log becomes `WithFeedback` of the old log, and the post carries the same entry's interaction id and the same signal. Both hold whatever the post's outcome, so a failed post does not revert the write |

## Left out

- HTTP transport (`fetch`, `FormData`, JSON parsing in
  `frontend/src/components/api/api.js` and
  `frontend/src/components/api/apijsworking.js:36-52`). The query's result
  is the `remote` parameter. The feedback post's outcome is a parameter the
  handler ignores.
- `console.error` / `console.log` diagnostics in the `catch` and `.then`
  branches: logging only.
- React machinery:
  - `useState` batching and stale closures between
    `setConversations(newConversations)` and the functional updaters: the
    appends are modelled as sequential;
  - the auto-scroll effect (lines 41-45).
- Overlapping sends. The only guard is the disabled input and button (lines
  230, 240) and the `handleKeyDown` check. Concurrency is not modelled, so
  every modelled send starts and ends with the flag down.
- A `result` whose `output` field is missing. The handler would append a
  bot message with an undefined text rather than throw. `Remote` has no
  case for it.
- A keyword that is not a string. `toLowerCase` would throw inside the
  `try`, and the apology would be appended. Keywords are modelled as
  strings.
- `JsString.ToLower`: case folding is ASCII only. JavaScript's
  `toLowerCase` folds all of Unicode.
- `Chat.RuleReply`: with an empty response list the spread of `undefined`
  yields a bot message with no `text` field. It is modelled as an empty text
  with no buttons. Response buttons are modelled as their labels.
- Malformed rules. A rule without a `keywords` array throws at line 57
  and one without a `responses` array throws at line 61; both throws are
  caught, so the apology is appended. Rules are modelled as always having
  both fields.
- `Chat.RuleReply`: a response carrying its own `sender` field overrides
  `'bot'` through the spread at line 62. Responses are modelled as text and
  buttons only, so the reply's sender is always the bot.
- `Chat.ChatPopup.constructor` requires at least one rule with at least one
  response. The code reads `rules[0].responses[0].text` unguarded and fails
  to render otherwise.
- `Feedback.ChatComponent.HandleFeedback`: the log is a value here. The
  code copies the array shallowly and then sets `feedback` on the entry
  object itself, so the entry held by the previous state is changed too.
  That aliasing is also why two calls made from one stale closure both keep
  their writes; the model shows sequential calls only.
- `Feedback.ChatComponent.HandleFeedback`: with an index outside the log,
  `newChatLog[index].feedback` throws a `TypeError` that leaves the handler.
  The model returns `None` with the state unchanged instead of an error.
- Rendering, theming, the typing indicator, the text popup, the clipboard,
  file attachment and theme toggling (`chatpopup_original_code.js:109-262`,
  `themes.js`, `ThemeSwitcher.js`, `ChatIcon.js`, `App.js`): presentation
  only.
- The commented-out handlers in `chatpopup_original_code.js` after line 262,
  and at lines 80-107: not part of the running code.
- The contents of `interactions.json`: it is not part of this model, so the
  rules are a constructor parameter.
