# Pocket Profit home-page chat widget, modelled in Dafny

This project models the chat assistant on the home page (`src/pages/HomePage.tsx`).
It has two parts:

- **The canned-answer selector.** `getAIResponse` lower-cases the user's message.
  It then tests for trigger words in a fixed order: `budget`, then `invest`, then
  `expense`/`track`, then `saving`/`save`, and otherwise the default topic. It
  returns one answer of the chosen topic's list from the table `mockAIResponses`,
  at index `Math.floor(Math.random() * length)`.
- **The component's state machine.** The state is `messages`, `inputValue`,
  `showChat`, `isLoading` and `isFullscreen`. The events that change it are:
  - typing into the textarea or picking a suggestion chip;
  - `handleSend`, split at its `await` into the synchronous part and the continuation that runs when the reply arrives;
  - `clearChat`;
  - `toggleFullscreen`.

Modules:

- `Text` (`text.dfy`) holds the three JavaScript string operations the widget uses:
  - `trim`, with the ECMAScript WhiteSpace and LineTerminator characters;
  - `toLowerCase`, on ASCII letters;
  - `includes`, specified by an occurrence index.
- `Catalog` (`catalog.dfy`) holds the answer table and the selector.
  - `ResponseTable` has one list per topic, and `MockAIResponses` is `mockAIResponses` verbatim.
  - The selector takes the table as a parameter. So its properties hold for any table with non-empty lists, and the facts specific to `mockAIResponses` are lemmas of their own.
  - `Keywords` and `Rank` give an independent description of the matching rule. `SelectTopic` is proved against that description, and `SelectTopicUnique` shows the description fixes the topic.
- `Chat` (`chat.dfy`) holds the class `ChatSession`. Its fields are the component's state variables, and its methods are the event handlers.
  - The class invariant `Valid` is kept by every method. It says:
    - user and assistant messages alternate;
    - user messages are trimmed and no message is empty;
    - while a reply is pending, the transcript is empty or ends with the pending request;
    - an open chat is never empty.
  - The closure variable `currentInput` of `handleSend` becomes the field `pendingRequest`. `Send` sets it and `Resolve` reads it.

The random number is a parameter `draw` with `0 <= draw < 1`. The index is
`floor(draw * length)`, exactly as the source computes it, rather than a free index
argument. `ChooseIndexCovers` and `EveryAnswerReachable` show that every index is
hit by some draw.

The reply continuation has a flag `ok`. It says whether the simulated API call
returned or threw, and selects the answer or the fixed "trouble connecting" text.
In the source `mockAPICall` cannot throw, so the error branch is unreachable there.
The model keeps it because the handler states it.

`clearChat` does not cancel a pending reply, and the model follows the code:

- `clearChat` leaves `isLoading` set.
- The reply is appended by a functional state update when it arrives, so it lands
  in the cleared transcript while the chat is closed.
- The next send then shows that reply above the new user message.

`Chat.ClearBeforeReply` states this run end to end.

## Model

| member | source | states |
|---|---|---|
| Text.SkipForward | src/pages/HomePage.tsx:88 | the scan that drops leading whitespace stops at the first non-whitespace character, or at the end |
| Text.SkipBackward | src/pages/HomePage.tsx:88 | the scan that drops trailing whitespace stops just after the last non-whitespace character, or at 0 |
| Text.Trim | src/pages/HomePage.tsx:88 | `trim()` returns a string with no whitespace at either end and no longer than its input |
| Text.TrimRemovesOnlyWhitespace | src/pages/HomePage.tsx:91 | the trimmed text is a contiguous part of the input with only whitespace before and after it |
| Text.TrimEmptyIff | src/pages/HomePage.tsx:88 | `inputValue.trim()` is falsy exactly when every character of the input is whitespace |
| Text.TrimOfTrimmed | src/pages/HomePage.tsx:101 | a string with no whitespace at either end is its own trim, so trimming is idempotent |
| Text.Lower | src/pages/HomePage.tsx:29 | `toLowerCase` keeps the length and lower-cases each character |
| Text.Contains | src/pages/HomePage.tsx:31-38 | `includes(p)` holds exactly when `p` occurs at some index of the message |
| Text.ContainsLowerIff | src/pages/HomePage.tsx:29-38 | a word is found in the lower-cased message exactly when the message holds it in some mix of ASCII letter case |
| Text.AbsentCharExcludes | src/pages/HomePage.tsx:31-38 | a trigger word with a letter the message lacks is not included in it |
| Text.ContainsAt | src/pages/HomePage.tsx:31-38 | a trigger word written out at some position is included |
| Catalog.MockAIResponsesShape | src/pages/HomePage.tsx:4-26 | the table has 2, 2, 2, 2 and 3 answers per topic, with the given lengths |
| Catalog.MockAIResponsesValid | src/pages/HomePage.tsx:4-26 | every list of `mockAIResponses` has at least two answers and none is empty, so every draw indexes an answer |
| Catalog.MockAIResponsesDistinct | src/pages/HomePage.tsx:4-26 | no answer is listed twice, under one topic or two |
| Catalog.SelectTopic | src/pages/HomePage.tsx:29-41 | the selected topic is mentioned (or is the default), and no topic tried before it is mentioned |
| Catalog.SelectTopicUnique | src/pages/HomePage.tsx:31-41 | those two properties determine the selected topic: it is the first mentioned topic in priority order |
| Catalog.EarlierTopicWins | src/pages/HomePage.tsx:31-38 | a message that mentions a topic never selects a topic tried after it, whatever else it mentions |
| Catalog.NoKeywordSelectsDefault | src/pages/HomePage.tsx:41 | a message with none of `budget`, `invest`, `expense`, `track`, `saving`, `save` selects the default list |
| Catalog.ChooseIndex | src/pages/HomePage.tsx:32 | `Math.floor(Math.random() * len)` is a valid index into a non-empty list |
| Catalog.ChooseIndexCovers | src/pages/HomePage.tsx:32 | every index of the list is produced by some draw |
| Catalog.GetAIResponse | src/pages/HomePage.tsx:28-42 | the answer is a non-empty entry of the selected topic's list |
| Catalog.AnswerOnlyInSelectedList | src/pages/HomePage.tsx:4-42 | with distinct answers, the answer belongs to the selected topic's list and to no other |
| Catalog.EveryAnswerReachable | src/pages/HomePage.tsx:28-42 | every answer of the selected list is returned for some draw |
| Catalog.MentionsIgnoringCase | src/pages/HomePage.tsx:29-38 | the lower-cased message mentions a topic exactly when the message holds one of its words in any ASCII letter case |
| Catalog.BudgetInAnyCase | src/pages/HomePage.tsx:29-32 | "budget" in any letter case selects the budget list, whatever else the message says |
| Catalog.ShoutedBudget | src/pages/HomePage.tsx:29-32 | the message "MY BUDGET" gets an answer from the budget list |
| Chat.SuggestionSelectsItsTopic | src/pages/HomePage.tsx:404-409 | each chip's text selects the chip's topic: budget, investment, expense, savings |
| Chat.BudgetChip | src/pages/HomePage.tsx:404 | "Budget analysis" selects the budget list |
| Chat.InvestmentChip | src/pages/HomePage.tsx:404 | "Investment tips" selects the investment list |
| Chat.ExpenseChip | src/pages/HomePage.tsx:404 | "Expense tracking" selects the expense list |
| Chat.SavingsChip | src/pages/HomePage.tsx:404 | "Savings goals" selects the savings list |
| Chat.SuggestionIsTrimmed | src/pages/HomePage.tsx:404 | chip texts have no surrounding whitespace, so sending one sends it unchanged |
| Chat.Reply | src/pages/HomePage.tsx:104-123 | the reply is never empty; it is the selector's answer on success and the fixed error text on failure |
| Chat.ChatSession.constructor | src/pages/HomePage.tsx:53-57 | the initial state is empty and closed, and satisfies the invariant |
| Chat.ChatSession.InputVisible | src/pages/HomePage.tsx:157-333 | an input is on screen exactly when the fullscreen input bar (inside the open chat, in fullscreen) or the bottom bar (outside fullscreen) is rendered |
| Chat.ChatSession.SendEnabled | src/pages/HomePage.tsx:294 | the send button is enabled exactly when nothing is pending and the input has a non-whitespace character |
| Chat.ChatSession.SetInput | src/pages/HomePage.tsx:350 | typing or a chip sets `inputValue` and changes nothing else |
| Chat.ChatSession.Send | src/pages/HomePage.tsx:87-102 | blank input changes nothing; otherwise exactly the trimmed input is appended as a user message, the chat opens, the reply becomes pending, the input empties and fullscreen is untouched |
| Chat.ChatSession.Resolve | src/pages/HomePage.tsx:104-126 | exactly one assistant message is appended, the selector's answer to the pending request or the error text, and loading ends |
| Chat.ChatSession.Clear | src/pages/HomePage.tsx:138-142 | the transcript empties and the chat closes and leaves fullscreen; loading, input and the pending request are unchanged |
| Chat.ChatSession.ToggleFullscreen | src/pages/HomePage.tsx:144-146 | fullscreen flips and nothing else changes; in the open chat an input stays visible |
| Chat.ChatSession.SendAndResolve | src/pages/HomePage.tsx:87-127 | a whole send whose reply arrives first appends exactly the user message and then the reply to its trimmed text |
| Chat.SuggestionRoundTrip | src/pages/HomePage.tsx:404-409 | a chip picked and sent on a fresh page yields a two-message transcript: the chip text, then an answer from the chip's topic |
| Chat.ClearBeforeReply | src/pages/HomePage.tsx:115 | a reply that arrives after a clear is the only message of the closed chat and precedes the next user message |

## Left out

- `src/App.tsx` routing, `src/components/header.tsx` and `src/components/Layout.tsx` are not part of this model: they hold routing and static markup only.
- JSX rendering, the Tailwind class choices and the focus glow flag `isActive` are not modelled: they are presentation only.
- The simulated delay `1000 + Math.random() * 2000` is not modelled. The wait is the gap between `Send` and `Resolve`, and any other event may happen in that gap.
- The scroll-to-bottom effect and its 100 ms timeout are not modelled: they are DOM effects.
- Message ids from `Date.now()` and timestamps are not modelled: they depend on the clock and locale.
- The textarea auto-resize is not modelled: it is DOM layout arithmetic.
- `handleKeyPress` is not modelled separately: Enter without Shift calls `handleSend`, which is `Send` followed, once the awaited reply arrives, by `Resolve` (together `SendAndResolve` when nothing happens in between).
- Text.Lower: lower-cases ASCII letters only. JavaScript `toLowerCase` also maps other characters, for example the Kelvin sign to `k`, which can form `track`.
- Catalog.ChooseIndex: `Math.random()` is an IEEE double, and the model uses an exact real in [0, 1), so floating-point rounding of the product is not modelled.
- Chat.ChatSession.Send: requires that no reply is pending. The handler has no such check; the textarea, the send buttons and the chips are disabled while loading.
- Chat.ChatSession.SetInput: has no precondition, although the controls that call it are disabled while loading. So it allows more than the page does.
- Chat.ChatSession.ToggleFullscreen: has no precondition, although its button is rendered only inside the open chat. Its visibility guarantee is stated only for that case.
