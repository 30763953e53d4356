# Home-services chat: recommendation text and its client-side parser

This project models the two pieces of logic in a small Next.js chat app for home repairs.

**The chat endpoint** (`app/api/chat/route.ts`):
- It decides whether the conversation has a problem type, a zip code and a timing.
- If all three are present, it picks providers from a fixed three-record directory. A provider is picked when one of its service tags occurs in the lower-cased problem type, and at most three are kept.
- It sends the picks back as text: a header sentence, then one six-line block per provider.
- Otherwise it asks the next scripted question for the classified stage.

**The chat widget** (`components/layout/sections/chat.tsx`):
- It sends the user's turn to the endpoint.
- It decides from the reply whether the reply carries recommendations.
- If it does, it rebuilds business cards from the reply with a line-oriented parser.

The model has five modules:
- `Text` (`text.dfy`) holds the JavaScript string operations both sides rely on: `split` on one character, `trim`, `includes`, ASCII `toLowerCase` and `join`, with their algebra.
- `Wrappers` (`text.dfy`) holds the `Option` type used for absent fields and replies.
- `Route` (`route.dfy`) is the endpoint. It is pure: the directory, the filter and the cut-off, the text template and the branch.
- `Chat` (`chat.dfy`) is the widget:
  - the parser as a specification fold (`Classify`, `Step`, `Run`, `Parse`);
  - the imperative `ExtractBusinessData` loop, proved equal to that fold;
  - the gate;
  - a `ChatSession` class whose methods update `messages`, `inputMessage`, `isLoading` and `businesses` as `handleSendMessage` does.
- `RoundTrip` (`roundtrip.dfy`) connects the two sides. The widget's parse of the endpoint's recommendation text gives back exactly the listed providers, in order, with the same fields. The only requirement is that the echoed problem type, zip code and timing are single lines without any of the four labels.

A field's value is `split(':')[1]`. That is the text between the first and second colon, not everything after the first colon. The model keeps this behaviour (`Chat.FieldTextBetweenColons`).

Ratings are one-decimal numbers in the directory. The model stores them as whole tenths and renders them the way JavaScript prints such a number (`4.8`, or `5` for 5.0). The widget keeps the rating as the text it extracted.

## Model

| member | source | states |
|---|---|---|
| Route.Directory | app/api/chat/route.ts:10-35 | The directory has exactly three providers, with ratings of at most 5.0 |
| Route.RatingText | app/api/chat/route.ts:118 | The printed rating is digits with at most a point, starts and ends with a digit, and has a point exactly when the tenths digit is non-zero |
| Route.RatingTextValue | app/api/chat/route.ts:118 | Reading the printed rating back at its point gives the whole part and the tenths digit |
| Route.NatTextValue | app/api/chat/route.ts:118 | The decimal numeral of a number reads back as that number |
| Route.FilterMatching | app/api/chat/route.ts:104-111 | A provider is kept iff it is listed and one of its tags occurs in the lower-cased problem type; the kept ones are a subsequence of the list |
| Route.Select | app/api/chat/route.ts:104-112 | At most three providers are selected, and they are a prefix of the filtered directory |
| Route.SelectIsFilter | app/api/chat/route.ts:104-112 | With three directory records the cut-off drops nothing: selected iff in the directory and matching, in directory order |
| Route.Matches | app/api/chat/route.ts:105-110 | Some service tag of the provider occurs in the lower-cased problem type; its meaning is fixed by `Route.FilterMatching` |
| Route.Header | app/api/chat/route.ts:125 | The header sentence echoing problem type, zip code and timing; `RoundTrip.HeaderHasNoLabel` states what the parser sees in it |
| Route.Block | app/api/chat/route.ts:116-121 | A provider's block is its six lines joined by newlines; `RoundTrip.JoinBlocksLines` relates it to the message lines |
| Route.BlockLines | app/api/chat/route.ts:116-121 | A block is six lines, the first empty and the second the provider's name (the four labelled lines are read back by the RoundTrip line lemmas) |
| Route.Blocks | app/api/chat/route.ts:114-122 | One block per selected provider |
| Route.JoinBlocks | app/api/chat/route.ts:114-123 | The joined blocks are empty exactly when no provider is selected |
| Route.RecommendationMessage | app/api/chat/route.ts:125 | The message starts with the header sentence and a newline, and is exactly that when no provider is listed |
| Route.BlockLineOccurs | app/api/chat/route.ts:114-125 | Every line of every listed provider's block occurs in the message |
| Route.MessageNamesProviders | app/api/chat/route.ts:114-125 | Each listed provider's name, rating line, price, availability and phone occur in the message |
| Route.Present | app/api/chat/route.ts:102 | JavaScript truthiness of an optional string: present and non-empty; used by `Route.Respond` |
| Route.Respond | app/api/chat/route.ts:102-137 | Recommends iff problem type, zip code and timing are all truthy, with the message built from the selection; otherwise asks the next question for the analysed stage |
| Text.ToLower | app/api/chat/route.ts:107-108 | Lower-casing keeps the length and maps each character on its own, A-Z to a-z |
| Text.Trim | components/layout/sections/chat.tsx:51 | JavaScript `trim`: whitespace removed from both ends; its meaning is `Text.TrimIsMiddle` and `Text.TrimEmpty` |
| Text.TrimEmpty | components/layout/sections/chat.tsx:51 | `trim` gives the empty string exactly when every character is whitespace |
| Text.Contains | components/layout/sections/chat.tsx:53 | JavaScript `includes`: the word occurs at some position (`Text.ContainsAt`, `Text.OccurrenceOf` give both directions) |
| Text.ContainsAt | components/layout/sections/chat.tsx:53 | An occurrence at some position makes the word included |
| Text.OccurrenceOf | components/layout/sections/chat.tsx:53 | An included word occurs at some position |
| Text.Join | app/api/chat/route.ts:123 | JavaScript `join`: empty for no parts, the part itself for one part |
| Text.SplitPartsLackSep | components/layout/sections/chat.tsx:47 | No piece of a split holds the separator |
| Text.Split | components/layout/sections/chat.tsx:47 | `split` gives at least one part, and gives the whole string back exactly when the separator does not occur |
| Text.SplitJoinLines | components/layout/sections/chat.tsx:47 | Splitting newline-joined lines that hold no newline gives those lines back |
| Text.TrimIsMiddle | components/layout/sections/chat.tsx:51 | `trim` returns a slice of its input, with no whitespace at either end |
| Text.WordAtColon | components/layout/sections/chat.tsx:60-67 | In a line with one colon, a label followed by a colon occurs iff the text before the colon ends with the label |
| Chat.Classify | components/layout/sections/chat.tsx:51-68 | The case analysis of one line; characterised by `Chat.ClassifyMeaning` and `Chat.ClassifyLabelled` |
| Chat.HasFields | components/layout/sections/chat.tsx:55 | `Object.keys(currentBusiness).length > 0`: some field, the name included, is set |
| Chat.Flush | components/layout/sections/chat.tsx:55-58 | The cards pushed so far plus the current card when it has a field, as at a name line and after the loop (lines 71-73) |
| Chat.FieldText | components/layout/sections/chat.tsx:61-67 | `line.split(':')[1]` holds no colon; `Chat.FieldTextBetweenColons` gives its value |
| Chat.Step | components/layout/sections/chat.tsx:51-68 | One iteration of the loop body as a function of the state; `Chat.NameLineStep`, `Chat.StepSetsField` and `Chat.InertStep` state its cases |
| Chat.InertStep | components/layout/sections/chat.tsx:51 | A blank or unlabelled line leaves the state as it is |
| Chat.Run | components/layout/sections/chat.tsx:50-69 | The loop as a fold over the lines; `Chat.RunAppend` is its algebra |
| Chat.Records | components/layout/sections/chat.tsx:46-75 | The fold from the empty state, followed by the final push; `Chat.RecordNames` gives its cards |
| Chat.Parse | components/layout/sections/chat.tsx:45-76 | The records of the reply split at newlines; `Chat.ExtractBusinessData` is proved to compute it |
| Chat.ExtractBusinessData | components/layout/sections/chat.tsx:45-76 | The loop over the lines returns exactly the fold `Parse` of the reply |
| Chat.ClassifyMeaning | components/layout/sections/chat.tsx:51-68 | A line is skipped iff all whitespace; it names a card iff non-blank without a colon, with its trimmed non-empty text; it fills a field iff it has a colon and a label; otherwise it changes nothing |
| Chat.ClassifyLabelled | components/layout/sections/chat.tsx:60-67 | A one-colon line fills the field of the first label (Rating, Price, Available, Phone) that ends the text before the colon; the value is the trimmed text after it, cut at '/' for the rating; with no label the line changes nothing |
| Chat.LabelOf | components/layout/sections/chat.tsx:60-67 | Picks the rating when the prefix ends in "Rating", and no field exactly when it ends in none of the four labels |
| Chat.EstimatedPriceFillsPrice | components/layout/sections/chat.tsx:62-63 | The endpoint's "Estimated Price:" line fills the price with the trimmed value |
| Chat.FieldTextBetweenColons | components/layout/sections/chat.tsx:61-67 | A field's value is the segment between the first and second colon; text after a second colon is dropped |
| Chat.NonBlank | components/layout/sections/chat.tsx:51 | Every line it keeps is non-empty after trimming |
| Chat.BlankLinesIgnored | components/layout/sections/chat.tsx:50-51 | Removing every blank line leaves the cards unchanged |
| Chat.NothingToRead | components/layout/sections/chat.tsx:46-51 | A reply with no non-blank line yields no cards |
| Chat.InertLineIgnored | components/layout/sections/chat.tsx:51-68 | A blank line, or a colon line without any label, can be dropped from anywhere without changing the cards |
| Chat.RunAppend | components/layout/sections/chat.tsx:50-69 | Reading two runs of lines in turn is reading them as one |
| Chat.RecordNames | components/layout/sections/chat.tsx:53-59 | The cards are one per name line, in order, named by its trimmed text, plus a leading unnamed card exactly when a field line precedes the first name line |
| Chat.NameLineStep | components/layout/sections/chat.tsx:53-59 | A name line pushes the current card only when it has a field, and starts a card holding just the trimmed name |
| Chat.NameOnlyRecord | components/layout/sections/chat.tsx:53-59 | Two name lines in a row leave a card holding only the first name |
| Chat.StepSetsField | components/layout/sections/chat.tsx:60-67 | A field line changes only that field of the current card |
| Chat.LastWriteWins | components/layout/sections/chat.tsx:60-67 | A later line for the same field in the same card makes the earlier one irrelevant |
| Chat.LooksLikeRecommendation | components/layout/sections/chat.tsx:105 | The reply includes both "Rating:" and "Phone:"; `RoundTrip.GateOpens` and `RoundTrip.GateShut` state when a recommendation passes it |
| Chat.CardsFor | components/layout/sections/chat.tsx:105-110 | Without both "Rating:" and "Phone:" in the reply there are no cards |
| Chat.ChatSession.constructor | components/layout/sections/chat.tsx:22-30 | The session starts with the greeting, an empty input, not loading and no cards |
| Chat.ChatSession.SetInput | components/layout/sections/chat.tsx:211 | Only the input text changes |
| Chat.ChatSession.BeginSend | components/layout/sections/chat.tsx:79-99 | No-op when the trimmed input is empty or a request is in flight; otherwise appends the user turn, clears the input, starts loading, and sends the old history plus that turn |
| Chat.ChatSession.ReceiveReply | components/layout/sections/chat.tsx:101-130 | A reply becomes the assistant turn and sets the cards through the gate; a failure adds the apology and keeps the cards; loading ends |
| Chat.ChatSession.SendMessage | components/layout/sections/chat.tsx:78-131 | The whole turn: either nothing changes, or the history grows by the user turn and one assistant turn (reply or apology), the input is cleared, loading ends, and the cards follow the reply |
| RoundTrip.DirectoryWellFormed | app/api/chat/route.ts:10-35 | Every directory field is non-empty where needed, trimmed, and free of colons and newlines |
| RoundTrip.JoinBlocksLines | app/api/chat/route.ts:114-123 | Joining blocks with a blank line between them is joining all their lines with newlines |
| RoundTrip.HeaderHasNoLabel | app/api/chat/route.ts:125 | With label-free one-line analysis values, the header is one line that ends in a colon and holds no label |
| RoundTrip.HeaderIgnored | app/api/chat/route.ts:125 | The parser skips the header line |
| RoundTrip.MessageSplit | app/api/chat/route.ts:114-125 | Splitting a message that lists providers at newlines gives the header followed by every block's lines |
| RoundTrip.EmptyMessageSplit | app/api/chat/route.ts:125 | A message with no providers splits into the header and one empty line |
| RoundTrip.RatingLineRead | app/api/chat/route.ts:118 | The rating line fills the rating with the printed rating |
| RoundTrip.PriceLineRead | app/api/chat/route.ts:119 | The "Estimated Price:" line fills the price with the provider's price |
| RoundTrip.AvailableLineRead | app/api/chat/route.ts:120 | The availability line fills the availability |
| RoundTrip.PhoneLineRead | app/api/chat/route.ts:121 | The phone line fills the phone |
| RoundTrip.RunBlock | app/api/chat/route.ts:116-121 | Reading one block pushes the card before it and fills a complete card for the provider |
| RoundTrip.RunMessageLines | app/api/chat/route.ts:114-123 | Reading all blocks pushes one complete card per provider, in order |
| RoundTrip.GateShut | app/api/chat/route.ts:125 | With no provider listed, the message has no "Rating:", so the widget shows no cards |
| RoundTrip.GateOpens | app/api/chat/route.ts:114-125 | With a provider listed, the message carries both "Rating:" and "Phone:" |
| RoundTrip.ParseRecommendation | app/api/chat/route.ts:114-125 | Round trip: the parse of the message is one card per listed provider with equal fields; the gate opens iff a provider is listed; the cards shown are the same |
| RoundTrip.RecommendationCards | app/api/chat/route.ts:102-125 | End to end: when the endpoint recommends, the cards shown are the selected providers in directory order, and there are cards iff some provider matches |

## Left out

- The calls to the language model are not modelled (`analyzeConversation`, the next-question completion and the client set-up). The analysis record is an input to `Route.Respond`, and the next question is represented by the stage it is asked for.
- HTTP plumbing is I/O and is not modelled: request and response JSON, `fetch`, and the 500 error response. On the widget side every failure of the request is the reply `None`, including a response without a `message`.
- `parseFloat` on the extracted rating is floating point. The card keeps the extracted rating text instead.
- React rendering, effects and scrolling are UI and are not modelled.
- The system prompt wording is prose for the language model and has no checkable behaviour.
- `toLowerCase` is modelled for ASCII letters only; other case mappings are not.
- The stage is a closed enumeration; a classifier answer outside the five stage names is not represented.
- Ratings are whole tenths, which covers the one-decimal ratings in the directory. JavaScript's printing of other numbers is not modelled.
- React state updates are modelled as plain field assignments. The await inside `handleSendMessage` is the split between `BeginSend` and `ReceiveReply`. Interleavings of several turns are not modelled, beyond the loading flag that blocks a second send.
- The page, navigation bar, hero and benefits sections are static markup and are not part of this model.
- RoundTrip.ParseRecommendation: requires the listed providers' fields to be trimmed and free of colons and newlines. The directory's fields are, by `RoundTrip.DirectoryWellFormed`.
