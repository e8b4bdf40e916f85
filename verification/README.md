# Abisam Properties chat widget, in Dafny

This project models the chat assistant of the Abisam Properties website, a
real-estate agency site for Abeokuta. The assistant lives in
`components/ChatInterface.tsx`. It shows a conversation and sends the user's
message with the history to a language model. It streams the reply into a
reserved message slot. It cleans each partial reply before it is shown. It
attaches the listing named by the first `[PROP:<id>]` token of the reply.
It decides when to offer the WhatsApp hand-off. The listing catalog and the
agency's phone number (`constants.tsx`) and the record shapes (`types.ts`)
are modelled too.

The assistant's replies name listings with `[PROP:<digits>]` tokens
(components/ChatInterface.tsx:32, 41): they are removed from the shown text,
and the first one selects the listing card attached to the reply.

Modules, one file each:

- `wrappers.dfy`, module `Wrappers`: `Option`.
- `catalog.dfy`, module `Catalog`: the `Property` record, the four mock
  listings, the phone number, and lookup by id (`Array.prototype.find`).
- `prop_token.dfy`, module `PropToken`: the pattern `/\[PROP:\d+\]/` as a
  matcher on text positions, proved equal to the language of the pattern.
- `token_lookup.dfy`, module `TokenLookup`: `findPropertyFromToken`. This is
  the first match of the pattern, its digit group, and the listing with that
  id.
- `text_cleaning.dfy`, module `TextCleaning`: `cleanTextOutput`. It has
  four stages, each a left-to-right scan as a global `replace` does: token
  removal, deletion of markdown characters, collapsing runs of three or more
  line feeds to two, and JavaScript `trim`.
- `chat_widget.dfy`, module `ChatWidget`: the widget as a class. Its fields
  are the message list, the input, the typing indicator and the hand-off
  flag. Its methods are the mount-time greeting, `onChange`, `handleSend`
  (with its streaming loop) and the reset button.

The stream from the model is a parameter of `Send`: the chunks it delivers,
and a flag `fails` saying whether an error follows them. An error thrown
before any chunk is `chunks == []` with `fails`. The three clock readings
(`Date.now()` for the user message id, the assistant slot id and the error
message id) are parameters too. As written, a stream that ends without any
chunk and without an error leaves the typing indicator on. Every later send
is then ignored. The model keeps this behaviour: `Send` ensures
`isTyping == (chunks == [] && !fails)`.

Some JavaScript semantics are written out explicitly:

- `length` counts UTF-16 code units (`Utf16Length`).
- `\d` matches ASCII digits only.
- `trim` removes the ECMAScript white-space and line-terminator characters
  (`IsJsWhitespace`).
- `toLowerCase` is modelled on ASCII letters. Outside ASCII, the only
  characters that lower-case to ASCII letters are the Kelvin sign (to `k`)
  and the dotted capital I (to `i` plus a combining dot). Neither letter
  occurs in "whatsapp", so the check `includes('whatsapp')` decides the same.
- `messages.length > 2` on line 108 reads the list as it was when the send
  began, so the model uses `old(messages)`.

## Model

| member | source | states |
|---|---|---|
| Catalog.FindById | components/ChatInterface.tsx:44 | `None` exactly when no listing has the id. Otherwise the result has that id, is in the table, and no earlier listing has the id. |
| Catalog.IdsDistinct | constants.tsx:5-50 | The four mock listings have pairwise distinct ids. |
| Catalog.FindByIdFunctional | components/ChatInterface.tsx:44 | In a table with distinct ids, looking up a listing's id gives back that listing. |
| Catalog.CatalogLookup | constants.tsx:5-50 | Every mock listing is found by its own id. |
| Catalog.DocumentsNonEmpty | constants.tsx:5-50 | Every listing names at least one title document. |
| Catalog.SingleLand | constants.tsx:5-50 | A listing is land exactly when its id is "4", and such a listing exists. |
| Catalog.RoomCounts | constants.tsx:5-50 | Listings "1" and "3" give bedrooms and bathrooms, equal (3 and 4). Listings "2" and "4" give neither. |
| Catalog.PriceRange | constants.tsx:5-50 | Prices lie in [150000, 45000000]. The minimum is reached only by listing "2" and the maximum only by listing "3". |
| Catalog.PhoneIsDigits | constants.tsx:52 | The WhatsApp number is a non-empty string of decimal digits. |
| PropToken.Token | components/ChatInterface.tsx:32 | "[PROP:" + digits + "]" is in the pattern's language, starts with '[', and is 7 longer than the digits. |
| PropToken.DigitsAt | components/ChatInterface.tsx:41 | `\d+` at a position: every counted character is a digit, and the run is maximal. |
| PropToken.DigitsAtRun | components/ChatInterface.tsx:41 | Any maximal digit run is exactly what `DigitsAt` counts. |
| PropToken.MatchAt | components/ChatInterface.tsx:41 | A match length is 0 or at least 8, and a match stays inside the text. |
| PropToken.MatchAtIsToken | components/ChatInterface.tsx:41 | Soundness: every match is a word of the pattern's language. |
| PropToken.MatchAtComplete | components/ChatInterface.tsx:41 | Completeness: every token of the language that starts at a position is the match found there. |
| PropToken.NoInnerBracket | components/ChatInterface.tsx:41 | A match holds no '[' after its first character. |
| PropToken.MatchAtExtend | components/ChatInterface.tsx:93 | Appending text keeps a match, with the same length. |
| PropToken.MatchAtWithin | components/ChatInterface.tsx:93 | A match of `s + t` that ends within `s` is a match of `s`. |
| PropToken.NoMatchStaysBeforeMatch | components/ChatInterface.tsx:93 | Appending text cannot create a match before an existing one. |
| TokenLookup.FirstMatchFrom | components/ChatInterface.tsx:41 | The search finds the first position from `i` where a token starts, or reports that none does. |
| TokenLookup.FirstMatch | components/ChatInterface.tsx:41 | `match` gives the leftmost token, or `None` exactly when no token occurs. |
| TokenLookup.TokenDigits | components/ChatInterface.tsx:43 | The capture group is a non-empty digit string, and the token is "[PROP:" + group + "]". |
| TokenLookup.FindPropertyFromToken | components/ChatInterface.tsx:40-47 | The result is the catalog lookup of the first token's digits. It is `None` when there is no token, and any listing found comes from the catalog. |
| TokenLookup.FirstTokenUnique | components/ChatInterface.tsx:41 | At most one position holds the leftmost token. |
| TokenLookup.FirstMatchExtend | components/ChatInterface.tsx:91-93 | As the text grows, the leftmost token stays at the same position with the same digits. |
| TokenLookup.FoundPropertyIsStable | components/ChatInterface.tsx:91-100 | A listing found in the streamed text so far is found again in every longer text. |
| TextCleaning.StripTokens | components/ChatInterface.tsx:32 | Token removal never lengthens the text. Its meaning is given by the lemmas below. |
| TextCleaning.StripTokensKeepsOrder | components/ChatInterface.tsx:32 | What token removal keeps is a subsequence of the input. |
| TextCleaning.TokenCharsOnly | components/ChatInterface.tsx:32 | A token holds no character outside "[PROP:]" and the digits. |
| TextCleaning.StripTokensKeepsOtherChars | components/ChatInterface.tsx:32 | Each character that cannot be part of a token is kept as often as it occurs. |
| TextCleaning.LeadingTokenChars | components/ChatInterface.tsx:32 | A leading token is dropped whole, and it held none of those characters. |
| TextCleaning.StripTokensKeepsFirst | components/ChatInterface.tsx:32 | Scan-step equation: where no token starts, the character is kept and the scan moves on by one. |
| TextCleaning.StripTokensNoBracket | components/ChatInterface.tsx:32 | Text without '[' passes through unchanged, and the scan continues after it. |
| TextCleaning.StripTokensDropsToken | components/ChatInterface.tsx:32 | A token at the front is removed, whatever follows it. |
| TextCleaning.OpenThenBracketNoMatch | components/ChatInterface.tsx:32 | "[PROP:" followed by '[' starts no token. |
| TextCleaning.StripTokensAfterOpenHead | components/ChatInterface.tsx:32 | "PROP:" followed by any text: the "PROP:" is kept. |
| TextCleaning.StripTokensOpenThenBracket | components/ChatInterface.tsx:32 | "[PROP:" followed by text that starts with '[' is kept, and the scan resumes at that '['. |
| TextCleaning.StripTokensSinglePass | components/ChatInterface.tsx:32 | Removal is a single pass, not idempotent: "[PROP:" + token(d) + d + "]" becomes token(d). |
| TextCleaning.Without | components/ChatInterface.tsx:34 | Every character of the result is in the input and is not a deleted character. |
| TextCleaning.WithoutAppend | components/ChatInterface.tsx:34 | Deletion distributes over concatenation. |
| TextCleaning.WithoutHead | components/ChatInterface.tsx:34 | Scan-step equation: deletion handles the first character alone and then the rest. |
| TextCleaning.WithoutNothingToDelete | components/ChatInterface.tsx:34 | Text without a deleted character is unchanged. |
| TextCleaning.WithoutKeepsOrder | components/ChatInterface.tsx:34 | What deletion keeps is a subsequence of the input. |
| TextCleaning.NewlineRun | components/ChatInterface.tsx:36 | The length of the maximal run of line feeds at the front. |
| TextCleaning.NoTripleCons | components/ChatInterface.tsx:36 | Putting a character in front keeps the text free of three line feeds in a row, unless it extends a run of two. |
| TextCleaning.CollapseNewlines | components/ChatInterface.tsx:36 | The result never holds three line feeds in a row. A leading run of three or more becomes exactly two, and a shorter one is kept. |
| TextCleaning.LongRunIsTriple | components/ChatInterface.tsx:36 | Unfolding step: a run of at least three line feeds starts with three line feeds. |
| TextCleaning.CollapseNothingToCollapse | components/ChatInterface.tsx:36 | Text without three line feeds in a row is unchanged. |
| TextCleaning.CollapseKeepsOrder | components/ChatInterface.tsx:36 | The result is a subsequence of the input. |
| TextCleaning.TwoOfRun | components/ChatInterface.tsx:36 | Two line feeds of a long run, followed by a subsequence of what comes after the run, form a subsequence. |
| TextCleaning.CollapseOnlyRemovesNewlines | components/ChatInterface.tsx:36 | Only line feeds are removed: with line feeds deleted, input and output are equal. |
| TextCleaning.CollapseLongRun | components/ChatInterface.tsx:36 | A long run, and the two line feeds that replace it, both vanish when line feeds are deleted. |
| TextCleaning.LeadingNewlinesVanish | components/ChatInterface.tsx:36 | Leading line feeds vanish when line feeds are deleted. |
| TextCleaning.CollapseShortRun | components/ChatInterface.tsx:36 | Outside a long run, input and output start with the same character and continue alike. |
| TextCleaning.CollapseStep | components/ChatInterface.tsx:36 | Scan-step equation: a long run is replaced by two line feeds; otherwise one character is kept. |
| TextCleaning.NewlinesThenRest | components/ChatInterface.tsx:36 | Line feeds in front of a text vanish when line feeds are deleted. |
| TextCleaning.WithoutNewlineRun | components/ChatInterface.tsx:36 | A text of line feeds alone vanishes when line feeds are deleted. |
| TextCleaning.NewlineRunIs | components/ChatInterface.tsx:36 | `n` line feeds followed by another character make a leading run of exactly `n`. |
| TextCleaning.NewlineRunAppend | components/ChatInterface.tsx:36 | Text that does not end with a line feed keeps its leading run when more text follows. |
| TextCleaning.CollapseAppend | components/ChatInterface.tsx:36 | The replace works piece by piece: text that does not end with a line feed, and what follows it, are collapsed independently. |
| TextCleaning.CollapseAppendLong | components/ChatInterface.tsx:36 | Scan-step equation: collapsing distributes over an append when the text starts with a long run. |
| TextCleaning.CollapseAppendShort | components/ChatInterface.tsx:36 | Scan-step equation: collapsing distributes over an append when the text starts with a kept character. |
| TextCleaning.Newlines | components/ChatInterface.tsx:36 | A run of exactly `k` line feeds. |
| TextCleaning.CollapseShortRunKept | components/ChatInterface.tsx:36 | A run of one or two line feeds before other text is kept as it is. |
| TextCleaning.CollapseLongRunToTwo | components/ChatInterface.tsx:36 | A run of three or more line feeds before other text becomes exactly two. |
| TextCleaning.CollapseInteriorRun | components/ChatInterface.tsx:36 | Every run of line feeds, wherever it stands, becomes two when it has three or more and is kept otherwise. The text around it is collapsed on its own. |
| TextCleaning.TrimStart | components/ChatInterface.tsx:37 | Everything removed is white space, and the result is empty or starts with a non-space. |
| TextCleaning.TrimEnd | components/ChatInterface.tsx:37 | The result is a prefix of the input. Everything removed is white space, and the result is empty or ends with a non-space. |
| TextCleaning.TrimEmptyIffBlank | components/ChatInterface.tsx:50 | `trim` leaves nothing exactly when every character is white space. |
| TextCleaning.Trim | components/ChatInterface.tsx:37 | The result is empty or starts and ends with a non-space. |
| TextCleaning.TrimStartIsSuffix | components/ChatInterface.tsx:37 | The leading trim keeps a suffix of the input. |
| TextCleaning.TrimIsSlice | components/ChatInterface.tsx:37 | `trim` keeps the slice of the input that starts after the leading white space. |
| TextCleaning.TrimNothingToTrim | components/ChatInterface.tsx:37 | Text that neither starts nor ends with white space is unchanged. |
| TextCleaning.TrimKeepsOrder | components/ChatInterface.tsx:37 | What trim keeps is a subsequence of the input. |
| TextCleaning.TrimKeepsNoTriple | components/ChatInterface.tsx:37 | Trim creates no run of three line feeds. |
| TextCleaning.CleanText | components/ChatInterface.tsx:30-38 | The shown text neither starts nor ends with white space. Its other properties are the four `CleanText` lemmas below. |
| TextCleaning.CleanTextHasNoMarkdown | components/ChatInterface.tsx:30-38 | The shown text holds none of the markdown characters: asterisk, hash, underscore, tilde, backquote, greater-than and vertical bar. |
| TextCleaning.CleanTextHasNoTripleNewline | components/ChatInterface.tsx:30-38 | The shown text never holds three line feeds in a row. |
| TextCleaning.CleanTextKeepsOrder | components/ChatInterface.tsx:30-38 | Everything shown comes from the streamed text, in its order. |
| TextCleaning.CleanTextKeepsCleanText | components/ChatInterface.tsx:30-38 | Text that is already clean and has no '[' is shown unchanged. |
| ChatWidget.DecimalString | components/ChatInterface.tsx:69 | `toString` of a number is a non-empty digit string, one digit long exactly below 10. |
| ChatWidget.NumeralIsNotInit | components/ChatInterface.tsx:69 | The assistant slot id is never "init", the greeting's id. |
| ChatWidget.ToHistory | components/ChatInterface.tsx:63-66 | One history entry per message, in order, with the role mapped and the text as the single part. |
| ChatWidget.HistoryMarksUserTurns | components/ChatInterface.tsx:64-65 | An entry is "user" exactly for user messages and "model" exactly for assistant messages. |
| ChatWidget.HistoryAppend | components/ChatInterface.tsx:63 | The history of a concatenation is the concatenation of the histories. |
| ChatWidget.ConcatStep | components/ChatInterface.tsx:91 | Each chunk is appended to the full text in turn. |
| ChatWidget.ConcatPrefix | components/ChatInterface.tsx:91 | The full text only grows: after `i` chunks it is a prefix of the text after any later chunk. |
| ChatWidget.Concat | components/ChatInterface.tsx:91 | The full text is empty exactly when every chunk is empty. |
| ChatWidget.Utf16Length | components/ChatInterface.tsx:105 | `length` lies between the number of characters and twice that number. |
| ChatWidget.Utf16LengthAppend | components/ChatInterface.tsx:105 | `length` adds up over concatenation, so it never shrinks as chunks arrive. |
| ChatWidget.AsciiLower | components/ChatInterface.tsx:108 | Lower-casing keeps the length and maps each character on its own. |
| ChatWidget.ContainsAt | components/ChatInterface.tsx:108 | An occurrence of the word at some position makes `includes` hold. |
| ChatWidget.ContainsOccurs | components/ChatInterface.tsx:108 | Conversely, when `includes` holds the word occurs at some position. |
| ChatWidget.ContainsIff | components/ChatInterface.tsx:108 | `includes` holds exactly when the word occurs at some position. |
| ChatWidget.Contains | components/ChatInterface.tsx:108 | `includes` only succeeds when the word fits in the text; its exact meaning is `ContainsIff`. |
| ChatWidget.ContainsAppend | components/ChatInterface.tsx:108 | Once the text contains the word, every longer text does. |
| ChatWidget.MentionsWhatsApp | components/ChatInterface.tsx:108 | Holds exactly when "whatsapp" stands at some position of the lower-cased full text. |
| ChatWidget.StreamUpdate | components/ChatInterface.tsx:95-103 | The update keeps the number of messages. |
| ChatWidget.Attach | components/ChatInterface.tsx:100 | A listing found now is attached; otherwise the message keeps the listing it had. The result has a listing exactly when either side has one. |
| ChatWidget.StreamUpdateAt | components/ChatInterface.tsx:95-103 | Only messages with the assistant id are rewritten, with the new text and the found listing, or the listing they had when none is found. Every other message is unchanged. |
| ChatWidget.StreamUpdateOverwrites | components/ChatInterface.tsx:95-103 | A later update overwrites an earlier one when it keeps the listing the earlier one attached. |
| ChatWidget.StreamedStep | components/ChatInterface.tsx:84-103 | One loop turn: the text grows by the chunk, and the messages get one update. |
| ChatWidget.Streamed | components/ChatInterface.tsx:84-103 | However many chunks arrive, the list keeps its length, and every message with another id is left as it was. |
| ChatWidget.StreamedIsLastUpdate | components/ChatInterface.tsx:84-106 | After one or more chunks, the messages are one update with the whole text (the found listing is sticky). With no chunks the messages are unchanged (`NothingStreamed`). |
| ChatWidget.StreamedSticky | components/ChatInterface.tsx:91-100 | Once a reply that had no listing has one attached, every later chunk leaves that same listing attached. |
| ChatWidget.UpdateSlot | components/ChatInterface.tsx:73-103 | When the empty slot is the only message with its id, the update fills it and changes nothing before it. |
| ChatWidget.StreamedReply | components/ChatInterface.tsx:73-106 | Streaming rewrites only the reply slot. It gets the cleaned full text and the listing of the full text's first token. |
| ChatWidget.IsBlank | components/ChatInterface.tsx:50 | `!input.trim()` holds exactly when every character of the input is white space. |
| ChatWidget.NothingStreamed | components/ChatInterface.tsx:70-82 | Unfolding step: before the first chunk, the text is empty and the messages are unchanged. |
| ChatWidget.StreamUpdateKeepsHead | components/ChatInterface.tsx:95-103 | Unfolding step: an update leaves a first message with another id unchanged. |
| ChatWidget.Widget.constructor | components/ChatInterface.tsx:9-22 | After mount: only the greeting with id "init", empty input, no indicator, no hand-off. |
| ChatWidget.Widget.SetInput | components/ChatInterface.tsx:236 | Typing sets the input and changes nothing else; the greeting stays first. |
| ChatWidget.Widget.Send | components/ChatInterface.tsx:49-123 | With blank input, or while the typing indicator is on, nothing changes and no history is sent. Otherwise: the history is the old messages plus the user message. The input is cleared. The messages are the old ones, the user message and the streamed reply slot, then the error message if the stream fails. The indicator is on only if nothing arrived and nothing failed. The hand-off is on if it was on, the stream failed, the text is longer than 40, the text mentions WhatsApp, or more than two messages came before. The greeting stays first. |
| ChatWidget.Widget.StreamReply | components/ChatInterface.tsx:82-106 | The loop yields the concatenated chunks and the messages after one update per chunk. The indicator goes off once a chunk arrives. The hand-off is on if it was on or the text is longer than 40. The input is kept. |
| ChatWidget.Widget.Reset | components/ChatInterface.tsx:171 | Only the first message (the greeting) remains, and the hand-off is hidden. |

## Left out

- `handleWhatsAppHandoff` (components/ChatInterface.tsx:125-141) is left out. It asks the language model for a lead summary and opens a browser window: a foreign call and I/O.
- The language model service (`services/geminiService.ts`) is left out. The stream it returns is the `chunks`/`fails` parameter of `Send`.
- `services/leadService.ts`, the spreadsheet script and the test scripts are not part of this model.
- Rendering, scrolling (components/ChatInterface.tsx:24-28) and the other presentational components are left out.
- Message timestamps, `console.error`, and the display strings of the location and type enums are left out. They decide nothing in the core.
- The render before the mount effect, when the message list is still empty, is left out. The widget starts after mount (`Valid` keeps the greeting first). A reset in that window would index an empty list.
- React's asynchronous state updates are left out. Each update is applied at once, in program order. Two sends that start before a re-render (both reading a stale `isTyping == false`) are not modelled.
- ChatWidget.Widget.Send: folds the whole stream into one step. The indicator goes off at the first chunk (line 86), so the source lets a second send start while the first stream still runs, and the reset button (line 171) has no guard at all. Sends made after the first chunk, and resets made at any point during a stream, are not interleaved with that stream. Such a reset loses the remaining chunks (no slot matches the reply id), and lines 105 and 108 or the error path can turn the hand-off back on or append the error message after the greeting alone; the model does not capture these outcomes.
- `showHandoff` on line 105 reads the value from the start of the send. The model reads the current field. The outcome is the same, since the flag is only ever set to true there.
- `Send` and `StreamReply` pass `catalog`. It is a constant field equal to `MockProperties`, so the lookup lemmas work for any catalog.
- ChatWidget.AsciiLower: lower-cases ASCII letters only. This decides the "whatsapp" check exactly, but it is not full Unicode lower-casing.
- TextCleaning.StripTokens: its own contract gives only the length bound. What it keeps and removes is stated by the lemmas listed with it.
- ChatWidget.StreamUpdate: its own contract gives only the length. Which messages change is stated by `StreamUpdateAt`.
