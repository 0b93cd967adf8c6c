# telegramkefu in Dafny

telegramkefu is a customer-service relay bot for Telegram. Users write to the bot. Each message
is copied to an admin chat under a headline that names the sender, with a button that blocks or
unblocks the sender. An admin answers by replying to that copy, and the bot pulls the user ID out
of the replied-to headline. Admins also have these commands:

- `/listblocked`: a paginated blocked list with unblock buttons;
- `/stats`: user statistics;
- a welcome editor (`/setwelcome`, `/setbuttons`), which stores the greeting text and a button
  spec that `/start` renders;
- a broadcast builder (`/broadcast`), a three-step draft of text, then media, then buttons,
  driven by inline buttons and ending in a fan-out to every known user.

This project models the dispatcher in `main.go`, the broadcast manager and the welcome manager.
The collaborators are abstract:

- Telegram is a `Transport` object that logs every call (send, delete, callback answer, command
  menu) and decides nondeterministically whether a send was delivered.
- Redis is a `KeyValueStore` object with the known-user set, the blocked set, the string keys and
  the per-user profile hashes. A store that is not `healthy` may fail any call.
- The `adminStates` map that the dispatcher and both managers share by reference is one
  `StateTable` object referenced by all three.

Modules, following the program's structure:

- `Text`: the Go string and number helpers the core relies on (`strings.Trim`, `TrimSpace`,
  `SplitN`, `Split`, `ReplaceAll`, `strconv.FormatInt`, `ParseInt`).
- `Buttons`: `ParseButtons`, which both managers define character for character alike; it is
  defined once here.
- `Telegram`: inbound updates, outgoing messages and the transport.
- `Store`: the key-value store.
- `States`: the state tags and the shared table.
- `Broadcast`: the builder manager, the button-spec validator and the fan-out.
- `Welcome`: the welcome manager.
- `Relay`: the pure parts of `main.go`: reply-ID extraction, reply content, callback decoding,
  paging, labels, MarkdownV2 escaping and the forwarded copies.
- `Bot`: the `BotInstance` handlers. Each handler's contract is a predicate over a `Snapshot`
  of all state taken before the call.

## Model

| member | source | states |
|---|---|---|
| Text.Trim | internal/broadcast/broadcasts.go:462-470 | the trimmed string neither starts nor ends with a cut character and is no longer than the input |
| Text.TrimFramed | internal/broadcast/broadcasts.go:462-470 | trimming a bare core framed by cut characters on both sides yields exactly that core, which characterises `strings.Trim` |
| Text.TrimBare | internal/broadcast/broadcasts.go:462-470 | a string with no cut character at either end is left unchanged |
| Text.TrimIdempotent | internal/broadcast/broadcasts.go:462-470 | trimming twice is trimming once |
| Text.IndexOf | internal/broadcast/broadcasts.go:466 | the index found holds the first occurrence of the character; there is none exactly when the character is absent |
| Text.IndexOfAfter | internal/broadcast/broadcasts.go:466 | in `a + [c] + b` with `c` not in `a`, the first `c` is at the length of `a` |
| Text.Cut | internal/broadcast/broadcasts.go:466-467 | `SplitN(s, sep, 2)` yields two parts exactly when `sep` occurs; the parts rebuild `s`, and the first part holds no `sep` |
| Text.CutAfter | internal/broadcast/broadcasts.go:466-467 | cutting `a + sep + b` with `sep` not in `a` gives back `(a, b)` |
| Text.Split | internal/broadcast/broadcasts.go:459 | `strings.Split` gives at least one part and no part holds the separator |
| Text.JoinSplit | internal/broadcast/broadcasts.go:459 | joining the parts of a split with the separator restores the string |
| Text.SplitJoin | internal/broadcast/broadcasts.go:459 | splitting the join of separator-free parts gives back the parts |
| Text.ReplaceAllAppend | main.go:443 | `strings.ReplaceAll` of one character distributes over concatenation |
| Text.DigitCharValue | main.go:165 | the digit character of `d` reads back as `d` |
| Text.NatToDecimal | main.go:469 | the decimal form of a natural number is a non-empty run of ASCII digits |
| Text.DecimalRoundTrip | main.go:165 | reading the decimal form of `n` gives back `n` |
| Text.ParseInt64 | main.go:165 | a successful `strconv.ParseInt(s, 10, 64)` gives a value in the signed 64-bit range |
| Text.ParseFormat | main.go:474-478 | `ParseInt` reads back every 64-bit value that `FormatInt` printed, which is how IDs travel through store keys and button payloads |
| Text.ParseFormatNegative | main.go:474-478 | the same round trip for the negative 64-bit values |
| Text.ParseFormatNatural | main.go:474-478 | the same round trip for the non-negative 64-bit values |
| Text.ParseDigits | main.go:163-167 | a run of digits parses to its decimal value when that value fits in 64 bits, and fails otherwise |
| Text.ParseIntValue | internal/broadcast/broadcasts.go:395 | the value `ParseInt` returns with its error dropped is a 64-bit integer and equals the parsed value whenever the parse succeeds |
| Text.ParseIntValueCases | internal/broadcast/broadcasts.go:395 | with its error dropped, a failed parse reads as 0 or as one of the two 64-bit bounds |
| Text.ParseIntValueClamps | main.go:273 | a run of digits too large for 64 bits fails to parse but is read as the largest int64, so the profile of that ID is looked up |
| Buttons.ParseLine | internal/broadcast/broadcasts.go:462-472 | a line yields a link button exactly when it contains the bar character |
| Buttons.LineButtons | internal/broadcast/broadcasts.go:462-472 | one input line contributes at most one button |
| Buttons.Collect | internal/broadcast/broadcasts.go:459-473 | the lines contribute at most one button each |
| Buttons.CollectAppend | internal/broadcast/broadcasts.go:459-473 | collecting the buttons of two blocks of lines is collecting each block in turn, so input order is kept |
| Buttons.Pack | internal/broadcast/broadcasts.go:477-484 | the rows flatten back to the buttons in order; there are ceil(n/2) rows of two, and the last row holds one button when n is odd |
| Buttons.PackRow | internal/broadcast/broadcasts.go:477-484 | row k holds buttons 2k and 2k+1 |
| Buttons.SpecLines | internal/welcome/welcome.go:139-166 | one spec line per button |
| Buttons.SpecLineRoundTrip | internal/broadcast/broadcasts.go:462-472 | the spec line (label, bar, URL) written for a button whose label and URL are bare parses back to that button |
| Buttons.CollectSpecLines | internal/broadcast/broadcasts.go:459-473 | the buttons collected from their own spec lines are the buttons, in order |
| Buttons.SerializeRoundTrip | internal/welcome/welcome.go:139-166 | a spec written from expressible buttons parses to exactly those buttons, two per row |
| Telegram.Successes | internal/broadcast/broadcasts.go:395-400 | a count of successes is at most the number of sends |
| Telegram.SuccessesConcat | internal/broadcast/broadcasts.go:395-400 | success counts add up over consecutive runs of sends |
| Store.ListingExists | internal/cache/redis.go:48-49 | every finite set has a duplicate-free listing, so `SMEMBERS` of the user set (and of the blocked set, redis.go:82-83) can always answer |
| States.TagsDisjoint | internal/welcome/welcome.go:14-17 | the welcome tags 20/21, the broadcast tags 10-12 and the idle tag 0 never coincide, so one map serves both flows |
| Broadcast.BuilderKeyboard | internal/broadcast/broadcasts.go:328-358 | the edit rows and the cancel row are always present; the preview and send rows are present exactly when the draft has text or media; cancel is last |
| Broadcast.Compose | internal/broadcast/broadcasts.go:408-455 | a message is produced exactly when the draft has content and a media kind, if any, is photo or video; it goes to the target, carries the marked text, and carries the buttons only when there is a row |
| Broadcast.Targets | internal/broadcast/broadcasts.go:392-399 | the fan-out never targets ID 0 and has at most one target per stored ID |
| Broadcast.TargetsComplete | internal/broadcast/broadcasts.go:393-398 | every stored ID that parses to a non-zero value is targeted |
| Broadcast.TargetsSound | internal/broadcast/broadcasts.go:393-398 | every target is the parsed value of some stored ID |
| Broadcast.Deliveries | internal/broadcast/broadcasts.go:392-405 | the fan-out sends at most one message per target |
| Broadcast.DeliveriesStep | internal/broadcast/broadcasts.go:392-405 | one more stored ID extends the fan-out by that ID's delivery only |
| Broadcast.Verdicts | internal/broadcast/broadcasts.go:222-245 | the validator judges each line on its own, in order |
| Broadcast.FirstFaultFromSpec | internal/broadcast/broadcasts.go:222-245 | from line i on, the search finds nothing exactly when every later line passes, and otherwise finds the first failing line with its fault |
| Broadcast.FirstFaultSpec | internal/broadcast/broadcasts.go:222-245 | a spec is refused exactly when one of its lines fails; the refusal names the first failing line, counted from 1 with blank lines included |
| Broadcast.ValidateButtonSpec | internal/broadcast/broadcasts.go:222-245 | the validator loop returns exactly the first fault of the spec |
| Broadcast.CollectChecked | internal/broadcast/broadcasts.go:458-485 | lines that all pass the validator give one vetted link button per non-blank line |
| Broadcast.CheckedLine | internal/broadcast/broadcasts.go:462-472 | a line that passes gives no button when blank and one vetted button otherwise |
| Broadcast.AcceptedSpec | internal/broadcast/broadcasts.go:246 | an accepted spec yields exactly one button per non-blank line, each with a label and an http(s) URL |
| Broadcast.Manager.StartBroadcastBuilder | internal/broadcast/broadcasts.go:51-62 | the chat's draft is reset to empty, its tag becomes 10, and the text prompt with the cancel button is sent |
| Broadcast.Manager.SendBuilderMenu | internal/broadcast/broadcasts.go:278-326 | the previous menu, if any, is deleted and a new one sent; the prompt ID is overwritten only when the send succeeded |
| Broadcast.Manager.SendComplexMessage | internal/broadcast/broadcasts.go:408-455 | the composed message, if any, is sent; success means exactly that send went out |
| Broadcast.Manager.SendPreview | internal/broadcast/broadcasts.go:360-373 | an empty draft is refused with a notice; otherwise a header and then the draft itself go to the admin |
| Broadcast.Manager.FanOut | internal/broadcast/broadcasts.go:392-405 | the loop sends the draft to every target in listing order; its count is the number of deliveries that succeeded, at most the number of targets |
| Broadcast.Manager.DeliverOne | internal/broadcast/broadcasts.go:393-404 | one loop step delivers to one stored ID, skipping ID 0, and counts one success at most |
| Broadcast.ReportBounded | internal/broadcast/broadcasts.go:392-402 | the count a fan-out reports never exceeds the number of targets, nor the number of stored IDs |
| Broadcast.Manager.ExecuteBroadcast | internal/broadcast/broadcasts.go:375-406 | an empty draft is refused; a failed user-list read can be reported only by a failing store, with nothing delivered; otherwise the draft goes to every non-zero parsed ID of a listing of the known users, in order, and the report's count is exactly the number of those sends that were delivered |
| Broadcast.Manager.HandleCallbackQuery | internal/broadcast/broadcasts.go:65-154 | non-builder payloads change nothing; every builder payload is acknowledged and makes the transition of the tag/draft/prompt table: set_* set 10/11/12; skip_media clears the media and sets 12; skip_buttons clears the buttons and sets 0; cancel and send set 0 and drop the draft and the prompt, send after running the broadcast as ExecuteBroadcast states, even on a refused draft |
| Broadcast.Manager.Perform | internal/broadcast/broadcasts.go:77-152 | the same transition table for one recognised action |
| Broadcast.Manager.AskFor | internal/broadcast/broadcasts.go:78-95 | set_text, set_media and set_buttons change only the tag and send the matching prompt |
| Broadcast.Manager.Skip | internal/broadcast/broadcasts.go:96-132 | the two skip actions follow the transition table |
| Broadcast.Manager.SkipMediaStep | internal/broadcast/broadcasts.go:96-112 | the media is cleared, the tag becomes 12, the press is answered and the buttons prompt is sent |
| Broadcast.Manager.SkipButtonsStep | internal/broadcast/broadcasts.go:124-132 | the buttons are cleared, the tag becomes 0 and the menu is re-sent with its prompt bookkeeping |
| Broadcast.Manager.Show | internal/broadcast/broadcasts.go:133-134 | preview changes no state and sends the preview; an unknown builder payload changes nothing |
| Broadcast.Manager.Close | internal/broadcast/broadcasts.go:135-151 | cancel and send end the session: tag 0, draft and prompt dropped, the menu deleted |
| Broadcast.Manager.CancelSession | internal/broadcast/broadcasts.go:135-143 | cancel ends the session and announces it |
| Broadcast.Manager.SendSession | internal/broadcast/broadcasts.go:144-151 | send runs the broadcast (every target reached, the delivered sends counted, as ExecuteBroadcast states), then ends the session and deletes the menu |
| Broadcast.Manager.HandleMessageInput | internal/broadcast/broadcasts.go:157-255 | it answers false exactly when the chat has no tag; tags other than 10-12 change nothing; each step accepts or refuses its input as the draft functions say, moving 10 to 11 to 12 to 0 on acceptance and leaving tag and draft unchanged on refusal, with the first faulty line reported |
| Broadcast.Manager.TakeText | internal/broadcast/broadcasts.go:169-188 | empty text is refused; otherwise only the text changes and the tag becomes 11 |
| Broadcast.Manager.TakeMedia | internal/broadcast/broadcasts.go:190-219 | the largest photo size wins over a video; anything else is refused; success changes only the media and sets 12 |
| Broadcast.Manager.TakeButtons | internal/broadcast/broadcasts.go:221-252 | a spec with a faulty line is refused naming that line; otherwise the buttons become the parsed spec, the tag becomes 0 and the menu is re-sent |
| Welcome.Fetched | internal/cache/redis.go:58-65 | a read fails or gives the stored value, with a missing key reading as empty |
| Welcome.GreetingShowsButtons | internal/welcome/welcome.go:41-58 | a stored spec written from buttons is shown on the greeting as exactly those buttons, two per row |
| Welcome.GreetingDropsBarless | internal/welcome/welcome.go:49-56 | a spec without any bar character attaches no keyboard: malformed lines are accepted at input and dropped at render |
| Welcome.SplitKeepsOut | internal/welcome/welcome.go:140 | a character absent from a text is absent from each of its lines |
| Welcome.CollectBarless | internal/welcome/welcome.go:139-166 | lines without a bar character give no buttons |
| Welcome.Current | internal/welcome/welcome.go:61-90 | the current value is shown as unreadable exactly when the read failed, as unset exactly when it is empty, and verbatim otherwise |
| Welcome.Manager.HandleStartCommand | internal/welcome/welcome.go:41-58 | one greeting is sent: the stored text when read and non-empty, else the default; the keyboard only when the spec was read, is non-empty and parses to a row |
| Welcome.Manager.StartSetWelcomeProcess | internal/welcome/welcome.go:61-73 | the chat's tag becomes 20 and no other entry changes; the current text is shown |
| Welcome.Manager.StartSetButtonsProcess | internal/welcome/welcome.go:76-90 | the chat's tag becomes 21 and no other entry changes; the current spec is shown |
| Welcome.Manager.HandleAdminMessageInput | internal/welcome/welcome.go:93-108 | it answers true exactly when the sender's tag (by user ID) is 20 or 21 and then saves the matching value; otherwise nothing changes |
| Welcome.Manager.HandleInput | internal/welcome/welcome.go:110-136 | the text is stored verbatim; on success the tag becomes 0, a confirmation and the greeting follow; on a failed save the tag is unchanged and the failure is reported |
| Welcome.SavedTextGreets | internal/welcome/welcome.go:110-122 | after a successful save of non-empty text, the greeting that follows shows exactly that text |
| Relay.DigitRun | main.go:161-170 | the run of digits at a position is maximal |
| Relay.MatchAt | main.go:161-170 | a match at a position is a non-empty run of digits |
| Relay.FirstMatch | main.go:161-170 | the match found is the leftmost `(digits)` in the text |
| Relay.DigitRunOf | main.go:161-170 | a digit run stops exactly where the digits do |
| Relay.ParenDigitsFinds | main.go:161-170 | after a prefix without `(`, the first `(digits)` is the one extracted |
| Relay.ReplyFindsUser | main.go:154-170 | a replied-to text naming `(n)` after a prefix without `(` is a reply to user n |
| Relay.ReplyPrefersText | main.go:156-159 | the caption is consulted only when the text is empty |
| Relay.ReplyWithoutMatch | main.go:161-170 | with no `(digits)` in text or caption the ID stays 0 |
| Relay.ReplyContentFirstKind | main.go:175-206 | the reply carries the first kind present among text, sticker, photo, video and document, and nothing when there is none |
| Relay.FormatHasNoUnderscore | main.go:374-375 | a formatted ID holds no `_`, so payloads split as intended |
| Relay.SplitTwo | main.go:374-375 | `head_tail` splits into two parts |
| Relay.SplitThree | main.go:397-398 | `a_b_c` splits into three parts |
| Relay.NumberOfPayload | main.go:374-378 | a two-part payload yields its number |
| Relay.DecodeUnblock | main.go:373-394 | an `unblock_` payload built from an ID decodes to unblocking that ID |
| Relay.DecodeBlock | main.go:410-429 | a `block_` payload built from an ID decodes to blocking that ID |
| Relay.NumberOfPagePayload | main.go:396-402 | a three-part page payload yields its number |
| Relay.DecodePage | main.go:396-408 | `page_prev_n` and `page_next_n` decode to page n |
| Relay.BuilderPayloadsDelegated | main.go:431-436 | every builder payload is passed on to the broadcast manager |
| Relay.Paging | main.go:257-267 | with n > 0 IDs there are ceil(n/10) pages; a page outside 1..total becomes 1; its slice holds 1 to 10 entries |
| Relay.DisplayNameCases | main.go:279-294 | the label is "@user (First Last)", or whichever of the two exists, or "Unknown", with the name trimmed and " - ID: <id>" always appended |
| Relay.NavRowSpec | main.go:313-324 | "prev" is present exactly when p > 1 and carries `page_prev_{p-1}`, "next" exactly when p < total and carries `page_next_{p+1}`; both decode to those pages |
| Relay.ListingSpec | main.go:251-330 | the page is the clamped one; entries are numbered from (p-1)*10+1; one unblock row per shown ID, plus the navigation row exactly when there is more than one page |
| Relay.ListingFrom | main.go:269-330 | the listing is the message assembled from its entries and rows |
| Relay.CountIn | main.go:440-446 | a count of reserved characters is at most the length |
| Relay.EscapeNothing | main.go:440-446 | escaping no character changes nothing |
| Relay.EscapeLength | main.go:440-446 | the escaped text is longer by the number of reserved characters |
| Relay.EscapeAppend | main.go:440-446 | escaping distributes over concatenation, so it is a per-character map |
| Relay.UnescapeEscape | main.go:440-446 | removing the escapes restores a text that has no backslash before a reserved character |
| Relay.ReplaceExtends | main.go:442-444 | one more `ReplaceAll` pass escapes one more character |
| Relay.EscapeMarkdownV2 | main.go:440-446 | the loop of `ReplaceAll` passes puts one backslash before each of the 18 reserved characters and changes nothing else |
| Relay.UnescapeAfterEscape | main.go:440-446 | unescaping an escaped prefix restores it and leaves the rest to be unescaped |
| Relay.EscapeUntouched | main.go:440-446 | a text without reserved characters is unchanged |
| Relay.ReservedFacts | main.go:441 | parentheses are reserved, the backslash and the digits are not |
| Relay.SenderLabelShown | main.go:468-469 | the headline's link label shows as "name (id)" |
| Relay.ExampleLabelShown | main.go:468-469 | the first name "(42)" of user 7 shows as "(42) (7)" |
| Relay.NameRedirectsReply | main.go:161-170 | a reply to that headline is addressed to user 42, not to the sender 7 |
| Relay.NameRedirectsAnyReply | main.go:161-170 | as written, any first name holding a `(n)` after a part without `(` makes replies to the relayed text go to user n |
| Relay.CaptionRepliesToSender | main.go:468-469 | with the corrected headline (the name without `(`), a reply through the text or the caption is addressed to the sender |
| Relay.CaptionLabelRepliesToSender | main.go:468-469 | starting from the label the corrected headline sends: for a name without a backslash it shows as the name without `(` and " (id)", and a reply through the text or the caption is addressed to the sender |
| Relay.ForwardKeyboardActsOnSender | main.go:471-479 | the block or unblock button under a forwarded message decodes to acting on its sender |
| Relay.CopiesUnder | main.go:481-525 | one or two copies are made, all for the admin chat |
| Relay.CopiesSpec | main.go:467-525 | the first kind present among text, photo, sticker, video and document is relayed; the last copy carries the sender's keyboard; media carry the headline as caption and the photo is the largest size; a sticker is followed by the headline; a text is the headline, a blank line and the escaped text, which is longer by the reserved characters and unescapes back to the text; with no kind, the unsupported note |
| Bot.Sends | main.go:481-525 | one send per copy, in order |
| Bot.ReplyActsSpec | main.go:172-211 | the reply path tells the admin chat exactly one thing last; it sends a copy exactly when an ID was found and the message has content, and that copy goes to the named user |
| Bot.ReplyToRelayedReachesSender | main.go:150-211 | the corrected half of the finding: a reply to a copy under the corrected headline reaches the user who wrote the original |
| Bot.PageProfiles | main.go:269-296 | one profile per shown ID |
| Bot.BlockedUserOnlyNotified | main.go:450-459 | a blocked user gets at most the blocked notice, in their own chat, and nothing else |
| Bot.RelayedToAdmin | main.go:467-528 | a user's message is copied to the admin chat under the headline as written, first kind first; the last copy carries the button that blocks its sender; the sender is acknowledged last |
| Bot.BotInstance.HandleUpdate | main.go:112-132 | a message records its sender's profile and, unless blocked, the sender as known, then is dispatched; a button press goes to the callback handler; other updates change nothing |
| Bot.BotInstance.RecordSender | main.go:117-127 | the profile is stored and the sender joins the known set unless blocked; nothing else changes |
| Bot.BotInstance.HandleMessage | main.go:140-146 | admins take the admin path and everyone else the user path; known users and profiles are untouched |
| Bot.BotInstance.HandleAdminMessage | main.go:148-238 | a reply in the admin chat takes only the reply path; otherwise a command runs or the input goes to the editors |
| Bot.BotInstance.ReplyToUser | main.go:150-212 | the reply path sends the acts of ReplyActs and changes no state |
| Bot.BotInstance.RunCommand | main.go:214-237 | each command does its own thing: /start greets, /setwelcome and /setbuttons open the editors, /broadcast starts the builder, /listblocked shows page 1, /stats counts; others go to the editors |
| Bot.BotInstance.Greet | main.go:461-465 | /start sets the command menu, then sends the greeting |
| Bot.BotInstance.HandleAdminStatefulMessage | main.go:358-369 | the welcome editor is tried first by sender ID, and the broadcast builder only when welcome declines |
| Bot.BotInstance.ListBlocked | main.go:241-331 | exactly one message is sent: a failure notice, the "no blocked users" notice for an empty list, or, with a store that answers, the page of some listing of the blocked set |
| Bot.BotInstance.PageMessage | main.go:257-330 | with a store that answers, the page message is ListReply of the listing and the stored profiles |
| Bot.BotInstance.PageEntries | main.go:269-296 | the loop numbers the entries consecutively from start+1 and labels each with the stored profile of its ID |
| Bot.BotInstance.UnblockRows | main.go:298-311 | the loop builds one unblock row per shown ID, with the label from the stored profile |
| Bot.NavButtons | main.go:313-324 | the page row built button by button is NavRow and is non-empty |
| Bot.BotInstance.UserStats | main.go:334-355 | with a store that answers, the counts of known, active and blocked users are reported |
| Bot.BotInstance.HandleCallbackQuery | main.go:372-437 | each press is served by what its payload decodes to; a malformed payload changes nothing and is not answered |
| Bot.BotInstance.UnblockUser | main.go:373-394 | the user leaves the blocked set, the press is answered and page 1 is re-sent; a failing store sends nothing |
| Bot.BotInstance.TurnPage | main.go:396-408 | the requested page is sent, then the press is answered |
| Bot.BotInstance.BlockUser | main.go:410-429 | the user joins the blocked set and the press is answered; a failing store sends nothing |
| Bot.BotInstance.PassOn | main.go:431-436 | builder payloads make the builder's transition; anything else is answered silently and changes nothing |
| Bot.BotInstance.HandleUserMessage | main.go:449-534 | a blocked user gets only the blocked notice; a failing check ends silently; anyone else is greeted on /start or relayed to the admin chat, or told that no admin is reachable |
| Bot.BotInstance.GreetUser | main.go:461-465 | /start from a user sets the command menu and greets |
| Bot.BotInstance.SendCopies | main.go:481-525 | every copy is sent, in order |
| Bot.BotInstance.RouteUserMessage | main.go:467-533 | the copies go to the admin chat, then the sender is acknowledged; with no admin chat the sender is told so |

## Left out

- Logging (`log.Printf`) is not modelled.
- The broadcast goroutine runs to completion before the callback handler goes on, so the model
  does not interleave it with later updates.
- `NewBotInstance` (environment and admin-ID parsing), `Run` and `main` are not modelled.
- `setCommandsForUser` is one `SetCommandMenu` act. Its command lists are not modelled.
- The Telegram API is the `Transport` log. The model does not render Markdown or parse modes.
  `Relay.VisibleHeadline` states what a client shows of a MarkdownV2 link label: the label with
  its escapes removed.
- Fixed Chinese texts are `Notice` tags. Only texts built from input keep their literal form: the
  relay headline, the list labels and the broadcast marker.
- A save failure's `%v` error text is not modelled.
- Redis set listings come back in an arbitrary order. Any duplicate-free listing is allowed.
- A message without `From`, and a callback without `Message`, are not modelled. The source
  dereferences both unguarded in places.
- Commands come from a `command` field that the transport fills. `IsCommand` parsing is not
  modelled.
- The regex `\((\d+)\)` is a direct scan for the leftmost `(` + ASCII digits + `)`, which is
  what Go's RE2 `\d` matches. `strings.TrimSpace` trims a fixed set of white-space characters;
  Unicode white space beyond that set is not modelled.
- Bot.BotInstance.ListBlocked: with a store that may fail, only the shape of the message is
  stated, not its entries. Profile reads may fail one by one there.
- Bot.BotInstance.HandleAdminStatefulMessage: for a broadcast tag, the contract does not restate
  the builder's own contract. That contract is `Broadcast.Manager.HandleMessageInput`.
- Bot.BotInstance.PassOn: builder payloads are stated by their tag and draft transitions. The
  acknowledgement and prompt details are in `Broadcast.Manager.HandleCallbackQuery`.

## Findings

| source | as written | input that shows it | evidently intended | confidence | as-written member | corrected member |
|---|---|---|---|---|---|---|
| main.go:468-469 with main.go:161-170 | the relay headline puts the sender's escaped first name before "(id)", and the reply path takes the leftmost `(digits)` in the headline the admin sees | a user with ID 7 and first name "(42)" writes "hi"; the admin sees "(42) (7)" and replies; the reply goes to user 42 | a reply to a relayed message goes to the user who wrote it | not executed | Relay.NameRedirectsReply and Relay.NameRedirectsAnyReply (over Relay.CaptionAsWritten, which Relay.ForwardCopies and the dispatcher use) | Relay.CaptionRepliesToSender, Relay.CaptionLabelRepliesToSender and Bot.ReplyToRelayedReachesSender (the headline `Relay.Caption` drops `(` from the name; Relay.ForwardCopiesCorrected sends it) |
