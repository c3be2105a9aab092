# EVICHAIN evidence vault: a Dafny model of its core

EVICHAIN is a browser front end for handling digital evidence. It has a
terminal-style chatbot that takes text commands, a mock "blockchain" hash
utility, a QR-code generator and access checker, an evidence management panel
with a custody history, an evidence upload form, and a landing page that
switches between a login form and the evidence panel. This project models
those parts in Dafny and proves what they do.

- `JsText` (`js_text.dfy`) holds the JavaScript string and number built-ins the
  core relies on:
  - `trim`, ASCII `toLowerCase`, `split(' ')` and joining;
  - `substr`, `padStart` and `Number.prototype.toString(radix)`;
  - UTF-16 code units.
  Each comes with the facts the rest of the model uses, such as
  `Join(Split(s)) == s` and the digits of a number reading back to that
  number.
- `BlockchainUtils` models the rolling hash of `generateBlockchainHash`:
  - The hash is kept to 32 bits exactly as JavaScript's `<<` and `&` keep it.
  - The loop, written as in the source, is proved equal to a recursive
    definition.
  - The formatting is modelled, along with `verifyHashIntegrity` and the
    record `generateQRCodeData` serialises.
  - A generated hash is always 66 characters long and starts with `00`.
    `verifyHashIntegrity` therefore rejects every hash that
    `generateBlockchainHash` produces (`BlockchainHash` formats it that way,
    and `BlockchainHashRejected` proves it). Nothing in the core calls
    `verifyHashIntegrity`, so the model keeps the hash as written.
- `TerminalDialogue` is the chatbot's dialogue as pure functions:
  - which command a line names;
  - the invariant of the multi-step command record;
  - the lines each reply reveals;
  - the reaction to one submitted line and to a run of lines.
  Lemmas state the command flows end to end. `TerminalChatbot` is the
  component itself: a class whose handlers update the transcript, the input
  box, the typing flag, the command record and the close request. Each
  handler is proved to do what `TerminalDialogue` says.
- `QRScanner`, `EvidenceManagement`, `FileUploadEvidence` and `IndexPage` are
  the other components. Each is a class whose methods are the component's
  handlers. Each handler's result, or the state it leaves, is tied to pure
  functions about which lemmas are proved.
- `Notifications` holds the toast and notification records the handlers
  return instead of calling the toast hook and `onNotification`.

The transcript is not append-only. `typeMessage` (src/components/TerminalChatbot.tsx:61-82)
reveals each line by replacing the last transcript entry
(`prev.slice(0, -1)`), and the final text replaces it again. A reply of
several lines therefore leaves only its last line, written over the echo of
the user's input. The model follows the code:
- `PlayedLast` and `SubmissionLeavesLastLine` prove that a submission leaves
  the earlier transcript followed by the reply's last line;
- `Chatbot.Submit` proves that the transcript grows by exactly one entry.

Clock readings, `Math.random()` values and the ids built from them are method
parameters. Toasts and notifications are returned as out-parameters, in call
order.

## Model

| member | source | states |
|---|---|---|
| JsText.IsJsWhitespace | src/components/TerminalChatbot.tsx:104 | the characters `trim` removes: the ECMAScript WhiteSpace and LineTerminator characters |
| JsText.AllWhitespace | src/components/TerminalChatbot.tsx:280 | a text made only of those characters, i.e. one that `trim()` empties |
| JsText.TrimStart | src/components/TerminalChatbot.tsx:104 | drops the leading whitespace |
| JsText.TrimEnd | src/components/TerminalChatbot.tsx:104 | drops the trailing whitespace |
| JsText.Trim | src/components/TerminalChatbot.tsx:104 | `trim()`: both ends stripped |
| JsText.TrimStartFacts | src/components/TerminalChatbot.tsx:104 | stripping leading whitespace yields a suffix of the text that does not start with whitespace, with only whitespace removed |
| JsText.TrimEndFacts | src/components/TerminalChatbot.tsx:104 | stripping trailing whitespace yields a prefix of the text that does not end with whitespace, with only whitespace removed |
| JsText.TrimFacts | src/components/TerminalChatbot.tsx:280 | `trim()` is empty exactly when the text is all whitespace; otherwise it neither starts nor ends with whitespace; it is never longer than the text |
| JsText.TrimStartSkips | src/components/TerminalChatbot.tsx:104 | any run of leading whitespace is skipped entirely |
| JsText.TrimEndSkips | src/components/TerminalChatbot.tsx:104 | any run of trailing whitespace is skipped entirely |
| JsText.TrimAround | src/components/TerminalChatbot.tsx:104 | trimming a text surrounded by whitespace, which itself neither starts nor ends with whitespace, gives that text back |
| JsText.ToLowerChar | src/components/TerminalChatbot.tsx:104 | an ASCII capital maps to its own small letter, 32 code points on; every other character is unchanged |
| JsText.ToLower | src/components/TerminalChatbot.tsx:104 | `toLowerCase()`, applied character by character |
| JsText.ToLowerFacts | src/components/TerminalChatbot.tsx:104 | `toLowerCase()` keeps the length and maps each character on its own |
| JsText.ToLowerAppend | src/components/TerminalChatbot.tsx:104 | lower-casing a concatenation lower-cases each part |
| JsText.ToLowerKeepsWhitespace | src/components/TerminalChatbot.tsx:104 | lower-casing leaves whitespace unchanged |
| JsText.Split | src/components/TerminalChatbot.tsx:65 | `split(' ')` gives at least one piece and no piece contains a space |
| JsText.Join | src/components/TerminalChatbot.tsx:69 | the words joined with single spaces, as `currentText` accumulates them |
| JsText.JoinSplit | src/components/TerminalChatbot.tsx:65-81 | rejoining the pieces with single spaces gives the text back, so the final reveal shows the whole text |
| JsText.SplitJoin | src/components/TerminalChatbot.tsx:65 | splitting space-free words joined by spaces gives the words back (the other direction of the round trip) |
| JsText.Substr | src/utils/blockchainUtils.ts:17 | `substr(start, length)` has length `min(length, rest)`; its characters are those of the text from `start` |
| JsText.PadStart | src/utils/blockchainUtils.ts:19 | `padStart(n, c)` is at least `n` long; it ends with the text and is `c` before it |
| JsText.NumberToString | src/utils/blockchainUtils.ts:16 | `toString(radix)` is non-empty and every character is a digit of the radix, with no leading zero except for 0 itself |
| JsText.NumberToStringRoundTrip | src/utils/blockchainUtils.ts:16 | reading the digits back in the same radix gives the number |
| JsText.NumberToStringLength | src/utils/blockchainUtils.ts:16 | a number below `radix^k` has at most `k` digits |
| JsText.CodeUnits | src/utils/blockchainUtils.ts:10 | a character is one UTF-16 code unit exactly when it is in the basic plane. Otherwise it is a high surrogate in D800-DBFF followed by a low surrogate in DC00-DFFF, which decode back to the character |
| JsText.Utf16 | src/utils/blockchainUtils.ts:9-10 | the code units of a text are at least as many as its characters and each is below 0x10000 |
| BlockchainUtils.ToInt32 | src/utils/blockchainUtils.ts:12 | `x & x` is the signed 32-bit integer congruent to `x` modulo 2^32, and `x` itself when `x` already fits |
| BlockchainUtils.ShiftLeft5 | src/utils/blockchainUtils.ts:11 | `hash << 5`: the operand taken to 32 bits, multiplied by 32, the result read as a signed 32-bit integer |
| BlockchainUtils.ToInt32Periodic | src/utils/blockchainUtils.ts:12 | the 32-bit conversion depends only on its argument modulo 2^32 |
| BlockchainUtils.HashRound | src/utils/blockchainUtils.ts:11-12 | one round `((hash << 5) - hash) + char`, then `& hash`, equals `31 * hash + char` taken to 32 bits |
| BlockchainUtils.HashOf | src/utils/blockchainUtils.ts:9-13 | the rolling hash always fits a signed 32-bit integer |
| BlockchainUtils.HashData | src/utils/blockchainUtils.ts:5 | the hashed text `${evidenceId}-${uploaderId}-${timestamp}-${salt}`, with the timestamp in decimal |
| BlockchainUtils.Unpadded | src/utils/blockchainUtils.ts:16-19 | `0x`, the hex digits of the absolute hash and characters 2 to 9 of the random hex text, lower-cased |
| BlockchainUtils.FormatHash | src/utils/blockchainUtils.ts:19 | the unpadded text left-padded with `0` to 66 characters, then cut to 66 |
| BlockchainUtils.BlockchainHash | src/utils/blockchainUtils.ts:3-20 | the formatted rolling hash of the code units of the hashed text: the value `generateBlockchainHash` returns for the given random values |
| BlockchainUtils.VerifyHashIntegrity | src/utils/blockchainUtils.ts:32-35 | the text starts with `0x` and its `length`, counted in UTF-16 code units, is 66 |
| BlockchainUtils.UnpaddedShape | src/utils/blockchainUtils.ts:16-19 | before padding the text starts with `0x` and is at most 18 characters: at most 8 hex digits and 8 random digits |
| BlockchainUtils.GeneratedHashRejected | src/utils/blockchainUtils.ts:19 | the formatted hash is exactly 66 characters: zeros, then the unpadded text; it starts with `00` and fails `verifyHashIntegrity` |
| BlockchainUtils.GenerateBlockchainHash | src/utils/blockchainUtils.ts:3-20 | the loop over the code units of `${evidenceId}-${uploaderId}-${timestamp}-${salt}`, then the formatting, returns `BlockchainHash` of its inputs |
| BlockchainUtils.BlockchainHashRejected | src/utils/blockchainUtils.ts:32-35 | for every input, a generated hash is 66 characters long, starts with `00` and is rejected by `verifyHashIntegrity` |
| BlockchainUtils.GenerateQRCodeData | src/utils/blockchainUtils.ts:22-30 | the record the QR code serialises: the evidence id, the hash key, the clock reading, `EVICHAIN` and version `1.0` |
| TerminalDialogue.FlowName | src/components/TerminalChatbot.tsx:115-126 | the `case` label of each multi-step command |
| TerminalDialogue.CommandName | src/components/TerminalChatbot.tsx:111-135 | the `case` label of each command |
| TerminalDialogue.Lookup | src/components/TerminalChatbot.tsx:111-139 | the `switch` labels: the command a normalised input names, or none for `default` |
| TerminalDialogue.Normalize | src/components/TerminalChatbot.tsx:104 | `input.toLowerCase().trim()` |
| TerminalDialogue.LookupOnlyByName | src/components/TerminalChatbot.tsx:111-139 | a normalised input selects a command only when it is that command's `case` label |
| TerminalDialogue.LookupFindsEveryName | src/components/TerminalChatbot.tsx:111-139 | every command is selected by its own label, so lookup and labels are inverse |
| TerminalDialogue.LookupIgnoresCaseAndSpace | src/components/TerminalChatbot.tsx:104 | for all inputs: one that lower-cases to a command's name, with any whitespace before and after it, selects that command |
| TerminalDialogue.NameIsTrimmed | src/components/TerminalChatbot.tsx:111-135 | every command label is non-empty and neither starts nor ends with whitespace |
| TerminalDialogue.Steps | src/components/TerminalChatbot.tsx:170-212 | how many inputs each multi-step command takes: 3, 2, 1 and 1 |
| TerminalDialogue.StoredFields | src/components/TerminalChatbot.tsx:174-200 | the fields each command stores its inputs under, in order |
| TerminalDialogue.ValidState | src/components/TerminalChatbot.tsx:26-30 | the invariant of `commandState`: idle is no command, step 0 and no data; otherwise a step within the command's range whose data holds exactly the fields of the earlier steps |
| TerminalDialogue.FieldText | src/components/TerminalChatbot.tsx:219 | `${data.evidenceId}`: the stored value, or `undefined` when absent |
| TerminalDialogue.InitScript | src/components/TerminalChatbot.tsx:84-90 | the five greeting lines and their kinds |
| TerminalDialogue.HelpScript | src/components/TerminalChatbot.tsx:92-101 | the command menu lines |
| TerminalDialogue.UnknownScript | src/components/TerminalChatbot.tsx:136-137 | the error quoting the raw input, then the hint |
| TerminalDialogue.StartScript | src/components/TerminalChatbot.tsx:142-168 | the opening lines of each multi-step command, ending with the evidence id prompt |
| TerminalDialogue.CompleteAddEvidenceScript | src/components/TerminalChatbot.tsx:214-218 | the lines revealed when `add_evidence` completes |
| TerminalDialogue.CompleteTransferCustodyScript | src/components/TerminalChatbot.tsx:222-225 | the lines revealed when `transfer_custody` completes |
| TerminalDialogue.CompleteViewHistoryScript | src/components/TerminalChatbot.tsx:229-237 | the fixed custody log lines |
| TerminalDialogue.CompleteQRCodeScript | src/components/TerminalChatbot.tsx:239-243 | the fixed QR confirmation lines |
| TerminalDialogue.ContactScript | src/components/TerminalChatbot.tsx:245-253 | the contact detail lines |
| TerminalDialogue.LoginScript | src/components/TerminalChatbot.tsx:255-266 | the login report for the current user, or the authentication-required lines |
| TerminalDialogue.ExitScript | src/components/TerminalChatbot.tsx:268-272 | the farewell lines |
| TerminalDialogue.Notify | src/components/TerminalChatbot.tsx:219 | the warning text of each completion report, as in lines 219 and 226 |
| TerminalDialogue.Lines | src/components/TerminalChatbot.tsx:84-276 | the lines each reply reveals, in `await` order |
| TerminalDialogue.Step | src/components/TerminalChatbot.tsx:170-212 | `handleCommandStep`: the raw input stored under the current step's field with the next prompt, or the completion with its report and a return to idle |
| TerminalDialogue.Dispatch | src/components/TerminalChatbot.tsx:111-139 | the `switch`: each named command's reply and next state; `exit` asks to close; `default` gives the error and hint |
| TerminalDialogue.React | src/components/TerminalChatbot.tsx:106-139 | a command in progress takes the input through `Step`; otherwise the looked-up command is dispatched |
| TerminalDialogue.Respond | src/components/TerminalChatbot.tsx:103-140 | `handleCommand`: the reaction to the normalised input looked up among the labels |
| TerminalDialogue.Run | src/components/TerminalChatbot.tsx:278-285 | several accepted submissions in a row: the final state, the replies, the reports and whether a close was asked |
| TerminalDialogue.ScriptReveals | src/components/TerminalChatbot.tsx:142-276 | every handler reveals at least one line |
| TerminalDialogue.ReactKeepsValid | src/components/TerminalChatbot.tsx:170-212 | every reaction keeps the command record well formed: idle exactly when the step is 0, and otherwise the data holds exactly the fields of earlier steps |
| TerminalDialogue.ReactAnswers | src/components/TerminalChatbot.tsx:170-212 | from a well-formed record every submitted line gets a reply; the silent fall-through of `handleCommandStep` is never taken |
| TerminalDialogue.UnknownCommandRejected | src/components/TerminalChatbot.tsx:136-138 | when idle, an input naming no command gives the error and the hint and changes nothing |
| TerminalDialogue.UnknownCommandTwice | src/components/TerminalChatbot.tsx:136-138 | the same unknown input submitted twice gives two identical error replies and the record stays idle |
| TerminalDialogue.LiteralCapture | src/components/TerminalChatbot.tsx:106-109 | while a command is in progress any input, even a command name, is stored verbatim under the current field or completes the command; the user does not matter |
| TerminalDialogue.StartsCommand | src/components/TerminalChatbot.tsx:142-168 | naming a multi-step command when idle starts it at step 1 with no data and without notifying or closing |
| TerminalDialogue.SingleShotKeepsState | src/components/TerminalChatbot.tsx:112-135 | `help`, `contact`, `login` and `exit` leave the record as it was and do not notify; only `exit` asks to close |
| TerminalDialogue.LoginReportsUser | src/components/TerminalChatbot.tsx:130-132 | `login` reports on the current user and changes nothing |
| TerminalDialogue.LoginScriptNamesUser | src/components/TerminalChatbot.tsx:255-266 | the login report shows the user's name and role, or says authentication is required |
| TerminalDialogue.NotifiesOnlyOnCompletion | src/components/TerminalChatbot.tsx:214-227 | a notification is raised exactly when `add_evidence` or `transfer_custody` completes: one, naming the stored evidence id |
| TerminalDialogue.CompletionHasAllFields | src/components/TerminalChatbot.tsx:170-201 | on its last step a data-storing command holds all of its fields |
| TerminalDialogue.AddEvidenceFlow | src/components/TerminalChatbot.tsx:174-189 | `add_evidence` followed by any three inputs stores them as id, description and location, then completes with one notification naming the id |
| TerminalDialogue.AddEvidenceFields | src/components/TerminalChatbot.tsx:174-189 | from step 1 the three inputs are asked for and stored in order |
| TerminalDialogue.AddEvidenceLastFields | src/components/TerminalChatbot.tsx:179-188 | from step 2 the description and the location are stored, then the command completes |
| TerminalDialogue.TransferCustodyFlow | src/components/TerminalChatbot.tsx:190-201 | `transfer_custody` followed by two inputs stores the id and the new location, then completes with one notification naming the id |
| TerminalDialogue.TransferCustodyFields | src/components/TerminalChatbot.tsx:190-201 | from step 1 the id and the new location are stored in order, then the command completes |
| TerminalDialogue.SingleInputFlow | src/components/TerminalChatbot.tsx:202-211 | `view_history` and `qr_code` take one input, play their fixed reply and return to idle without notifying |
| TerminalDialogue.DropLast | src/components/TerminalChatbot.tsx:71 | `prev.slice(0, -1)` is the transcript without its last entry, and empty for an empty transcript |
| TerminalDialogue.Played | src/components/TerminalChatbot.tsx:61-82 | the transcript after revealing a reply line by line, each line replacing the last entry |
| TerminalDialogue.Echo | src/components/TerminalChatbot.tsx:281 | the `> ${currentInput}` user entry |
| TerminalDialogue.RevealFrames | src/components/TerminalChatbot.tsx:65-75 | the frames of the word-by-word reveal: the first k words rejoined, then the cursor |
| TerminalDialogue.PlayedLast | src/components/TerminalChatbot.tsx:61-82 | revealing a reply keeps the transcript up to its last entry, which becomes the reply's last line |
| TerminalDialogue.PlayedKeepsLength | src/components/TerminalChatbot.tsx:61-82 | revealing a reply never changes the length of a non-empty transcript |
| TerminalDialogue.SubmissionLeavesLastLine | src/components/TerminalChatbot.tsx:278-285 | after the echo and a non-empty reply, the transcript is the old one followed by the reply's last line |
| TerminalDialogue.RevealFramesArePrefixes | src/components/TerminalChatbot.tsx:65-75 | every frame of a reveal is a prefix of the text followed by the cursor, and the last frame shows the whole text |
| TerminalDialogue.RevealFrameIsPrefix | src/components/TerminalChatbot.tsx:68-75 | a single frame is a prefix of the text followed by the cursor |
| TerminalChatbot.Reports | src/components/TerminalChatbot.tsx:219 | one `onNotification` call per report, in order, each with the report's message and severity |
| TerminalChatbot.Chatbot.constructor | src/components/TerminalChatbot.tsx:23-30 | empty transcript and input, not typing, idle command record |
| TerminalChatbot.Chatbot.SetInput | src/components/TerminalChatbot.tsx:339 | the input box takes the text and nothing else changes |
| TerminalChatbot.Chatbot.AddMessage | src/components/TerminalChatbot.tsx:51-59 | appends one entry and changes nothing else |
| TerminalChatbot.Chatbot.TypeMessage | src/components/TerminalChatbot.tsx:61-82 | shows exactly the reveal frames, leaves the text in place of the last entry and ends with the typing flag off |
| TerminalChatbot.Chatbot.ReplaceLast | src/components/TerminalChatbot.tsx:70-73 | the last transcript entry is replaced by the line |
| TerminalChatbot.Chatbot.TypeAll | src/components/TerminalChatbot.tsx:84-90 | awaiting the reveals of several lines in order leaves the transcript the reply specifies |
| TerminalChatbot.Chatbot.Play | src/components/TerminalChatbot.tsx:92-101 | a scripted reply is revealed line by line, as specified |
| TerminalChatbot.Chatbot.Open | src/components/TerminalChatbot.tsx:35-39 | opening on an empty transcript plays the greeting; otherwise nothing changes |
| TerminalChatbot.Chatbot.ShowHelp | src/components/TerminalChatbot.tsx:92-101 | reveals the command menu and changes nothing else |
| TerminalChatbot.Chatbot.StartFlow | src/components/TerminalChatbot.tsx:142-168 | sets the record to step 1 of the command with no data and reveals its opening lines |
| TerminalChatbot.Chatbot.CompleteAddEvidence | src/components/TerminalChatbot.tsx:214-220 | reveals the success lines and returns one warning naming the stored evidence id |
| TerminalChatbot.Chatbot.CompleteTransferCustody | src/components/TerminalChatbot.tsx:222-227 | reveals the transfer lines and returns one warning naming the stored evidence id |
| TerminalChatbot.Chatbot.CompleteViewHistory | src/components/TerminalChatbot.tsx:229-237 | reveals the fixed custody log, whatever the id |
| TerminalChatbot.Chatbot.CompleteQRCode | src/components/TerminalChatbot.tsx:239-243 | reveals the fixed confirmation, whatever the id |
| TerminalChatbot.Chatbot.ShowContact | src/components/TerminalChatbot.tsx:245-253 | reveals the contact details and changes nothing else |
| TerminalChatbot.Chatbot.ShowLogin | src/components/TerminalChatbot.tsx:255-266 | reveals the report on the `currentUser` prop |
| TerminalChatbot.Chatbot.HandleExit | src/components/TerminalChatbot.tsx:268-276 | reveals the farewell lines and requests closing |
| TerminalChatbot.Chatbot.HandleCommandStep | src/components/TerminalChatbot.tsx:170-212 | the new record, transcript and notifications are those of the dialogue step for the input |
| TerminalChatbot.Chatbot.AddEvidenceStep | src/components/TerminalChatbot.tsx:174-189 | the `add_evidence` case agrees with the dialogue step |
| TerminalChatbot.Chatbot.TransferCustodyStep | src/components/TerminalChatbot.tsx:190-201 | the `transfer_custody` case agrees with the dialogue step |
| TerminalChatbot.Chatbot.HandleCommand | src/components/TerminalChatbot.tsx:103-140 | the new state, transcript, notifications and close request are those of the dialogue reaction, and the record stays well formed |
| TerminalChatbot.Chatbot.Switch | src/components/TerminalChatbot.tsx:111-139 | each `case` runs its handler and `default` reveals the error and the hint; none notifies |
| TerminalChatbot.Chatbot.Submit | src/components/TerminalChatbot.tsx:278-285 | a line is accepted exactly when it is not blank and no reveal is under way. An accepted line is echoed, handled as the dialogue says and cleared, and the transcript grows by one entry. A refused line changes nothing |
| QRScanner.HasAccess | src/components/QRScanner.tsx:78-80 | `evidenceKeys?.some(...)`: false when the user has no key list |
| QRScanner.Stored | src/components/QRScanner.tsx:43-45 | the key list after `evidenceKeys` is created when absent |
| QRScanner.AnyKeyMatches | src/components/QRScanner.tsx:78-80 | `some` is true exactly when some stored key has both the evidence id and the hash key |
| QRScanner.Decide | src/components/QRScanner.tsx:64-110 | an empty code means no data and an unparseable one an invalid format. A parsed code is granted exactly when a stored key matches both its id and its hash, and denied otherwise |
| QRScanner.UnauthorizedAlert | src/components/QRScanner.tsx:89-92 | the security alert naming the evidence and the user, with alert severity |
| QRScanner.AccessToast | src/components/QRScanner.tsx:64-110 | the toast of each outcome: the two errors, granted and denied |
| QRScanner.AccessAlerts | src/components/QRScanner.tsx:87-92 | only a denial raises a notification: exactly one, of alert severity |
| QRScanner.Scanner.constructor | src/components/QRScanner.tsx:16-19 | all text fields empty and not scanning |
| QRScanner.Scanner.SetEvidenceId | src/components/QRScanner.tsx:130 | the id input takes the text and nothing else changes |
| QRScanner.Scanner.ScanQR | src/components/QRScanner.tsx:22-62 | with no id there is only an error toast and nothing changes. Otherwise the hash, the code and a new key are stored, and access to the new code is then granted |
| QRScanner.Scanner.FinishScan | src/components/QRScanner.tsx:35-61 | stores the generated hash and the encoded record, appends the key to the user's keys (creating the list if absent) and ends scanning; the new code grants access |
| QRScanner.Scanner.AccessEvidence | src/components/QRScanner.tsx:64-110 | the toast and alerts are those of the access decision for the stored code; no state changes |
| QRScanner.ScanThenAccessGranted | src/components/QRScanner.tsx:43-50 | after a key is stored, the code generated with it is granted access |
| QRScanner.AppendKeyAccess | src/components/QRScanner.tsx:78-80 | after appending a key, a pair is granted exactly when it was granted before or is the new key's pair |
| EvidenceManagement.FieldValue | src/components/EvidenceManagement.tsx:12-18 | the value each input of the form shows |
| EvidenceManagement.Edited | src/components/EvidenceManagement.tsx:123 | an input's `onChange` (lines 123, 137, 151, 185, 199, 234) sets that field and keeps every other field |
| EvidenceManagement.AfterAdd | src/components/EvidenceManagement.tsx:36 | after adding, id, description and location are empty and the other fields are kept |
| EvidenceManagement.AfterTransfer | src/components/EvidenceManagement.tsx:53 | after a transfer, id and new location are empty and the other fields are kept |
| EvidenceManagement.ClearedByAdd | src/components/EvidenceManagement.tsx:36 | the fields `handleAddEvidence` clears: id, description and location |
| EvidenceManagement.ClearedByTransfer | src/components/EvidenceManagement.tsx:53 | the fields `handleTransferCustody` clears: id and new location |
| EvidenceManagement.TransferEntry | src/components/EvidenceManagement.tsx:41-46 | the entry a transfer records: the form id, the new location, the clock text and the officer `Current User` |
| EvidenceManagement.Recorded | src/components/EvidenceManagement.tsx:46 | the history after transfers, each put in front of the history as it was |
| EvidenceManagement.RecordedNewestFirst | src/components/EvidenceManagement.tsx:46 | transfers put in front one at a time list the history newest first, followed by the older history |
| EvidenceManagement.RecordedExtend | src/components/EvidenceManagement.tsx:46 | one more transfer on top of a run of transfers is the longer run recorded; with `TransferCustody` this covers any number of transfers |
| EvidenceManagement.AddedToast | src/components/EvidenceManagement.tsx:31-34 | the toast naming the added evidence id |
| EvidenceManagement.TransferredToast | src/components/EvidenceManagement.tsx:48-51 | the toast naming the id and the new location |
| EvidenceManagement.HistoryToast | src/components/EvidenceManagement.tsx:57-60 | the toast naming the history id |
| EvidenceManagement.EvidenceManager.constructor | src/components/EvidenceManagement.tsx:11-25 | all fields empty and no history |
| EvidenceManagement.EvidenceManager.Edit | src/components/EvidenceManagement.tsx:123 | the form becomes the edited form and the history is unchanged |
| EvidenceManagement.EvidenceManager.AddEvidence | src/components/EvidenceManagement.tsx:29-37 | a toast naming the id; add-tab fields cleared; history unchanged |
| EvidenceManagement.EvidenceManager.TransferCustody | src/components/EvidenceManagement.tsx:39-54 | the new entry goes in front of the unchanged history, which is `Recorded` of the history and that entry. The entry holds the id, the new location, the time and the fixed officer. A toast names the id and the location, and the transfer fields are cleared |
| EvidenceManagement.EvidenceManager.ViewHistory | src/components/EvidenceManagement.tsx:56-62 | only a toast naming the history id; no state changes |
| FileUploadEvidence.FileId | src/components/FileUploadEvidence.tsx:40 | a file id starts with `FILE-` and is at least 7 characters |
| FileUploadEvidence.IsUpload | src/components/FileUploadEvidence.tsx:39-47 | an entry is the upload of a file: the file itself, its generated id, and the blockchain hash over that id and the user |
| FileUploadEvidence.Without | src/components/FileUploadEvidence.tsx:68-70 | removal keeps exactly the entries with another id, is never longer, and changes nothing when the id is absent |
| FileUploadEvidence.WithoutAppend | src/components/FileUploadEvidence.tsx:69 | removal keeps order: removing from a concatenation concatenates the removals |
| FileUploadEvidence.WithoutIdempotent | src/components/FileUploadEvidence.tsx:69 | removing an id twice is removing it once |
| FileUploadEvidence.WithoutCounts | src/components/FileUploadEvidence.tsx:69 | every entry with another id keeps its number of occurrences; entries with the id are all gone |
| FileUploadEvidence.UploadsExtend | src/components/FileUploadEvidence.tsx:39-56 | appending the next file's upload keeps every entry the upload of its own selected file |
| FileUploadEvidence.FileRecords | src/components/FileUploadEvidence.tsx:110-116 | one record per file, in order, with its name, size, type, hash and upload time |
| FileUploadEvidence.SubmitCheck | src/components/FileUploadEvidence.tsx:83-99 | no files is checked first; then a missing id or description; otherwise the upload proceeds with both present |
| FileUploadEvidence.UploadedToast | src/components/FileUploadEvidence.tsx:124-127 | the success toast naming the id and the number of files |
| FileUploadEvidence.UploadedNote | src/components/FileUploadEvidence.tsx:129 | the warning naming the id and the number of files |
| FileUploadEvidence.Uploader.constructor | src/components/FileUploadEvidence.tsx:25-32 | no files, the initial form with category `Digital Evidence`, not uploading |
| FileUploadEvidence.Uploader.Edit | src/components/FileUploadEvidence.tsx:164 | an input's `onChange` (lines 164, 178, 192) sets that field; files and flag unchanged |
| FileUploadEvidence.Uploader.FileSelect | src/components/FileUploadEvidence.tsx:36-66 | the listed files stay in front, and the selected files follow in order. Each gets a `FILE-` id and the blockchain hash over that id and the user |
| FileUploadEvidence.Uploader.Upload | src/components/FileUploadEvidence.tsx:40-56 | one selected file is appended with its new id and hash |
| FileUploadEvidence.Uploader.RemoveFile | src/components/FileUploadEvidence.tsx:68-70 | the file list becomes the list without that id |
| FileUploadEvidence.Uploader.Submit | src/components/FileUploadEvidence.tsx:80-144 | a failed check gives only a destructive toast and changes nothing. Otherwise it returns the record (form, file records, time, uploader, hash over the id), the toast and one warning with the file count, and resets form, files and flag |
| IndexPage.LoggedInAfterLogin | src/pages/Index.tsx:14-20 | with both credentials filled the user is logged in; with either missing the flag is unchanged |
| IndexPage.Sections | src/pages/Index.tsx:39-47 | home, features and contact always show; the login form shows exactly when logged out and the evidence panel exactly when logged in |
| IndexPage.LoginShowsEvidence | src/pages/Index.tsx:14-20 | a login with both credentials replaces the login form by the evidence panel |
| IndexPage.FailedLoginKeepsSections | src/pages/Index.tsx:16-19 | a login with a missing credential changes nothing that is shown |
| IndexPage.Page.constructor | src/pages/Index.tsx:12 | the page starts logged out |
| IndexPage.Page.Login | src/pages/Index.tsx:14-20 | the flag becomes the one `LoggedInAfterLogin` gives |
| IndexPage.Page.Logout | src/pages/Index.tsx:22-25 | always logged out afterwards |
| IndexPage.Page.Render | src/pages/Index.tsx:39-47 | the sections rendered are those the flag selects |

## Left out

- Timers and concurrency are not modelled:
  - the delays inside `typeMessage` and the 2-second `setTimeout`s of `handleScanQR`, `handleExit` and `handleSubmit` of the upload form are not modelled;
  - each handler runs to completion in one step;
  - interleavings of handlers with an unfinished reveal are not modelled (`isTyping` only blocks submissions, as `handleSubmit` does).
- React rendering, scrolling and focus effects, and the purely presentational components (Navbar, Hero, Features, Contact, Footer) are not modelled; `IndexPage.Sections` stands for the conditional section.
- Clock readings (`Date.now()`, `toISOString()`, `toLocaleString()`), `Math.random()` and the texts built from them are parameters.
- Transcript entry ids and timestamps are not modelled.
- JSON is not modelled:
  - `generateQRCodeData` returns the record it would serialise;
  - a scanned code is its parse result: empty, a record, or unparseable;
  - text that parses but lacks the record's fields is not modelled.
- `console.log`, `localStorage` and `logAccessAttempt` (src/utils/blockchainUtils.ts:37-51) are logging only and are not modelled.
- `formatFileSize` (src/components/FileUploadEvidence.tsx:72-78) uses floating point and is not modelled.
- `generateQRCode` in src/components/EvidenceManagement.tsx:64-78 draws a random grid for display only and is not modelled.
- `toLowerCase` is modelled for ASCII letters only; other characters are left as they are.
- FileUploadEvidence.Uploader.FileSelect: does not model the `FileReader` preview. An image file is appended when its preview has loaded, so it can land after files selected later; the model appends every file in selection order.
- The `catch` branch of the upload form's `handleSubmit` (src/components/FileUploadEvidence.tsx:135-140) cannot be reached, because nothing in the `try` block throws; it is not modelled.
- Chatbot commands are a datatype rather than strings. The command labels the `switch` compares are tied to it by `TerminalDialogue.LookupOnlyByName` and `TerminalDialogue.LookupFindsEveryName`.
- The `currentUser` prop is modelled by the fields the components read: the username, and the role for the chatbot and the evidence keys for the scanner.
- EvidenceManagement.EvidenceManager.AddEvidence: the browser's `required` inputs (src/components/EvidenceManagement.tsx:126,140,154) keep the form from being submitted with an empty id, description or location; the model does not model that gate and accepts any form contents, as the handler itself does.
- EvidenceManagement.EvidenceManager.TransferCustody: likewise, the `required` inputs at src/components/EvidenceManagement.tsx:188,202 are not modelled; a transfer with an empty id or location is accepted, as the handler itself accepts it.
- FileUploadEvidence.Uploader.Submit: the `required` inputs (src/components/FileUploadEvidence.tsx:167,195) and the button disabled while uploading or with no files (src/components/FileUploadEvidence.tsx:283) are not modelled, so the model keeps the handler's own `NoFiles` and `MissingInformation` branches, which the rendered form does not let a user reach.
- JsText.Substr and JsText.PadStart count characters, not UTF-16 code units. Every text they are applied to in the core (base-36 and base-16 digits, `0x`, `0`) is ASCII, where the two counts agree; `BlockchainUtils.VerifyHashIntegrity` measures `length` in code units.
