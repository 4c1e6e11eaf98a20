# Mattermost reminder bot — a Dafny model of its core

The bot answers the Mattermost slash command `/reminder`. It stores
reminders, each with a cron rule. A scheduler publishes a reminder as a *due
entry* whenever its rule comes round, and the poller acknowledges (completes)
it once delivered. This project models and proves, in Dafny:

* **The keyed store** (`reminder/internal/syncmap`), in `sync_map.dfy`. It is a
  class over a `map` with Get, Set, Delete, Apply and Range, the last with
  early exit. Scenario methods pin down what the store's tests check.
* **The scheduler** (`reminder/internal/rman`), in `remind_manager.dfy`. It has
  three stores keyed by reminder id: cancel signals, completion signals and
  due entries. The model also tracks every `generateReminds` loop the
  manager started, as a small state machine:
  Computing → Waiting → DuePendingAck → Computing, or Terminated.
  * Every facade operation and every loop step is a transition of a pure
    `State`. The class `RemindManager` performs those transitions on its fields
    and three `SyncMap` objects. Each method promises
    `Abstract() == Transition(old(Abstract()), …)` and keeps the invariant `Inv`.
  * The lemmas show the invariant is kept. They also prove the handshake, what
    Add, Complete and Remove each touch, that Remove of unknown ids changes
    nothing, and that Remove is idempotent.
* **The slash-command layer**, in four files:
  * `tokenizer.dfy`: the quote-aware tokenizer. The regular expression
    `'[^']*'|"[^"]*"|\S+` is replaced by a scanner, and a lemma shows the
    scanner makes the pattern's leftmost-first choice.
  * `services.dfy`: the services of `reminder/services/slashCommands.go`.
  * `controllers.dfy`: the authorisation, routing and replies of
    `reminder/controllers/slashCommands.go`.
  * `help.dfy`: the help topic selection.
* **The first handler** (`controllers/slashCommands.go`), in
  `legacy_controllers.dfy`. It shares the scanner with the newer handler,
  since both copies of `tokenize` are the same text.
* **Supporting modules:**
  * `text.dfy`: the `strings` functions the code calls.
  * `strconv.dfy`: `strconv.ParseInt` in base 10 and 64 bits, including the
    clamping on a range error, and `%d`.
  * `models.dfy`: the records.
  * `wrappers.dfy`: Option and Result.

Design decisions:

* **Goroutines.** They run one step at a time. A Go channel pair `(cancel, complete)` is a `Signal`.
* **Non-blocking sends.** A non-blocking send in `RemoveReminders` is delivered only to a loop blocked on that channel.
* **Closed channels.** Receiving from a closed channel always succeeds, so there are separate step methods for the closed cases.
* **Collaborators are parameters or function-valued fields.** This covers cron parsing, `Next`, `time.LoadLocation`, `url.Parse`, the database and the clock. The zero time returned by `Next` is `None`.
* **Storage seen by creation and deletion** is a `map<int, Reminder>`, threaded through every command. Functions say what the INSERT assigns or reports, and which reads and deletes fail with which error text.

## Model

| member | source | states |
|---|---|---|
| Text.IndexOf | reminder/services/slashCommands.go:52 | strings.Index for one character: -1 exactly when absent, otherwise a position holding it with no earlier occurrence |
| Text.SplitOne | reminder/controllers/slashCommands.go:94-95 | Split gives a single piece exactly when the separator is absent, and then that piece is the whole string |
| Text.SplitCount | reminder/controllers/slashCommands.go:94-95 | Split gives one piece more than there are separators |
| Text.SplitLast | reminder/services/slashCommands.go:240-242 | the last piece is a separator-free suffix, preceded by the separator whenever it is shorter than the input |
| Text.JoinSplit | reminder/services/slashCommands.go:240 | joining Split's pieces with the separator gives back the input |
| Text.SplitJoin | reminder/services/slashCommands.go:240 | splitting a join of separator-free pieces gives back the pieces |
| Text.JoinSnoc | reminder/services/slashCommands.go:157-162 | writing ", " and one more id after a non-empty list is joining the longer list |
| Text.WriteAll | reminder/services/slashCommands.go:69-81 | writing pieces into the builder one after another gives their concatenation |
| StrConv.FormatInt | reminder/services/slashCommands.go:161 | the `%d` text of an integer: a minus sign for a negative value, then its decimal digits with no leading zero |
| StrConv.NumErrorText | reminder/services/slashCommands.go:94-98 | the text of ParseInt's error: `strconv.ParseInt: parsing "N": ` followed by `invalid syntax` or `value out of range` |
| StrConv.ParseInt | reminder/services/slashCommands.go:94 | no error means a 64-bit value; a syntax error gives 0; a range error gives the clamped bound; only a string with a digit avoids a syntax error |
| StrConv.FormatParse | reminder/services/slashCommands.go:94 | ParseInt of the `%d` text of any 64-bit integer gives that integer back with no error |
| SyncMap.SyncMap.constructor | reminder/internal/syncmap/sync_map.go:10-12 | New makes an empty map |
| SyncMap.SyncMap.Get | reminder/internal/syncmap/sync_map.go:14-19 | found exactly when bound, with the bound value |
| SyncMap.SyncMap.Set | reminder/internal/syncmap/sync_map.go:21-25 | binds the key and leaves every other binding |
| SyncMap.SyncMap.Delete | reminder/internal/syncmap/sync_map.go:27-31 | unbinds the key and leaves every other binding |
| SyncMap.SyncMap.Apply | reminder/internal/syncmap/sync_map_test.go:81-105 | an existing value is replaced by f of it; an absent key stays absent |
| SyncMap.SyncMap.Range | reminder/internal/syncmap/sync_map.go:33-41 | the map is only read. Each key is visited at most once and with its own value. Every call but the last returned true. Fewer calls than keys means the last call returned false. If all calls returned true, every key was visited |
| SyncMap.SetThenGet | reminder/internal/syncmap/sync_map_test.go:13-19 | Get after Set returns the value set |
| SyncMap.GetNeverSet | reminder/internal/syncmap/sync_map_test.go:21-25 | Get on a fresh map finds nothing |
| SyncMap.DeleteThenGet | reminder/internal/syncmap/sync_map_test.go:27-33 | after Delete the key is gone and another key keeps its value |
| SyncMap.FromMap | reminder/internal/syncmap/sync_map_test.go:38-45 | Set in a loop builds a map holding exactly the given bindings |
| SyncMap.RangeVisitsAll | reminder/internal/syncmap/sync_map_test.go:37-64 | an always-true visitor sees exactly the stored bindings, and none after all keys are deleted |
| SyncMap.RangeEarlyExit | reminder/internal/syncmap/sync_map_test.go:66-78 | a visitor returning false is called exactly once on a non-empty map |
| SyncMap.ApplyScenario | reminder/internal/syncmap/sync_map_test.go:81-105 | Apply on an existing key gives f of the value; on an absent key nothing appears |
| Rman.Live | reminder/internal/rman/remind_manager.go:78-84 | a loop registered for an id runs a snapshot with that id, both channels are still open, it has not returned, and it blocks on `<-complete` only while the id's due entry is visible |
| Rman.Inv | reminder/internal/rman/remind_manager.go:78-84 | both signal stores hold the same channel pair per id, its loop is live, every due entry is filed under its own id, and every loop is numbered below the next loop number |
| Rman.Initial | reminder/internal/rman/remind_manager.go:33-42 | the empty manager satisfies the invariant |
| Rman.Trigger | reminder/internal/rman/remind_manager.go:44-48 | TriggerReminds sets each reminder as the due entry of its id, in order, so a later one overwrites an earlier one; nothing else changes |
| Rman.TriggerInv | reminder/internal/rman/remind_manager.go:44-48 | TriggerReminds keeps the invariant |
| Rman.TriggerAt | reminder/internal/rman/remind_manager.go:44-48 | only due entries change. An id has one exactly when it had one or the batch names it. The entry is the batch's last reminder with that id, and an id outside the batch keeps its old entry |
| Rman.CompleteOne | reminder/internal/rman/remind_manager.go:60-64 | an id with a completion signal has its loop released from `<-complete` to compute again and loses its due entry; any other id changes nothing |
| Rman.Complete | reminder/internal/rman/remind_manager.go:59-66 | CompleteReminds applies CompleteOne to the ids in order |
| Rman.CompleteEffect | reminder/internal/rman/remind_manager.go:59-66 | CompleteReminds removes the due entries of exactly the batch's ids that have a completion signal and releases exactly their loops. Any other id, such as one only triggered, changes nothing |
| Rman.CompleteOneInv | reminder/internal/rman/remind_manager.go:60-64 | completing one id keeps the invariant |
| Rman.CompleteInv | reminder/internal/rman/remind_manager.go:59-66 | CompleteReminds keeps the invariant |
| Rman.AddOne | reminder/internal/rman/remind_manager.go:69-84 | a rule that does not parse is skipped; otherwise a new channel pair is filed under the reminder's id in both signal stores and a new loop starts computing with that snapshot |
| Rman.Add | reminder/internal/rman/remind_manager.go:68-86 | AddReminders applies AddOne to the reminders in order |
| Rman.AddOneInv | reminder/internal/rman/remind_manager.go:69-84 | adding one reminder keeps the invariant |
| Rman.AddInv | reminder/internal/rman/remind_manager.go:68-86 | AddReminders keeps the invariant |
| Rman.AddKeeps | reminder/internal/rman/remind_manager.go:68-86 | AddReminders leaves due entries, storage requests and every loop already started unchanged, and both signal stores agree |
| Rman.AddRegisters | reminder/internal/rman/remind_manager.go:69-82 | an id has signals after AddReminders exactly when it had them or the batch has a reminder with that id whose rule parses. An unparsable rule registers nothing |
| Rman.AddCounts | reminder/internal/rman/remind_manager.go:68-86 | AddReminders starts exactly one loop per reminder whose rule parses, numbered on from the last loop, and every new loop runs a reminder of the batch whose rule parses |
| Rman.AddStartsLoop | reminder/internal/rman/remind_manager.go:78-84 | the last parsable reminder with an id gets a brand-new loop, computing, with open channels, registered under its id |
| Rman.SendCancel | reminder/internal/rman/remind_manager.go:91-95 | the non-blocking send on the cancel channel is taken only by a loop blocked in its select, which returns; then the channel is closed |
| Rman.SendComplete | reminder/internal/rman/remind_manager.go:97-102 | the non-blocking send on the complete channel is taken only by a loop blocked on `<-complete`, which computes again; then the channel is closed |
| Rman.RemoveOne | reminder/internal/rman/remind_manager.go:89-108 | a registered id leaves all three stores. An unregistered id changes nothing. No loop is created or lost |
| Rman.Remove | reminder/internal/rman/remind_manager.go:88-110 | RemoveReminders applies RemoveOne to the ids in order |
| Rman.RemoveOneInv | reminder/internal/rman/remind_manager.go:89-108 | removing one id keeps the invariant |
| Rman.RemoveInv | reminder/internal/rman/remind_manager.go:88-110 | RemoveReminders keeps the invariant |
| Rman.RemoveErases | reminder/internal/rman/remind_manager.go:88-110 | after RemoveReminders a registered id of the batch is in no store. Every other id keeps its signals and its due entry. The stores still agree |
| Rman.RemoveUnknown | reminder/internal/rman/remind_manager.go:89-90 | RemoveReminders with no registered id changes nothing |
| Rman.RemoveTwice | reminder/internal/rman/remind_manager.go:88-110 | removing the same ids again changes nothing |
| Rman.RemoveSignalsLoop | reminder/internal/rman/remind_manager.go:91-103 | removing a registered id ends a loop blocked in its select. A loop waiting for completion computes again. Both of its channels are closed |
| Rman.EffectiveZone | reminder/internal/rman/remind_manager.go:121-131 | the channel's zone when it was found and loads, else the default location |
| Rman.Compute | reminder/internal/rman/remind_manager.go:132-139 | the zero time removes the id as RemoveReminders does, requests its storage deletion and ends the loop. A time makes the loop wait, with nothing else changed |
| Rman.Timer | reminder/internal/rman/remind_manager.go:141-146 | the timer of a waiting loop fires: its snapshot becomes the due entry of its id and the loop blocks on `<-complete` |
| Rman.CancelReceived | reminder/internal/rman/remind_manager.go:147-148 | a waiting loop whose cancel channel is closed receives from it and returns |
| Rman.ClosedAck | reminder/internal/rman/remind_manager.go:146 | a loop blocked on `<-complete` whose channel is closed receives from it and computes again |
| Rman.ComputeInv | reminder/internal/rman/remind_manager.go:132-139 | computing the next occurrence keeps the invariant |
| Rman.TimerInv | reminder/internal/rman/remind_manager.go:141-146 | the timer case keeps the invariant |
| Rman.ClosedStepsInv | reminder/internal/rman/remind_manager.go:95-102 | receiving from a closed channel keeps the invariant, since only unregistered loops see one |
| Rman.TimerThenComplete | reminder/internal/rman/remind_manager.go:141-146 | the timer publishes the loop's snapshot as the due entry. Completing the id can then proceed, clears the entry and sends the loop back to computing |
| Rman.RemindManager.constructor | reminder/internal/rman/remind_manager.go:33-42 | New: three fresh, distinct empty stores and no loops |
| Rman.RemindManager.TriggerReminds | reminder/internal/rman/remind_manager.go:44-48 | performs Trigger on the stores and keeps the invariant |
| Rman.RemindManager.GetReminds | reminder/internal/rman/remind_manager.go:50-57 | every due entry exactly once: as many results as ids, each a stored entry, no id twice, every id present |
| Rman.RemindManager.CompleteReminds | reminder/internal/rman/remind_manager.go:59-66 | performs Complete, given that each blocking send has a receiver |
| Rman.RemindManager.AddReminders | reminder/internal/rman/remind_manager.go:68-86 | performs Add and keeps the invariant |
| Rman.RemindManager.RemoveReminders | reminder/internal/rman/remind_manager.go:88-110 | performs Remove and keeps the invariant |
| Rman.RemindManager.StepCompute | reminder/internal/rman/remind_manager.go:120-139 | performs Compute with the occurrence computed in the effective zone |
| Rman.RemindManager.StepTimer | reminder/internal/rman/remind_manager.go:139-146 | once the occurrence is due, performs Timer |
| Rman.RemindManager.StepCancelReceived | reminder/internal/rman/remind_manager.go:147-148 | a waiting loop on a closed cancel channel returns |
| Rman.RemindManager.StepClosedAck | reminder/internal/rman/remind_manager.go:146 | a loop waiting on a closed complete channel computes again |
| Tokenizer.Matches | reminder/controllers/slashCommands.go:155-156 | FindAllString: skip whitespace, take the scanner's match, repeat; the matches left to right |
| Tokenizer.Tokens | reminder/controllers/slashCommands.go:154-167 | tokenize: the matches, each with its quotes stripped |
| Tokenizer.WordLength | reminder/controllers/slashCommands.go:155 | the length of the leading run of non-space characters |
| Tokenizer.MatchLength | reminder/controllers/slashCommands.go:155-156 | every match is non-empty and fits the input |
| Tokenizer.LeftmostFirst | reminder/controllers/slashCommands.go:155-156 | the scanner's match is the pattern's: a quoted alternative wins when one matches, and it is unique; otherwise `\S+` runs to the next space |
| Tokenizer.Strip | reminder/controllers/slashCommands.go:158-165 | a token longer than one character that starts and ends with the same quote loses both quotes; every other token is unchanged |
| Tokenizer.StripAllAt | reminder/controllers/slashCommands.go:158-165 | quote removal rewrites each token in place, nothing else |
| Tokenizer.Tokenize | reminder/controllers/slashCommands.go:154-167 | the in-place loop gives the stripped matches |
| Tokenizer.SkipSpaces | reminder/controllers/slashCommands.go:155-156 | leading whitespace yields no token |
| Tokenizer.QuotedSpan | reminder/controllers/slashCommands.go:155-163 | a closed quoted span is one token, spaces and all, and loses its quotes; `''` gives the empty token |
| Tokenizer.QuoteFreeFields | reminder/controllers/slashCommands.go:155-156 | text without quotes is split at whitespace runs, with empty pieces dropped |
| Help.SelectHelp | reminder/controllers/help.go:48-62 | at most one token gives usage. Each alias set selects its topic, in both directions. Any other second token gives usage, and later tokens are never read |
| Services.CreateRequest | reminder/services/slashCommands.go:32-42 | no request below four tokens. Otherwise name, rule and message are tokens 1 to 3, the owner is the user and the channel is the request's |
| Services.NewRow | reminder/repositories/reminder.go:149-157 | the INSERT writes every field of the request under the new id |
| Services.CreateReminder | reminder/services/reminder.go:13-34 | a rejected rule or a failed INSERT reports the wrapped error and leaves storage alone. Otherwise the new row is stored under the INSERT's id and nothing else changes; the id is returned unless the read-back fails, whose wrapped error is reported with the row kept |
| Services.ReminderCreate | reminder/services/slashCommands.go:27-49 | the wrong-count error below four tokens with storage untouched; otherwise success exactly when CreateReminder succeeds, its error otherwise, and its storage |
| Services.CreateThenDelete | reminder/services/slashCommands.go:27-49 | after a successful create, deleting the new id from the same channel deletes it and nothing else; when the id was new, storage ends as it began |
| Services.RmLineBreaks | reminder/services/slashCommands.go:51-58 | the result never holds a line break (so a second pass changes nothing). Break-free text is unchanged. Otherwise the result is the text before the first break plus " ..." |
| Services.Line | reminder/services/slashCommands.go:68-72 | a table line: each cell after a vertical bar, then a closing bar and a line break |
| Services.Row | reminder/services/slashCommands.go:71-79 | a reminder's line: id in decimal, name with its breaks removed, owner (empty for NULL), channel, rule, message with its breaks removed |
| Services.Table | reminder/services/slashCommands.go:66-83 | the two header lines, then one row per reminder in order |
| Services.LineBreaks | reminder/services/slashCommands.go:72 | a table line whose cells hold no break has exactly one |
| Services.Rows | reminder/services/slashCommands.go:69-81 | one row per reminder, in order |
| Services.ListText | reminder/services/slashCommands.go:60-86 | the wrapped query error, the fixed hint for no reminders, or the header followed by the rows |
| Services.ReminderList | reminder/services/slashCommands.go:60-86 | the builder returns ListText |
| Services.HeaderBreaks | reminder/services/slashCommands.go:68 | the header is two lines |
| Services.RowBreaks | reminder/services/slashCommands.go:72-79 | a row is one line even when name or message hold breaks |
| Services.TableLines | reminder/services/slashCommands.go:66-83 | while no owner, channel or rule holds a line break, the table has exactly two lines more than reminders |
| Services.Attempt | reminder/services/slashCommands.go:94-139 | a token is deleted exactly when it parses, names a stored reminder of the request's channel (ignoring case) and the delete succeeds; storage then loses exactly that id. A kept token carries ParseInt's value and leaves storage alone. A missing row and a reminder of another channel are kept with their error texts |
| Services.Collect | reminder/services/slashCommands.go:88-142 | the tokens in order, each tried on the rows the earlier ones left, its outcome appended to the deleted or the undeleted list |
| Services.CollectSound | reminder/services/slashCommands.go:88-142 | every token lands in exactly one list. Deleted ids were stored in the channel (ignoring case) and are distinct. Storage loses exactly the deleted ids |
| Services.CollectPrefix | reminder/services/slashCommands.go:88-142 | the lists for the first tokens are prefixes of the lists for all of them |
| Services.CollectAt | reminder/services/slashCommands.go:94-139 | the lists keep token order: token i, tried on what the earlier tokens left, puts its outcome right after their entries in its list |
| Services.CollectDecides | reminder/services/slashCommands.go:103-139 | a token naming a reminder of the channel that no earlier token deleted is deleted when storage allows; one naming another channel's reminder is kept with the invalid-access error |
| Services.DeleteOne | reminder/services/slashCommands.go:94-139 | one pass of the loop, with its early exits, gives Attempt's outcome and storage |
| Services.DeleteRemindersAndCollect | reminder/services/slashCommands.go:88-142 | the loop over the tokens after the command gives Collect's lists and storage |
| Services.ErrorLines | reminder/services/slashCommands.go:146-154 | one "Error deleting" line per undeleted id, in order |
| Services.IdTexts | reminder/services/slashCommands.go:161 | each deleted id in decimal, in order |
| Services.Message | reminder/services/slashCommands.go:144-167 | one error line per undeleted id, then, when something was deleted, a blank line, `Successfully deleted: `, the ids joined by `, ` and a line break |
| Services.MessageEmpty | reminder/services/slashCommands.go:144-167 | the report is empty exactly when both lists are |
| Services.WriteErrorLines | reminder/services/slashCommands.go:146-154 | the first loop writes the error lines |
| Services.WriteIds | reminder/services/slashCommands.go:157-162 | the second loop writes the ids joined by ", " |
| Services.ConstructMessage | reminder/services/slashCommands.go:144-167 | the error lines, then "Successfully deleted: " and the ids only when something was deleted |
| Services.ReminderDelete | reminder/services/slashCommands.go:169-181 | the wrong-count error below two tokens with storage untouched; otherwise the report of Collect and its storage |
| Services.ReminderTimeZoneSet | reminder/services/slashCommands.go:183-200 | success exactly when the zone loads and the channel row is written. The zone is returned; a load failure is wrapped |
| Services.ReminderTimeZoneGet | reminder/services/slashCommands.go:202-212 | the channel's zone, or the notice naming the default location |
| Services.ReminderChangeOwner | reminder/services/slashCommands.go:214-237 | the wrong-count error for at most one token. A parse error is wrapped. Success exactly when the id parses and the owner update succeeds, with the confirmation for that id |
| Services.LastUrlPart | reminder/services/slashCommands.go:239-243 | a slash-free suffix, preceded by a slash when shorter; the whole text when there is no slash |
| Services.WebhookUser | reminder/services/slashCommands.go:259-264 | the stored user is the requester with only the last URL part, marked valid |
| Services.ReminderSetWebhook | reminder/services/slashCommands.go:245-270 | the wrong-count error for at most one token; success exactly when the URL parses and the user row is written |
| Controllers.Authorize | reminder/controllers/slashCommands.go:90-104 | the header split at single spaces has exactly two parts, and the second equals the configured token, ignoring case |
| Controllers.Status | reminder/controllers/slashCommands.go:106-151 | error replies are 400, all others 200 |
| Controllers.AuthorizeShape | reminder/controllers/slashCommands.go:90-104 | authorised exactly when the header holds one space and what follows it equals the token, ignoring case |
| Controllers.RouteOf | reminder/controllers/slashCommands.go:132-151 | only a `/reminder` command (ignoring case) with tokens is routed. Each alias set selects its route, in both directions, and anything else gets usage |
| Controllers.Capitalize | reminder/controllers/slashCommands.go:42-43 | only the first character is upper-cased and the rest is kept |
| Controllers.CreateReply | reminder/controllers/slashCommands.go:40-50 | the success text, or the capitalised error |
| Controllers.ListReply | reminder/controllers/slashCommands.go:52-64 | the listing, or "Error: " and the error |
| Controllers.DeleteReply | reminder/controllers/slashCommands.go:66-73 | the report, or the capitalised error |
| Controllers.TimeZoneReply | reminder/controllers/slashCommands.go:75-88 | at most one token shows the zone; more set it, replying with the zone or "Error: " |
| Controllers.MattermostReminder | reminder/controllers/slashCommands.go:106-152 | authorisation failure gives 400, then a bind error gives 400 and an application error gives 200. Otherwise each route gives its reply. Storage changes only as create and delete change it |
| LegacyControllers.LegacyCreateRequest | controllers/slashCommands.go:32-41 | no request below three tokens; otherwise name and rule are tokens 1 and 2, with the channel and no owner or message |
| LegacyControllers.LegacyNewRow | repositories/reminder.go:106-112 | the INSERT writes name, rule and channel under the new id |
| LegacyControllers.LegacyCreate | controllers/slashCommands.go:31-55 | the create usage below three tokens with storage untouched. A failed INSERT gives "Error: " and its error with storage untouched; otherwise the new row is stored, and the reply is "Error: " and the read-back's error, or the success text |
| LegacyControllers.LegacyCreateThenDelete | controllers/slashCommands.go:31-55 | a created reminder is deleted by its id; when the id was new, storage ends as it began |
| LegacyControllers.LegacyRows | controllers/slashCommands.go:69-79 | one four-column row per reminder, in order |
| LegacyControllers.LegacyList | controllers/slashCommands.go:57-85 | the error text, or the header and the rows, even for no reminders |
| LegacyControllers.LegacyTableLines | controllers/slashCommands.go:67-79 | the table has two lines more than reminders while cells are break-free |
| LegacyControllers.DeleteId | controllers/slashCommands.go:88-100 | a non-integer gets the delete usage and deletes nothing. A failed or missing delete names the id. Otherwise exactly that id is deleted |
| LegacyControllers.DeleteAsWritten | controllers/slashCommands.go:87-101 | it panics exactly when there is no id token; otherwise it is DeleteId |
| LegacyControllers.BareDeletePanics | controllers/slashCommands.go:88 | `/reminder rm` is routed to delete with one token and panics |
| LegacyControllers.DeleteGuarded | controllers/slashCommands.go:87-101 | no id token gets the delete usage; otherwise it agrees with the code as written |
| LegacyControllers.RouteOfLegacy | controllers/slashCommands.go:121-137 | as the newer routing but with no time-zone route |
| LegacyControllers.LegacyMattermostReminder | controllers/slashCommands.go:103-138 | a bind error gives 400 and an application error 200. Otherwise each route gives its reply, and delete is the code as written, panicking without an id. Storage changes only as create and delete change it |

## Left out

- Goroutines, the mutex and timers. Their steps are sequential transitions. Interleavings, and the race between the asynchronous `Set` of a due entry and `RemoveReminders`, are not modelled. The due entry is set in the same step as the timer fires.
- Rman.RemindManager.CompleteReminds: the blocking `complete <- true` is a precondition (`CanComplete`). Calling it before the due entry is published blocks until the timer fires; TimerThenComplete states that sequence.
- Logging, HTTP binding, the gin context, the database and the poller. Storage results are parameters.
- Cron parsing and `Next`, `time.LoadLocation`, `url.Parse` and the clock are uninterpreted parameters over integer seconds.
- The texts of `usage`, its help topics and the help tutorials. They are `UsageReply` and `HelpTopic` values.
- Controllers.Capitalize, Text.EqualFold and Text.ToUpper fold only ASCII letters. Go indexes the error text by byte; the model indexes by character.
- StrConv.NumErrorText: `strconv` quotes the number with escapes; the model writes it between plain double quotes.
- Services.Attempt: every lookup failure is a missing row (`sql: no rows in result set`). Other database faults of GetReminder are not modelled.
- Services.Attempt: services.DeleteReminder also calls RemoveReminders on the scheduler; the model of the command layer shows only storage.
- Services.CreateReminder: the call to RemindManager.AddReminders after the read-back is not modelled; the command layer shows only storage, and Rman.Add models AddReminders.
- Services.NewRow and LegacyControllers.LegacyNewRow: the INSERT's id and time are parameters. Both timestamps are taken as the insert time, since the table's column defaults are not part of this model. The id is not assumed fresh.
- LegacyControllers.LegacyCreate: the send of the read-back row on `NewReminders` is not modelled. The first version's GetReminder selects without a WHERE clause, so the row it reads need not be the new one; only whether the read fails is modelled.
- UpdateRemindOwner, UpdateRemindWebhook and models.Remind are used by tests and services but not defined in the manager file, so they are not part of this model.
- The source does not build as shown. The model follows the evident intent in these places:
  - `mmReminderDelete` calls `services.MMReminderDelete(app, tokens)` without the request.
  - `usage` is declared twice in package `reminder/controllers`.
  - models.Reminder lacks the `Owner` column that other code reads; the model has it as a nullable string.
- `help`, `MMReminderChangeOwner` and `MMReminderSetWebhook` are not reached by `MattermostReminder`'s switch. They are modelled as functions.
- Services.ReminderTimeZoneSet requires a second token, as its only caller guarantees.

## Findings

| source | as written | input that shows it | evidently intended | confidence | as-written member | corrected member |
|---|---|---|---|---|---|---|
| controllers/slashCommands.go:88 | the delete handler reads `tokens[1]` with no length check | the command `/reminder rm` with no id | no id replies with `Usage: '/reminder delete ID'`, as a non-integer id does (the newer MMReminderDelete checks the count) | medium, not executed | LegacyControllers.DeleteAsWritten, LegacyControllers.BareDeletePanics | LegacyControllers.DeleteGuarded |
