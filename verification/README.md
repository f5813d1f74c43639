# Verified model of the erent gateway

erent is an AI gateway: clients speak one of several chat protocols to it, it authenticates them by API
key, borrows an upstream credential that the key is bound to, and relays the conversation. This project
models the parts of it whose correctness depends on every interleaving or on every input stream, and
proves their properties in Dafny. `dafny verify dfyconfig.toml` checks all of it.

## What is modelled

| Modules | Part of the system |
|---|---|
| `EventLines`, `EventFrames`, `LineGrammar`, `JsonText` | splitting a body into lines, the event-stream line grammar, printing events and reading them back, and the bracket structure of JSON objects |
| `Collector`, `Verdicts` | the loop that folds an upstream event stream into one final response, and its answers told from the event types alone |
| `UpstreamScanner`, `ScanAnswers` | the line scanner in front of it, when it reports success, and what that means to the collector |
| `StreamPair`, `StreamFraming`, `RelayAnswers`, `ClientView` | the producer goroutine, the request handler, their two channels and the context; what the producer sends, and what the client has in hand at the end |
| `ClaudeReplay` | printing a finished Claude message as the event stream it would have been sent as |
| `ScopeTables`, `ApikeyStore`, `ScopeRuns`, `ScopeAgreement` | API keys and their bindings: tables with composite foreign keys, the repository and service alone, any number of transactions at once, and that the two agree |
| `CredentialStore`, `RefreshRuns`, `RefreshHistory` | saving and refreshing provider credentials: one call, any number of them at once against a provider that rotates refresh tokens, and what a row holds after any history |
| `DevicePolling`, `LoginFlows` | the polling loop of a device login, and one-use login flows |
| `Sessions`, `BrowserRefresh` | local sessions on the server, and the shared refresh in a browser tab |

Concurrent parts are state machines: `Next` lists the atomic steps, `IsRun` is any interleaving of them,
`NextInv` shows the invariant step by step, and the theorems speak of every reachable state of every run.
Code that changes variables, arrays, fields or tables in place is imperative here too, and each method is
proved against a function or predicate whose own properties are then proved as lemmas. What such a function
means is told a second time from the outside, in the constants and field names of the source: `Verdicts`,
`ScanAnswers`, `LineGrammar`, `RelayAnswers` and `RefreshHistory` do only that.

Library code enters as a record of total functions with its laws stated as a predicate:
`Collector.Codec` and `ClaudeReplay.Codec` for JSON, `CredentialStore.Library` for encryption and ID token
verification. The laws used are: decoding a longer record implies decoding a shorter one to the same type;
what decodes as an event is one bracketed object or `null`, and only an object has a type; decoded raw values
are valid, and printing an event made of valid raw values gives one line that parses back to the event with
those values in normal form (compacted, and with `<`, `>` and `&` escaped) and its strings unchanged;
decryption inverts encryption. That the real libraries obey these laws is assumed. A database failure, a lost
reply, a refused write, the provider's answers and the clock are parameters or free choices of a step.

## Results that differ from what one might expect

- **Scanner success does not imply a final response.** The scanner judges each data line by itself, the
  collector joins the data lines of a group. `UpstreamScanner.TerminalEventSwallowed` gives a body of three
  data lines on which the scanner reports success and the collector "upstream stream ended before final
  response": the terminal line is the value of a field of a larger object spread over its neighbours.
  `UpstreamScanner.EndedEarlyExactly` says for every stream when that verdict comes, and
  `UpstreamScanner.ScanSuccessReachesVerdict` that it cannot come when some terminal line is not enclosed by
  non-blank data on both sides within its group; with one data line to an event it never does.
- **Converted events are read back only if each fits on a line.** The gateway frames whatever the converter
  gives it. `ClientView.OpenAIResponseReadsBack` shows that a client reading by the line grammar below gets the
  converter's events if and only if none contains a line feed or ends in a carriage return.
- **A lost rotation leaves a stale token**, in the credential row (`RefreshRuns.NoConsumedTokenPresented`)
  as in the browser's cookie (`BrowserRefresh.RotatedTokenPresentedExactly`). Both are stated as an
  equivalence: a consumed token is presented if and only if a rotation before it was lost (in the browser, since
  the last login).
- **A refresh for a disabled user spends the old session and leaves a live one that nobody was given**
  (`Sessions.AuthService.Refresh`).
- **A key can end up bound to nothing**: deleting accounts cascades. `ScopeRuns.ScopeIsLastCommitted`
  therefore speaks of the surviving part of the last committed scope.
- **The line grammar is close to section 9.2.6 of the WHATWG HTML Standard, not equal to it.** A group still
  open at the end of the stream counts, a lone `data:` line is an event (with the empty text, which does not
  decode), a carriage return ends a line only in front of a line feed or at the end of the body, and fields
  other than `data` are ignored.

## Model

| member | source | states |
|---|---|---|
| EventLines.ScanThenEmit | backend/internal/upstreamserver/chat.go:107-130 | scanning any body into lines and re-emitting each with a newline turns CR LF into LF, adds a missing final newline, and changes nothing else |
| EventLines.PassThroughIdentity | backend/internal/modules/chat/service.go:76-78 | a newline-terminated LF-only body passes through the same-format path with every character unchanged |
| EventLines.GroupsPartition | backend/internal/modules/chat/service.go:251-261 | the groups between blank lines put back together are the lines, and no group holds a blank line |
| EventLines.GroupsUnique | backend/internal/modules/chat/service.go:251-261 | any division of lines into blank-free groups is the one the collector makes, so grouping is determined by the lines |
| EventFrames.FramesReadBack | backend/internal/modules/chat/service.go:97-98 | events printed as data frames are read back, by line splitting, grouping and joining, exactly once each and in order, for every list of one-line texts |
| EventFrames.ReadBackExactly | backend/internal/modules/chat/service.go:97-98 | printed texts are read back if and only if none contains a line feed or ends in a carriage return; any other list comes back with characters missing |
| LineGrammar.DataLineCarries | backend/internal/modules/chat/service.go:259-260 | a line carries data exactly if it starts with `data:`, and one space behind that is dropped |
| LineGrammar.JoinedByLineFeeds | backend/internal/modules/chat/service.go:187 | the payloads of a group are joined by line feeds in order |
| LineGrammar.BlockReads | backend/internal/modules/chat/service.go:251-261 | a block of lines closed by a blank line is read as the one event its data make, or none, in front of whatever follows |
| LineGrammar.OpenBlockReads | backend/internal/modules/chat/service.go:241-248 | a block still open at the end of the body counts all the same |
| LineGrammar.CrLfBecomesLf | backend/internal/upstreamserver/chat.go:107-112 | normalising line ends turns each CR LF pair into a line feed and leaves all text around it |
| LineGrammar.CrLfLinesPass | backend/internal/upstreamserver/chat.go:107-130 | a line that ends in CR LF is re-emitted with a line feed alone, in front of whatever follows |
| LineGrammar.UnterminatedGetsLineFeed | backend/internal/modules/chat/service.go:76-78 | a body without carriage returns that does not end in a line feed gets exactly that |
| JsonText.ObjectInContext | backend/internal/modules/chat/service.go:187-197 | a complete object with further text around it can be part of one larger object only if that text is non-blank on both sides or on neither |
| Collector.Accumulator.Consume | backend/internal/modules/chat/service.go:183-235 | closing a group empties the pending data, records at most the item of its event, and yields the decision that this event deserves given the items so far; an empty group does nothing |
| Collector.Accumulator.Complete | backend/internal/modules/chat/service.go:206-232 | the final response is kept, rebuilt from the items, or refused, exactly as its output and the recorded indices demand |
| Collector.Accumulator.Add | backend/internal/modules/chat/service.go:259-260 | a data line appends its payload, less one leading space, to the pending group |
| Collector.StreamToNonStream | backend/internal/modules/chat/service.go:180-263 | the loop computes the declarative meaning of every line sequence and every way it can end: group, join, first decisive event; a transport error is the outcome exactly when no group closed before it was decisive |
| Collector.Settled | backend/internal/modules/chat/service.go:236-262 | lines after the first decisive event, and how the stream then ends, never change the outcome |
| Collector.VerdictIsFirst | backend/internal/modules/chat/service.go:198-234 | the verdict of a list of events is the decision at the first event that decides, and there is none exactly when none decides |
| Collector.DenseByCount | backend/internal/modules/chat/service.go:215-223 | counting up to the number of recorded items decides whether their indices are exactly 0..n-1 |
| Collector.ItemsAreLast | backend/internal/modules/chat/service.go:201-205 | an index is recorded exactly if some event recorded it, and holds the item of the last such event |
| Collector.Reconstruction | backend/internal/modules/chat/service.go:207-228 | rebuilding succeeds exactly for a non-empty dense set of indices, slot i being the last item recorded for i; usable output in the final response is never replaced |
| Collector.ItemOrderIrrelevant | backend/internal/modules/chat/service.go:201-228 | wherever in a stream a stretch of events stands that all let the collector go on, items and others mixed, permuting it never changes the verdict, as long as no two of them record the same index |
| Collector.OutcomeIgnoresItemOrder | backend/internal/modules/chat/service.go:180-263 | two line streams whose events differ only by such a permutation have the same outcome |
| Verdicts.NothingStops | backend/internal/modules/chat/service.go:236-250 | as long as every event is a recordable item or of no consequence, the answer is that the stream ended early, or the transport error it broke with |
| Verdicts.FirstStopDecides | backend/internal/modules/chat/service.go:195-209 | the first other event fixes the answer: an undecodable text, a failure or error event, an item that cannot be recorded, and a final event without response are each refused with their own reason |
| Verdicts.FinalWithOutput | backend/internal/modules/chat/service.go:210-232 | a final event whose response brings an output list completes with the response as it is, unless the list is empty while items were given; an output that is null or no list is refused |
| Verdicts.FinalWithNothing | backend/internal/modules/chat/service.go:215-226 | a final event without output after no items at all is refused |
| Verdicts.FinalRebuilt | backend/internal/modules/chat/service.go:215-232 | items for exactly the indices 0..n-1 become the output of a final event that lacks one, the item given last counting for each index |
| Verdicts.FinalWithGap | backend/internal/modules/chat/service.go:217-221 | an item with one missing below it makes such a final event refused |
| UpstreamScanner.Stream | backend/internal/upstreamserver/chat.go:107-138 | the lines sent are those before the first that is too long or is refused, and the error is the first of: refused, too long, read failure, no terminal event |
| ScanAnswers.SuccessExactly | backend/internal/upstreamserver/chat.go:107-138 | success takes exactly a whole body, sent whole, every line shorter than 1048576 bytes, and a data line of type response.completed, response.incomplete or response.failed |
| ScanAnswers.LongLineStops | backend/internal/upstreamserver/chat.go:108-134 | the first line that is too long ends the scan there, unless a line before it was refused |
| ScanAnswers.ShortLinesAnswer | backend/internal/upstreamserver/chat.go:125-138 | without one, a refused line ends the scan there, and otherwise all lines are sent and a failed read is told from a body that merely ends too soon |
| UpstreamScanner.TerminalGoverns | backend/internal/modules/chat/service.go:187-206 | in a group that decodes, a terminal data line without non-blank data on both sides is the event of the group |
| UpstreamScanner.EndedEarlyExactly | backend/internal/modules/chat/service.go:241-249 | at a clean end the collector misses a final response if and only if every group with data is a neutral event |
| UpstreamScanner.ScanSuccessReachesVerdict | backend/internal/upstreamserver/chat.go:110-138 | for every body that the scanner accepts, the collector of the lines sent can miss the terminal event only if every terminal line is enclosed on both sides within its group |
| UpstreamScanner.SingleLineEventsReachVerdict | backend/internal/upstreamserver/chat.go:110-138 | for every body that the scanner accepts and that has at most one data line to an event, the collector of the lines sent reaches a verdict |
| UpstreamScanner.ObjectNests | backend/internal/modules/chat/service.go:187-195 | a complete object on a line of its own can be the value of a field of an object around it |
| UpstreamScanner.TerminalEventSwallowed | backend/internal/upstreamserver/chat.go:113-122 | a concrete body that the scanner accepts and in whose lines the collector finds no final response |
| StreamPair.NextInv | backend/internal/modules/chat/service.go:49-118 | every step of producer, handler, hand-over and client keeps the channel, delivery and error invariants |
| StreamPair.WrittenIsPrefix | backend/internal/modules/chat/handler.go:65-142 | in every reachable state the client has a prefix of what the producer has to say, and all of it, with no upstream error, when the response completes with the client still there |
| StreamPair.ErrorReport | backend/internal/modules/chat/handler.go:90-140 | an error is reported only after every event produced before it was written; it becomes the HTTP status exactly when nothing was written |
| StreamPair.ErrorNeverLost | backend/internal/modules/chat/service.go:49-73 | while the client stays and takes what is written, an upstream error is reported if and only if there was one |
| StreamPair.AtMostOneError | backend/internal/modules/chat/handler.go:90-140 | once an error is taken no later step replaces it, and none remains in the channel |
| StreamPair.SlotFreeWhenRaising | backend/internal/modules/chat/service.go:33-40 | whenever the producer puts an error into the one-slot channel the slot is free, so it never blocks there |
| StreamPair.CanMove | backend/internal/modules/chat/handler.go:65-142 | no deadlock: short of the end, producer or handler can take a step without the client's help |
| StreamPair.ProducerAlone | backend/internal/modules/chat/service.go:109-114 | a producer that is not waiting to hand an event over, and any producer once the context has ended, can step on its own |
| StreamPair.WorkDecreases | backend/internal/modules/chat/service.go:58-117 | every step of either side uses up work |
| StreamPair.RunsAreBounded | backend/internal/modules/chat/service.go:49-118 | every run is finite, within twice the number of operations plus twelve steps |
| StreamPair.UncutRunEnds | backend/internal/modules/chat/handler.go:65-142 | a run in which neither side can go on, with the client present and no write refused, has written every event and ends in completion, or, if the upstream failed, in the report of its error: as the HTTP status exactly if there was no event |
| StreamPair.ReturnDrainsProducer | backend/internal/modules/chat/handler.go:41-42 | no leak: after the handler has returned for any reason nothing more is delivered and the producer goes on by itself to its end in boundedly many steps |
| StreamFraming.FrameEvents | backend/internal/modules/chat/service.go:93-102 | rewriting the converted events in place frames each non-empty one for its client and leaves empty ones empty |
| StreamFraming.FramedEventsDispatch | backend/internal/modules/chat/service.go:93-102 | every framed event ends in a blank line, so the client dispatches it; framing twice is framing once, and only line ends are trimmed |
| StreamFraming.HandleChunk | backend/internal/modules/chat/service.go:75-116 | one received line makes the producer send the non-empty events of its program for that line in order |
| StreamFraming.Produce | backend/internal/modules/chat/service.go:58-117 | the receive loop performs the operations of the producer's program, with the end marker for an OpenAI client of a Codex upstream only at a clean end |
| StreamFraming.ProgramWellFormed | backend/internal/modules/chat/service.go:105-108 | no program of a producer ever sends an empty event, which is what the pair assumes of it |
| StreamFraming.ConvertedSeesContents | backend/internal/modules/chat/service.go:80-92 | blank lines are kept from the converter, which sees every other line once, in order, with all before it |
| StreamFraming.NonEmptyExactly | backend/internal/modules/chat/service.go:105-108 | leaving out empty events drops nothing else |
| ClientView.PassThroughResponse | backend/internal/modules/chat/service.go:76-78 | with the same format on both sides the client has, at completion or at the report of an error, the upstream body with its line ends normalised, whatever the interleaving and whether the scan succeeded, unless a line was too long |
| ClientView.OpenAIResponseReadsBack | backend/internal/modules/chat/service.go:83-116 | whether its response ends in full or in the report of an upstream error, an OpenAI client of a converted stream reads the converter's non-empty events in order, and the end marker after a clean end where there is one, if and only if each of them fits on a line |
| ClientView.OtherClientsGetResults | backend/internal/modules/chat/service.go:93-102 | every other client of a converted stream is sent the converter's non-empty results one by one, in order: each as it is if a blank line closes it, and otherwise with its trailing line ends replaced by a blank line |
| StreamFraming.Relay | backend/internal/modules/chat/handler.go:65-142 | the select loop with its own variables leaves and writes what the handler of the pair does on the same signals |
| RelayAnswers.LastSignalDecides | backend/internal/modules/chat/handler.go:67-141 | the signal that ends the select loop decides how: cancelled, event lost, error as a status if nothing was written and inside the stream otherwise, frame lost if that cannot be written, or complete once both channels are closed; what was written are the events before it |
| StreamFraming.StepExplained | backend/internal/modules/chat/handler.go:66-141 | every step of the pair leaves the signals of the select loop as they are or adds one after them |
| StreamFraming.HandlerIsRelay | backend/internal/modules/chat/handler.go:65-142 | along every run there is one growing list of signals, at most one more at each step, and in every state the handler of the pair stands where the select loop stands after those so far |
| ClaudeReplay.ClaudeMessageEvents | backend/internal/modules/translator/translator.go:96-147 | the printed text is the frames of the replay of the message, and nothing at all if the body, its type, its content or any block is not supported |
| ClaudeReplay.AppendBlocks | backend/internal/modules/translator/translator.go:114-143 | the block loop succeeds exactly if every block is supported, and then has appended the three frames of each in order |
| ClaudeReplay.SplitBlock | backend/internal/modules/translator/translator.go:115-139 | a block is split into start and delta exactly if its kind is text, thinking or tool_use |
| ClaudeReplay.AppendEvent | backend/internal/modules/translator/translator.go:106-111 | appending an event extends the text by its frame |
| ClaudeReplay.ReplayReadsBack | backend/internal/modules/translator/translator.go:96-147 | for every body that can be replayed, the printed stream has 3n+3 frames, splits back into exactly the printed events, is well nested with indices 0..n-1, and reading it rebuilds the message and every block's kind, text, id, name and input, raw values in their normal form and inputs exactly |
| ClaudeReplay.BlockFields | backend/internal/modules/translator/translator.go:115-142 | block i of kind text, thinking or tool_use gives its start, its delta and its stop at places 3i to 3i+2, filled from the fields of that kind, null standing for an absent one |
| ClaudeReplay.EnvelopeFields | backend/internal/modules/translator/translator.go:112-145 | the message goes out first with its content emptied, and its stop reason, stop sequence and usage last |
| ClaudeReplay.ReplayableExactly | backend/internal/modules/translator/translator.go:97-127 | a body can be replayed exactly if it is a message of that type whose content is a list of blocks of the three kinds |
| ScopeTables.CountDecides | backend/internal/modules/apikey/apikey_repository.go:49-55 | the row count equals the number of requested ids exactly if every id is owned by the user and none is repeated |
| ScopeTables.CascadesKeepOwnership | backend/migrations/000005_api_keys.up.sql:18-28 | deleting an account, an external key, an API key or a user keeps every binding's user the owner of both its ends |
| ScopeTables.AccountDeletion | backend/migrations/000005_api_keys.up.sql:26-27 | deleting an account takes it and exactly the bindings to it |
| ScopeTables.ExternalDeletion | backend/migrations/000007_api_key_external_keys.up.sql:14-15 | deleting an external key takes it and exactly the bindings to it |
| ScopeTables.KeyDeletion | backend/migrations/000005_api_keys.up.sql:24-25 | deleting an API key takes it and exactly its bindings of both kinds |
| ScopeTables.UserDeletion | backend/migrations/000005_api_keys.up.sql:5 | deleting a user takes exactly what that user owns, bindings included |
| ScopeTables.CascadesKeepRest | backend/migrations/000007_api_key_external_keys.up.sql:6-16 | a key that stays keeps exactly its bindings to targets that stay |
| ScopeRuns.NextInv | backend/internal/modules/apikey/apikey_repository.go:36-95 | every statement, commit, failure and outside change keeps ownership, the transactions' own views and the exclusion by the row lock |
| ScopeRuns.PublishedKeeps | backend/internal/modules/apikey/apikey_repository.go:56-90 | a commit binds its key to exactly its two argument sets, keeps ownership and touches no row of another key |
| ScopeRuns.ScopeIsLastCommitted | backend/internal/modules/apikey/apikey_repository.go:36-95 | over every interleaving of replacements, creations, failures and deletions, each key is bound to the surviving part of both argument sets of the last transaction committed for it, or of its bindings at the start |
| ScopeRuns.ScopeExact | backend/internal/modules/apikey/apikey_repository.go:36-95 | the bindings equal the last committed scope exactly as long as none of its targets has been deleted, and always right after the commit |
| ScopeRuns.OwnershipAlways | backend/internal/modules/apikey/apikey_repository.go:124-154 | in every reachable state the user of a binding owns its key and its target, although creation checks ownership before and outside the writing transaction |
| ScopeAgreement.PublishedIsOutcome | backend/internal/modules/apikey/apikey_repository.go:36-95 | what a transaction publishes among others is exactly the tables the repository methods promise when they run alone |
| ApikeyStore.ReboundIsExact | backend/internal/modules/apikey/apikey_repository.go:56-88 | the promise of a replacement or creation determines the resulting tables completely |
| ApikeyStore.Dedupe | backend/internal/modules/apikey/apikey_service.go:28-39 | a list is accepted exactly if every id is in range, and then its distinct ids are returned |
| ApikeyStore.DistinctKeepsOrder | backend/internal/modules/apikey/apikey_service.go:129-140 | deduplication keeps the set, has no repetitions, and keeps the order of first occurrence |
| ApikeyStore.CountAcceptsOwned | backend/internal/modules/apikey/apikey_service.go:85-97 | for any requested list, the count test on its distinct ids passes exactly if every requested id is owned |
| ApikeyStore.SetKey | backend/internal/modules/apikey/apikey_repository.go:59-62 | the loop gives every row the key and the user, and keeps its target |
| ApikeyStore.Insert | backend/internal/modules/apikey/apikey_repository.go:63-67 | a multi-row insert either adds exactly the requested rows or, for a row already there or a missing reference, none, and says which |
| ApikeyStore.BindAll | backend/internal/modules/apikey/apikey_repository.go:80-88 | building the rows of a key, if it gets any, and inserting them adds exactly its new bindings or nothing |
| ApikeyStore.Database.ReplaceApikeyAccounts | backend/internal/modules/apikey/apikey_repository.go:36-95 | a replacement that fails at any statement leaves the tables as they were; one that succeeds binds the key to exactly both lists; the answer is the one that ownership and repetitions determine, or a database failure where a statement failed |
| ApikeyStore.Database.SaveApikey | backend/internal/modules/apikey/apikey_repository.go:124-154 | a creation makes a new key with exactly both lists bound, or changes no table; short of a database failure the answer tells missing references from repeated rows |
| ApikeyStore.Database.DeleteApikey | backend/internal/modules/apikey/apikey_repository.go:97-106 | a deletion succeeds exactly if the user owns the key; then the key and all its bindings are gone, and nothing else is |
| ApikeyStore.ReplaceAnswers | backend/internal/modules/apikey/apikey_repository.go:36-95 | a replacement is refused without ids, for a key that is not the user's, and for an id that is not the user's or is named twice, each with its own reason, and for nothing else |
| ApikeyStore.SaveAnswers | backend/internal/modules/apikey/apikey_repository.go:124-154 | a creation is refused without ids, for an unknown user, for an id named twice, and for one that is not the user's, accounts before external keys |
| ApikeyStore.Database.ReplaceScope | backend/internal/modules/apikey/apikey_service.go:129-156 | for any requested lists with any repetitions the replacement succeeds exactly if they are not both empty, all ids are in range and owned, and the key is owned; the key is then bound to exactly what was requested |
| ApikeyStore.Database.CreatApikey | backend/internal/modules/apikey/apikey_service.go:24-83 | a creation succeeds exactly under the same conditions for a known user, and otherwise changes no table |
| CredentialStore.Model.RefreshTokenCredentials | backend/internal/modules/oauth/oauth_service.go:163-228 | a refresh presents the decrypted stored token and either takes over an acceptable answer, or fails with the first applicable reason and, short of a failed encryption, leaves the credential as it was; owner, account, e-mail and type never change |
| CredentialStore.RefreshAnswers | backend/internal/modules/oauth/oauth_service.go:163-201 | the reasons for which a refresh is refused, in the order in which they are found |
| CredentialStore.PresentsExactly | backend/internal/modules/oauth/oauth_service.go:174-181 | a row presents its decrypted refresh token, and nothing if that is blank or the row of another type |
| CredentialStore.RefreshKeepsIdentity | backend/internal/modules/oauth/oauth_service.go:188-227 | a refreshed row holds the answer's tokens, the previous refresh or ID token where the answer omits one, and an ID token verified for its account |
| CredentialStore.SaveToken | backend/internal/modules/oauth/oauth_service.go:231-269 | a login is refused for the first applicable reason, an outage of the verification service being told from an invalid token, or gives the row of its token and flow |
| CredentialStore.SaveAnswers | backend/internal/modules/oauth/oauth_service.go:231-257 | the reasons for which a login is refused, in the order in which they are found |
| CredentialStore.SavedKeepsIdentity | backend/internal/modules/oauth/oauth_service.go:258-305 | the row of a login belongs to the user of its flow, decrypts to the tokens handed out, and its ID token was verified for its account |
| RefreshRuns.NextInv | backend/internal/modules/oauth/oauth_service.go:141-160 | every step of any number of refreshes, logins and deletions keeps lock exclusion, distinct tokens, and each transaction's view of its row |
| RefreshRuns.PresentedIsLastStored | backend/internal/modules/oauth/oauth_repository.go:25-50 | a refresh presents exactly the token last committed for its row, and that token was consumed before if and only if an earlier rotation of the row was never committed |
| RefreshRuns.NoConsumedTokenPresented | backend/internal/modules/oauth/oauth_service.go:141-160 | no refresh of a row presents a consumed token if and only if every rotation for it was committed before the next presentation |
| RefreshRuns.RowsChangeByCommitOnly | backend/internal/modules/oauth/oauth_repository.go:38-50 | a row changes only by a commit or deletion of that row, so a refresh that fails anywhere leaves it as it was; owner, account, e-mail and type never change |
| RefreshHistory.RowsHoldWhatWasHanded | backend/internal/modules/oauth/oauth_repository.go:38-50 | in every reachable state the access token of a row decrypts to that of its last login or committed refresh, with that token's expiry and time; refresh and ID token are the last ones handed out and not omitted; owner, account and e-mail are those of the login |
| RefreshRuns.IdentityAlways | backend/internal/modules/oauth/oauth_service.go:188-268 | after any history of logins from acceptable tokens, refreshes and deletions, every row's ID token decrypts to one verified for the account of that row |
| DevicePolling.GetDeviceFlowCode | backend/internal/upstreamserver/server.go:309-321 | an answer is accepted exactly if both codes are present and the interval is a 32-bit decimal within 1..900 |
| DevicePolling.NumeralsReadBack | backend/internal/upstreamserver/server.go:317-318 | the decimal numeral of a number is read back below 2^32 and refused from there on, and so is any text with another character in it |
| DevicePolling.CeilingExactly | backend/internal/upstreamserver/server.go:355-375 | the bound on attempts is the deadline divided by the interval, rounded up |
| DevicePolling.PollLoop | backend/internal/upstreamserver/server.go:358-382 | for every provider behaviour the loop ends; each attempt starts when the timer set after the previous reply has fired, all but the last were pending before the deadline, one at or after the deadline fails at once, and approval is the result exactly if it came in time |
| DevicePolling.PollDeviceFlow | backend/internal/upstreamserver/server.go:347-383 | an incomplete request or an unconfigured provider is refused without an attempt; otherwise attempts start at least the interval apart, at most ceil(900/interval) before the deadline and at most one after it |
| DevicePolling.SpacedFromStart | backend/internal/upstreamserver/server.go:375-381 | attempt i does not start before i intervals have passed |
| DevicePolling.AttemptsInTime | backend/internal/upstreamserver/server.go:355-381 | at most ceil(deadline/interval) spaced attempts start before any deadline |
| LoginFlows.FlowStore.Store | backend/internal/modules/oauth/oauth_service.go:60-66 | a stored flow replaces any earlier one under its key and touches no other; when the store's answer is lost it may or may not have |
| LoginFlows.FlowStore.PopFlow | backend/internal/modules/oauth/oauth_service.go:69-82 | reading consumes: the flow is gone in the same operation, whether it is handed out, cannot be decoded, or is lost on the way |
| LoginFlows.FlowStore.DeleteIfSame | backend/internal/modules/oauth/oauth_service.go:377-384 | the entry is deleted exactly if it still holds the value that was read |
| LoginFlows.FlowStore.PopDeviceFlow | backend/internal/modules/oauth/oauth_service.go:361-386 | a device flow is handed out and deleted exactly for the right owner, provider and device before its expiry; anything else, a failed read included, changes nothing; a lost answer to the deletion hands out nothing |
| LoginFlows.StepsAreOperations | backend/internal/middleware/redis/oauth_state.go:16-29 | every step of the concurrent model does to the store exactly what the operation behind it does |
| LoginFlows.NextInv | backend/internal/modules/oauth/oauth_handler.go:94-165 | every start, replay, expiry, read, consumption, insertion and failure keeps the invariants that tie entries, requests and rows to the store operations they come from |
| LoginFlows.ConsumedAtMostStored | backend/internal/modules/oauth/oauth_service.go:350-386 | over every run a key is never consumed more often than it was stored |
| LoginFlows.RowsComeFromFlows | backend/internal/modules/oauth/oauth_handler.go:262 | every inserted credential has a started flow of its own whose user is its owner |
| LoginFlows.DevicePollsOwnFlow | backend/internal/modules/oauth/oauth_handler.go:224-235 | a device callback polls only a flow its own user started for that provider, with an interval that an accepted answer gave and that is therefore within 1..900 |
| Sessions.AuthService.CreateRefreshToken | backend/internal/middleware/redis/refresh_token.go:44-53 | a token is handed out exactly if the store confirmed it; an unconfirmed one may be live in nobody's hands |
| Sessions.AuthService.RotateRefreshToken | backend/internal/middleware/redis/refresh_token.go:55-78 | a rotation that is heard of replaces a live token by the new one for the same user, or refuses and leaves neither; one that is not may have happened or not |
| Sessions.AuthService.DeleteRefreshToken | backend/internal/middleware/redis/refresh_token.go:80-85 | exactly the given token goes, and a failed deletion is reported |
| Sessions.AuthService.Login | backend/internal/modules/auth/service.go:55-72 | tokens are issued exactly to a known, active user with the right password when no step fails; an unknown user and a wrong password are not told apart; a login that is turned down changes no session |
| Sessions.AuthService.Refresh | backend/internal/modules/auth/service.go:102-125 | the presented token is spent whatever follows; the successor is handed out exactly if the user is still there and active and no step fails, and otherwise stays live undisclosed |
| Sessions.AuthService.Logout | backend/internal/modules/auth/service.go:127-129 | exactly the given session goes, and a failed deletion is reported |
| Sessions.StepsAreOperations | backend/internal/middleware/redis/refresh_token.go:21-29 | every step of the lineage model does to the store exactly what the operation behind it does |
| Sessions.NextInv | backend/internal/middleware/redis/refresh_token.go:21-29 | every step keeps at most one live token per lineage, with the user of its login |
| Sessions.StaysDead | backend/internal/middleware/redis/refresh_token.go:21-29 | no step revives a lineage without a live token |
| Sessions.StaysSpent | backend/internal/middleware/redis/refresh_token.go:21-29 | no step makes a spent or removed token live again |
| Sessions.RotationConserves | backend/internal/middleware/redis/refresh_token.go:21-29 | a rotation keeps the number of live sessions of every user |
| Sessions.NeverRevives | backend/internal/modules/auth/service.go:102-129 | over every run a spent or removed token is never live again, and a lineage without a live token never revives |
| Sessions.RotatedOnce | backend/internal/middleware/redis/refresh_token.go:55-78 | no token is rotated twice |
| Sessions.OneLiveDescendant | backend/internal/modules/auth/service.go:102-145 | at every moment a login has at most one live descendant, and it carries the user of that login |
| BrowserRefresh.Tab.OnError | frontend/src/axios/service.js:54-79 | a 401 to a request that is neither marked to skip nor retried, with an access token stored, makes it wait for the running refresh or a new one; in every other case it is passed on and nothing else changes |
| BrowserRefresh.Tab.RequestNewAccessToken | frontend/src/axios/service.js:24-43 | a refresh is started exactly if none is running |
| BrowserRefresh.Tab.OnSettled | frontend/src/axios/service.js:38-40 | the shared variable is cleared and everyone who awaited the refresh goes on with its outcome |
| BrowserRefresh.Tab.AfterRefresh | frontend/src/axios/service.js:70-78 | a request is sent again after a successful refresh, and otherwise rejected with the access token cleared |
| BrowserRefresh.NextInv | frontend/src/axios/service.js:24-79 | every step of tab, server, network, logins and other sessions keeps the single flight, the retry count and the standing of the cookie |
| BrowserRefresh.SingleRefreshAndSingleRetry | frontend/src/axios/service.js:24-79 | in every reachable state at most one refresh is outstanding and every request was sent at most twice, the second time only after a 401 |
| BrowserRefresh.SkippedNeverRetried | frontend/src/axios/service.js:58-68 | in every reachable state a request marked to skip has never been retried, and one not retried has been sent once |
| BrowserRefresh.PresentedOnce | backend/internal/modules/auth/handler.go:95-103 | no refresh token is presented twice unless a reply was lost in between: a grant replaces it in the cookie and a refusal clears the cookie |
| BrowserRefresh.RotatedTokenPresentedExactly | backend/internal/modules/auth/handler.go:87-97 | a refresh presents a token rotated before if and only if an earlier grant since the last login was lost; otherwise it presents a live one |

## Left out

- StreamPair: `Recv` is assumed to return; steps are atomic, so a write is either done or failed; which ready case `select` takes is a free choice.
- StreamFraming: the protocol converter is an arbitrary function of the contents it was given; the texts of error frames and the header lines are not modelled.
- ClientView.OpenAIResponseReadsBack: is for OpenAI clients, whose frames the gateway writes; for the other clients the converter's output already holds whole frames, which are not visible here.
- Collector.Codec: raw JSON values are compared as texts; invalid UTF-8 and the string limits of gRPC are not modelled.
- UpstreamScanner.Stream: characters stand for text, with their UTF-8 length for the line limit; the request, its headers and the HTTP status check before the first line are left out.
- ClaudeReplay.ReplayReadsBack: raw values are carried as texts; what the normal form of a value is stays with the JSON library.
- ScopeRuns: locks other than the key row and the referenced rows, and deadlocks between them, are left out; a statement that would wait is simply not enabled.
- ApikeyStore: key hashes and their uniqueness, expiry, the disabled flag, `UpdateApikey` and key listings are left out; a database failure at a commit is the failure of its last statement.
- CredentialStore.Model.RefreshTokenCredentials: an ID token in the answer is text, so the refusal of one that is not a string is left out.
- CredentialStore.SaveToken: a service started without its repository or directory is left out.
- RefreshRuns: a provider call that fails has been decided by the provider when it fails; a rotation that the provider performs only after the call has been given up is not modelled. That a rotating provider accepts each refresh token once and answers with a fresh one is assumed, as in section 6 of RFC 6749.
- DevicePolling.PollDeviceFlow: times are whole seconds, and a context cancelled early is an earlier deadline.
- LoginFlows: random state values and device ids are arbitrary and may repeat; expiry may strike at any moment; the token exchange between claim and insertion is a free choice between success and failure. In the concurrent model a consumption whose answer is lost is an expiry and a request that fails.
- Sessions: a refresh token stands for its hash, and new tokens are assumed not to repeat; a failed deletion of the successor of a session without a user is left out, as are access tokens and roles.
- BrowserRefresh: one tab whose cookie no other tab shares, without logout, expiry or disabling; a new login is a step of the model, but only while no refresh is outstanding.
- `ChatNonStream` around the collector, credential selection, error-code tables, the route registry, Casbin roles, external-key URL checks, the gateway proxy, logging, configuration and the web views.
