# Verified models of the Kimi Code core

Dafny models of the parts of the repository that hold state or walk structures, with proofs of what they
promise. `dafny verify dfyconfig.toml` checks all of it.

| component | modules |
|---|---|
| OAuth token refresh by many processes, the in-process slot in front of it, the device login | `RefreshProtocol`, `RefreshHistory`, `RefreshOutcomes`, `RefreshCoalescer`, `RefreshCallers`, `DeviceLogin` |
| Recursive glob walkers, local and over SFTP, and the expressions their segments compile to | `GlobWalk`, `GlobSplits`, `RemoteGlob`, `GlobRegex`, `GlobMeaning` |
| Assembly of a streamed message | `StreamAssembly`, `StreamBlocks`, `MessageAssembly` |
| Lenient UTF-8 and UTF-16LE decoders (RFC 3629, RFC 2781) | `TextEncoding`, `UnicodeScalars`, `Utf8Decoder`, `Utf16Decoder` |
| ACP prompts: an agent's events turned into notifications, and the replay of a stored conversation | `AcpEvents`, `AcpTurn`, `AcpWords`, `AcpWire`, `AcpReplay` |
| Provider configuration and credential slots | `ConfigIntegrity`, `ConfigRecords`, `CredentialSlot`, `SlotIdentity` |
| Shared definitions | `Options`, `WhiteSpace` |
| Remote command lines and remote directories | `ShellCommand`, `RemoteMkdir` |

Code that changes things step by step is modelled by methods and classes, each proved against a function
of its inputs or of the state before; the properties are lemmas about those functions. The refresh is a
step system instead: its actions are the stretches of code between two awaits, so a sequence of actions is
an interleaving of any number of processes. The server, other clients, the clock and the file system are
parameters or nondeterministic actions.

## Where the code does less than it says

Each of these is stated with the exact condition under which the promise holds, or with a concrete input
for which it fails.

- A lock-time read that finds no token falls back on the token read before the lock. After a logout by
  another process, one refresh token is then presented twice (`OvertakingLogoutSpendsTwice`). Without faults
  that is the only way it can happen (`TwiceExactlyByFallback`).
- A backslash before `*` or `?` in a glob segment is emitted without escaping, so the expression never
  accepts just what the segment stands for (`RegexMeansWild`, `EscapedStarIsAQuantifier`).
- A delta without an index is documented to go to the most recently seen call. It is lost when content
  came in between (`UnindexedDeltaFollowsLatestCall`, `UnindexedDeltaIsLostAfterContent`).
- Argument text is accumulated by raw call id. A note shows the parts of its own call, whatever the texts
  are, if and only if no other turn used the raw id since that call's first sight and no start came for it
  (`OwnPartsWhateverTheTexts`); otherwise texts of several turns mix (`TurnsSharingARawId`).
- When the call that starts a turn is rejected, the session keeps the turn it was in, although every other
  way to settle a prompt forgets it (`SettlesOnce`, `RejectedCallKeepsItsTurn`).
- An import forgets a default model whose provider it imports anew, even where the same model is listed
  again (`ReimportForgetsTheSameModel`), unless an earlier entry of the import takes the default's key
  (`DefaultAfterImport`, `TakenDefaultSurvives`).
- An offer that lists its first model twice with different demands can leave the default model thinking
  against its declaration (`ThinkingFitsTheDefault`).
- A host with white space before its final slashes is normalized to something that the next normalization
  changes, so its credential is looked up in another slot (`SlotReadIsSlotWritten`,
  `UnsettledHostMissesItsSlot`).
- A first argument such as `NAME=value` is left unquoted and taken for an assignment
  (`FirstArgumentIsTheCommand`, `AssignmentForACommand`).

## Model

| member | source | states |
|---|---|---|
| RefreshProtocol.StepInv | packages/oauth/src/oauth-manager.ts:284-396 | Every stretch of code between awaits keeps mutual exclusion, keeps presented tokens genuine and known, and keeps a forced run's tokens tied to what it read before the lock; what each read decides is stated by `LoadDecides`, `RecheckDecides` and `RecoverDecides` |
| RefreshProtocol.ReachInv | packages/oauth/src/oauth-manager.ts:284-396 | So does every interleaving of any number of runs, logins and logouts |
| RefreshProtocol.OneRefreshAtATime | packages/oauth/src/oauth-manager.ts:312-395 | At most one run is past the lock at any time |
| RefreshProtocol.LoadDecides | packages/oauth/src/oauth-manager.ts:284-304 | The first read: an unforced run returns a stored token if and only if it has no expiry, or at least five minutes and half its known life left; without a record the run fails, on a tombstone it is refused, and otherwise it goes on to the lock |
| RefreshProtocol.RecheckDecides | packages/oauth/src/oauth-manager.ts:314-359 | The read under the lock: an unforced run returns what it finds by the same times, a forced one if and only if the record differs in one of four fields; otherwise the run presents what it found, or its snapshot where nothing is left, or fails for want of a refresh token |
| RefreshProtocol.RecoverDecides | packages/oauth/src/oauth-manager.ts:368-382 | After a refusal a peer's other token is returned and left in storage; otherwise the run goes on to bury the one refused |
| RefreshProtocol.TombstoneBuries | packages/oauth/src/oauth-manager.ts:382-387 | A tombstone has nothing to use or to present, and the scope and type of the token it buries |
| RefreshProtocol.ForcedNeverReturnsSnapshot | packages/oauth/src/oauth-manager.ts:314-352 | In every interleaving the record a forced run returns differs from the one it read before the lock in its refresh token, access token, expiry or lifetime |
| RefreshProtocol.ReachThrifty | packages/oauth/src/oauth-manager.ts:306-396 | While fallbacks are safe, no stored or held token that may still be presented is over its budget |
| RefreshProtocol.SingleUse | packages/oauth/src/oauth-manager.ts:284-396 | In every such interleaving each refresh token is presented at most once, plus once for each fault on it |
| RefreshHistory.OverspentExactly | packages/oauth/src/oauth-manager.ts:306-396 | In every interleaving some token is presented more often than once plus once for each fault on it, if and only if a run presents a token it fell back on after that token's presentations were used up |
| RefreshHistory.TwiceExactlyByFallback | packages/oauth/src/oauth-manager.ts:330-362 | In every interleaving without faults some token is presented twice, if and only if a run presents a token that it fell back on after an earlier action had presented it |
| RefreshHistory.ReturnedTokensAreGiven | packages/oauth/src/oauth-manager.ts:284-396 | In every interleaving a run that returns a token was granted it since it began, took it from storage after a refusal, or read it there: without force only with time left, with force only under the lock |
| RefreshOutcomes.EndsWithACause | packages/oauth/src/oauth-manager.ts:284-396 | In every interleaving a run is refused only because it found a tombstone or left one, and fails only because storage or the server could not be reached, there was no record, or no refresh token in it |
| RefreshOutcomes.BuriedOnlyWhenRefused | packages/oauth/src/oauth-manager.ts:366-387 | In every interleaving a run buries only the token the server refused it, after a pause at whose end storage held no peer's other token |
| RefreshProtocol.NoOvertakingNoFallback | packages/oauth/src/oauth-manager.ts:330-334 | If no logout comes while a run waits for the lock, no run falls back |
| RefreshProtocol.AtMostOnce | packages/oauth/src/oauth-manager.ts:306-396 | Without such a logout and without faults each refresh token is presented at most once |
| RefreshProtocol.TombstoneSilences | packages/oauth/src/oauth-manager.ts:382-391 | After a tombstone is saved no process presents any token until a login saves one, whatever logouts come, as long as no run falls back |
| RefreshProtocol.OvertakingLogoutSpendsTwice | packages/oauth/src/oauth-manager.ts:330-362 | With an overtaking logout there is a run in which one token is presented twice, without any fault |
| RefreshCoalescer.StepInv | packages/oauth/src/oauth-manager.ts:254-282 | The slot always names exactly the refresh that has not been cleaned up |
| RefreshCoalescer.OneRunAtATime | packages/oauth/src/oauth-manager.ts:254-282 | In every interleaving of callers at most one refresh runs, and the slot names it |
| RefreshCoalescer.CleanUpClearsOwnSlot | packages/oauth/src/oauth-manager.ts:272-279 | Clean-up finds its own refresh in the slot and never clears another's |
| RefreshCoalescer.CallersGetTheirRun | packages/oauth/src/oauth-manager.ts:256-271 | Every caller settles with the outcome of the refresh it awaited, a forced caller only with a forced one's |
| RefreshCoalescer.CallsJoinTheRunInFlight | packages/oauth/src/oauth-manager.ts:254-282 | A call joins the refresh in the slot, unless it is forced and that one is not, in which case it queues; where the slot is empty it starts one of its own kind |
| RefreshCoalescer.RetryGetsForcedRun | packages/oauth/src/oauth-manager.ts:266-269 | A queued forced caller that retries joins a forced refresh or queues again behind the one now running |
| RefreshCallers.ForcedCallersGetAnotherRecord | packages/oauth/src/oauth-manager.ts:254-396 | Across any number of processes, the access token a caller gets is of the record its run returned; a forced caller's run was forced, and its record differs in one of four fields from the one read before the lock |
| RefreshCallers.CallersGetTheirRunsOutcome | packages/oauth/src/oauth-manager.ts:254-396 | Across any number of processes, a caller gets an access token if and only if its run returned one, and then that one |
| RefreshCallers.CallersTokensAreGiven | packages/oauth/src/oauth-manager.ts:254-396 | Across any number of processes, a caller's access token was granted to its run, taken after a refusal, or read from storage by it: without force only with time left |
| RefreshCallers.WorldIsTheProtocols | packages/oauth/src/oauth-manager.ts:254-396 | The world that the callers of all processes share is always one the refresh protocol reaches, so its theorems hold for them |
| DeviceLogin.Client.Login | packages/oauth/src/oauth-manager.ts:404-455 | Whatever the server and the clock do, the polls follow the rules of an orderly log, all of them before the timeout has run out and none once the signal is raised; the outcome is the last answer's, a token is saved just on success, the login times out only after the whole timeout, and it is aborted only by the signal |
| DeviceLogin.Client.PollCode | packages/oauth/src/oauth-manager.ts:412-444 | Polling for one code ends in an outcome or with the code expired and no token saved |
| DeviceLogin.SleepComesFirst | packages/oauth/src/oauth-manager.ts:417-443 | No poll is made at or after the deadline, nor before all earlier sleeps have passed |
| DeviceLogin.PendingsFitTheTimeout | packages/oauth/src/oauth-manager.ts:404-444 | All pending answers but the last fit the timeout at one second each |
| DeviceLogin.SlowDownsCost | packages/oauth/src/oauth-manager.ts:412-443 | After m slow_down answers to a code whose interval i is at least one second, n more in a row cost n * (i + 5m) + 5n(n + 1)/2 seconds |
| DeviceLogin.FreshCodeSlowDowns | packages/oauth/src/oauth-manager.ts:412-443 | From a code's first poll on they cost n * i + 5n(n + 1)/2 seconds, and all but the last sleep fit the timeout |
| MessageAssembly.Assembler.MergeInPlace | packages/kosong/src/message.ts:141-172 | The in-place merge changes the pending part to the merged one, or leaves it alone and says so; which parts end up together is stated by `Generate` |
| StreamAssembly.MergedTokens | packages/kosong/src/message.ts:141-172 | A merge loses and reorders nothing: characters and signatures are those of the two parts in order |
| MessageAssembly.Assembler.FlushPart | packages/kosong/src/generate.ts:264-289 | The new message and index map after a flush |
| MessageAssembly.Assembler.Accept | packages/kosong/src/generate.ts:123-157 | The new state after one part, routed, merged or flushed |
| StreamAssembly.NextMeans | packages/kosong/src/generate.ts:114-157 | The pending slot, the message and the index map always mean exactly the stream so far |
| StreamBlocks.NextGroups | packages/kosong/src/generate.ts:147-157 | One round keeps the content cut where the stream says: a content part joins the one before it if and only if both are text, or both reasoning and that one has no signature, and every part between them is a delta that some call owns |
| StreamBlocks.PlacesArePlacement | packages/kosong/src/generate.ts:147-157 | Placing each content part as it comes gives the placement that this rule, stated for every two neighbouring content parts, demands of the whole stream |
| MessageAssembly.Generate | packages/kosong/src/generate.ts:114-196 | For every stream: the calls are the headers in order, each with its own fragments; the content parts are those of the stream, put together exactly by that rule, each made of its pieces in order with the signature of the last; the two errors are told from the stream alone |
| StreamBlocks.TextComesOutWhole | packages/kosong/src/message.ts:142-146 | A stream of text parts only gives exactly one text, their concatenation |
| StreamAssembly.OwnerByPosition | packages/kosong/src/generate.ts:128-157 | A delta goes to the last header with its index or, when it has none or no header has it, to the header after which only deltas came; it is lost if and only if there is neither |
| StreamAssembly.FlatOfSum | packages/kosong/src/generate.ts:136-141 | Fragments are put one after the other, in the order they come |
| StreamAssembly.FragmentsByIndex | packages/kosong/src/generate.ts:123-145 | With distinct indexes, a call gets exactly the fragments that carry its index |
| StreamAssembly.InterleavingDoesNotMatter | packages/kosong/src/generate.ts:123-157 | Any interleaving that keeps each index's order gives the same calls |
| StreamAssembly.UnindexedDeltaFollowsLatestCall | packages/kosong/src/message.ts:59-65 | A delta without an index goes to the latest call if and only if nothing but deltas came since its header |
| StreamAssembly.UnindexedDeltaIsLostAfterContent | packages/kosong/src/generate.ts:256-288 | After content such a delta changes no call |
| MessageAssembly.TextSurvives | packages/kosong/src/generate.ts:178-183 | Whether there is visible text is the same for the stream and for the assembled content |
| Utf8Decoder.DecodeUtf8Ignore | packages/kaos/src/internal.ts:7-82 | The result takes every character whose RFC 3629 encoding comes next and skips single bytes otherwise |
| Utf8Decoder.RoundFollowsEncoding | packages/kaos/src/internal.ts:11-79 | One round emits a character if and only if the remaining bytes begin with its encoding, by the right width |
| Utf8Decoder.RoundFollowsGrammar | packages/kaos/src/internal.ts:11-79 | One round accepts exactly the byte sequences of the grammar in section 4 of RFC 3629 |
| Utf8Decoder.EncodingMatchesGrammar | packages/kaos/src/internal.ts:15-75 | Encodings by section 3 of RFC 3629 satisfy the grammar of section 4 and carry the scalar value's bits |
| Utf8Decoder.GrammarMatchesEncoding | packages/kaos/src/internal.ts:15-75 | Byte sequences of the grammar are the encodings of the scalar values their bits spell |
| Utf8Decoder.Utf8PrefixFree | packages/kaos/src/internal.ts:7-82 | No encoding begins another |
| Utf8Decoder.StrayByteIsSkipped | packages/kaos/src/internal.ts:11-79 | In front of any bytes, a byte at which no character of the grammar begins leaves what they decode to |
| Utf8Decoder.ByteOutOfPlaceIsSkipped | packages/kaos/src/internal.ts:11-79 | So does a continuation byte out of place, an overlong lead, or a byte no character contains |
| Utf16Decoder.DecodeUtf16LeIgnore | packages/kaos/src/internal.ts:84-121 | The result takes every character whose RFC 2781 encoding comes next and skips single words otherwise |
| Utf16Decoder.RoundFollowsEncoding | packages/kaos/src/internal.ts:88-118 | One round emits a character if and only if the remaining bytes begin with its encoding |
| Utf16Decoder.PairsMatchEncoding | packages/kaos/src/internal.ts:95-117 | Words and surrogate pairs are the encodings of the values section 2.2 of RFC 2781 gives them |
| Utf16Decoder.Utf16PrefixFree | packages/kaos/src/internal.ts:84-121 | No encoding begins another |
| Utf16Decoder.UnpairedSurrogateIsSkipped | packages/kaos/src/internal.ts:88-118 | In front of any bytes, an unpaired surrogate, told by the high bytes alone, leaves what they decode to |
| Utf16Decoder.HalfWordIsNothing | packages/kaos/src/internal.ts:88-121 | A byte left over at the end decodes to nothing |
| TextEncoding.RoundTrip | packages/kaos/src/internal.ts:7-121 | Decoding encoded text followed by any bytes gives the text followed by what the bytes decode to |
| TextEncoding.DecodingOnlyDrops | packages/kaos/src/internal.ts:7-121 | The encoding of what was decoded is a subsequence of the input |
| TextEncoding.DecodingIsIdempotent | packages/kaos/src/internal.ts:7-121 | Decoding the encoding of what was decoded changes nothing |
| TextEncoding.LosslessExactlyOnWellFormed | packages/kaos/src/internal.ts:7-121 | Nothing is dropped if and only if the input encodes some text |
| GlobWalk.VisitShrinks | packages/kaos/src/local.ts:280-290 | Going into a directory not yet visited leaves fewer keys to visit, the first half of the termination measure |
| GlobWalk.TrackedIsGrounded | packages/kaos/src/local.ts:26-38 | Where every directory has an inode, no cycle can be gone round unnoticed, so every walk ends |
| GlobWalk.DescentShrinks | packages/kaos/src/local.ts:351-359 | Going into a directory leaves fewer keys to visit, or leads further down a stretch of directories without keys |
| GlobWalk.GlobWalk | packages/kaos/src/local.ts:300-406 | The walk ends, without `**` on every graph and otherwise on every graph each cycle of which leads through a directory with a key, and yields the sequence the recursive definition gives |
| GlobWalk.EntriesInOrder | packages/kaos/src/local.ts:300-406 | The paths come in the order of the listing, entry by entry, and under a final `**` the directory itself comes first |
| GlobSplits.Glob | packages/kaos/src/local.ts:255-278 | The glob from a base directory ends and yields each path exactly as often as its names split over the pattern along a chain of directories with pairwise distinct keys, the base's among them |
| GlobSplits.EntersStep | packages/kaos/src/local.ts:351-359 | A chain of directories with new, pairwise distinct keys is one unseen child followed by such a chain from it |
| GlobSplits.WalkTimes | packages/kaos/src/local.ts:300-406 | A walk yields a path as often as its names can be split over the pattern along such chains |
| GlobSplits.GlobYieldsEachSplitOnce | packages/kaos/src/local.ts:255-406 | The same count of the recursive walk, told by the chain alone: for no two directories entered, the base included, are the keys equal |
| GlobSplits.NoDescentRoundTheBase | packages/kaos/src/local.ts:263-277 | No chain goes through a link back to the base |
| GlobSplits.LinkToTheBaseIsNotFollowed | packages/kaos/src/local.ts:263-277 | So under `**` neither the link nor anything below it is yielded |
| GlobSplits.GlobYieldsNoPathTwice | packages/kaos/src/local.ts:312-334 | With at most one `**` no path is yielded twice |
| RemoteGlob.RemoteGlobWalk | packages/kaos/src/ssh.ts:625-696 | The walk over SFTP ends, without `**` on every graph and otherwise on every graph without cycles, and yields the sequence its recursive definition gives |
| RemoteGlob.WalkersAgree | packages/kaos/src/ssh.ts:625-696 | At every directory of a tree, and with only keys above it visited, both walkers yield the same |
| RemoteGlob.NoDots | packages/kaos/src/ssh.ts:625-696 | No path the walk over SFTP yields goes through `.` or `..`, which its listings contain |
| RemoteGlob.GlobsAgree | packages/kaos/src/ssh.ts:611-696 | On the same tree, whose inodes are unique where there are any, both globs end and yield the same sequence of paths |
| GlobRegex.GlobPatternToRegex | packages/kaos/src/internal.ts:185-237 | The loop builds the translation of the segment between `^` and `$` |
| GlobRegex.ParsedTerms | packages/kaos/src/internal.ts:185-237 | Without closed classes and escaped wildcards the expression reads back as one term for each piece of the segment |
| GlobRegex.ClassReadsBack | packages/kaos/src/internal.ts:198-218 | The expression written for a character class reads back as a class of just its characters, negated if and only if it began with `!`, whatever follows it |
| GlobRegex.TermsMeanWild | packages/kaos/src/internal.ts:190-196 | Those terms accept exactly the names the wildcards stand for |
| GlobRegex.NoTermIsAWildcard | packages/kaos/src/internal.ts:219-228 | However stray quantifiers are read, no term of the expression stands for a literal `*` or `?` |
| GlobRegex.RegexMeansWild | packages/kaos/src/internal.ts:185-237 | Without closed classes the expression accepts exactly what the segment stands for, on all names, if and only if no wildcard is escaped |
| GlobRegex.EscapedStarIsAQuantifier | packages/kaos/src/internal.ts:219-228 | The escaped star of one concrete segment is read as a quantifier |
| GlobMeaning.GlobYieldsWildcardSplits | packages/kaos/src/local.ts:366-403 | With compiled segments, a path is yielded once for each such split whose names are instances of the wildcards |
| AcpEvents.WireIdsAreInjective | packages/acp-adapter/src/events-map.ts:71-82 | Two calls share a wire id only if they are the same call of the same turn |
| AcpTurn.Turn.OnEvent | packages/acp-adapter/src/session.ts:924-1164 | The new state and the notifications of one event, as the step whose notifications the `AcpWire` lemmas state by their fields |
| AcpTurn.Turn.OnToolCallStarted | packages/acp-adapter/src/session.ts:1000-1058 | A start sends the card or an upgrade of it, then any plan, and resets the text |
| AcpTurn.Turn.OnToolCallDelta | packages/acp-adapter/src/session.ts:1059-1101 | A delta sends the card or an update with the accumulated text |
| AcpTurn.Turn.OnKickFailure | packages/acp-adapter/src/session.ts:1166-1171 | The new state when the call is rejected |
| AcpTurn.Turn.Play | packages/acp-adapter/src/session.ts:887-1173 | The state and all notifications of a whole run, which the lemmas about runs speak of |
| AcpTurn.SettlesOnce | packages/acp-adapter/src/session.ts:948-969 | The first input that settles the prompt decides it for good, nothing is sent from then on, and which turn the session is left in |
| AcpTurn.RejectedCallKeepsItsTurn | packages/acp-adapter/src/session.ts:1166-1171 | A concrete run after which the session is still in the turn of a rejected call |
| AcpTurn.OpenExactlyWhileLive | packages/acp-adapter/src/session.ts:1128-1171 | The prompt is open if and only if no settling input has come |
| AcpTurn.OneCardPerCall | packages/acp-adapter/src/session.ts:902-921 | Each call of each turn gets exactly one card, from its first delta or start on |
| AcpTurn.UpdatesFollowTheirCard | packages/acp-adapter/src/session.ts:1016-1083 | What a delta or start sends is the card if none was sent, and otherwise an update of the one card sent |
| AcpTurn.ShownText | packages/acp-adapter/src/session.ts:1007-1092 | Every delta and start shows what last set the text of its raw id and everything streamed since |
| AcpTurn.DeltasAccumulate | packages/acp-adapter/src/session.ts:1059-1092 | While one turn at a time streams a raw id, a delta before the start shows all parts of its own call so far |
| AcpTurn.ShowsOwnPartsExactly | packages/acp-adapter/src/session.ts:1084-1092 | Where the parts can be told apart, a note shows the parts of its own call if and only if since that call's first sight no other turn used the raw id and no start came for it |
| AcpTurn.OwnPartsWhateverTheTexts | packages/acp-adapter/src/session.ts:1007-1092 | The same condition holds if and only if the parts of the own call are shown whatever the texts of the events are |
| AcpTurn.TurnsSharingARawId | packages/acp-adapter/src/session.ts:1084-1092 | An instance where the condition fails: a note that mixes the texts of two turns |
| AcpTurn.ForeignEventsAreInvisible | packages/acp-adapter/src/session.ts:894-895 | Deleting all events of other agents changes no notification, no outcome and no current turn |
| AcpWire.WordsArriveInOrder | packages/acp-adapter/src/session.ts:970-999 | Over every run, the message texts sent are the answer deltas of the main agent received while the prompt was open, whole and in order, the thought texts are its reasoning deltas, and nothing is said in the user's name |
| AcpWire.ResultIsSent | packages/acp-adapter/src/events-map.ts:366-380 | A result sends one update: failed if and only if it is an error, the output as the whole content, and nothing else changed |
| AcpWire.ProgressIsSent | packages/acp-adapter/src/events-map.ts:318-334 | Progress with a text sends one update of the title alone, and without one nothing |
| AcpWire.StartIsSent | packages/acp-adapter/src/events-map.ts:145-305 | A start names, describes and fills the card, whether it creates it or finds it there, and then sends the plan, if any |
| AcpWire.DeltaIsSent | packages/acp-adapter/src/events-map.ts:190-262 | The first delta makes a pending card with the name, or `tool`, and its own text; a later one replaces the text alone |
| AcpWords.InferredKindFits | packages/acp-adapter/src/events-map.ts:93-115 | A tool's kind is told by its name, from these nine names and no other |
| AcpWire.RestIsSilent | packages/acp-adapter/src/session.ts:939-969 | Whatever is not the main agent's while the prompt is open, and every event that starts, ends or rejects a turn, sends nothing |
| AcpWire.VerdictByFields | packages/acp-adapter/src/session.ts:1128-1171 | The prompt ends cancelled if and only if the turn was cancelled; it asks for authentication just for the two codes that mean so, on a failed turn as on a rejected call; a busy error rejects it with its message |
| AcpWire.OpenUntilTheEnd | packages/acp-adapter/src/session.ts:939-969 | It is open until the main agent's turn ends, the call is rejected, or a busy error comes before a new turn has started |
| AcpWire.InTheTurnNamedLast | packages/acp-adapter/src/session.ts:932-938 | While the prompt is open the session is in the turn the main agent named last, or in the one it began in |
| AcpReplay.Replay.ReplayHistory | packages/acp-adapter/src/session.ts:519-563 | The replay sends, message by message, what a search through the history determines |
| AcpReplay.Replay.ReplayMessage | packages/acp-adapter/src/session.ts:573-643 | One message's notifications, with each call booked under the turn of the last message that made it |
| AcpReplay.ResultsFollowTheirCard | packages/acp-adapter/src/session.ts:610-637 | A replayed result updates the card of the last message that made its call, a card with the call's name, kind and arguments: to failed if and only if it is an error, with its output as the whole content |
| AcpReplay.UnknownResultsAreSkipped | packages/acp-adapter/src/session.ts:619-626 | A result whose call was never made is not sent |
| AcpReplay.ReplayKeepsTheWords | packages/acp-adapter/src/session.ts:583-609 | Over every history, the texts sent in the user's name are the user's texts, those sent as messages the assistant's, and those sent as thoughts its reasoning, whole and in order |
| AcpReplay.CardsOfDifferentMessagesDiffer | packages/acp-adapter/src/session.ts:543-563 | Two assistant messages share no card, whatever raw ids their calls carry |
| ConfigIntegrity.EditsStayIntact | packages/oauth/src/custom-registry.ts:330-399 | Over every sequence of imports, removals, logins and logouts every alias and default names something that exists |
| ConfigIntegrity.ImportLeavesNoOrphan | packages/oauth/src/custom-registry.ts:366-399 | After an import a registry's providers are exactly the imported ones; all others are unchanged |
| ConfigIntegrity.AliasesAreCurrent | packages/oauth/src/custom-registry.ts:297-322 | With distinct entry ids, an imported provider has no aliases but those its entry lists, with the values listed |
| ConfigIntegrity.ListedAliasesArePresent | packages/oauth/src/custom-registry.ts:306-322 | And it has each of them, unless a later entry takes the key; what is listed is stated by `ConfigRecords.ImportedModelIsThere` |
| ConfigRecords.ImportedModelIsThere | packages/oauth/src/custom-registry.ts:306-320 | After an import every model is there under its entry's id and its own key, with the provider, model id, context size and capabilities listed and its name, or its id where it has none, unless a later model or entry takes the key or the provider |
| ConfigRecords.UnlistedKeyIsKept | packages/oauth/src/custom-registry.ts:374-399 | A key no entry lists is kept as it was, if and only if its alias names no provider that is dropped or imported |
| ConfigRecords.ImportedProviderIsThere | packages/oauth/src/custom-registry.ts:288-295 | The record of an imported provider holds its entry's kind and address, the source's key, and the source |
| ConfigRecords.OtherProvidersStay | packages/oauth/src/custom-registry.ts:379-391 | Of the other providers just those from the registry's URL go, and the rest are as they were |
| ConfigRecords.DefaultProviderAfterImport | packages/oauth/src/custom-registry.ts:349-351 | An import forgets the default provider if and only if it drops or imports it, and touches neither the thinking nor the services |
| ConfigRecords.RemovalTakesWhatNamesIt | packages/oauth/src/custom-registry.ts:330-352 | A removal takes the provider, its aliases, and a default that names either, and nothing else |
| ConfigIntegrity.OtherAliasesStay | packages/oauth/src/custom-registry.ts:393-398 | Aliases of other providers stay unless an entry takes their key |
| ConfigIntegrity.DefaultAfterImport | packages/oauth/src/custom-registry.ts:336-347 | With distinct entry ids an import forgets the default model if and only if its provider is dropped, or is imported anew by an entry before which no other lists the default's key |
| ConfigIntegrity.ReimportForgetsTheSameModel | packages/oauth/src/custom-registry.ts:393-398 | Importing a provider anew forgets its default model even where the entry lists it again |
| ConfigIntegrity.TakenDefaultSurvives | packages/oauth/src/custom-registry.ts:306-320 | A concrete import that keeps the default because another entry takes its key first, and loses it in the other order |
| ConfigIntegrity.LoginStaysIntact | packages/oauth/src/managed-kimi-code.ts:430-500 | A login leaves no dangling name, whichever default it selects or keeps |
| ConfigIntegrity.ThinkingFitsTheDefault | packages/oauth/src/managed-kimi-code.ts:531-580 | Whatever was configured before, the default model thinks as its declaration demands, if and only if the offer does not list its first model again with another demand |
| ConfigIntegrity.DistinctIsConsistent | packages/oauth/src/managed-kimi-code.ts:554-555 | An offer that lists each model once never contradicts itself |
| ConfigIntegrity.LogoutUndoesLogin | packages/oauth/src/managed-kimi-code.ts:502-529 | Logging in and out leaves the providers that logging out alone would, and the aliases if and only if no managed key was taken |
| ConfigIntegrity.LogoutOfNobody | packages/oauth/src/managed-kimi-code.ts:502-520 | Where there was no managed provider, logging out changes no provider, alias or default |
| ConfigRecords.LoginWritesTheModels | packages/oauth/src/managed-kimi-code.ts:459-474 | After a login each managed key holds the last model offered under it, field by field, and every other key what another provider had there |
| ConfigRecords.LoginWritesTheProvider | packages/oauth/src/managed-kimi-code.ts:452-494 | The managed provider's record and the two services carry the login's address and credential; other providers are unchanged |
| ConfigRecords.LoginKeepsTheDefault | packages/oauth/src/managed-kimi-code.ts:544-590 | A login keeps the default model if and only if it is asked to and the default is offered or another provider's; otherwise it takes the first model offered |
| ConfigRecords.LoginSetsTheThinking | packages/oauth/src/managed-kimi-code.ts:535-580 | The default model thinks as its declaration demands, else as it was set, else as it can |
| ConfigRecords.KeptDefaultThinksAsBefore | packages/oauth/src/managed-kimi-code.ts:562-574 | A kept default of another provider keeps its thinking, off where none was set |
| ConfigRecords.LogoutTakesTheManagedProvider | packages/oauth/src/managed-kimi-code.ts:502-529 | A logout takes the managed provider, its aliases, the defaults that name either, and the search and fetch services, and nothing else |
| ConfigIntegrity.RuntimeReadsTheLoginsSlot | packages/oauth/src/managed-kimi-code.ts:447-494 | After a login without an explicit key the runtime resolves from the provider record exactly the reference stored with the provider and both services, if and only if the host is settled |
| ConfigIntegrity.Config.DropAliases | packages/oauth/src/custom-registry.ts:336-343 | A provider's aliases are deleted, and it is told whether the default was among them |
| ConfigIntegrity.Config.RemoveCustomRegistryProvider | packages/oauth/src/custom-registry.ts:330-352 | The configuration without the provider and all that names it |
| ConfigIntegrity.Config.ApplyCustomRegistryProvider | packages/oauth/src/custom-registry.ts:283-323 | The configuration with the entry written over what was there, as the imports the lemmas speak of write it |
| ConfigIntegrity.Config.ApplyCustomRegistryEntries | packages/oauth/src/custom-registry.ts:374-399 | The configuration after a whole import, whatever order orphans are removed in; what it holds, key by key, is stated by the `ConfigRecords` lemmas |
| ConfigIntegrity.Config.ApplyManagedKimiCodeConfig | packages/oauth/src/managed-kimi-code.ts:430-500 | The configuration after a login, with the credential reference in the provider and the services, unchanged when the models are refused |
| ConfigIntegrity.Config.ApplyManagedKimiCodeLogoutConfig | packages/oauth/src/managed-kimi-code.ts:502-529 | The configuration after a logout |
| CredentialSlot.SlotReadIsSlotWritten | packages/oauth/src/managed-kimi-code.ts:287-327 | For every digest, the runtime resolves exactly the stored reference if and only if the host is settled by one normalization |
| CredentialSlot.UnsettledHostMissesItsSlot | packages/oauth/src/managed-kimi-code.ts:214-231 | Otherwise it reads another slot, unless the digests collide |
| CredentialSlot.BlankBeforeSlash | packages/oauth/src/managed-kimi-code.ts:214-216 | A concrete host that is not settled |
| CredentialSlot.EnvironmentKeepsItsSlot | packages/oauth/src/managed-kimi-code.ts:307-351 | Under an environment override what a login stores is what the runtime resolves, for every host and digest |
| CredentialSlot.LoginAgreesWithRuntime | packages/oauth/src/managed-kimi-code.ts:329-362 | A later login reuses the configured slot exactly when the runtime reads from it, if the host is settled; otherwise it forgets a slot the runtime reads from, unless the digests collide |
| SlotIdentity.SlotsAreShared | packages/oauth/src/managed-kimi-code.ts:267-285 | Two pairs of a host and a base URL in normal form share a slot if and only if they are the same pair, or neither is the default pair and their digests collide |
| SlotIdentity.HostIsKept | packages/oauth/src/managed-kimi-code.ts:218-231 | A reference leaves its host out if and only if it names the default slot, and otherwise keeps the host asked for, in normal form |
| SlotIdentity.OverrideDecides | packages/oauth/src/managed-kimi-code.ts:259-326 | Under an override the slot is that of the environment's host, the program's own before the general one, and of the environment's base URL before the configured one |
| SlotIdentity.NormalFormByParts | packages/oauth/src/managed-kimi-code.ts:214-216 | The normal form is the endpoint without the white space around it and the slashes before the white space at its end |
| ShellCommand.QuotePrints | packages/kaos/src/ssh.ts:114-120 | A quoted argument reads back as the argument, wherever it stands in a word |
| ShellCommand.QuoteLeavesSafe | packages/kaos/src/ssh.ts:114-120 | An argument is left as it is if and only if it is not empty and made of the safe characters |
| ShellCommand.ValidNameIsAShellName | packages/kaos/src/ssh.ts:895-897 | A variable's name is accepted if and only if it is letters, digits and underscores with no digit first |
| ShellCommand.BuildExecCommand | packages/kaos/src/ssh.ts:885-914 | The line is refused if and only if a variable's name is invalid, naming the first such; otherwise a POSIX shell reads exactly the words meant |
| ShellCommand.PushAssignments | packages/kaos/src/ssh.ts:892-903 | Every valid entry prints its assignment; the first invalid name is reported |
| ShellCommand.CommandShows | packages/kaos/src/ssh.ts:870-914 | Those words are `cd`, the directory and the operator where there is a directory, one `KEY=value` for each variable, and the unchanged arguments |
| ShellCommand.FirstArgumentIsTheCommand | packages/kaos/src/ssh.ts:885-914 | Just the given variables are assigned if and only if the first argument does not itself read as an assignment |
| ShellCommand.AssignmentForACommand | packages/kaos/src/ssh.ts:114-118 | A concrete first argument that is taken for an assignment |
| RemoteMkdir.MkdirRecursive | packages/kaos/src/ssh.ts:786-839 | A normal return means every prefix is a directory and, without existOk, that this call made the last one, whatever others add meanwhile; with existOk the call succeeds while others add only directories and nothing is denied; undisturbed, success has an exact condition and effect |
| RemoteMkdir.EnsureDirectory | packages/kaos/src/ssh.ts:791-837 | The same for one component |
| RemoteMkdir.WithDirectoriesAdds | packages/kaos/src/ssh.ts:786-839 | The undisturbed effect is the tree with just the missing prefixes added |

## Left out

- SingleUse: a presentation that ended in a fault (a network error, or storage that could not be read or written afterwards) is counted separately, because the code retries such a token by design.
- RegexMeansWild: a character stands for one UTF-16 unit, as in the source's expression, which has no `u` flag; so `?` does not stand for a character outside the Basic Multilingual Plane, which is two units. It does not cover segments with a closed `[...]` class, whose expressions are read back by `ClassReadsBack`, nor case-insensitive matching.
- GlobsAgree: it is stated for trees, because the walker over SFTP does not promise to end on a graph with cycles.
- Glob: under `**` a graph with a cycle of directories that have no inodes is excluded, because the walk does not end there.
- ShownText: the accumulators are values in a map rather than shared objects; no other code holds a reference to one.
- FirstArgumentIsTheCommand: reserved words and aliases as the first argument are not modelled.
- MkdirRecursive: paths are lists of names, so `.` and `..` and the splitting of the string are not modelled.
- Generate: abort signals and the per-part callbacks are not modelled; they do not change what is assembled.
- Login: the aborts are a signal at each turn of the loop, and a run ends when the script of answers does; unending runs are covered by all their prefixes.
- EditsStayIntact: `applyCustomRegistryProvider` on its own and `clearManagedKimiCodeConfig` are not edits of a run, because they do not maintain every default.
- The contents of models (context sizes, capabilities) are resolved values in `ConfigIntegrity`, and other services than the two managed ones are dropped by a login as in the source, but not named.
- Digests, JSON text of tool arguments, and what a display block renders to are parameters.
- Paths of the walkers are lists of names; joining and normalizing path strings is not modelled.
- Turn numbers are natural numbers in decimal; numbers too large for JavaScript to print so are not modelled.
- The error of `exec` without arguments, HTTP, SSH and SFTP transports, process handling, file locking internals and stale-lock breaking.
- Crashes in the middle of a refresh, and the mode without a lock.
- A failed push during a replay, which drops the rest of that message.
- The ACP server wiring, telemetry, logging and command-line entry points, which hold no invariant of their own.
