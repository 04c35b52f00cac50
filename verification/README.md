# Verified models of the agent's text, stream, token and session core

This project models the parts of the repository whose behaviour is easy to get wrong and proves what each of them is
for. `dafny verify dfyconfig.toml` checks all of it.

- **Text** (`Utf8`, `Utf8Ignore`, `Utf16Ignore`, `Lines`, `TextLines`, `LineReader`, `TailReader`, `TextScan`): the
  hand-written decoders of `packages/kaos/src/internal.ts` and the chunked readers of `packages/kaos/src/local.ts`. A
  file is a byte sequence, a read is any division of it into non-empty chunks, text is a sequence of Unicode scalar
  values. The specifications are the grammar of section 4 of RFC 3629, sections 2.1 and 2.2 of RFC 2781, and whole-file
  functions such as "split into lines".
- **Glob** (`GlobWalk`, `GlobMatch`, `GlobTheorems`, `GlobStars`, `SshGlob`): both glob walkers over a directory graph,
  which may have cycles. The match of one pattern part against one name is a parameter.
- **Shell** (`PosixShell`, `SshCommand`): the remote command line, read back by a scanner for the quoting and token
  rules of sections 2.2 and 2.3 of POSIX XCU.
- **Stream** (`StreamAssembler`, `StreamCalls`, `StreamInterleaving`, `StreamContent`, `StreamOutcome`): assembling a
  streamed model response, against a description of the message that looks at positions in the stream only.
- **Tokens** (`TokenState`, `RefreshProtocol`, `RefreshOutcome`, `RefreshCoalescer`, `CoalescerTheorems`,
  `DeviceLogin`): token refresh as a transition system of any number of processes around one stored token, one lock and
  a server that rotates refresh tokens; the coalescing of callers inside one process, as a transition system over the
  microtask queue; and the device-code polling loop.
- **Sessions** (`WireIds`, `TurnListener`, `TurnTheorems`, `TurnShown`, `TurnText`, `Replay`, `ReplayTranscript`): the event
  listener of one prompt and the replay of a stored history.
- **Registry** (`CustomRegistry`, `RegistryTheorems`, `RegistryIdempotence`): rewriting the config from a custom registry.

Code that updates variables is a method or a class here; its contract equates the result or the new state with a
function, and the theorems are about that function. Concurrent code is a set of atomic steps, one per `await`.

## Where the code falls short of the obvious claim

Each with its exact condition and a concrete input.

- `LinesAgreeIff`: reading lines in `ignore` mode differs from splitting the decoded text exactly when the last line has
  no terminator and all its bytes are invalid; one empty string more is yielded (`ContinuationByteVanishes`).
- `ReadUtf8Lines`: a `maxLines` of zero or less still yields one line (`ZeroLimitYieldsOne`).
- `NeverRepeatsIff`: a pattern whose parts can match at all yields no path twice, on any file system, exactly when it has
  at most one `**`; with two, a directory `n` levels down is yielded `n + 1` times by `**/**` (`TwoStarsRepeat`).
- `ArgumentAssignsIff`: an argument such as `A=b` needs no quotes by the code's rule, so the shell takes it as an
  assignment when it stands where assignments may stand (`BareAssignment`).
- `BuriedCallOutcome`: a call waiting for the lock when a tombstone is stored ends unauthorized, or with the failure to
  lock exactly if it fails to get the lock.
- `IdempotentIff`: importing a registry twice can lose a default that one import kept (`ImportCanCostTheDefault`).
- `ApplyAloneDanglesIff`: applying one entry without removing its provider first leaves the default dangling when it was
  an alias of that provider that the entry does not list (`ApplyAloneDangles`).
- `ShownRightIff`: argument text is kept by raw tool-call id, so an update can show another turn's text exactly when
  another turn has used the raw id since the call's first delta or last start (`InterleavedTurnsMix`).
- `ResultsAreBackedIff`: in a replay a tool result is sent even when the push of its call was rejected, unless the id is
  created again first (`ResultWithoutItsCall`).

## Model

| member | source | states |
|---|---|---|
| Utf8.MasksAreOffsets | packages/kaos/src/internal.ts:7-82 | The decoder's mask-and-shift expressions equal the arithmetic form used in the model, for every lead byte range. |
| Utf8.EncodeOneIsChar | packages/kaos/src/internal.ts:7-82 | Encoding a scalar value gives one character of the RFC 3629 grammar, and the decoder's formula takes it back to that value. |
| Utf8.EncodeCodePoint | packages/kaos/src/internal.ts:7-82 | Conversely, encoding the value of a grammatical character gives back its bytes: no second encoding is accepted. |
| Utf8.PrefixFree | packages/kaos/src/internal.ts:7-82 | No UTF-8 character is a proper prefix of another, so the decoder's choice of length is forced. |
| Utf8Ignore.CharLength | packages/kaos/src/internal.ts:7-82 | The length found is that of a grammatical character at the front, and 0 means that no prefix is one. |
| Utf8Ignore.TestsAreTheGrammar | packages/kaos/src/internal.ts:3-82 | The code's cascade of byte tests recognises exactly the characters of the grammar, with their lengths. |
| Utf8Ignore.DecodeUtf8Ignore | packages/kaos/src/internal.ts:7-82 | The loop computes `DecodeIgnore`: take a character where one starts, else drop one byte. |
| Utf8Ignore.DecodeEncode | packages/kaos/src/internal.ts:7-82 | Decoding inverts the standard encoder on every sequence of scalar values. |
| Utf8Ignore.KeepsASubsequence | packages/kaos/src/internal.ts:7-82 | On arbitrary bytes the re-encoded output is a subsequence of the input: nothing is invented or reordered. |
| Utf8Ignore.DecodeIdempotent | packages/kaos/src/internal.ts:7-82 | Decoding, encoding and decoding again changes nothing. |
| Utf8Ignore.LosslessIffUtf8 | packages/kaos/src/internal.ts:7-82 | Re-encoding gives the input back exactly when the input derives from the RFC 3629 grammar. |
| Utf8Ignore.OutputIsCharsOfSegmentation | packages/kaos/src/internal.ts:7-82 | However the input is cut into characters and stray bytes at which no character starts, the output is the code points of those characters, in order. |
| Utf8Ignore.SegmentationExists | packages/kaos/src/internal.ts:7-82 | Every input has such a cut. |
| Utf8Ignore.DecodeSplitsAtLf | packages/kaos/src/internal.ts:7-82 | No decoding step crosses a line feed: decoding distributes over a cut just before or after byte 0x0A. |
| Utf16Ignore.DecodeUtf16LeIgnore | packages/kaos/src/internal.ts:84-121 | The loop computes `DecodeIgnore16`: surrogate pairs are joined, single surrogates and a final odd byte are dropped. |
| Utf16Ignore.DecodeEncode16 | packages/kaos/src/internal.ts:84-121 | Decoding inverts the UTF-16LE encoder of RFC 2781 on every sequence of scalar values. |
| Utf16Ignore.KeepsASubsequence16 | packages/kaos/src/internal.ts:84-121 | On arbitrary bytes the re-encoded output is a subsequence of the input. |
| Utf16Ignore.DecodeIdempotent16 | packages/kaos/src/internal.ts:84-121 | Decoding, encoding and decoding again changes nothing. |
| Utf16Ignore.LosslessIffWellFormed16 | packages/kaos/src/internal.ts:84-121 | Nothing is dropped exactly when the input is well-formed UTF-16LE. |
| Lines.SplitLinesKeepingTerminator | packages/kaos/src/local.ts:771-783 | The loop returns the line split of the text. |
| Lines.LineSplitUnique | packages/kaos/src/local.ts:771-783 | A list of lines is that split if and only if it concatenates to the text, its lines end in their only line feed, and at most the last, non-empty one has none. |
| Lines.LineCount | packages/kaos/src/local.ts:490-526 | The number of lines is the number of terminators, plus one when the last line has none. |
| TextLines.ReadingIsDecoding | packages/kaos/src/local.ts:588-643 | Decoding a file line by line and concatenating equals decoding the whole file in `ignore` mode, for all bytes. |
| TextLines.LinesOfText | packages/kaos/src/local.ts:588-643 | The decoded lines are the lines of the decoded file, followed by one empty string when the last line vanishes. |
| TextLines.LinesAgreeIff | packages/kaos/src/local.ts:588-643 | The two line lists are equal exactly when no unterminated last line consists of dropped bytes alone. |
| TextLines.ContinuationByteVanishes | packages/kaos/src/local.ts:588-643 | The file of the one byte 0x80: one empty line against none. |
| TextLines.LineFeedEndsLine | packages/kaos/src/local.ts:588-643 | The byte that ends a line is 0x0A. |
| LineReader.ReadUtf8Lines | packages/kaos/src/local.ts:588-643 | For every chunking, start line and line limit the reader emits exactly that window of the whole file's lines, with the BOM flag of each line. |
| LineReader.EmissionAt | packages/kaos/src/local.ts:588-643 | The BOM flag of line `k` says whether its true byte offset is 0, so only the line at the start of the file can lose a BOM. |
| LineReader.ZeroLimitYieldsOne | packages/kaos/src/local.ts:588-643 | With a limit of zero or less the window is the start line alone. |
| TailReader.ReadTail | packages/kaos/src/local.ts:540-586 | For every block size and count the backward scan returns a suffix of the file whose lines are exactly the last `min(k, total)` lines. |
| TailReader.TailIsRange | packages/kaos/src/local.ts:528-586 | For `k` up to the total, the tail has the same bytes and the same decoded text as the line range from `total - k + 1`. |
| TailReader.TailTextIsRangeText | packages/kaos/src/local.ts:528-586 | Line by line the decoded tail and range agree, but for the empty string of a vanishing last line, which only the range yields. |
| TextScan.Utf8Validator.Write | packages/kaos/src/local.ts:811-862 | A chunk is accepted, and the state advanced, as by feeding its bytes one at a time, so chunking does not matter. |
| TextScan.Utf8Validator.End | packages/kaos/src/local.ts:811-862 | `end` succeeds exactly when no continuation byte is missing. |
| TextScan.FeedConcat | packages/kaos/src/local.ts:811-862 | Feeding a concatenation is feeding its parts in turn. |
| TextScan.AcceptsIffUtf8 | packages/kaos/src/local.ts:811-862 | The validator accepts exactly the byte strings of the RFC 3629 grammar. |
| TextScan.LineEndingFlags.UpdateFromBytes | packages/kaos/src/local.ts:785-809 | After any chunking the flags say whether the bytes seen hold a CR LF, an LF without CR, or a CR that something else follows. |
| TextScan.LoneCrs | packages/kaos/src/local.ts:490-526 | At the end of the file a lone CR exists exactly if one was broken by another byte or the file ends in CR. |
| TextScan.ScanTextFile | packages/kaos/src/local.ts:490-526 | For every chunking the scan succeeds exactly on UTF-8 files, and its line count, NUL flag and line-ending flags equal their whole-file definitions. |
| GlobWalk.GlobWalkLocal | packages/kaos/src/local.ts:339-445 | The recursive generator yields the sequence `Walk` and terminates on every finite graph by unvisited directories and then remaining parts. |
| GlobWalk.GlobEntriesLocal | packages/kaos/src/local.ts:374-445 | The loop over a listing yields the concatenation of what its entries yield, in listing order. |
| GlobMatch.CountWalk | packages/kaos/src/local.ts:339-445 | On every graph, how often a path is yielded equals the number of ways in which the pattern's parts can be laid over its names. |
| GlobMatch.CutsFit | packages/kaos/src/local.ts:339-445 | Each way counted does fit: `**` takes any number of directories, any other part one matching name, a final `**` anything below. |
| GlobMatch.FitsIsCut | packages/kaos/src/local.ts:339-445 | Each way that fits is counted. |
| GlobMatch.CutsDistinct | packages/kaos/src/local.ts:339-445 | No way is counted twice. |
| GlobMatch.OneStarOneWay | packages/kaos/src/local.ts:339-445 | With at most one `**` there is at most one way. |
| GlobTheorems.YieldedIff | packages/kaos/src/local.ts:339-445 | A path is yielded if and only if the walk can reach it and the pattern fits it. |
| GlobTheorems.NoPathTwice | packages/kaos/src/local.ts:339-445 | With at most one `**` no path is yielded twice. |
| GlobTheorems.TwoStarsRepeat | packages/kaos/src/local.ts:339-445 | The pattern `**/**` fits a directory `n` levels down in `n + 1` ways. |
| GlobStars.TwoStarsTwoCuts | packages/kaos/src/local.ts:339-445 | For every pattern with two `**` whose other parts match some name there are names that it fits in two ways. |
| GlobStars.TwoStarsRepeatSomewhere | packages/kaos/src/local.ts:339-445 | So there is a tree on which the walker yields some path twice. |
| GlobStars.NeverRepeatsIff | packages/kaos/src/local.ts:339-445 | Such a pattern repeats no path on any file system if and only if it has at most one `**`. |
| GlobTheorems.NoDirectoryTwice | packages/kaos/src/local.ts:294-445 | On any graph, cycles included, no yielded path descends through the same directory twice or through one already visited. |
| GlobTheorems.LookInTree | packages/kaos/src/local.ts:294-445 | Where no link leads back up, the visited set never cuts anything off. |
| GlobTheorems.GlobOnTree | packages/kaos/src/local.ts:294-445 | On a tree `glob` yields exactly the existing paths that the pattern fits, each once when there is at most one `**`. |
| SshGlob.GlobWalkSsh | packages/kaos/src/ssh.ts:634-705 | The SFTP walker yields the sequence `SshWalk`. |
| SshGlob.GlobEntriesSsh | packages/kaos/src/ssh.ts:662-704 | Its loop skips `.` and `..` and concatenates what the other entries yield. |
| SshGlob.OnlyDotsAreDropped | packages/kaos/src/ssh.ts:662-664 | The entries compared with a local listing are all but those named `.` and `..`, in order. |
| SshGlob.SameYields | packages/kaos/src/ssh.ts:634-705 | On a tree both walkers yield the same paths in the same order, from every directory and every visited set above it. |
| SshGlob.SameGlob | packages/kaos/src/ssh.ts:619-705 | So `glob` answers alike locally and over SSH for the same directory order. |
| SshCommand.BuildExecCommand | packages/kaos/src/ssh.ts:894-923 | The builder fails exactly on the first variable whose name is no shell name, and otherwise returns the command line. |
| SshCommand.LexQuoted | packages/kaos/src/ssh.ts:114-120 | Whatever the argument and whatever stands around it, the shell reads the quoted form as the argument's own characters, as part of one word. |
| SshCommand.CommandReadsBack | packages/kaos/src/ssh.ts:894-923 | For all arguments, values and directories the shell's tokens are `cd`, the directory, `&&`, one word per assignment and one word per argument. |
| SshCommand.NothingLeftToExpand | packages/kaos/src/ssh.ts:114-120 | No unquoted character of any word is one that section 2.2 of POSIX XCU has quoted, those of pathname and tilde expansion included. |
| SshCommand.EnvEntryAssigns | packages/kaos/src/ssh.ts:899-915 | Each environment word is an assignment to its own name. |
| SshCommand.ArgumentAssignsIff | packages/kaos/src/ssh.ts:114-120 | An argument's word has the form of an assignment exactly when the argument is all safe characters and starts with a name and `=`. |
| SshCommand.BareAssignment | packages/kaos/src/ssh.ts:114-120 | The argument `A=b` is sent without quotes and has the form of an assignment. |
| StreamAssembler.Assembler.MergeInPlace | packages/kosong/src/message.ts:141-172 | The pending part changes exactly as `Merge` says, and not at all when it answers false. |
| StreamAssembler.Assembler.FlushPart | packages/kosong/src/generate.ts:264-289 | A flushed part is appended to the content or the calls, and an indexed call is entered in the map. |
| StreamAssembler.Assembler.Accept | packages/kosong/src/generate.ts:114-164 | One turn of the loop is `Step`: routed deltas append to their call, others merge with the pending part or replace it. |
| StreamAssembler.Generate | packages/kosong/src/generate.ts:114-196 | The whole run returns the message, or the error for an empty response, of the final state. |
| StreamCalls.Invariant | packages/kosong/src/generate.ts:114-164 | After every part, for every stream, the finished calls, the pending part and the index map are the ones the stream's positions describe. |
| StreamCalls.CallsAreRight | packages/kosong/src/generate.ts:114-164 | For every stream the final calls are in header order, each with its header's arguments followed in order by exactly the deltas that belong to it. |
| StreamCalls.CallFields | packages/kosong/src/generate.ts:114-164 | Call by call: id, name and extras are the header's, and the arguments are the pieces of the header and its deltas joined in order, absent if there is none. |
| StreamCalls.IndexedDelta | packages/kosong/src/generate.ts:114-164 | A delta with the index of an earlier header belongs to the most recent such header. |
| StreamInterleaving.ArgsFromChannel | packages/kosong/src/generate.ts:114-164 | A call's arguments depend only on the headers and deltas of its own index. |
| StreamInterleaving.InterleavingDoesNotMatter | packages/kosong/src/generate.ts:114-164 | Two indexed streams with the same headers in order and the same deltas per index give the same calls, however they and the content are interleaved. |
| StreamContent.MergeKeepsItems | packages/kosong/src/message.ts:141-172 | Merging concatenates the characters of both parts and never overwrites a signature. |
| StreamContent.ContentIsMerged | packages/kosong/src/generate.ts:114-164 | The content is the stream's content parts with every maximal run of joining neighbours made into one part, deltas of calls not counting as neighbours. |
| StreamContent.NothingLost | packages/kosong/src/generate.ts:114-165 | For every stream the characters, signatures and media of the content are those of the stream, in order. |
| StreamOutcome.RejectedIff | packages/kosong/src/generate.ts:166-196 | The response is rejected as empty exactly if nothing but deltas was streamed, and as thinking only exactly if there was a thought, no call, and the streamed text trims to nothing. |
| StreamOutcome.TrimEmpty | packages/kosong/src/generate.ts:180 | A text has something visible exactly if stripping the white space and line terminators of ECMA-262 from both ends leaves something. |
| TokenState.TombstoneIsRevoked | packages/oauth/src/token-state.ts:28-45 | A tombstone is classified as revoked and keeps the scope and type. |
| RefreshProtocol.StepInv | packages/oauth/src/oauth-manager.ts:284-397 | Every step of every process and of the server keeps the invariant on lock, server, storage and history. |
| RefreshProtocol.RefreshIsSafe | packages/oauth/src/oauth-manager.ts:308-397 | In every run each refresh token submitted was live or revoked by the server itself, no token is exchanged twice, and only revoked tokens are buried. |
| RefreshProtocol.StorageStaysHonest | packages/oauth/src/oauth-manager.ts:308-397 | In every run the stored refresh token is live or revoked by the server whenever no exchange is waiting to be saved. |
| RefreshProtocol.OneHolder | packages/oauth/src/oauth-manager.ts:314-397 | At most one process is between taking the lock and giving it back. |
| RefreshProtocol.NoPeerRotation | packages/oauth/src/oauth-manager.ts:363-397 | Under the lock the read after a rejection never finds another token, and the rejected one has been revoked. |
| RefreshProtocol.BuryStoresTombstone | packages/oauth/src/oauth-manager.ts:363-397 | Burying a token stores the tombstone, with the token's scope and type and everything else empty. |
| RefreshProtocol.BuriedStep | packages/oauth/src/oauth-manager.ts:284-397 | After a tombstone no step changes storage or submits a token, and a call that can only end unauthorized stays so unless it fails to get the lock. |
| RefreshProtocol.BuriedForGood | packages/oauth/src/oauth-manager.ts:284-397 | The same over every continuation of every run, for calls waiting for the lock and calls started later. |
| RefreshProtocol.BuriedCallEnds | packages/oauth/src/oauth-manager.ts:284-397 | After a tombstone each own step of a call brings it closer to its end, where it no longer holds the lock. |
| RefreshProtocol.BuriedCallOutcome | packages/oauth/src/oauth-manager.ts:284-397 | In every continuation a call that had not read a token under the lock, once ended, is unauthorized, or has failed to lock exactly if that step happened, and does not hold the lock. |
| RefreshOutcome.FirstRead | packages/oauth/src/oauth-manager.ts:284-306 | Without the lock the stored access token is the answer exactly if it is there, the call does not force and the token is not due: it never expires, or has at least five minutes and half its lifetime left. |
| RefreshOutcome.SecondRead | packages/oauth/src/oauth-manager.ts:316-361 | Under the lock a token that a peer has renewed, or that is no longer due, is the answer; a tombstone or a missing refresh token means unauthorized; otherwise the stored refresh token is submitted, in exactly these cases. |
| RefreshOutcome.AnswersFromStorage | packages/oauth/src/oauth-manager.ts:308-397 | In every run a lock holder that is about to answer with a token answers with the stored one, and one about to answer unauthorized finds a tombstone or no refresh token. |
| RefreshOutcome.CallAnswers | packages/oauth/src/oauth-manager.ts:284-397 | In every run a finished call has answered with the access token that the server issued in its exchange, if there was one; unauthorized, if the server refused; and an error exactly if it could not lock or reach the server. |
| RefreshOutcome.ExchangeIsSaved | packages/oauth/src/oauth-manager.ts:363-367 | After an exchange the lock is given back only when storage holds just what the server issued. |
| RefreshCoalescer.StepInv | packages/oauth/src/oauth-manager.ts:254-282 | Every call, run end and microtask keeps the invariant on the slot, the callers and the order of the queue. |
| CoalescerTheorems.OneRunAtATime | packages/oauth/src/oauth-manager.ts:254-282 | In every interleaving the slot holds exactly the run not yet cleaned up, there is at most one, and a forced caller's result comes from a forced run. |
| CoalescerTheorems.SlotIsOwn | packages/oauth/src/oauth-manager.ts:270-281 | A run's `finally` always finds its own run in the slot, and every queued task can run. |
| CoalescerTheorems.PlainCall | packages/oauth/src/oauth-manager.ts:254-282 | In every reachable state a call without force gets the run in the slot, or starts exactly one run, which is not forced; it never waits. |
| CoalescerTheorems.ForcedCall | packages/oauth/src/oauth-manager.ts:254-282 | A forced call gets the forced run in the slot, waits last behind one that is not forced, or starts exactly one forced run. |
| CoalescerTheorems.RunIsForcedByCall | packages/oauth/src/oauth-manager.ts:254-282 | In every run of the manager each forced refresh has a caller that called with force. |
| CoalescerTheorems.CallersStandAsAsked | packages/oauth/src/oauth-manager.ts:254-282 | Every caller stands as forced exactly if it called so, and only such callers wait. |
| CoalescerTheorems.NobodyLost | packages/oauth/src/oauth-manager.ts:258-270 | A waiting caller always has a run that is not over, or a task on its way that leads to its waking. |
| RefreshCoalescer.CatchOrderly | packages/oauth/src/oauth-manager.ts:258-270 | The `catch` reactions of one run's waiters stand side by side in the queue, and the order in which their `then` reactions follow lets no `finally` in between. |
| CoalescerTheorems.NobodyLeftBehind | packages/oauth/src/oauth-manager.ts:254-282 | When the queue is empty every waiting caller waits for the run in the slot. |
| CoalescerTheorems.QueuedCallersShare | packages/oauth/src/oauth-manager.ts:254-282 | For every interleaving and whatever calls come in between, callers once queued behind one run stay together; once both have been given a run it is the same one. |
| CoalescerTheorems.QueuedCallerGetsForcedRun | packages/oauth/src/oauth-manager.ts:254-282 | If no call without force intervenes, the next run of a caller queued behind the run in the slot is a forced one. |
| CoalescerTheorems.JoinsIff | packages/oauth/src/oauth-manager.ts:254-282 | A woken forced caller joins a peer's run exactly while that run is not cleaned up. |
| DeviceLogin.PollCode | packages/oauth/src/oauth-manager.ts:406-457 | For one device code the polls are the script's first ones, each at exactly the increased interval after the last, none at or after the deadline; the last reply, an abort, the deadline or the end of the script fix the outcome, in both directions. |
| DeviceLogin.Login | packages/oauth/src/oauth-manager.ts:406-457 | The same for every code of a login under one deadline; a new code is asked for only after an expired one, a login succeeds exactly with the token of the last reply, which is then saved, and is denied exactly by a denial. |
| DeviceLogin.WaitsClosed | packages/oauth/src/oauth-manager.ts:425-446 | The waiting time for `n` `slow_down` replies is `n*I + 5n(n+1)/2`. |
| DeviceLogin.PollsAreLate | packages/oauth/src/oauth-manager.ts:425-446 | Every poll starts at least that long after the first one. |
| DeviceLogin.SlowDownBudget | packages/oauth/src/oauth-manager.ts:406-446 | With a budget of `B` seconds a poll after `n` `slow_down` replies implies `n*I + 5n(n+1)/2 < B`, and there are at most `B` polls. |
| DeviceLogin.Rounding | packages/oauth/src/oauth-manager.ts:406-408 | The clock rounds down to seconds and the budget rounds up. |
| WireIds.DecimalInjective | packages/acp-adapter/src/events-map.ts:87-89 | Two turn ids printed alike are equal. |
| WireIds.WireIdInjective | packages/acp-adapter/src/events-map.ts:87-89 | Two tool calls have the same wire id exactly when turn and raw id are the same, colons in raw ids included. |
| TurnListener.TurnBody.OnEvent | packages/acp-adapter/src/session.ts:924-1171 | The callback changes the listener's variables, notifications and settlement as `Step` says. |
| TurnListener.TurnBody.OnKickFailed | packages/acp-adapter/src/session.ts:1173-1180 | A failing kick-off settles the prompt unless it is settled already. |
| TurnListener.TurnBody.ToolCallStarted | packages/acp-adapter/src/session.ts:1000-1058 | A started event creates the card, or upgrades the one that a delta created, and sends a plan if there is one. |
| TurnListener.TurnBody.ToolCallDelta | packages/acp-adapter/src/session.ts:1059-1101 | The first delta of an unknown call creates the card; later ones send the accumulated text. |
| TurnTheorems.SettlesOnce | packages/acp-adapter/src/session.ts:887-1180 | For every sequence of events the prompt settles at most once, and afterwards nothing is sent and nothing changes. |
| TurnShown.SettledAs | packages/acp-adapter/src/session.ts:949-975 | The prompt is settled by the first input that calls for it and as that input says: the stop reason of each end reason, authentication, busy only while no own turn has begun, or the failed kick-off. |
| TurnShown.CurrentTurnIs | packages/acp-adapter/src/session.ts:938-948 | The current turn is the one that the main agent's latest event names, until an event settles the prompt and leaves none. |
| TurnShown.ShownIsSaid | packages/acp-adapter/src/session.ts:924-1171 | For every sequence of inputs the answer shown is the main agent's assistant deltas up to the settlement, joined in order, and so for thoughts; results, progress messages and plans are its events' own, with wire id, outcome and text. |
| TurnShown.StartedCard | packages/acp-adapter/src/events-map.ts:152-186 | A start sends one card with the event's title, kind, arguments and diff, a create exactly if no earlier event announced the call, and then its plan. |
| TurnShown.FirstDeltaCard | packages/acp-adapter/src/events-map.ts:245-266 | The first delta of a call sends its card: the tool's name and kind if known, pending, with the first piece of arguments. |
| TurnTheorems.CreatesComeFirst | packages/acp-adapter/src/session.ts:887-1180 | For every sequence of events there is at most one create per wire id, and every delta or start update comes after the create of its id. |
| TurnTheorems.ProgressFollowsCreate | packages/acp-adapter/src/session.ts:1102-1127 | Each notification of a progress or result event is an update of that call, and it comes after the call's create exactly when an earlier event announced the call. |
| TurnText.DeltaCarriesText | packages/acp-adapter/src/events-map.ts:197-217 | If no other turn has used the raw id since the call's first delta or last start, a delta sends one notification, which carries exactly the call's text so far. |
| TurnText.UncleanCanBeWrong | packages/acp-adapter/src/session.ts:1059-1101 | For every other sequence of events some choice of argument texts makes that notification show something else. |
| TurnText.ShownRightIff | packages/acp-adapter/src/session.ts:1000-1101 | So a delta is shown right for all argument texts if and only if its raw id is clean in that sense. |
| TurnText.InterleavedTurnsMix | packages/acp-adapter/src/session.ts:1059-1101 | Three deltas of two turns with one raw id, after which the update of one turn shows the other's arguments. |
| Replay.Replayer.ReplayMessage | packages/acp-adapter/src/session.ts:573-693 | One stored message is replayed as `OnMessage`: its notifications in order, up to the first rejected push. |
| Replay.Replayer.ReplayHistory | packages/acp-adapter/src/session.ts:519-564 | The whole history is replayed message by message, rejected pushes ending only their own message. |
| Replay.ResultsFollowTheirCalls | packages/acp-adapter/src/session.ts:519-643 | For every history and every set of rejected pushes, each result carries the wire id of the latest call with its raw id whose push was attempted before it. |
| Replay.ResultsAreBackedIff | packages/acp-adapter/src/session.ts:519-643 | For all histories and rejected pushes: every result's call was delivered if and only if no rejected push created a call whose raw id gets a result before it is created again. |
| Replay.DeliveredResultsFollow | packages/acp-adapter/src/session.ts:519-643 | When every push arrives, every result follows a delivered create of its call. |
| Replay.LaterCallsAreHidden | packages/acp-adapter/src/session.ts:594-643 | A rejected call ends its message: the result of a later call of it is skipped, or goes to the older call that has the same id. |
| Replay.ResultWithoutItsCall | packages/acp-adapter/src/session.ts:603-643 | A history in which the call's push is rejected and its result is sent all the same. |
| Replay.RunCreatesOnce | packages/acp-adapter/src/session.ts:519-693 | If no message repeats a tool-call id, no wire id is created twice, whichever pushes are rejected. |
| Replay.CreatesOnceIff | packages/acp-adapter/src/session.ts:519-693 | When every push arrives, that condition is also necessary. |
| ReplayTranscript.ReplayIsTranscript | packages/acp-adapter/src/session.ts:519-693 | When every push arrives the client sees just the history: every non-empty text and thought, every call under its message's turn, and every result whose call is known, with outcome and text, in order. |
| CustomRegistry.ManagedConfig.RemoveProvider | packages/oauth/src/custom-registry.ts:330-352 | The provider and its aliases are gone, a default model among them or a default provider equal to it is cleared, nothing else changes. |
| CustomRegistry.ManagedConfig.ApplyProvider | packages/oauth/src/custom-registry.ts:283-323 | The provider record is written, its old aliases are replaced by the entry's, nothing else changes. |
| CustomRegistry.ManagedConfig.ApplyEntries | packages/oauth/src/custom-registry.ts:374-399 | The config becomes `Import` of itself: stale providers removed in whatever order, then every entry applied in turn. |
| RegistryTheorems.ImportedExactly | packages/oauth/src/custom-registry.ts:374-399 | Where entries write different keys, the last entry of each id gets a record with its own type, base URL and key, and owns exactly one alias per model, under `id/model`, with the model's name, context size and capabilities or their defaults. |
| RegistryTheorems.CapabilitiesAreRight | packages/oauth/src/custom-registry.ts:232-273 | The capabilities are those that the hints name, in the order of the table, and tool use alone when there is no hint. |
| RegistryTheorems.OthersAreKept | packages/oauth/src/custom-registry.ts:374-399 | Of the other providers exactly those go that came from the same URL, whatever their key; the rest stay, and so does every alias that no entry writes and no removed or rewritten provider owns. |
| RegistryTheorems.ImportRefersWell | packages/oauth/src/custom-registry.ts:374-399 | If every alias has its provider and the defaults resolve before an import, they do after it. |
| RegistryTheorems.ApplyAloneDanglesIff | packages/oauth/src/custom-registry.ts:283-323 | Applying one entry leaves the default dangling exactly when it was an alias of that provider that the entry does not list. |
| RegistryTheorems.ApplyAloneDangles | packages/oauth/src/custom-registry.ts:283-323 | A config whose default is the only alias of a provider, and an entry without models that leaves it dangling. |
| RegistryIdempotence.SecondImport | packages/oauth/src/custom-registry.ts:374-399 | For all configs and entries a second import of the same registry changes neither providers nor aliases. |
| RegistryIdempotence.FirstDefault | packages/oauth/src/custom-registry.ts:374-399 | The default model is kept by an import exactly if it is no alias of a stale provider, no existing provider that owns it is refreshed before an entry writes its key, and no entry that wrote it is followed by another of its id. |
| RegistryIdempotence.IdempotentIff | packages/oauth/src/custom-registry.ts:374-399 | For all configs and entries, importing twice is importing once if and only if the default provider is not listed once and new, and the default model is not a key that survives the first import and is then written again; all read off the config and the entries before. |
| RegistryIdempotence.ImportIsIdempotent | packages/oauth/src/custom-registry.ts:374-399 | That is always so where alias keys carry their own slash-free provider, references resolve and entry ids have no slash. |
| RegistryIdempotence.ImportCanCostTheDefault | packages/oauth/src/custom-registry.ts:374-399 | A config, with a default alias that is no record, that a second import changes. |
| RegistryTheorems.SlashFreeIdsAreApart | packages/oauth/src/custom-registry.ts:308-309 | Entries whose ids have no slash never write each other's alias keys. |
| RegistryTheorems.SlashesClash | packages/oauth/src/custom-registry.ts:308-309 | Two entries whose ids differ by a slash that do write the same key. |

## Left out

- Utf8Ignore.DecodeUtf8Ignore: text is a sequence of scalar values, not of UTF-16 code units; `String.fromCodePoint` is taken to be the standard encoding of both.
- LineReader.ReadUtf8Lines: the decoding of the emitted bytes by `TextDecoder` in `strict` and `replace` mode, and the removal of a BOM itself; the contract gives the bytes and the BOM flag.
- TailReader.ReadTail: positional reads that return fewer bytes than asked for, which the code ignores as well, and a file that changes while it is read.
- TextScan.ScanTextFile: the chunk's counting loop is a method of its own (`CountChunk`); one loop does both in the source.
- GlobWalk.GlobWalkLocal: directories whose inode number is 0 have no key in the source and are not guarded against cycles; the model gives every directory a key. The two identical entry loops are one method. The compilation of a pattern part to a regular expression is a parameter, since escaped `*` and `?` do not mean what its comment says.
- SshGlob.SameYields: entries whose `stat` fails are only possible locally and are excluded; an SFTP walk of a graph with cycles does not terminate and is not modelled.
- PosixShell: expansion of unquoted characters is not modelled but shown to be unnecessary; reserved words and aliases are not recognised.
- StreamAssembler.Generate: callbacks, abort signals, the copying of parts and the finish-reason text of errors; that the message shares part objects with the provider's stream is not captured.
- RefreshProtocol.RefreshIsSafe: not modelled are logout, login during a refresh, the fallback for a missing token after a logout, responses lost after a rotation, failing saves, a disabled lock and the breaking of stale locks; the source is best-effort there.
- CoalescerTheorems.QueuedCallersShare: several promise hops in a row are one task of the queue, and reactions that neither change the slot nor end a run are not in it.
- DeviceLogin.PollCode: polls that throw, fractional intervals, and the expiry time that the server sends with a code, which the source does not use.
- TurnListener.TurnBody.OnEvent: pushes that fail, which the source only logs; the mappers for displays, results and plans and the printing of arguments are abstracted to strings, the constant status of updates is omitted, and the session's own turn-id field is not modelled.
- Replay.Replayer.ReplayMessage: parsing and printing of stored tool arguments is abstracted to a string.
- CustomRegistry.ManagedConfig.ApplyEntries: key order of the config's records and of `entries` is not captured, nor are keys inherited from `Object.prototype`; entries are taken in the order of `Object.values`. The first loop and the two alias loops are methods of their own.
- Fetching and parsing a registry, and the refresh dispatcher that calls these functions.
- HTTP, SFTP, child processes, timers and real file access: only bytes, graphs, the lock and the clock remain.
- Migrations, model catalogs, approval and question mapping, slash commands, usage texts, configuration schemas, telemetry: branch-by-branch code without a property across operations.
