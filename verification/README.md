# Verified models of browxai

browxai gives an agent a browser and keeps a person in charge of it. This project
models the parts of it where order, bounds and state matter most, and proves what they
promise. `dafny verify dfyconfig.toml` checks everything.

## The parts

**The operator channel.** Requests for approval go over a socket to a daemon that both
sides authenticate. `OperatorProtocol.dfy` holds the proofs and the rules for an answer,
`OperatorFrames.dfy` the request frames and their sizes, `OperatorLink.dfy` the channel
as a class whose methods refine functions on its state. `OperatorLinkRuns.dfy` lets
socket, timer, abort, ask and close events come in any order and has the invariant that
all of them keep; `OperatorLinkGuarantees.dfy` is what follows for every run: an ask
settles once, nothing is approved that the authenticated daemon did not approve, requests
reach no one else, limits and sizes hold. `OperatorLinkHistory.dfy` shows that no step
takes back what is known, `OperatorLinkInbound.dfy` that what the channel reads is what
arrived, `OperatorLinkFraming.dfy` that chunking makes no difference, and
`OperatorLinkEarly.dfy` what is said before the daemon is proven. `Bridge.dfy` and
`BridgeRuns.dfy` are the session's side: with the operator wired it is the only route to
an answer; without it only the bridge's own isolated world is. `OperatorRoute.dfy` runs
the two together: which request a wait hangs on, and what a detach does to it.

**The live view.** `ViewRules.dfy` has the request limits, the quality ladder, the
adapter that walks it and the cut of a frame into parts. `ViewStream.dfy` is one stream,
with every `await` a step of its own, and `ViewStreamRuns.dfy` proves over all
interleavings that one screencast is open at a time and that frames are paced;
`ViewStreamStall.dfy` says when a stream that is never acked ends.
`ViewHub.dfy` is the hub with its serial chains and its epoch, `ViewHubRuns.dfy` has its
runs and their invariant, `ViewHubGuarantees.dfy` proves that its map is the running
streams and that nothing survives a disconnect or the end of its session, and
`ViewHubLimit.dfy` says in which runs its limit on streams holds. `ViewLines.dfy` counts
the bytes of every line of the live view, `OperatorLinkTalk.dfy` says what a step of the
channel means to it, and `OperatorView.dfy` runs channel and hub together: no stream
outlives the connection it started on. `LiveView.dfy` adds the streams that the hub makes:
every screencast ends with its stream, pictures go to the proven daemon alone, and no line
is too long.
`JpegHeader.dfy` reads a picture's size from its header.

**The config file.** `LineDiff.dfy` proves the shown diff a correct and minimal edit
script, trimmed to exactly its context. `ConfigWrite.dfy` proves that the write through a
temp file, a rename and a backup is all or nothing at every point where it may stop.

**The accessibility tree.** `AxTree.dfy` builds a tree from an arbitrary, possibly
cyclic graph. `AxTreeOrder.dfy` shows it to be the depth-first first-visit order less the
dropped nodes, `AxTreeRefs.dfy` that refs do not depend on what is ignored, and
`AxTreeWalk.dfy` that the walk over it leaves nothing out.

**Coverage and export.** `Coverage.dfy` proves that merged dead ranges are the union and
that the bytes used are the offsets outside it. `AssetNames.dfy` and `AssetExport.dfy`
prove that an export loses count of nothing and overwrites nothing but an older manifest.

`Json.dfy` holds the values that several of these share, `Collections.dfy` and `Reals.dfy`
facts about sequences, sets and real numbers.

## How it is modelled

A class of the program is a class here. Its methods change fields step by step and each
states its whole effect as a function of the old state; the lemmas are about those
functions. A run is a sequence of events. An event that cannot happen in a state changes
nothing, so every theorem about runs is about all sequences of events. The wire, the
promises that settled, the handles opened and stopped and what CDP reported are kept as a
history beside the state; nothing in the program reads it.

The clock is a parameter of each event and does not go back. The keyed hash is a
function about which only this is known: proofs are 64 lower-case hexadecimal digits, and
ids, nonces and handles are fresh. Text is a sequence of UTF-16 code units, and JSON text
counts by its bytes (section 7 of RFC 8259). Rates, times and shares are real numbers.

## What does not hold as one might read it

- The limit of four streams is not looked at again after a restart's `await`
  (src/helper/operator-view-hub.ts:287-288). `ViewHubLimit.LimitExactly` says in which runs
  it holds, and `ViewHubLimit.LimitCanBeExceeded` gives a run with five.
- A daemon that never acks does not always have its stream stopped, against
  src/helper/operator-view-hub.ts:15-16: a frame that finds the last one overdue counts it
  lost (line 153) even if it cannot go out itself, and then there is nothing to stall on.
  `ViewStreamStall.InFlightExactly` and `ViewStreamStall.SilentDaemonIsStopped` say exactly
  when it is stopped, and `ViewStreamStall.SilentDaemonCanRunOn` gives a run where it is not.
- `writeSync` may write less than it is given and its result is not looked at
  (src/cli/init-user-config.ts:183). `ConfigWrite.SuccessIsWholeExactly` gives the exact
  condition for the config and for its backup; `ConfigWrite.ShortWriteIsNotNoticed` and
  `ConfigWrite.ShortBackupIsNotNoticed` are runs that succeed with the one or the other cut.
- A temp file whose random name exists already is not written over, but the clean-up then
  removes that other file (src/cli/init-user-config.ts:159-166):
  `ConfigWrite.CollidingFileIsRemoved`.
- The cap on the depth of a tree loses nodes only on graphs of more than 2001 nodes
  (`AxTreeOrder.SmallGraphsAreWhole`), and there it can (`AxTreeOrder.LongChainsAreCut`).
- The diff shows nothing when the texts differ by one newline at the very end
  (`LineDiff.SilentExactly`), and prints a gap mark just as it would an unchanged line of
  three dots (`LineDiff.PrintTellsApart`).
- A share of 100 does not mean that no code is dead: `Coverage.HundredExactly` has the exact
  condition and `Coverage.HundredCanBeDead` a script.
- The comment on file names counts characters against a limit of 255 bytes
  (src/page/asset-export-naming.ts:11-13). `AssetNames.BytesFitExactly` says which names keep
  to it, `AssetNames.AsciiAlwaysFits` that ASCII names do, and `AssetNames.LongInBytes` has
  one that does not; the export then drops the asset with a warning.
- The name cut at 200 characters may end in a dot, an underscore or a blank again
  (`AssetNames.TwiceExactly`, `AssetNames.CutCanLeaveADot`).
- The count in the warning of an export stopped by `maxCount` is not always the number of
  matches that were not persisted (`AssetExport.WarningIsRightExactly`,
  `AssetExport.WarningCanBeWrong`).
- Of the channel's own lines only requests are withheld until the daemon is proven. A
  `resolved` for a request that ends during the handshake goes out on that connection:
  `OperatorLinkEarly.EarlyEndsExactly` says exactly when, and
  `OperatorLinkEarly.FirstLineIsResolved` has it before the hello.

## Model

| member | source | states |
|---|---|---|
| `ViewRules.ParseViewStart` | src/helper/operator-view.ts:50-76 | accepted exactly when the session has a name, the format is JPEG or left out and every number given is one; what is left out takes its default, and each number is the nearest between floor and ceiling to what was asked, the width rounded |
| `ViewRules.LevelsFor` | src/helper/operator-view.ts:90-104 | the loop builds the ladder: the four rounded pictures with immediate repeats left out |
| `ViewRules.LadderShape` | src/helper/operator-view.ts:87-104 | the ladder starts at the request rounded to 0.1 fps, ends at the floors, never rises in rate or width and holds no level twice |
| `ViewRules.LadderFloor` | src/helper/operator-view.ts:90-104 | no accepted request steps below 0.2 fps or 160 px |
| `ViewRules.ViewAdapter.CloseWindow` | src/helper/operator-view.ts:151-182 | one window: the move, the new index, the clean count and the emptied tallies |
| `ViewRules.ViewAdapter.NoteAck` | src/helper/operator-view.ts:146-148 | the smoothed round trip, the first ack unsmoothed |
| `ViewRules.AdapterHysteresis` | src/helper/operator-view.ts:106-183 | over every run the index is downs minus ups and stays on the ladder; a rise ends five clean windows with no move among the first four, so n windows rise at most n/5 times |
| `ViewRules.FrameParts` | src/helper/operator-view.ts:218-237 | the loop gives the cut of the frame, or nothing when more than 16 parts are needed |
| `ViewRules.CutFrameIsCut` | src/helper/operator-view.ts:215-237 | the parts join back to the frame, all but the last are full, and a frame is refused exactly when it needs more than sixteen |
| `JpegHeader.JpegSize` | src/helper/operator-view.ts:189-207 | the scanning loop reads within bounds, ends, and finds the first start of frame that skipping by length reaches |
| `JpegHeader.SizeComesBack` | src/helper/operator-view.ts:187-207 | for any segments and any frame header the written size is read back; none is found exactly when the header is the last thing there |
| `ViewStream.StreamObject.Begin` | src/helper/operator-view-hub.ts:106-109 | the first open is under way and nothing else |
| `ViewStream.StreamObject.ReleaseFrame` | src/helper/operator-view-hub.ts:129-140 | a frame goes back at once, or at a timer one interval after the last one |
| `ViewStream.StreamObject.Frame` | src/helper/operator-view-hub.ts:142-163 | a frame is ignored, released, dropped, counted lost or sent as parts, as the clock and the socket say |
| `ViewStream.StreamObject.Ack` | src/helper/operator-view-hub.ts:165-172 | only the ack of the frame in flight counts |
| `ViewStream.StreamObject.Tick` | src/helper/operator-view-hub.ts:174-181 | a stalled stream ends; otherwise the window closes and a moved level retunes |
| `ViewStream.StreamObject.Retune` | src/helper/operator-view-hub.ts:185-189 | a change of width starts a restart, a change of rate none |
| `ViewStream.StreamObject.OpenReturned` | src/helper/operator-view-hub.ts:107-111 | a handle that comes back to a stopped stream is stopped at once |
| `ViewStream.StreamObject.OpenFailed` | src/helper/operator-view-hub.ts:194-199 | a failed restart leaves no handle and ends the stream |
| `ViewStream.StreamObject.StopSettled` | src/helper/operator-view-hub.ts:188-199 | after the old screencast has stopped the restart opens the new one, unless the stream has stopped |
| `ViewStream.StreamObject.End` | src/helper/operator-view-hub.ts:202-211 | ending clears every timer and stops the handle, once |
| `ViewStreamRuns.OneScreencast` | src/helper/operator-view-hub.ts:106-211 | over every interleaving two restarts never overlap; one opened screencast at most is unstopped, and none on a stopped stream; the screencasts whose stop has not returned and those on their way are one at the most, so none is asked for before the last one has gone |
| `ViewStreamRuns.WidthFollowsLadder` | src/helper/operator-view-hub.ts:183-200 | with no restart under way the screencast has the width the ladder is at |
| `ViewStreamRuns.FramesArePaced` | src/helper/operator-view-hub.ts:129-172 | the k-th later send comes no sooner than the intervals in between less a quarter of one; numbers rise by one; two sends are parted by an ack or by more than the ack timeout; releases are an interval apart, each at most once, and while the stream runs each has happened or has a timer that will |
| `ViewStreamRuns.WireIsWholeFrames` | src/helper/operator-view-hub.ts:155-162 | what was sent is the parts of whole frames, in order |
| `ViewStreamRuns.StoppedIsSilent` | src/helper/operator-view-hub.ts:135-143 | a stopped stream sends nothing and hands nothing back |
| `ViewStreamStall.InFlightExactly` | src/helper/operator-view-hub.ts:142-172 | as long as nothing is acked, a frame is in flight at every point after the first send exactly when no frame finds the last one overdue and cannot go out itself |
| `ViewStreamStall.SilentDaemonIsStopped` | src/helper/operator-view-hub.ts:174-181 | a tick more than 30 s after the start of a stream that was never acked stops it exactly when a frame is in flight, as one is once a frame has gone out and none has cleared it |
| `ViewStreamStall.SilentDaemonCanRunOn` | src/helper/operator-view-hub.ts:152-154 | for every request, a frame goes out, the next finds the socket backed up, nothing is acked, and no ticks stop the stream, however many and however late |
| `ViewHub.HubObject.RegisterSource` | src/helper/operator-view-hub.ts:226-228 | the source of the session, `null` for none |
| `ViewHub.HubObject.UnregisterSource` | src/helper/operator-view-hub.ts:230-237 | the source goes at once, the stop is queued |
| `ViewHub.HubObject.Serial` | src/helper/operator-view-hub.ts:251-261 | a task waits behind those of its session |
| `ViewHub.HubObject.ViewStart` | src/helper/operator-view-hub.ts:271-277 | a malformed start is refused, any other is queued with the epoch |
| `ViewHub.HubObject.ViewStop` | src/helper/operator-view-hub.ts:321-325 | a stop is queued behind any start |
| `ViewHub.HubObject.FinishStream` | src/helper/operator-view-hub.ts:338-346 | the stream leaves the map and ends, once |
| `ViewHub.HubObject.StreamEnds` | src/helper/operator-view-hub.ts:297 | a stream that ends itself leaves the map and tells the daemon later |
| `ViewHub.HubObject.RunQueuedStart` | src/helper/operator-view-hub.ts:281-299 | each refusal in its order, a restart that waits for the old stream, or a launch |
| `ViewHub.HubObject.LaunchStream` | src/helper/operator-view-hub.ts:292-301 | the new stream is in the map while it begins |
| `ViewHub.HubObject.BeginSettled` | src/helper/operator-view-hub.ts:300-318 | a refused screencast, a stopped stream, a lost source or the start that is told |
| `ViewHub.HubObject.RunQueuedStop` | src/helper/operator-view-hub.ts:325-330 | the running stream is ended, and without one the stop is answered |
| `ViewHub.HubObject.ResumeChain` | src/helper/operator-view-hub.ts:288-318 | what the session was waiting for goes on from its await |
| `ViewHub.HubObject.StopEveryStream` | src/helper/operator-view-hub.ts:246-249 | the epoch rises and every stream in the map ends |
| `ViewHubGuarantees.MapIsTheRunningStreams` | src/helper/operator-view-hub.ts:214-346 | in every reachable hub a stream is in the map exactly when it was made and has not stopped; one a session; each of the current epoch |
| `ViewHubGuarantees.DaemonHearsInOrder` | src/helper/operator-view-hub.ts:281-346 | the daemon hears a start and a stop of a stream at most once each, and nothing of it after its stop |
| `ViewHubGuarantees.ClosedSessionsHaveNoStream` | src/helper/operator-view-hub.ts:230-237 | from its unregistering until it is registered again a session that has a stream has a close queued behind it, and once a close has run the session has no stream in any later state, whatever starts were queued or half begun |
| `ViewHubGuarantees.NothingSurvivesDisconnect` | src/helper/operator-view-hub.ts:246-249 | after a disconnect, whatever was queued or half-started, no stream runs until the daemon asks again |
| `ViewHubLimit.LimitExactly` | src/helper/operator-view-hub.ts:287-299 | the four-stream limit holds throughout a run exactly when no restart comes back from its await to a full map |
| `ViewHubLimit.LimitWhenCalm` | src/helper/operator-view-hub.ts:287-288 | running streams and waiting restarts are at most four in a run that starts no new session while a restart waits |
| `ViewHubLimit.LimitCanBeExceeded` | src/helper/operator-view-hub.ts:286-299 | a run of the hub with five streams |
| `OperatorProtocol.ProofMatches` | src/helper/operator-protocol.ts:133-141 | a proof matches exactly when it is the expected 64 lower-case digits |
| `OperatorProtocol.CheckValue` | src/helper/operator-protocol.ts:165-185 | a value is accepted exactly when the decision and the kind of prompt call for that one |
| `OperatorProtocol.CheckGrant` | src/helper/operator-protocol.ts:187-207 | a grant is accepted exactly when the request is grantable and the grant is session or workspace wide for 1 to 86400 seconds |
| `OperatorProtocol.CheckAnswer` | src/helper/operator-protocol.ts:209-230 | an answer is accepted exactly when it fits the request and its grant, if any, rides on an approve |
| `OperatorFrames.BuildRequest` | src/helper/operator-frames.ts:60-120 | the cuts that flip flags as they go give the request and its rules |
| `OperatorFrames.CutsAreReported` | src/helper/operator-frames.ts:65-73 | `truncated` is set exactly when some text is not whole, and every choice left out is counted |
| `OperatorFrames.KeysAreOfPrompts` | src/helper/operator-frames.ts:125-130 | two requests have the same key exactly when both are of a page and agree in session, scope, tool and summary |
| `OperatorFrames.RequestFits` | src/helper/operator-frames.ts:47-50 | any request at all stays under 40 KiB at the worst escaping |
| `OperatorFrames.NoticeFits` | src/helper/operator-channel.ts:331-339 | every notice of the channel fits a line |
| `OperatorFrames.PartFits` | src/helper/operator-view.ts:22-26 | a part of a frame fits a line |
| `ViewLines.HubLinesFit` | src/helper/operator-view-hub.ts:263-269 | over every run of the hub each `view.started`, `view.stopped` and error is a line of at most 2,000 bytes, whatever sessions come and go |
| `ViewLines.StreamLinesFit` | src/helper/operator-view.ts:218-237 | over every run of a stream each part it sends is a line of at most 42 KiB |
| `OperatorLink.LinkObject.Write` | src/helper/operator-channel.ts:331-339 | nothing without a live socket, nothing oversized |
| `OperatorLink.LinkObject.SettleRequest` | src/helper/operator-channel.ts:208-217 | the request leaves the table and its promise settles, once |
| `OperatorLink.LinkObject.FinishRequest` | src/helper/operator-channel.ts:218-221 | the daemon is told, then the request settles |
| `OperatorLink.LinkObject.Room` | src/helper/operator-channel.ts:166-178 | the counting loop finds room exactly under the total, the class and the session limit |
| `OperatorLink.LinkObject.JoinPrompt` | src/helper/operator-channel.ts:180-197 | a repeat waits on the first prompt, or ends at once when its signal has fired |
| `OperatorLink.LinkObject.EnqueueRequest` | src/helper/operator-channel.ts:199-245 | pending, then ended at once if aborted, else sent if ready |
| `OperatorLink.LinkObject.AskOperator` | src/helper/operator-channel.ts:141-164 | refused, joined or enqueued, in that order of tests |
| `OperatorLink.LinkObject.CloseChannel` | src/helper/operator-channel.ts:247-257 | closed, no socket, no timer, every request denied; the stop of the streams is in `OperatorView` |
| `OperatorLink.LinkObject.Schedule` | src/helper/operator-channel.ts:309-318 | one timer, the backoff doubled up to its bound |
| `OperatorLink.LinkObject.Dial` | src/helper/operator-channel.ts:261-282 | an unsafe or missing socket waits for a retry, a good one is dialled with a fresh nonce |
| `OperatorLink.LinkObject.SocketClosed` | src/helper/operator-channel.ts:296-306 | a current socket that closes brings a retry, a superseded one nothing; the stop of the streams is in `OperatorView` |
| `OperatorLink.LinkObject.Welcome` | src/helper/operator-channel.ts:385-402 | a bad greeting drops the connection, a bad proof closes the channel |
| `OperatorLink.LinkObject.DaemonReady` | src/helper/operator-channel.ts:404-413 | ready, the backoff reset, every pending request sent again |
| `OperatorLink.LinkObject.AnswerArrives` | src/helper/operator-channel.ts:415-429 | an unknown or invalid answer is refused by name, a valid one settles its request |
| `OperatorLink.LinkObject.ViewArrives` | src/helper/operator-channel.ts:376-383 | a view frame while the view is off is refused |
| `OperatorLink.LinkObject.LineArrives` | src/helper/operator-channel.ts:357-374 | what is not a frame of this protocol changes nothing |
| `OperatorLink.LinkObject.DataArrives` | src/helper/operator-channel.ts:343-355 | the buffer loop takes whole lines while the socket is the current one |
| `OperatorLinkGuarantees.EveryAskSettlesOnce` | src/helper/operator-channel.ts:199-257 | every ask that reaches the channel has a promise; it settles exactly once and is open exactly while pending or waiting on the prompt it repeats |
| `OperatorLinkGuarantees.ResolvedIsSaidOnce` | src/helper/operator-channel.ts:218-222 | one `resolved` at most for each id, whichever of timer, abort and answer came first, only once the request is over, and with the outcome that the asker got |
| `OperatorLinkGuarantees.ConnectionKeepsItsRules` | src/helper/operator-channel.ts:247-329 | never a socket and a retry timer; a channel that is down has a retry; no nonce serves two connections; backoff within 250 and 5000 ms; a closed channel holds nothing |
| `OperatorLinkGuarantees.ClosedIsForGood` | src/helper/operator-channel.ts:247-262 | closed stays closed and writes nothing |
| `OperatorLinkGuarantees.PendingIsOnTheWire` | src/helper/operator-channel.ts:404-413 | while ready on a live socket every pending request is on that connection under its own id |
| `OperatorLinkGuarantees.RequestsGoToTheDaemon` | src/helper/operator-channel.ts:385-413 | a request goes out only on a connection whose own nonce the daemon has answered |
| `OperatorLinkGuarantees.NothingApprovesOnItsOwn` | src/helper/operator-channel.ts:357-429 | an ask is answered only by a frame that names its request and spells the decision, read in state ready from a line heard on a connection whose own nonce the daemon had answered, and passed by the request's own rules |
| `OperatorLinkInbound.HeardIsWhatArrived` | src/helper/operator-channel.ts:343-355 | on every connection the lines heard are, in order, the beginning of the text that arrived there, and on the current one the buffer is the rest |
| `OperatorLinkInbound.ReadingsAreHeard` | src/helper/operator-channel.ts:343-374 | every answer that counted was a line heard on its connection |
| `OperatorLinkHistory.StepGrows` | src/helper/operator-channel.ts:199-257 | no step takes back what was said, settled, read or heard, and only an ask adds something that waits |
| `OperatorLinkEarly.EarlyEndsExactly` | src/helper/operator-channel.ts:218-222 | in every reachable state an event has a `resolved` go out where the daemon is not proven exactly when the channel is at its hello on a standing socket and a timer or signal ends a pending request, or an ask with a fired signal is enqueued |
| `OperatorLinkEarly.FirstLineIsResolved` | src/helper/operator-channel.ts:331-339 | a run whose first line is such a `resolved`, before the hello |
| `OperatorLinkGuarantees.LimitsHold` | src/helper/operator-channel.ts:166-178 | every class, session and total limit holds, and no two pending page prompts are the same |
| `OperatorLinkGuarantees.TotalCapIsRedundant` | src/helper/operator-channel.ts:177 | the test of the total refuses nothing that the class limits let in |
| `OperatorLinkGuarantees.RepeatsEndTheSame` | src/helper/operator-channel.ts:180-197 | a repeat ends as the prompt it repeats, unless its own signal aborted it |
| `OperatorLinkGuarantees.NothingOwnIsTooLong` | src/helper/operator-channel.ts:335-337 | the size limit holds back no line of the channel's own, and nothing at all when the lines of the live view fit |
| `OperatorLinkRuns.NoAskIsTooLarge` | src/helper/operator-channel.ts:146-149 | the size refusal is never reached |
| `OperatorLinkFraming.ChunksDoNotMatter` | src/helper/operator-channel.ts:343-355 | how the bytes are cut into chunks makes no difference |
| `OperatorView.StreamsKeepToTheirConnection` | src/helper/operator-channel.ts:296-306 | over every run of channel and hub together each stream ever made comes from frames read on a connection the daemon was proven on, and is stopped unless that is still the channel's connection |
| `LiveView.ScreencastsKeepToTheirStreams` | src/helper/operator-view-hub.ts:202-211 | over every run of channel, hub and the streams the hub makes a stream is stopped exactly when the hub has stopped it, every screencast a stopped one opened has been asked to stop, and an open one is of a stream in the map on a standing connection, one a stream |
| `LiveView.StartedAsSaid` | src/helper/operator-view-hub.ts:309-319 | a `view.started` is of a stream that was made for that session and runs with just the numbers it names |
| `LiveView.PicturesGoToTheDaemon` | src/helper/operator-view-hub.ts:4-10 | over every such run a part of a frame is written only on a connection on which the daemon has answered that connection's own nonce |
| `LiveView.NothingIsKeptBack` | src/helper/operator-channel.ts:331-339 | over every such run the size limit holds back no request, no notice, nothing the hub says and no part of a frame |
| `Bridge.FirstMatch` | src/helper/bridge.ts:373-376 | the first waiter the signal answers |
| `Bridge.SignalOf` | src/helper/bridge.ts:355-367 | an abort is a failure; an approval comes back as true exactly for an approve, with the answer's grant; a human prompt comes back as proceed, or as its kind and value |
| `Bridge.BridgeObject.AwaitSignal` | src/helper/bridge.ts:306-344 | refused, sent to the operator or queued as a waiter; the ask itself is in `OperatorRoute` |
| `Bridge.BridgeObject.Signalled` | src/helper/bridge.ts:370-386 | the scan settles the first waiter that matches and removes it, and with none changes nothing |
| `Bridge.BridgeObject.TimerFires` | src/helper/bridge.ts:323-328 | the waiter leaves the list and is rejected |
| `Bridge.BridgeObject.Detach` | src/helper/bridge.ts:269-280 | every waiter is rejected in order and no channel is left; the abort of the requests is in `OperatorRoute` |
| `Bridge.BridgeObject.OperatorAnswers` | src/helper/bridge.ts:345-367 | the answer becomes the signal the caller parses; which answer it is, is in `OperatorRoute` |
| `Bridge.BridgeObject.WirePage` | src/helper/bridge.ts:171-182 | a page has one channel and a detached bridge wires none |
| `Bridge.BridgeObject.ContextReported` | src/helper/bridge.ts:183-195 | only an isolated context under the bridge's name and of no extension joins the world |
| `Bridge.BridgeObject.BindingCalled` | src/helper/bridge.ts:196-206 | a call counts only from the world, and only before detaching |
| `BridgeRuns.OperatorIsTheOnlyRoute` | src/helper/bridge.ts:298-345 | with the operator wired there is never a waiter, so no DevTools signal settles anything |
| `BridgeRuns.OnlyTheWorldAnswers` | src/helper/bridge.ts:183-206 | a wait resolves only by a call that matched it, from a context then alive in the bridge's world |
| `BridgeRuns.EveryWaitSettlesOnce` | src/helper/bridge.ts:269-332 | each wait settles once and is open exactly while it waits |
| `BridgeRuns.CallSettlesTheEarliest` | src/helper/bridge.ts:370-386 | a call settles the earliest waiter it answers and no other, and counts exactly when its context is alive |
| `OperatorRoute.TrueMeansApproved` | src/helper/bridge.ts:334-367 | over every run of the bridge and the channel together a wait that ends in true hangs on a request of its own, for which, or for the page prompt it repeats, the daemon sent an approve on an authenticated connection; a hook is never answered by the answer to another |
| `OperatorRoute.TwoHooksTwoApprovals` | src/helper/operator-frames.ts:125-126 | two hooks that both end in true were approved by two different answers, each naming its own request |
| `OperatorRoute.DetachEndsEveryWait` | src/helper/bridge.ts:269-271 | after a detach a wait whose request was open can only end in failure, whatever comes after, and one whose request was answered keeps that answer |
| `LineDiff.FillTable` | src/cli/init-user-config.ts:206-215 | the two loops fill every cell |
| `LineDiff.FillRow` | src/cli/init-user-config.ts:210-214 | one row from the row below |
| `LineDiff.WalkTable` | src/cli/init-user-config.ts:216-231 | the greedy walk over the table, additions first where both ways are as good |
| `LineDiff.CornerIsTheLongest` | src/cli/init-user-config.ts:206-215 | the corner of the table is the length of a longest common subsequence |
| `LineDiff.WalkIsAScript` | src/cli/init-user-config.ts:216-231 | without the additions the rows are the old lines, without the removals the new ones, and the unchanged rows are a longest common subsequence |
| `LineDiff.WalkIsMinimal` | src/cli/init-user-config.ts:216-231 | no rows that lead from the one text to the other keep more lines or change fewer |
| `LineDiff.TrimRows` | src/cli/init-user-config.ts:232-244 | the trimming loop |
| `LineDiff.TrimShowsExactly` | src/cli/init-user-config.ts:232-244 | every changed row, exactly the rows within two of one, and a gap mark exactly where rows are left out before a shown one |
| `LineDiff.PrintTellsApart` | src/cli/init-user-config.ts:236-244 | a printed line gives back its row; only a gap mark and an unchanged row of three dots look alike |
| `LineDiff.LineDiff` | src/cli/init-user-config.ts:202-246 | the text of the diff |
| `LineDiff.SilentExactly` | src/cli/init-user-config.ts:203-204 | the diff shows no change exactly when there was a file and the texts agree up to one newline at the end |
| `LineDiff.NewFileIsShownWhole` | src/cli/init-user-config.ts:203-236 | a new file is shown whole, as added |
| `ConfigWrite.FileSystem.WriteNew` | src/cli/init-user-config.ts:179-190 | exclusive create, one write, the mode; the number of bytes written is not looked at |
| `ConfigWrite.FileSystem.ReplaceVia` | src/cli/init-user-config.ts:151-167 | write beside, rename over, and remove the temp file on failure |
| `ConfigWrite.FileSystem.ApplyUserConfig` | src/cli/init-user-config.ts:121-130 | the backup of an existing file first, then the target |
| `ConfigWrite.ReplaceIsAtomic` | src/cli/init-user-config.ts:151-167 | all or nothing at every point; no other path; the temp file stays only when removing it failed |
| `ConfigWrite.WriteIsAtomic` | src/cli/init-user-config.ts:117-130 | stopped anywhere, the target is old or new and a replaced file is in the backup; a failure leaves the target as it was |
| `ConfigWrite.OnlyNamedPathsChange` | src/cli/init-user-config.ts:121-167 | no path but the target, its backup and the two temp files is ever touched |
| `ConfigWrite.FullWritesAreWhole` | src/cli/init-user-config.ts:117-130 | when the writes take every byte, target and backup are whole wherever the run stops |
| `ConfigWrite.SuccessIsWholeExactly` | src/cli/init-user-config.ts:117-130 | a run that succeeds has written the whole config exactly when the one write of it took every byte, and has the old contents in the backup exactly when the one write of that did |
| `ConfigWrite.ShortWriteIsNotNoticed` | src/cli/init-user-config.ts:183 | a run that succeeds and leaves the config cut |
| `ConfigWrite.ShortBackupIsNotNoticed` | src/cli/init-user-config.ts:183 | a run that succeeds, replaces the config and keeps one byte of what was there |
| `ConfigWrite.CollidingFileIsRemoved` | src/cli/init-user-config.ts:159-166 | a file that has the temp file's name is removed by the clean-up, and nothing else changes |
| `ConfigWrite.NothingIsLeftBehind` | src/cli/init-user-config.ts:163-166 | no temp file stays, and a failed run changes nothing but the backup |
| `AxTree.LastOneIsFound` | src/page/a11y.ts:119 | of the nodes with one id the last is found by it, and an id of no node finds none |
| `AxTree.RootIsTheFirst` | src/page/a11y.ts:120 | the first node without a parent among these, and the first of all when each has one |
| `AxTree.TreeBuilder.Materialise` | src/page/a11y.ts:159-182 | the entry and its ref, minted before those below |
| `AxTree.TreeBuilder.ConvertNode` | src/page/a11y.ts:208-217 | a node met before adds nothing; a dropped one adds what is below it; below the cap nothing is looked at |
| `AxTree.TreeBuilder.ConvertNodes` | src/page/a11y.ts:186-201 | the children that exist, in order, numbered among themselves |
| `AxTree.TreeBuilder.GetTree` | src/page/a11y.ts:118-227 | the tree of a page |
| `AxTreeOrder.TreeIsTheKeptVisits` | src/page/a11y.ts:186-227 | in pre-order the tree is the root and the kept nodes of the depth-first first-visit order, each under its nearest kept ancestor, with refs minted in that order |
| `AxTreeOrder.EachIsMetOnce` | src/page/a11y.ts:203-210 | on any graph no node is met twice |
| `AxTreeOrder.EachHasItsParent` | src/page/a11y.ts:186-217 | each node met is a child of one met before it |
| `AxTreeOrder.NothingIsLostExactly` | src/page/a11y.ts:203-217 | on any graph the nodes met are exactly those that can be reached, if and only if no node at the cap has a child met nowhere |
| `AxTreeOrder.SmallGraphsAreWhole` | src/page/a11y.ts:203-217 | which is so on every graph of at most 2001 nodes |
| `AxTreeOrder.LongChainsAreCut` | src/page/a11y.ts:203-217 | on a chain of 2002 nodes or more the one at depth 2001 can be reached and is not met |
| `AxTreeRefs.KeptExactly` | src/page/a11y.ts:71-73 | a node other than the root has an entry exactly when it was met and is not dropped |
| `AxTreeRefs.VisitsTwins` | src/page/a11y.ts:129-155 | what is ignored changes neither the order nor the paths |
| `AxTreeRefs.RefsHoldWhileWrappersFlip` | src/page/a11y.ts:135-147 | a node that two such snapshots both show has one key and one ref, whatever came between |
| `AxTreeRefs.RefsTellKeysApart` | src/page/refs.ts:84-93 | two entries share a ref exactly when they share a key |
| `AxTreeWalk.Walk` | src/page/a11y-types.ts:176-190 | the stack loop is pre-order down to the cap |
| `AxTreeWalk.PushChildren` | src/page/a11y-types.ts:186-188 | pushed last first, the children are popped in order |
| `AxTreeWalk.WalkOmitsNothing` | src/page/a11y-types.ts:173-190 | on a tree built here the cap cuts nothing: every entry is seen, in order |
| `Coverage.ScriptTotalSpan` | src/page/coverage.ts:213-222 | the nested loops find the span |
| `Coverage.SpanIsTheFurthestEnd` | src/page/coverage.ts:213-222 | the span is the furthest end there is, and 0 at the least |
| `Coverage.CollectDeadRanges` | src/page/coverage.ts:224-245 | the loop over the functions |
| `Coverage.DeadRangesOf` | src/page/coverage.ts:229-242 | one function: its body, or its idle blocks |
| `Coverage.DeadIsWhatNeverRan` | src/page/coverage.ts:206-245 | a range is dead exactly when it is a body that never ran or an idle block of one that did |
| `Coverage.MergeRanges` | src/page/coverage.ts:247-264 | the merging loop |
| `Coverage.MergeIsTheUnion` | src/page/coverage.ts:247-264 | sorted, non-empty, with gaps between, covering exactly the offsets from -1 up that the input covers |
| `Coverage.UnionExactly` | src/page/coverage.ts:250-251 | the merged ranges cover the input exactly when no non-empty range starts below -1 |
| `Coverage.MergeForgetsTheRest` | src/page/coverage.ts:247-264 | the result depends only on the offsets covered |
| `Coverage.ParseScriptCoverage` | src/page/coverage.ts:266-280 | the entry of a script, none without a URL |
| `Coverage.UsedIsWhatLives` | src/page/coverage.ts:271-272 | the bytes used are the offsets in no dead range, exactly when no dead range holds -1 or no offset is live; the clamp then never acts |
| `Coverage.HundredExactly` | src/page/coverage.ts:271-273 | for every script the share lies between 0 and 100, is 100 exactly when at most one byte in 20,000 is not used, and below that has a dead offset behind it; where no dead range holds -1 the bytes not used are the dead offsets |
| `Coverage.HundredCanBeDead` | src/page/coverage.ts:273 | a script with dead code and a share of 100 |
| `AssetNames.SanitisedIsClean` | src/page/asset-export-naming.ts:15-43 | any name becomes flat and visible: no separator or control character, no dot or blank first, no two dots or underscores in a row, at most 200 characters |
| `AssetNames.FixedExactly` | src/page/asset-export-naming.ts:24-43 | a name is left alone exactly when it is so already and does not end in a dot, underscore or blank |
| `AssetNames.TwiceExactly` | src/page/asset-export-naming.ts:39-40 | a second pass changes a name, as its end is a dot, underscore or blank, exactly when the cut at 200 falls right after one in the trimmed name |
| `AssetNames.CutCanLeaveADot` | src/page/asset-export-naming.ts:40 | a name of 201 characters that comes out with a dot at its end |
| `AssetNames.ResolveCollision` | src/page/asset-export-naming.ts:69-81 | the searching loop |
| `AssetNames.FreshUnlessAllTaken` | src/page/asset-export-naming.ts:69-81 | the name itself, else the first free number, else the unchecked last resort |
| `AssetNames.FewerThanAMillionIsEnough` | src/page/asset-export-naming.ts:74-80 | with at most 999,999 names used the result is unused |
| `AssetNames.ResolvedIsPlain` | src/page/asset-export-naming.ts:67-81 | what is tried is never `_manifest.json` and never leaves its directory |
| `AssetNames.ResolvedIsShort` | src/page/asset-export-naming.ts:11-13 | a numbered name has at most 207 characters |
| `AssetNames.BytesFitExactly` | src/page/asset-export-naming.ts:11-13 | a fresh name keeps to 255 bytes exactly when the trimmed name cut at 200 characters, or `asset`, does with what must be added: nothing when it is unused, else a dash and the least free number, else a dash and the last resort's text |
| `AssetNames.AsciiAlwaysFits` | src/page/asset-export-naming.ts:11-13 | an ASCII name always keeps to 255 bytes |
| `AssetNames.LongInBytes` | src/page/asset-export-naming.ts:11-13 | a name of 86 characters that does not |
| `AssetExport.Clamp` | src/page/asset-export.ts:413-420 | the caps lie between 1 and the hard ceilings |
| `AssetExport.Exporter.WriteAssetFile` | src/page/asset-export.ts:287-322 | at most 1000 names, an exclusive create, and every way out |
| `AssetExport.Exporter.PersistAssetBody` | src/page/asset-export.ts:326-357 | a stop, a drop or one more line of the manifest |
| `AssetExport.Exporter.ProcessAssetEntry` | src/page/asset-export.ts:360-393 | the tests in their order |
| `AssetExport.Exporter.Export` | src/page/asset-export.ts:429-439 | the loop over the ring, until a cap stops it |
| `AssetExport.ExportNeverClobbers` | src/page/asset-export.ts:287-322 | files that were there stay as they were but for an older manifest; saved names are new, distinct, flat and never the manifest's; each file holds what was fetched |
| `AssetExport.ExportConserves` | src/page/asset-export.ts:360-440 | every match is persisted, dropped or the one a cap stopped at; without a stop every match is seen |
| `AssetExport.RecordedSizesFit` | src/page/asset-export.ts:331-350 | when `stat` gives what was written, the recorded sizes add up to no more than the cap |
| `AssetExport.WarnedNumber` | src/page/asset-export.ts:366-370 | the number in the count warning is the drops so far and one |
| `AssetExport.WarningIsRightExactly` | src/page/asset-export.ts:366-370 | that number is the matches not persisted exactly when no match comes after the entry the run stopped at; with nothing dropped up to there, exactly when there is one match more than allowed |
| `AssetExport.WarnedIsStopped` | src/page/asset-export.ts:429-439 | every warned run stops at some entry |
| `AssetExport.WarningCanBeWrong` | src/page/asset-export.ts:366-370 | a run that warns of one match and does not persist two |

## Left out

- Sockets, CDP, Playwright, `setTimeout` and `Date.now`: events and a clock that does not go back.
- The keyed hash, random bytes and comparison in constant time: a function and fresh values.
- JSON parsing: a function from lines to documents. JSON writing: its length in bytes.
- URL stripping and secret masking: any function on text.
- Floating point: real numbers, so rounding of the last digit in rates, shares and times is not modelled.
- ViewHub.HubObject.StopEveryStream: the streams are stopped in no particular order, where the program takes them in the map's.
- ViewHubGuarantees.MapIsTheRunningStreams: the hub sees a stream as begun, stopped or failed; what goes on inside it is in LiveView.
- ViewRules.FrameParts: the width and height that a JPEG header adds to each part, as the text is not decoded from base64; in the count of bytes they are any two numbers.
- JpegHeader.JpegSize: starts from decoded bytes; the base64 of the first 12,000 characters is not decoded.
- JpegHeader.SizeComesBack: is of headers made of segments with a length; markers that stand without one are not among them.
- OperatorView.StreamsKeepToTheirConnection: all lines of one chunk are read before the hub takes the frames among them, where the program gives each to the hub as it is read; what goes out for a chunk may so be in another order.
- LiveView.ScreencastsKeepToTheirStreams: the awaits of the hub and of its streams return in any order, so the runs are more than those of the program, where the hub waits for a stream's own; an ack is any event of its stream, where the program reads it from a frame.
- OperatorLink.LinkObject.CloseChannel: leaves out the stop of the live view's streams, which is a step of OperatorView.
- OperatorLink.LinkObject.SocketClosed: leaves out the stop of the live view's streams, which is a step of OperatorView.
- Bridge.BridgeObject.AwaitSignal: in operator mode notes the wait alone; the ask, with its five minutes where no time is given, is made in OperatorRoute.
- Bridge.BridgeObject.Detach: leaves out the abort of the operator's requests, which is a step of OperatorRoute.
- Bridge.BridgeObject.OperatorAnswers: takes any result; that it is the result of the wait's own request is in OperatorRoute.
- ConfigWrite: symbolic links, resolving the path and making the directory are one call that may fail; what a power cut does to unsynced data and other writers are not modelled.
- LineDiff: the JSON and the pattern that recognise an existing entry (`planUserConfig`) are not part of this model.
- AxTree.TreeBuilder.Materialise: values, properties and locators of a node are not modelled, only its entry, key and ref.
- AxTree.TreeBuilder.GetTree: the pass that adds test ids to the tree, and the reading of the graph from CDP, are not modelled.
- AxTreeRefs.RefsHoldWhileWrappersFlip: a key is any function of role, name and path; how `elementKey` hashes them is not modelled.
- Coverage: the trackers that talk to CDP, and the CSS totals, which add used ranges unmerged.
- AssetExport: the filter (a match is given with each entry), URL parsing and percent-decoding, the directory and its checks, fetching bodies, and the other warnings' texts.
- AssetExport.Clamp: caps are integers; what a fraction or something that is no number becomes is not modelled.
- AssetExport.RecordedSizesFit: for files whose `stat` gives the size written, as without that the sum is of other numbers.
- Socket and directory permissions, environment reading, logging.
- Doctor, chrome and init commands, engine tables, action windows, page scripts, archive rewriting, build scripts: plumbing or tables.
