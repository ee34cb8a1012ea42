# Lumepeer, verified models

Lumepeer is a peer-to-peer remote desktop. This project models the self-contained logic of its
guest and of its codec bench in Dafny and proves what that logic keeps: the shape of the curves
behind a BD-rate, the one-at-a-time transfer queue, the path a picture takes from the wire to the
decoder, the terminal session, the window's geometry, keys and requests, the remote listing
protocol, and the encoder's output buffer.

`dafny verify dfyconfig.toml` checks everything.

## How it is laid out

| file | models |
|---|---|
| `Interpolation.dfy`, `RateCurve.dfy` | `pchip`, the rate-quality envelope and BD-rate, over the reals |
| `TransferQueue.dfy`, `TransferRuns.dfy`, `TransferEndings.dfy` | the file manager's transfer queue, every interleaving of its methods, and why each transfer ends as it does |
| `ViewChunk.dfy`, `AnnexB.dfy` | the reader of `view_next_chunk` answers, and the Annex B walk with the codec string |
| `NativeDecoder.dfy`, `KeyframeLoop.dfy` | the decoder's life over a browser decoder that may fail at any point, and the loop asking for keyframes |
| `TerminalPoll.dfy`, `TerminalSession.dfy` | the reader of `terminal_poll` answers, the session and its chain of keystrokes |
| `ViewGeometry.dfy`, `StreamSize.dfy` | layout, pan and pointer, and the debounced stream-size request |
| `KeyTable.dfy`, `HeldKeys.dfy`, `MoveCoalescing.dfy` | the key table, the held keys, and the pointer moves sent once a frame |
| `RemoteListing.dfy`, `ListingAwaits.dfy`, `ListingOrder.dfy`, `ListingPaths.dfy` | one listing at a time, newest wins, roots probed in turn; the same with an ask taken apart at its awaits; the orders that keeps; and the folders asked for and shown |
| `OutputBuffer.dfy` | the growing output buffer of the libaom wrapper |
| `Bytes.dfy`, `Options.dfy`, `Arithmetic.dfy` | little-endian integers, values that may be missing, and facts about real products and quotients |

Code that changes state is a class whose methods are proved equal to a step function on a value,
and the runs are folds of that step function over events. Awaits are where a method is cut in two.
The actor, the host, the browser's decoder, allocation and the clock are inputs of the steps; what
is asked of them is a predicate on the event (`Allowed`, `Possible`, `Honest`, `Enabled`, `Able`).

## What the code does not do

Eight promises one might read out of the code or its comments turn out false. Each is stated with the
exact condition under which it holds, and a run or an input on which it fails.

- The H.264 codec string is meant to come from a sequence parameter set that carries it. The code
  checks that three bytes follow within the buffer, not within the unit, so a shorter parameter set
  is misread when another unit or enough trailing zeros follow it (`AnnexB.ReadsFirstFullSps`,
  `AnnexB.ShortSpsIsMisread`, `AnnexB.TrailingZerosAreMisread`).
- A chunk is read back exactly only if its timestamps are doubles (`ViewChunk.DecodeInvertsLayout`,
  `ViewChunk.LateTimestampIsRounded`).
- Asking for a keyframe does not always bring the picture back. A keyframe is lost whenever the device
  held as its turn begins is closed (`KeyframeLoop.KeyframeRecovers`). If the close was reported that
  costs the one keyframe (`KeyframeLoop.ReportedCloseLosesAKeyframe`) and the next is reached
  (`KeyframeLoop.NextKeyframeRecovers`, `KeyframeLoop.CallingBackRecovers`). A device closed with no
  error reported, which takes a browser that closes one without calling back, is neither used nor
  replaced until the stream breaks or the codec changes (`KeyframeLoop.SilentCloseSticks`,
  `KeyframeLoop.ClosedDeviceIsKept`).
- A wheel turn is sent without the move that waits, so it can reach the host ahead of the pointer
  (`MoveCoalescing.WheelSeesReportedPosition`, `MoveCoalescing.WheelCanLag`).
- A refusal that arrives while a shell is held leaves the session saying "refused" with a shell to
  type into; nothing else puts status and shell out of step
  (`TerminalSession.OnlyAStrayRefusalMisleads`, `TerminalSession.StrayRefusalMisleads`).
- One listing at a time is kept only as long as no call comes through the guard of `openRemote` while
  another ask is between that guard and its assignment, two awaits later, and no ask throws behind a
  request that is still out (`ListingAwaits.OneListingExactly`, `ListingAwaits.TwoListingsOut`,
  `ListingAwaits.LateRejectionLeavesTwoOut`).
- The roots are not always probed in order. With each ask one step they are unless a call comes before
  the start and no folder is remembered (`RemoteListing.RootOrderExactly`,
  `RemoteListing.EarlyCallSkipsARoot`). With asks taken apart and nothing crossing, an early call does
  no harm either if it is answered for good before the start (`ListingOrder.RootOrderUncrossed`); a
  call that overlaps the first probe does (`ListingOrder.OverlapSkipsARoot`).
- The newest call does not always win when the session goes: an ask sent back waits, and a call that
  comes through meanwhile is listed before it; or it takes the place of a newer call that waited
  (`ListingOrder.NewestExactly`, `ListingOrder.OlderRequestIsListedLast`).

The code and its own comments disagree in two more places, and the model follows the code: a poll
record with an unknown event byte is skipped and reading goes on, where the comment says it stops;
and bytes behind the last frame of a chunk are ignored, where the comment says a response that
does not describe itself consistently is refused.

## Model

| member | source | states |
|---|---|---|
| `Interpolation.EdgeSlope` | tools/codec-bench/report.py:62-68 | the one-sided end slope lies between zero and three times the end secant, on every input |
| `Interpolation.EdgeSlopeIsNearest` | tools/codec-bench/report.py:62-68 | whether or not a limit bites, it is the value within the limit nearest the derivative of the parabola through the three end knots |
| `Interpolation.EdgeSlopeExactOnParabolas` | tools/codec-bench/report.py:62-68 | where no limit bites it is the derivative of the parabola through the three end knots |
| `Interpolation.HarmonicSlope` | tools/codec-bench/report.py:81-83 | the weighted harmonic mean is within the limit of both secants that meet |
| `Interpolation.HarmonicSlopeFavoursNearer` | tools/codec-bench/report.py:81-83 | it has the sign of the secants, lies between them, and its reciprocal is nearer that of the one over the shorter gap, rising or falling, whichever gap that is |
| `Interpolation.HarmonicSlopeDivides` | tools/codec-bench/report.py:82-83 | its reciprocal divides the distance between those of the secants as 2*h0 + h1 to h0 + 2*h1: the weights of the mean, which leave one value |
| `Interpolation.SlopeFitsSecants` | tools/codec-bench/report.py:73-85 | every knot's slope is between zero and three times each adjacent secant |
| `Interpolation.EndSlopesAreDerivatives` | tools/codec-bench/report.py:84-85 | on a parabola both end slopes are its derivatives there unless a limit bites |
| `Interpolation.SlopeFavoursShorterGap` | tools/codec-bench/report.py:78-83 | so does the slope of every inner knot whose secants agree in sign, on its two gaps |
| `Interpolation.SlopeDividesSecants` | tools/codec-bench/report.py:78-83 | so does the slope of every inner knot whose secants agree in sign |
| `Interpolation.Slopes` | tools/codec-bench/report.py:73-85 | the loop filling `m` computes the slope rule at every knot |
| `Interpolation.HermiteClimbs` | tools/codec-bench/report.py:88-89 | a cubic Hermite with both end slopes within the limit of a rising secant rises, for all such slopes |
| `Interpolation.SearchSorted` | tools/codec-bench/report.py:86 | the count splits the knots into those before the abscissa and those not |
| `Interpolation.Pchip` | tools/codec-bench/report.py:71-89 | the vector evaluation answers the interpolant at every abscissa asked for |
| `Interpolation.AtIsPiece` | tools/codec-bench/report.py:86-89 | on each closed segment its own cubic answers, so neighbouring pieces join |
| `Interpolation.AtBeyondEnds` | tools/codec-bench/report.py:86-89 | past the knots the end cubics go on |
| `Interpolation.PassesThroughKnots` | tools/codec-bench/report.py:71-89 | the curve passes through every knot |
| `Interpolation.MonotoneOnSegment` | tools/codec-bench/report.py:71-89 | between neighbouring knots it moves one way only, for any data |
| `Interpolation.NeverOvershoots` | tools/codec-bench/report.py:71-89 | it never leaves the two values it runs between |
| `Interpolation.MonotoneData` | tools/codec-bench/report.py:71-89 | nondecreasing data give a nondecreasing curve over the whole range |
| `Interpolation.SmoothAtKnot` | tools/codec-bench/report.py:71-89 | the pieces join without a corner: at every knot the curve has that knot's slope as its derivative, from both sides |
| `Interpolation.ReproducesLines` | tools/codec-bench/report.py:71-89 | data on a line give that line everywhere, past the knots too |
| `Interpolation.ShiftsWithData` | tools/codec-bench/report.py:71-89 | raising all data by a constant raises the curve by it |
| `RateCurve.Sort` | tools/codec-bench/report.py:54 | the points come out in order of rate, then quality, and none is lost or added |
| `RateCurve.MeasuredExactly` | tools/codec-bench/report.py:48-53 | a point is measured just if a row of that tag took that rate and has that score, for the segment asked for or over all |
| `RateCurve.Envelope` | tools/codec-bench/report.py:55-59 | over sorted points the loop builds an envelope of them |
| `RateCurve.Curve` | tools/codec-bench/report.py:45-59 | the curve of a tag climbs in quality by more than the tolerance, never falls in rate, is made of measured points none of which a cheaper one beats, and dominates every measured point |
| `RateCurve.TrapezoidMonotone` | tools/codec-bench/report.py:94 | samples below other samples give the smaller area |
| `RateCurve.AverageMonotone` | tools/codec-bench/report.py:92-94 | averages keep the order of the curves over the range |
| `RateCurve.AverageBetweenEnds` | tools/codec-bench/report.py:92-94 | the average of a nondecreasing curve lies between its values at the ends of the range |
| `RateCurve.AverageIsOfCells` | tools/codec-bench/report.py:92-94 | for any data the average is halfway between the means of the curve at the left and at the right ends of 2000 equal cells |
| `RateCurve.AverageBetweenCells` | tools/codec-bench/report.py:92-94 | over a nondecreasing curve it lies between those two means, which differ by a 2000th of the curve's rise |
| `RateCurve.AverageOfLine` | tools/codec-bench/report.py:92-94 | the average of a line is its value in the middle of the range |
| `RateCurve.AverageShifts` | tools/codec-bench/report.py:92-94 | an average moves with its data |
| `RateCurve.OverlapInside` | tools/codec-bench/report.py:99-105 | the shared quality range lies inside both curves |
| `RateCurve.OverlapExactly` | tools/codec-bench/report.py:97-104 | there is a shared range just if both curves have two points and share qualities more than a millionth apart, and it is all they share |
| `RateCurve.EnvelopeIsCurve` | tools/codec-bench/report.py:45-59 | an envelope is data the interpolation takes, with log-rate never falling |
| `RateCurve.MeanBetweenEnds` | tools/codec-bench/report.py:97-106 | the mean log-rate over the shared range lies between the curve's values at its ends |
| `RateCurve.SwapInverts` | tools/codec-bench/report.py:97-107 | swapping the curves negates the log-rate difference and inverts the ratio, over the same range; one is missing just if the other is |
| `RateCurve.UniformRatioIsRead` | tools/codec-bench/report.py:97-107 | a curve needing k times the rate at every quality reads as exactly (k-1)*100 percent, and a curve against itself as zero |
| `RateCurve.UnitDoesNotMatter` | tools/codec-bench/report.py:97-107 | the unit rates are measured in changes nothing |
| `RateCurve.SignIsRight` | tools/codec-bench/report.py:97-107 | a curve needing no less rate all over is never a saving, and one needing no more never a loss |
| `TransferQueue.ClaimTakesOwnRow` | apps/desktop/src/file-queue.ts:234-244 | a starting job runs just if the snapshot has a new row of its name and direction, and takes the first such one |
| `TransferQueue.StartingEndsInTime` | apps/desktop/src/file-queue.ts:245-262 | past its timeout no job is still starting, and only a file without a row ends unanswered |
| `TransferQueue.BaseNameSplits` | apps/desktop/src/file-queue.ts:117-121 | a name is what lies between the last separator before it and those that trail it |
| `TransferQueue.OfPeerExactly` | apps/desktop/src/file-queue.ts:217 | a row is looked at just if it is this peer's |
| `TransferQueue.Queue.constructor` | apps/desktop/src/file-queue.ts:132-141 | a queue starts empty and idle |
| `TransferQueue.Queue.AddJobs` | apps/desktop/src/file-queue.ts:144-166 | one queued job per item, in order, with fresh ids, at the end of the list |
| `TransferQueue.Queue.Active` | apps/desktop/src/file-queue.ts:169-171 | finds a starting or running job just if there is one |
| `TransferQueue.Queue.Cancel` | apps/desktop/src/file-queue.ts:186-193 | only a queued job is taken, and the answer says whether one was |
| `TransferQueue.Queue.Clear` | apps/desktop/src/file-queue.ts:196-201 | exactly the ended jobs are forgotten |
| `TransferQueue.Queue.Advance` | apps/desktop/src/file-queue.ts:216-224 | the active job follows the actor's rows and counts |
| `TransferQueue.Queue.CallNext` | apps/desktop/src/file-queue.ts:287-301 | the first queued job is marked and handed over, and the pump suspends on it |
| `TransferQueue.Queue.Begin` | apps/desktop/src/file-queue.ts:210-228 | a turn up to its await: what it returns, or which job it waits on |
| `TransferQueue.Queue.Finish` | apps/desktop/src/file-queue.ts:225-231 | the rest of the turn: the answer reaches the job waited on, and the finished jobs are returned |
| `TransferRuns.StepFollowsQueue` | apps/desktop/src/file-queue.ts:132-320 | the steps of a run are the steps of the queue's methods |
| `TransferRuns.OwnedJob` | apps/desktop/src/file-queue.ts:287-319 | the job a suspended pump resumes on is still listed, still starting and the only active one |
| `TransferRuns.OneAtATime` | apps/desktop/src/file-queue.ts:144-232 | in every interleaving at most one job is active, and a suspended pump owns exactly that one |
| `TransferRuns.HandedInAddOrder` | apps/desktop/src/file-queue.ts:287-319 | in every run jobs are handed over in add order, requeues included, and everything before a handed-over job has ended |
| `TransferRuns.AdvanceKeepsClaims` | apps/desktop/src/file-queue.ts:234-244 | a job takes only a row no job ever took |
| `TransferRuns.TransfersAreNotShared` | apps/desktop/src/file-queue.ts:234-295 | over an actor whose gone ids stay gone, no two jobs ever hold one transfer, cleared jobs included |
| `TransferRuns.EndedIsForGood` | apps/desktop/src/file-queue.ts:186-319 | from any reachable queue on, an ended job stays as it is while it is listed, and new jobs have new ids |
| `TransferRuns.DoneIsReturnedOnce` | apps/desktop/src/file-queue.ts:203-232 | in every run each job done is returned by exactly one pump, and state changes number at most 3 per add and 2 per requeue |
| `TransferEndings.TurnDecides` | apps/desktop/src/file-queue.ts:234-285 | everything a turn can make of a job, from the rows, the counts and its hand-over alone: the row it follows, and running, done, cancelled, failed and why, each just if |
| `TransferEndings.AnswerDecides` | apps/desktop/src/file-queue.ts:303-318 | what the actor's answer makes of a job: nothing, queued again, or failed and why |
| `TransferEndings.NoIdleTurn` | apps/desktop/src/file-queue.ts:210-228 | behind every turn some job is active or none is queued |
| `TransferEndings.EveryEndIsEarned` | apps/desktop/src/file-queue.ts:186-319 | in every run whatever touches a job makes of it just that; every job ended is on record; and the jobs returned are those recorded done |
| `ViewChunk.ToNumberIsNearest` | apps/desktop/src/view-decoder.ts:153-154 | a 64-bit timestamp becomes the nearest double, exactly just on multiples of the spacing |
| `ViewChunk.DecodeViewChunk` | apps/desktop/src/view-decoder.ts:120-168 | the cursor loop reads what the layout says, or the same error, and never outside the buffer |
| `ViewChunk.PrefixesOfAccepted` | apps/desktop/src/view-decoder.ts:107-168 | of any accepted buffer every shorter prefix than it takes is refused, and every longer one gives the same chunk |
| `ViewChunk.DecodeInvertsLayout` | apps/desktop/src/view-decoder.ts:107-168 | every well-formed chunk is read back, exactly if and only if its timestamps are doubles, and every proper prefix is refused |
| `ViewChunk.CutSaysWhere` | apps/desktop/src/view-decoder.ts:120-166 | a chunk cut short is refused for where it is cut: its header, or which frame and what of it |
| `ViewChunk.HeaderRefusedExactly` | apps/desktop/src/view-decoder.ts:126-137 | a whole header is refused just for a status past 8, or else a codec other than 0, 1 and 3 |
| `ViewChunk.LateTimestampIsRounded` | apps/desktop/src/view-decoder.ts:153-154 | a chunk whose timestamp of 2^53 + 1 comes back as 2^53 |
| `AnnexB.AnnexBNalUnits` | apps/desktop/src/view-decoder.ts:197-221 | the walk yields the units its scan defines |
| `AnnexB.WalkFindsUnits` | apps/desktop/src/view-decoder.ts:197-221 | on any stream obeying Annex B, with any start codes, leading and trailing zeros, exactly the units' types and offsets in order |
| `AnnexB.AvcCodecString` | apps/desktop/src/view-decoder.ts:181-194 | the string spells the three bytes behind the parameter set chosen, or there is none |
| `AnnexB.SpellingIsFaithful` | apps/desktop/src/view-decoder.ts:187-190 | the string tells the profile, constraint and level bytes apart |
| `AnnexB.SpellingReads` | apps/desktop/src/view-decoder.ts:187-190 | the six digits read as one hexadecimal number of profile, then constraints, then level |
| `AnnexB.ReadsFirstFullSps` | apps/desktop/src/view-decoder.ts:181-194 | the bytes come from the first parameter set holding them if and only if no shorter one with three bytes behind its header comes first |
| `AnnexB.FullSpsHoldsItsBytes` | apps/desktop/src/view-decoder.ts:181-194 | the bytes read behind such a parameter set's header are its own |
| `AnnexB.ShortSpsIsMisread` | apps/desktop/src/view-decoder.ts:186-190 | a stream on which a start code is spelled instead |
| `AnnexB.TrailingZerosAreMisread` | apps/desktop/src/view-decoder.ts:186-190 | a stream on which trailing zeros are |
| `AnnexB.ConfigStringFor` | apps/desktop/src/view-decoder.ts:414-419 | fixed strings for AV1 and VP9, and for H.264 the one the stream spells, just if it has a parameter set |
| `NativeDecoder.Decoder.ResetDecoder` | apps/desktop/src/view-decoder.ts:470-485 | the device is closed and dropped and the error forgotten |
| `NativeDecoder.Decoder.Configure` | apps/desktop/src/view-decoder.ts:536-563 | a device is built just if the stream names a configuration and the browser takes it |
| `NativeDecoder.Decoder.DecodeFrame` | apps/desktop/src/view-decoder.ts:565-584 | a frame is taken just by a configured device that does not throw |
| `NativeDecoder.Decoder.PushOne` | apps/desktop/src/view-decoder.ts:512-527 | one frame: tried, started on, or dropped, and whether it was taken |
| `NativeDecoder.Decoder.PushBatch` | apps/desktop/src/view-decoder.ts:506-533 | a keyframe is called for if and only if some frame of the batch reached no live device or an error was reported |
| `NativeDecoder.ReachedByFrame` | apps/desktop/src/view-decoder.ts:512-527 | a pushed frame is reached just if it is taken, and earlier ones stay as they were |
| `NativeDecoder.PushFrameKeepsInv` | apps/desktop/src/view-decoder.ts:506-584 | what a device is given stays one gapless run of the stream, from a keyframe on, in one codec |
| `KeyframeLoop.Window.NativeTick` | apps/desktop/src/view.ts:814-854 | one turn of the loop: request, desync, push, and what is owed next |
| `KeyframeLoop.LossesAreAskedFor` | apps/desktop/src/view.ts:814-854 | in every run the first request asks for a keyframe, and a later one if and only if the turn before carried a desync, or an error had been reported and the codec was not changed, or a frame reached no live device |
| `KeyframeLoop.OrdinaryStreamAsksOnce` | apps/desktop/src/view.ts:814-854 | a run with no error and no desync, every frame of which is reached, asks once, at the start |
| `KeyframeLoop.RunsWhileFed` | apps/desktop/src/view.ts:814-854 | the loop goes on just as long as every answer is a chunk for this window's own decoder |
| `KeyframeLoop.WorkerExactly` | apps/desktop/src/view-decoder.ts:398-400 | H.264 never goes to the worker, and another codec just if this window does not decode it |
| `KeyframeLoop.Window.DecoderFaults` | apps/desktop/src/view-decoder.ts:546-549 | the decoder's error callback, and a decoder that closes |
| `KeyframeLoop.DevicesAreFedInOrder` | apps/desktop/src/view-decoder.ts:430-584 | in every run each device is given one gapless run of the pushed stream, a keyframe first, all of one codec, and is closed once it is no longer held |
| `KeyframeLoop.KeyframeRecovers` | apps/desktop/src/view-decoder.ts:506-584 | in every run, a turn that begins with a keyframe which names a configuration and which the browser takes reaches it if and only if it carries a desync or another codec or the device held then is not closed |
| `KeyframeLoop.NextKeyframeRecovers` | apps/desktop/src/view-decoder.ts:506-584 | of two turns in one codec with no error between them, the second reaches such a keyframe if and only if the first did not begin with a device closed and no error reported |
| `KeyframeLoop.CallingBackRecovers` | apps/desktop/src/view-decoder.ts:528-531 | over a browser that calls back when it closes a decoder, the second always does |
| `KeyframeLoop.ReportedCloseLosesAKeyframe` | apps/desktop/src/view-decoder.ts:528-531 | a run in which a reported close costs one keyframe and not the next |
| `KeyframeLoop.SilentCloseSticks` | apps/desktop/src/view-decoder.ts:565-569 | a run that ends on a device closed with no error reported |
| `KeyframeLoop.ClosedDeviceIsKept` | apps/desktop/src/view-decoder.ts:565-569 | from such a device on, no frame is reached in any run without a desync, a change of codec or a reported error, though every turn that brings one makes the next request ask |
| `TerminalPoll.DecodeTerminalPoll` | apps/desktop/src/terminal.ts:139-173 | the cursor loop yields the events of the whole records, and never reads outside the body |
| `TerminalPoll.DecodeInvertsLayout` | apps/desktop/src/terminal.ts:127-173 | the layout is inverted, and cut anywhere gives exactly the records still whole, later builds' records skipped |
| `TerminalPoll.EventsAreReadBack` | apps/desktop/src/terminal.ts:102-173 | events written by their documented codes are read back, every one |
| `TerminalPoll.TruncationGivesPrefix` | apps/desktop/src/terminal.ts:135-158 | any body, truncated anywhere, gives a prefix of its events |
| `TerminalSession.SplitDoesNotMatter` | apps/desktop/src/terminal.ts:341-367 | session and screen do not depend on how the host's records were split into poll bodies |
| `TerminalSession.OnlyAStrayRefusalMisleads` | apps/desktop/src/terminal.ts:325-405 | in any run, status and shell stay in step if and only if no refusal is heard while a shell is held |
| `TerminalSession.StrayRefusalMisleads` | apps/desktop/src/terminal.ts:360-364 | a run on which one is |
| `TerminalSession.HonestHostsDoNotStray` | apps/desktop/src/terminal.ts:290-406 | a host answering each ask once never sends one |
| `TerminalSession.StatusAndScreenAreTrue` | apps/desktop/src/terminal.ts:290-406 | over a host answering each ask once: the status is open just with a shell held, the last one named, and otherwise tells the last answer; another ask goes out just if none is out and no shell is held; and the screen is the held shell's bytes, its end and every refusal, in order |
| `TerminalSession.KeystrokesInOrder` | apps/desktop/src/terminal.ts:369-385 | however calls fail, input calls go out in the order of `send`, one at a time |
| `TerminalSession.CallsCarryWhatWasTyped` | apps/desktop/src/terminal.ts:376-385 | the shells and bytes of the calls made are what was typed so far, from the first on |
| `TerminalSession.ChainNeverStalls` | apps/desktop/src/terminal.ts:382-383 | a failed call holds nothing back |
| `TerminalSession.Session.OpenShell` | apps/desktop/src/terminal.ts:325-332 | an ask goes out just if none is in flight and no shell is open |
| `TerminalSession.Session.ApplyPoll` | apps/desktop/src/terminal.ts:341-367 | a poll's events are applied in order |
| `TerminalSession.Session.SendKeys` | apps/desktop/src/terminal.ts:376-385 | keys go on the chain, for the shell held now, behind what was sent last |
| `TerminalSession.Session.CloseShell` | apps/desktop/src/terminal.ts:397-405 | the shell is given up and the host told which it was |
| `ViewGeometry.FitFillsOneAxis` | apps/desktop/src/view-window.ts:214-291 | a fitted picture keeps its aspect ratio, stays inside the window and touches it on one axis |
| `ViewGeometry.ScaledSizes` | apps/desktop/src/view-window.ts:214-291 | at actual size the picture covers as many device pixels as the frame has, zoomed that times the zoom, kept between a quarter and four |
| `ViewGeometry.PanMovesPicture` | apps/desktop/src/view-window.ts:301-317 | with no pan the picture is in the middle of the window, and panning moves it by the pan |
| `ViewGeometry.ClampedPanKeepsPicture` | apps/desktop/src/view-window.ts:301-367 | after clamping, each axis is centred or covers the window |
| `ViewGeometry.ClampPanIdempotent` | apps/desktop/src/view-window.ts:353-367 | clamping twice is clamping once |
| `ViewGeometry.ClampPanMovesLeast` | apps/desktop/src/view-window.ts:353-367 | no other pan that keeps the picture so is nearer the one asked for |
| `ViewGeometry.DefinedOnPicture` | apps/desktop/src/view-window.ts:329-343 | there is a remote position under exactly the points of the picture |
| `ViewGeometry.PointerMonotone` | apps/desktop/src/view-window.ts:329-343 | right and down here are never left and up there |
| `ViewGeometry.PointerRoundTrip` | apps/desktop/src/view-window.ts:329-343 | mapping over and back is off by at most half of 1/65535 of the picture |
| `ViewGeometry.RoundedIsNear` | apps/desktop/src/view-window.ts:1145-1147 | rounding into the coordinate range is off by at most a half |
| `StreamSize.AskedSizeIsAcceptable` | apps/desktop/src/view-window.ts:153-178 | sizes asked for are even, within the ceiling and at least the host's minimum |
| `StreamSize.FittedSizeIsTheWindow` | apps/desktop/src/view-window.ts:162-177 | below the ceiling the size is the window's, less than two pixels short |
| `StreamSize.AskedExactly` | apps/desktop/src/view-window.ts:153-178 | outside fit mode the ceiling is asked for; in fit mode a size just if both axes reach 160 device pixels, and the ceiling on an axis that reaches it |
| `StreamSize.FrameDoesNotMatter` | apps/desktop/src/view-window.ts:149-178 | the frame on screen never enters the answer, not through the clamped pan either |
| `StreamSize.Sizer.SyncStreamSize` | apps/desktop/src/view.ts:521-535 | after every layout with a size to ask for, the host was last told it or a timer is armed |
| `StreamSize.Sizer.TimerFires` | apps/desktop/src/view.ts:535-546 | the timer tells the host the size wanted then, unless it was told already |
| `StreamSize.Sizer.RequestRefused` | apps/desktop/src/view.ts:546-551 | a refusal forgets what was told |
| `StreamSize.RequestsAreSpaced` | apps/desktop/src/view.ts:499-553 | in every run requests are 250 ms apart and differ, or a refusal came between, and each comes 250 ms after the last layout that found something to ask for |
| `StreamSize.PictureWindow.LayOut` | apps/desktop/src/view.ts:460-488 | the pan is clamped for the frame on screen, and the size of the window laid out so is synced |
| `StreamSize.PictureWindow.TakeFrame` | apps/desktop/src/view.ts:1178-1182 | a frame of a new size lays the window out again |
| `StreamSize.PictureWindow.SettleTimer` | apps/desktop/src/view.ts:536-545 | the timer asks for the size computed then, unless the window stopped |
| `StreamSize.RequestsAreEarned` | apps/desktop/src/view.ts:460-553 | in every run of a window each request beyond the first is paid for by a change of the size wanted or by a refusal |
| `StreamSize.SteadyWindowAsksOnce` | apps/desktop/src/view.ts:481-553 | over a window nobody changes, any run of layouts, frames of any sizes and timers makes at most one more request, none if the host was last told the size: no resize loop |
| `StreamSize.SyncSettles` | apps/desktop/src/view.ts:514-553 | after every layout or frame that wants a size, in any run of an unchanged, running window with no refusal, the host was last told it or a timer is armed; and once a timer has run out it was, through all that follows |
| `KeyTable.NoTwoCodesShareAKey` | apps/desktop/src/view-window.ts:686-821 | the key table is injective |
| `KeyTable.AreasAreNumbered` | apps/desktop/src/view-window.ts:686-821 | the table numbers the areas of a keyboard key by key |
| `HeldKeys.HostHoldsWhatWindowHolds` | apps/desktop/src/view-window.ts:900-1051 | in every run of events the host holds down exactly the physical keys in the window's map |
| `HeldKeys.HostHoldsWhatIsDown` | apps/desktop/src/view-window.ts:900-1051 | in every run the host holds down exactly the physical keys down at the window's keyboard, as far as it listens and since it last let go, and the window lets go of each as the character it was pressed as |
| `HeldKeys.EachKeyIsTold` | apps/desktop/src/view-window.ts:1007-1032 | a key or button forwarded reaches the host as it was |
| `HeldKeys.NothingStaysDown` | apps/desktop/src/view-window.ts:994-1050 | after a blur or a withdrawn grant the host holds none, whatever came before |
| `HeldKeys.ViewInput.Forward` | apps/desktop/src/view-window.ts:1007-1032 | a key is forwarded and entered or removed, unless it is the window's own or names nothing |
| `HeldKeys.ViewInput.Release` | apps/desktop/src/view-window.ts:1045-1050 | every held key is let go of, in order, and forgotten |
| `HeldKeys.ViewInput.SetEnabled` | apps/desktop/src/view-window.ts:979-1005 | switching off lets go of everything |
| `MoveCoalescing.Sink.FlushMove` | apps/desktop/src/view.ts:157-167 | the waiting move is sent and nothing waits |
| `MoveCoalescing.Sink.PointerMove` | apps/desktop/src/view.ts:170-176 | the newest move waits and a frame is scheduled |
| `MoveCoalescing.Sink.PressKey` | apps/desktop/src/view.ts:177-182 | a press sends the waiting move first |
| `MoveCoalescing.Sink.TurnWheel` | apps/desktop/src/view.ts:183-185 | a wheel turn goes out alone |
| `MoveCoalescing.Sink.AnimationFrame` | apps/desktop/src/view.ts:172-175 | after the frame nothing waits and none is scheduled |
| `MoveCoalescing.CoalescingRefinesDirect` | apps/desktop/src/view.ts:150-186 | in every run the host sees the same clicks at the same positions as if each move were sent, presses and wheel turns all arrive in order, sent moves are a subsequence, and a move waits just while a frame is scheduled |
| `MoveCoalescing.AtMostOneMoveAFlush` | apps/desktop/src/view.ts:150-186 | however many moves are reported, at most one goes out a frame and one a press |
| `MoveCoalescing.WheelSeesReportedPosition` | apps/desktop/src/view.ts:183-185 | a wheel turn reaches the reported position if and only if no differing move waits |
| `MoveCoalescing.WheelCanLag` | apps/desktop/src/view.ts:169-185 | a run on which it does not |
| `RemoteListing.FileManager.OpenDirectory` | apps/desktop/src/file-manager.ts:461-472 | a directory is asked for, or waits as the newest; the ask is one step, or enters flight |
| `RemoteListing.FileManager.ResumeWithCount` | apps/desktop/src/file-manager.ts:470 | an ask in flight takes the count the host reports then |
| `RemoteListing.FileManager.SendRequest` | apps/desktop/src/file-manager.ts:471 | its request reaches the host |
| `RemoteListing.FileManager.NoteAsk` | apps/desktop/src/file-manager.ts:472 | it notes what it waits for, over whatever was noted before |
| `RemoteListing.FileManager.CatchRejection` | apps/desktop/src/file-manager.ts:473-495 | an await that throws ends it: the host too old, the path not sent, or the session gone and the request kept waiting; also one that throws after the request went out |
| `RemoteListing.FileManager.ProbeNext` | apps/desktop/src/file-manager.ts:498-506 | the next root is asked for, or probing ends |
| `RemoteListing.FileManager.SendNext` | apps/desktop/src/file-manager.ts:1089-1095 | what waits is asked for |
| `RemoteListing.FileManager.ApplyAnswer` | apps/desktop/src/file-manager.ts:1032-1087 | an answer, a refusal or a timeout ends the request and what follows it is sent |
| `RemoteListing.FileManager.FinishPoll` | apps/desktop/src/file-manager.ts:1013-1021 | a poll reconnects, resends or refreshes, and applies the report it read |
| `RemoteListing.ApplyKeepsInv` | apps/desktop/src/file-manager.ts:1032-1095 | processing keeps one request out, the newest waiting and the roots in order, on the right answer |
| `RemoteListing.NewestCallWins` | apps/desktop/src/file-manager.ts:456-506 | with each ask one step, in every run at most one listing is out, roots are asked for once and in order, calls are processed in order, and once nothing is out the last answer is the newest call's |
| `RemoteListing.AnswersAreAttributed` | apps/desktop/src/file-manager.ts:1032-1053 | with each ask one step, an answer a poll acts on is the answer to the request waited for, though answers carry no path |
| `RemoteListing.GivenUpExactly` | apps/desktop/src/file-manager.ts:1038-1050 | a request with no answer is given up just if it was noted more than 15 seconds ago, and then what waited goes out |
| `RemoteListing.RootOrderExactly` | apps/desktop/src/file-manager.ts:399-418 | with each ask one step and calls ahead of the start, roots go out in order in every run if and only if there are none or a remembered folder goes first |
| `RemoteListing.EarlyCallSkipsARoot` | apps/desktop/src/file-manager.ts:399-418 | with each ask one step, any calls ahead of the start, with no folder remembered, leave a run that asks for the second root and not the first |
| `ListingAwaits.OneListingExactly` | apps/desktop/src/file-manager.ts:461-472 | with asks taken apart, a run and every way it goes on with nothing crossing any more hold at most one request at the host if and only if no call came through the guard while another ask was between guard and assignment, and no ask threw behind a request still out or whose answer a poll was about to miss |
| `ListingAwaits.TwoListingsOut` | apps/desktop/src/file-manager.ts:461-472 | a run with two requests at the host |
| `ListingAwaits.LateRejectionLeavesTwoOut` | apps/desktop/src/file-manager.ts:471-495 | another, by an ask that throws behind its request |
| `ListingAwaits.MoveFollows` | apps/desktop/src/file-manager.ts:461-506 | while nothing crosses, asks taken apart do, settled, what asks of one step do |
| `ListingAwaits.NewestCallWinsUncrossed` | apps/desktop/src/file-manager.ts:456-506 | with asks taken apart, in every run in which nothing crosses and no await throws: roots in order, calls processed in order, and once nothing is out or in flight the last answer is the newest call's |
| `ListingAwaits.UncrossedAnswersAreAttributed` | apps/desktop/src/file-manager.ts:1032-1053 | in every run in which nothing crosses, rejections included, an answer a poll acts on is the answer to the request waited for |
| `ListingOrder.RootOrderUncrossed` | apps/desktop/src/file-manager.ts:399-418 | with asks taken apart, whatever calls come ahead of the start, roots ascend however a run goes on with nothing crossing and no await throwing if and only if a folder is remembered, or no request is noted at the start, or the one noted is answered already by no refusal to list it |
| `ListingOrder.OverlapSkipsARoot` | apps/desktop/src/file-manager.ts:461-506 | a run with no early call in which a call overlapping the first probe sends the second past it |
| `ListingOrder.NewestExactly` | apps/desktop/src/file-manager.ts:461-495 | with asks sent back only by a session that is gone, the newest call wins in a run and every way it goes on in order if and only if no call comes through the guard and no ask is sent back while another request waits |
| `ListingOrder.OrdersHoldThoughGone` | apps/desktop/src/file-manager.ts:456-506 | in such runs that are in order, roots are asked for in order and calls processed as they were made |
| `ListingOrder.OlderRequestIsListedLast` | apps/desktop/src/file-manager.ts:461-495 | a run after which an older request is listed last |
| `ListingPaths.RequestsNameTheirFolders` | apps/desktop/src/file-manager.ts:456-506 | in every run, asks one step or taken apart, crossing or not, each root is asked for by its path, each call by the folder it named, and the folder remembered by its own |
| `ListingPaths.PaneShowsTheNewest` | apps/desktop/src/file-manager.ts:1032-1095 | in every run in which nothing crosses and no await throws, each report acted on answers the request it was taken for, and once nothing is out the pane shows the folder the newest call's answer listed |
| `ListingPaths.AnswerShown` | apps/desktop/src/file-manager.ts:1051-1087 | an answer shows the folder it reports and keeps the one left behind it, unless it refuses |
| `ListingPaths.ReconnectAsksAgain` | apps/desktop/src/file-manager.ts:1013-1018 | a poll that finds the session back asks for what waited, or again for the folder shown |
| `ListingPaths.ConnectedAsLastSeen` | apps/desktop/src/file-manager.ts:998-1014 | the session counts as there just as the window last saw it |
| `ListingPaths.RejectionLeaves` | apps/desktop/src/file-manager.ts:473-495 | a session that is gone takes the request back to wait; any other rejection drops it and ends the probing |
| `OutputBuffer.LifeBounds` | crates/aom-sys/shim/aom_shim.c:41-52 | over any run of pictures, failed ones and failed allocations included, capacity holds and is at most twice the largest unit assembled, 2^reallocations is at most capacity, and bytes moved at most capacity |
| `OutputBuffer.Shim.Append` | crates/aom-sys/shim/aom_shim.c:41-52 | the data follow what was there, the buffer growing if it must; on failed allocation nothing changes |
| `OutputBuffer.Shim.Encode` | crates/aom-sys/shim/aom_shim.c:135-170 | the unit is the in-order concatenation of the frame packets, a key unit just if one of them is; it ends early exactly at a packet whose room cannot be had; and the capacity stays within twice the largest unit |

## Left out

- Floating point: `pchip`, BD-rate and the geometry are over the reals; rounding is modelled only for timestamps, pointer coordinates and stream sizes.
- `bd_quality`: its axis is log-rate, which the envelope may repeat, so the interpolation's precondition is not given.
- `10 ** _` and `log10`: any functions with their laws, since the laws are all the results use.
- Aliasing of jobs: the queue holds its jobs as values, found again by id, so a caller's reference to a job is not modelled.
- Answers later than 15 seconds: answers carry no request id, so whose answer it is is not decided by the code there.
- ListingAwaits.NewestCallWinsUncrossed: not for runs with a rejected ask. A session that is gone sends the request back, which `ListingOrder.NewestExactly` covers; a host too old and a path not sent drop it, so no answer is owed to that call.
- RemoteListing.NewestCallWins: takes an ask as one step; `ListingAwaits` says exactly when that is right.
- RemoteListing.AnswersAreAttributed: takes an ask as one step; `ListingAwaits` states it with the awaits split.
- RemoteListing.RootOrderExactly: takes an ask as one step; `ListingOrder.RootOrderUncrossed` states it with the awaits split.
- RemoteListing.EarlyCallSkipsARoot: takes an ask as one step, as `RemoteListing.RootOrderExactly` does.
- Entries, selection and messages of the panes, file operations and transfer speeds: user interface around the protocol.
- `logicalOfKey`, hotkeys and text fields: an event says which character it carries and whether the window keeps it.
- Keys the table does not know: they are held and released by character, and no agreement with the host is claimed for them.
- `TextEncoder`: what is typed is bytes already.
- Decoder painting, the decode meter and the probes for supported codecs: no state the results need.
- `size_t` overflow in the output buffer, and the encoder's own calls: sizes are unbounded and packets an input.
- The Rust core, the Tauri commands and everything on screen are not part of this model.
