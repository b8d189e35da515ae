# Verification of a SIP test endpoint

xk6-sip drives SIP and RTP endpoints with its own dialog, call, media and analysis layers over an external transaction
library. This project models the hard parts of those layers in Dafny and proves what they promise. Code that changes
state step by step is a class or an in-place method proved against a specification function; concurrency is a state
machine whose steps are the lock-protected sections of the source, and its theorems hold for every run.

| module | models | main results |
|---|---|---|
| ComplexNumbers, BitReversal, Fft, Parseval | the in-place FFT | the loops compute the discrete Fourier transform for every power-of-two length, which keeps the energy |
| Correlation, Spectrum, Quality, Comparison, Volume, PerfectCopy | correlation, spectrogram, alignment, speech, gaps | scores are in 0..1, 1 means a copy, a copy is found and scores 1, the volume does not matter, lost blocks are gaps |
| Sdp, Hold, HoldRetry | re-INVITE between two ends | every interleaving refines a call on which each accepted re-INVITE takes effect at once; retries exactly after 491 |
| Uac, UacHistory | the INVITE client machine | when it sends INVITE, CANCEL and PRACK and how it ends, by the history of every run |
| Lifecycle, CallHistory, AutoSave | call states, the finishing race, saving | channels, events and files exactly once; which status a call keeps |
| Rtp, Recorder | sequence unwrapping, loss, recording | exact loss accounting; order of arrival does not matter |
| RtpPacket, Dtmf, DtmfPlan, DtmfDetail, DtmfRun | RFC 4733 digits and looped audio | end to end through packet bytes, loss, duplicates and reordering |
| Text, Transfer | Refer-To and Replaces | attended transfer finds exactly the right dialog |
| Bridges | the B2BUA's bridge table | it stays a perfect matching |
| Inbox | deliver and ExpectCall | conservation, earliest match, no lost wake-up |
| SessionTimer | RFC 4028 timers | roles and intervals agree; when the waiting end hangs up |

Arithmetic is exact: the FFT works over pairs of reals with a family of twiddles w for which w(2) = -1 and
w(2s)^2 = w(s); square roots and logarithms are function parameters. 16-, 32- and 64-bit fields wrap explicitly.

## What does not hold

Some properties that one would expect are false of the code. Each has a lemma with a concrete run (named first) and one
with the exact condition under which the property does hold (named second):

- A session whose re-INVITEs each take under a sixth of the interval may expire all the same, because the end of one and the
  beginning of the next add up: it is safe exactly from 192 seconds on (SessionTimer.TwoRefreshesAddUp,
  SessionTimer.SixthIsEnoughIff; for any durations SessionTimer.StaysUpIff).
- A configured session interval is the one the caller arms exactly when it is in whole seconds
  (SessionTimer.FractionsAreNotShared, SessionTimer.EndsAgree).
- A transfer that finishes without a second look at the bridge table keeps it a matching exactly when only whole pairs and no
  orphans are involved (Bridges.CrossingTransfersBreakTable and Bridges.LateTransferKeepsMatchingIff for blind ones,
  Bridges.CrossingJoinBreaksTable and Bridges.LateJoinKeepsMatchingIff for attended ones).
- A leg that hung up stays out of the table exactly when every leg that the transfer is about to write is still known as it
  finishes (Bridges.ByeDuringTransferIsUndone and Bridges.LateTransferRevivesNobodyIff for blind ones,
  Bridges.ByeDuringJoinIsUndone and Bridges.LateJoinRevivesNobodyIff for attended ones).
- CSeq rises strictly exactly when no INVITE is sent again after a PRACK (Uac.RetryAfterPrackRepeatsCSeq,
  Uac.CSeqRisesUnlessRetriedAfterPrack).
- Successful CallSetups and CallEnds balance exactly when an acknowledged answer met both a CANCEL and an end of the call on
  its way to the confirmation, or neither (Lifecycle.AnswerDuringCancelEndsWithoutSetup and
  Lifecycle.ByeBeforeConfirmationIsNotCounted, Lifecycle.SetupAndEndBalance).
- A call that ended by error after its answer is lost exactly when a Hangup overwrote the cause before the finishing
  thread looked at it and nobody marked the call failed (AutoSave.LateHangupLosesRecording,
  AutoSave.ErrorSavedUnlessOverwritten).
- The reported loss is right exactly when no packet is repeated or precedes the first one of its run, or nothing is missing
  (Rtp.DuplicateHidesLoss, Rtp.LossAccounting).
- OnHold of one end and RemoteHold of the other agree exactly when the last accepted re-INVITE of the first was not recvonly,
  as that of a session refresh by a held end is (Hold.RefreshOfHeldEndSetsItsFlag, Hold.HoldFlagsAgree).
- An end that reports OnHold may hear the peer all the same: exactly when it had the last word itself and offered recvonly,
  or the peer had it and offered to send (Hold.SecondHoldOverridesFirst and Hold.RefreshOfHeldEndSetsItsFlag,
  Hold.OnHoldIsDeafUnlessOverridden).
- An ExpectCall that times out leaves a call it wants in the inbox exactly when one was delivered since it last looked and
  nobody took it (Inbox.TimeoutMayLeaveACall, Inbox.GiveUpLeavesIff).

## Model

| member | source | states |
|---|---|---|
| BitReversal.RevInvolution | media/quality.go:329-338 | bit reversal is its own inverse, so the swaps lose and repeat nothing |
| BitReversal.NextReversed | media/quality.go:329-334 | the incremental counter goes from the reversal of i - 1 to that of i |
| BitReversal.ReversedTwice | media/quality.go:329-338 | applying the permutation twice restores every sequence |
| BitReversal.ReverseInPlace | media/quality.go:329-338 | the i < j swaps leave exactly the bit-reversed sequence |
| Fft.SumSplit | media/quality.go:340-349 | a sum over stride s is the sum over its even terms plus the twiddled sum over its odd ones |
| Fft.Butterfly | media/quality.go:343-347 | one butterfly turns two transformed half blocks into one transformed block |
| Fft.Pass | media/quality.go:341-349 | one pass over all blocks of a size takes every position to the next stage |
| Fft.Transform | media/quality.go:327-350 | for every power-of-two length the array ends as the discrete Fourier transform of what it was |
| Parseval.TransformKeepsEnergy | media/quality.go:327-350 | the transform of n samples has n times their energy |
| Correlation.CauchySchwarz | media/quality.go:158-162 | dot^2 <= e1 * e2 for the accumulated sums; equality only for multiples |
| Correlation.RatioIsOneIff | media/quality.go:158-168 | a correlation is 1 exactly when one signal is the other at another level |
| Correlation.Pearson | media/quality.go:270-289 | the loops compute the correlation of the centred signals, 0 when one is flat |
| Correlation.PearsonBounds | media/quality.go:270-289 | it lies between -1 and 1 |
| Correlation.PearsonIgnoresLevel | media/quality.go:270-289 | raising one signal by a constant does not change it |
| Correlation.CentreBands | media/quality.go:226-241 | each band loses its average over the active frames |
| Correlation.TableProducts | media/quality.go:256-262 | the nested loops accumulate the three products over all bands and frames |
| Correlation.SpectralScore | media/quality.go:224-267 | both branches compute the score function, rounded to a thousandth |
| Correlation.ScoreBounds | media/quality.go:224-267 | the score of tones and of speech is between 0 and 1 |
| Correlation.ScoreIgnoresLevel | media/quality.go:15-19 | a recording that is g dB louder throughout has the same score |
| Correlation.PerfectCopyScoresOne | media/quality.go:15-19 | speech heard as it was sent, at any level, scores 1 |
| Correlation.PerfectToneScoresOne | media/quality.go:249-255 | a tone heard as it was sent, at any level, scores 1 if no speech frame of it has a flat spectrum |
| Correlation.ScoreInThousandths | media/quality.go:224-267 | every score is in thousandths |
| Correlation.Round3IsNearest | media/quality.go:264-267 | rounding goes to the nearest thousandth |
| Correlation.TwoFramesAreTone | media/quality.go:242-249 | two frames of one band are a tone exactly if they differ by less than 4 dB |
| Spectrum.FrameRow | media/quality.go:202-214 | one frame: its level, and the band of the discrete Fourier transform of its windowed samples |
| Spectrum.MakeSpectrogram | media/quality.go:196-217 | all frames, through one buffer that is transformed in place |
| Parseval.BinsShareEnergy | media/quality.go:200-214 | the powers of all bins of a frame add up to the energy of its windowed samples |
| Spectrum.AmplifiedPower | media/quality.go:203-213 | g times the amplitude is g^2 times the power in every bin |
| Spectrum.ScoreIgnoresVolume | media/quality.go:15-19 | samples that are all g times as large have the same score, above the floor of the scale |
| Quality.Speech | media/quality.go:114-126 | the speech frames are found in order; there are none exactly when no frame reaches -55 dB |
| Quality.SpeechIsNearPeak | media/quality.go:114-126 | a frame is speech exactly if it is not below -55 dB and at most 40 dB below every other one |
| Quality.BestIsEarliestGreatest | media/quality.go:145-147 | the search loop finds the greatest score, the first of equals |
| Quality.Align | media/quality.go:133-171 | the two search loops find the specified lag |
| Quality.LagIsBest | media/quality.go:133-171 | the lag is inside the recording, and no comparable lag within 10 ms of the coarse one is better, or as good and earlier |
| Quality.AlignFindsCopy | media/quality.go:150-170 | if an unsilenced copy of the reference starts within 10 ms of the coarse offset, a copy is found |
| PerfectCopy.MatchIsFound | media/quality.go:133-147 | an envelope with a shape that is heard at block l, at any level, is matched perfectly, at l or an earlier block |
| PerfectCopy.ToneIsFound | media/quality.go:133-147 | an envelope without a shape is found at the first block where the levels are the same |
| PerfectCopy.PlayedIsFound | media/quality.go:133-171 | a reference with a shape that is played from a block boundary on is found wherever that is, unless an earlier block matches as perfectly |
| PerfectCopy.UnchangedIsPerfect | media/quality.go:53-112 | a recording that has the reference unchanged where it is found gets score 1, is compared whole, and has no gaps, no clipping and no gain |
| Comparison.SortedHolds | media/quality.go:82-85 | sorting orders and keeps the number of values above every bound |
| Comparison.MedianInTheMiddle | media/quality.go:82-85 | the median is one of the values, at least half reach it and fewer than half exceed it |
| Comparison.MajorityIsMedian | media/quality.go:82-85 | what more than half of the values are is the median |
| Comparison.CountGaps | media/quality.go:86-96 | gaps are counted, and clipped is the length of the leading run of gaps |
| Comparison.GapsBound | media/quality.go:75-96 | at least half of the audible blocks are no gaps; all speech blocks are gaps exactly when none is above -90 dB |
| Comparison.GapsAreBelow | media/quality.go:86-96 | the gaps are exactly the blocks more than 20 dB below the gain, none missed and none added |
| Comparison.LostBlocksAreGaps | media/quality.go:75-96 | when more than half of the audible blocks are heard at one difference, the gain is that difference and every block 20 dB below it is a gap |
| Comparison.LostStart | media/quality.go:82-96 | three equally loud blocks of which the first is lost: gain 0, one gap, one block clipped |
| Comparison.MeasureGaps | media/quality.go:73-99 | gaps, clipped start and gain are those of the reference's speech blocks |
| Comparison.Compare | media/quality.go:53-112 | when it refuses, and bounds and meaning of score, offset, compared length, gaps and clipped start |
| Volume.LagIgnoresVolume | media/quality.go:133-171 | a recording that is g times as loud is aligned at the same lag |
| Volume.SameMeasure | media/quality.go:72-102 | its gaps and clipped start are the same, its gain is higher by that of the amplification |
| Volume.CompareIgnoresVolume | media/quality.go:53-112 | its whole result is the same but for the gain: refusal, offset, score, compared length, gaps and clipped start |
| Sdp.ReverseMirrors | media/sdp.go:24-35 | reversing mirrors sending and receiving and is its own inverse |
| Sdp.ChooseFollowsOrder | media/sdp.go:119-142 | the answerer's order decides; the payload type is the peer's; no choice exactly without a common name |
| Sdp.Stream.Answer | media/stream.go:160-171 | an offer is answered with the chosen codec and the mirrored direction and its address is taken over, or it is refused without a change |
| Sdp.Stream.ApplyAnswer | media/stream.go:173-185 | an answer sets codec, payload type, mirrored direction and address, and restarts the audio for another codec, or does nothing |
| Sdp.Stream.Update | media/stream.go:187-195 | an in-dialog offer mirrors the direction, takes the address over and keeps the codec |
| Sdp.SetupAgrees | media/stream.go:151-185 | setting a call up leaves both ends with one codec, one payload type, each other's address and mirrored directions, or finds no common codec |
| Hold.ExchangeAgrees | media/stream.go:160-195 | whatever they started from, an accepted re-INVITE leaves both ends with the answerer's codec, each other's address and mirrored directions; audio starts anew exactly for another codec |
| Hold.Endpoint.ReinviteOnce | engine/dialog.go:107-136 | one attempt: on refusal the old direction is back; on success the ACK is sent, the answer applied, the flag set and the session timer restarted |
| Hold.Endpoint.Reinvite | engine/dialog.go:90-104 | nothing unless connected; two attempts at most, the second after 491 only; failure changes neither direction nor flag |
| Hold.Endpoint.HandleReinvite | engine/device.go:596-616 | 491 without a change while our own re-INVITE is under way, otherwise the offer is applied and answered and the session timer restarted |
| Hold.StepRefines | engine/device.go:604-616 | every step of either end keeps the invariant and is one accepted exchange of a simple call or invisible there |
| Hold.HoldRefinesSimpleCall | engine/dialog.go:90-136 | after every interleaving both ends are where the accepted exchanges put them and send to each other; with nothing outstanding the directions mirror each other |
| Hold.ReinviteIsAtomic | engine/dialog.go:90-136 | a call that returned true took effect at both ends, one that returned false at neither |
| Hold.LockKeepsPeerOut | engine/device.go:604-609 | while an end holds its lock, the peer's steps leave it as it is |
| Hold.GlareHasAtMostOneWinner | engine/dialog.go:96-103 | after a collision at most one of the two retries succeeds |
| HoldRetry.RetriedExactlyAfter491 | engine/dialog.go:90-104 | in every run a second request goes out exactly after a first 491, and a call returns false exactly after another refusal or a second 491 |
| HoldRetry.RefreshIsNotRetried | engine/timers.go:84-99 | in every run a refused session refresh, 491 included, ends the call without a second request |
| HoldRetry.BothBackOff | engine/dialog.go:96-103 | from any quiet state two crossing re-INVITEs leave both ends backing off, with nothing changed |
| HoldRetry.RetryMeetsLock | engine/dialog.go:96-103 | a retry while the other end still backs off is refused and is the last one |
| HoldRetry.RetrySucceeds | engine/dialog.go:96-103 | a retry that finds the other end idle is accepted |
| HoldRetry.GlareIsResolved | engine/dialog.go:96-103 | a run from the start in which both back off, the first retry is refused and the second one holds the call |
| Hold.HoldFlagsAgree | engine/dialog.go:131-133 | OnHold of one end equals RemoteHold of the other exactly when its last accepted re-INVITE was not recvonly |
| Hold.SecondHoldOverridesFirst | engine/dialog.go:71-88 | a run of the two ends after which the first to hold still reports OnHold but receives |
| Hold.RefreshOfHeldEndSetsItsFlag | engine/timers.go:84-99 | a run of the two ends in which a session refresh sent by the held end makes it report OnHold |
| Hold.OnHoldIsDeafUnlessOverridden | engine/dialog.go:77-88 | after every run with nothing outstanding, an end that reports OnHold receives exactly when the last re-INVITE was its own recvonly or the peer's sending one |
| Uac.UacDialog.HandleResponse | engine/uac.go:61-159 | what one response does: PRACK, CANCEL, retry or the result |
| Uac.UacDialog.Run | engine/uac.go:61-159 | the event loop ends where the step function puts it, for every order of events |
| Uac.EveryRun | engine/uac.go:61-159 | CANCEL iff requested and provisional, once, for the last INVITE; at most 4 INVITEs with consecutive CSeq |
| UacHistory.InviteSentAgainIff | engine/uac.go:111-135 | in every run an INVITE is sent again exactly for a usable response that is one of the first two challenges, with a password, or the first 422, and no CANCEL due |
| UacHistory.ResponseDecides | engine/uac.go:100-140 | in every run each other final response ends it with its own code, as cancelled exactly if a CANCEL was due, as a failure exactly if a due INVITE could not be made |
| UacHistory.EndsWithoutResponse | engine/uac.go:141-157 | which other events end a run, and how |
| UacHistory.CancelSentIffDue | engine/uac.go:71-110 | CANCEL is sent exactly once it was asked for and the last response was provisional; the call rang exactly after one other than 100 |
| UacHistory.PrackDueIff | engine/prack.go:29-62 | a PRACK is due exactly for a reliable provisional response whose RSeq is above all earlier ones |
| Uac.CSeqRisesUnlessRetriedAfterPrack | engine/uac.go:161-201 | CSeq rises strictly exactly when no INVITE is sent again after a PRACK |
| Uac.RetryAfterPrackRepeatsCSeq | engine/uac.go:180-198 | a run in which the CSeq of a PRACK is used again |
| Lifecycle.Call.MarkConnected | engine/call.go:179-193 | the state advances once and closes the channels that are due |
| Lifecycle.Call.BeginFinish | engine/call.go:195-215 | only the first finish goes on; it records cause, reason and time and knows whether the call was connected |
| Lifecycle.CallLifecycle | engine/call.go:168-225 | channels closed at most once and in step with the state, status 200 kept, CallEnd exactly once iff answered, Hangup true only after the end |
| Lifecycle.StateNeverGoesBack | engine/call.go:168-225 | no step of any thread takes the state back |
| CallHistory.StatusOfCall | engine/call.go:179-213 | in every interleaving the status is 200 from the answer on, without one what the first finish gave, and 0 until then |
| CallHistory.OutgoingGivesResult | engine/call.go:391-437 | an outgoing call ends with the final code of its INVITE, 487 when cancelled, none after a 2xx |
| CallHistory.RangExactlyIf | engine/call.go:168-177 | a call rang exactly if it was told to before it was answered or ended |
| CallHistory.EveryHangupIsAccountedFor | engine/call.go:282-340 | every Hangup is waiting, waits for its BYE, returned true, or failed by time-out or a refused BYE |
| Lifecycle.OutgoingCall | engine/call.go:391-437 | one CallSetup, ACK before confirmation, BYE after an answer that beat CANCEL, and the call ended or properly connected |
| Lifecycle.SetupAndEndBalance | engine/call.go:408-437 | by the order of events: setups and ends balance exactly when an acknowledged answer met both CANCEL and an end before its confirmation, or neither |
| Lifecycle.AnswerDuringCancelEndsWithoutSetup | engine/call.go:413-424 | a finished run with a CallEnd but no successful setup |
| Lifecycle.ByeBeforeConfirmationIsNotCounted | engine/call.go:413-419 | a finished run with a successful setup but no CallEnd |
| AutoSave.Call.ClaimSave | engine/callmedia.go:127-143 | the critical section claims the file exactly when it is due |
| AutoSave.SavedExactlyOnce | engine/callmedia.go:116-144 | at most one file, never before the end; exactly one once a failed, ended call has settled |
| AutoSave.SavedIff | engine/callmedia.go:116-144 | which settled calls have their file, exactly |
| AutoSave.ErrorSavedUnlessOverwritten | engine/callmedia.go:127-143 | an end by error after the answer is lost exactly when a late Hangup changed its cause in time and nobody marked the call failed |
| AutoSave.LateHangupLosesRecording | engine/call.go:440-446 | a run in which it is not |
| Rtp.Receiver.Count | media/stream.go:535-554 | the fields follow RFC 3550 A.1 without probation |
| Rtp.CountTracks | media/stream.go:543-553 | one packet keeps the 16-bit counter in step with the true number exactly when its distance can be told |
| Rtp.UnwrapsAnyRun | media/stream.go:535-554 | after any wraps and SSRC changes the counter stands for the true numbers and every packet is counted |
| Rtp.LossAccounting | media/stream.go:277-297 | expected less received is what never arrived less duplicates and early packets; the reported loss is exact iff no packet is repeated or early or nothing is missing |
| Rtp.NoExtraIffClean | media/stream.go:277-297 | over all SSRC changes there is no excess exactly when no packet repeats an earlier one of its run or precedes the first |
| Rtp.DuplicateHidesLoss | media/stream.go:277-297 | a run in which a lost packet is not reported because another came twice |
| Recorder.Recording.PutFrame | media/record.go:42-56 | a frame anchors, grows and overwrites the track as specified |
| Recorder.ArrivalOrderDoesNotMatter | media/record.go:42-56 | on an anchored track any order, time of arrival and repetition of disjoint frames gives the same samples, silence elsewhere |
| Recorder.FirstFrameAnchors | media/record.go:43-46 | the first frame anchors the track at its arrival |
| Recorder.NewSourceAnchors | media/record.go:42-56 | on any track the first frame of another SSRC lies at its arrival, changes no other sample, and later frames are placed from there |
| Recorder.SameSourceKeepsAnchor | media/record.go:43-46 | a frame of the same SSRC leaves the anchor where it is |
| Recorder.BurstOrderDoesNotMatter | media/record.go:42-56 | over any sources one after the other, order, arrival and repetition of the frames after each first one do not matter |
| Recorder.NeverPastCap | media/record.go:47-51 | no frames make the recording longer than the cap |
| RtpPacket.ParseOwn | media/stream.go:442-518 | a packet that was written is read back, unless its payload type looks like RTCP |
| RtpPacket.ParseParts | media/stream.go:470-495 | of a packet with contributing sources, a header extension and padding exactly the payload is read |
| RtpPacket.ReadExactlyIfWellFormed | media/stream.go:470-495 | a packet is read exactly if it is such a one, of version 2 and no RTCP; everything else is ignored |
| Dtmf.EventRoundTrip | media/stream.go:579-590 | the receiver's table inverts the sender's |
| Dtmf.KeysRecognised | media/stream.go:361-366 | exactly the sixteen keys can be dialled, a to d in either case, and each is heard as itself |
| Dtmf.Sender.SendDtmf | media/stream.go:355-374 | all digits are queued or none |
| Dtmf.Sender.BuildEvent | media/stream.go:389-405 | the head of the queue advances and the packet has its event's timestamp |
| Dtmf.Sender.DoTick | media/stream.go:377-424 | one tick sends the specified packet or keeps silent |
| DtmfPlan.StampsRepeat | media/stream.go:380-381 | timestamps come round exactly after multiples of 2^27 ticks |
| DtmfPlan.QueueFollowsPlan | media/stream.go:426-440 | a tick of the queue takes the next entry of the plan |
| DtmfPlan.SenderFollowsPlan | media/stream.go:377-440 | over any ticks and calls, also while digits are being sent, the packets follow the timetable: updates, three end packets, three audio frames a digit, one timestamp an event |
| DtmfPlan.PlanLength | media/stream.go:426-440 | each digit of a plan takes its updates and six ticks more |
| DtmfPlan.DurationFits | media/stream.go:394-403 | the duration field is right exactly up to 409 packets |
| DtmfDetail.EventFields | media/stream.go:389-405 | durations rise by 160 up to the length of the event, the last three packets and no others carry the end bit, the first one the marker |
| DtmfDetail.EventPlanAt | media/stream.go:389-405 | the packets of an event come in the order of their index, three after the updates |
| DtmfDetail.SentEventFields | media/stream.go:377-424 | over any ticks and calls every event packet has the fields of its place in its digit, on one timestamp |
| DtmfDetail.PacketsForDuration | media/stream.go:355-359 | as many updates of 20 ms as fit into the duration asked for, 100 ms by default, at least one |
| DtmfDetail.AudioFollowsLoop | media/stream.go:377-422 | over any ticks and calls the audio packets carry the looped frames in turn, on the clock, marked exactly after a silence |
| DtmfRun.Receiver.Take | media/stream.go:470-590 | what one packet does: it is counted and its source latched, a new event timestamp adds a digit, audio is passed on |
| DtmfRun.OtherPacketsAddNoDigit | media/stream.go:470-590 | a packet of another payload type, a truncated event or another tone adds no digit |
| DtmfRun.DigitsArrive | media/stream.go:579-590 | for any calls of SendDTMF at any time: whatever is lost, repeated or reordered within an event, the receiver has all that was dialled, in upper case |
| DtmfRun.TimestampsDiffer | media/stream.go:380-392 | neighbouring events share a timestamp only a multiple of 2^27 ticks apart, never in shorter runs |
| Text.EscapeRoundTrip | engine/transfer.go:76-86 | every byte string survives query escaping |
| Text.UnescapesIff | engine/transfer.go:250-258 | a value is unescaped exactly if two hexadecimal digits follow every percent sign |
| Text.AnyCaseEscape | engine/transfer.go:250-258 | the hexadecimal digits of an escape may be in either case |
| Transfer.ReplacesRoundTrip | engine/transfer.go:268-294 | a printed Replaces value is read back exactly when it has no ';' and no edge spaces |
| Transfer.LastParamCounts | engine/transfer.go:268-294 | of several to-tag or from-tag parameters the last one counts, others do not |
| Transfer.AnyCaseParam | engine/transfer.go:268-294 | the name of a parameter is read in any case and with any spaces around it |
| Transfer.ReferToRoundTrip | engine/transfer.go:239-262 | the transferee reads back the target and the Replaces value |
| Transfer.BlindReferTo | engine/transfer.go:63-72 | what a blind transfer sends is read back as its target without a dialog |
| Transfer.BareReferTo | engine/transfer.go:239-262 | so is a value without brackets |
| Transfer.AnyCaseReferTo | engine/transfer.go:239-262 | the name of the field is read in any case, other fields are ignored |
| Transfer.SpacedReferTo | engine/transfer.go:239-262 | spaces around a value are ignored |
| Transfer.LastReplacesCounts | engine/transfer.go:250-260 | of several Replaces fields the last one counts |
| Transfer.BadReferTo | engine/transfer.go:239-262 | no header, no target and any malformed escape are errors |
| Transfer.ConsultationNamesFarEnd | engine/transfer.go:76-86 | to-tag is the far end's own tag, from-tag the transferor's, whoever placed the call |
| Transfer.AttendedTransferFindsDialog | engine/transfer.go:76-86 | the transfer target finds its own end of the consultation dialog, and nothing else, whoever placed that call |
| Bridges.Pbx.OnBye | testpbx/calls.go:300-316 | a bridged leg takes its partner along, an orphan goes alone |
| Bridges.ByeEndsOneCall | testpbx/calls.go:300-316 | exactly the leg and its partner leave, an orphan alone; all other bridges and orphans stay and an unknown leg changes nothing |
| Bridges.CallAddsOneBridge | testpbx/calls.go:121-125 | an answered call adds its bridge and changes no other, an unanswered one nothing |
| Bridges.Pbx.Attended | testpbx/calls.go:388-416 | 481 or 500 without a change, or the far ends joined |
| Bridges.BlindTransfer | testpbx/calls.go:353-384 | the kept leg's partner is the target, the transferor an orphan, everyone else as before |
| Bridges.AttendedTransfer | testpbx/calls.go:388-416 | refused exactly for unknown legs and the own bridge; otherwise the far ends are partners |
| Bridges.TableStaysAMatching | testpbx/calls.go:110-139 | after any calls, BYEs and transfers every bridged leg has one partner, which has it, and is no orphan |
| Bridges.LateTransferKeepsMatchingIff | testpbx/calls.go:353-384 | finishing a blind transfer without rechecking keeps the matching exactly when the bridge is intact or wholly gone and the kept leg is no orphan |
| Bridges.LateJoinKeepsMatchingIff | testpbx/calls.go:388-416 | the same for an attended transfer: its four legs are paired among themselves or gone, and neither far end is an orphan |
| Bridges.CrossingJoinBreaksTable | testpbx/calls.go:388-416 | an attended transfer crossed by a blind one, for which it does not |
| Bridges.CrossingTransfersBreakTable | testpbx/calls.go:353-384 | two crossing transfers for which it does not |
| Bridges.ByeDuringTransferIsUndone | testpbx/calls.go:353-384 | a run in which a leg that hung up while the target was dialled is bridged again |
| Bridges.LateTransferRevivesNobodyIff | testpbx/calls.go:353-384 | a blind transfer brings no leg back exactly when both legs of its bridge are still known |
| Bridges.ByeDuringJoinIsUndone | testpbx/calls.go:388-416 | the same run for an attended transfer |
| Bridges.LateJoinRevivesNobodyIff | testpbx/calls.go:388-416 | an attended transfer brings no leg back exactly when both legs of its bridge and the far end of the consultation call are still known |
| Inbox.Device.Deliver | engine/device.go:619-625 | the call is appended and the signal closed and replaced |
| Inbox.Device.Scan | engine/device.go:646-661 | the in-place filter returns what the specification finds and keeps |
| Inbox.ScanTakesEarliest | engine/device.go:646-661 | the earliest live match is claimed, if there is one; all other live calls stay in order |
| Inbox.EveryCallIsAccountedFor | engine/device.go:619-683 | every delivered call is queued in order, claimed once, or dropped after it ended |
| Inbox.NoLostWakeup | engine/device.go:639-683 | a waiter whose signal is open has no call to claim; a wanted call in the inbox was delivered since it last looked |
| Inbox.GiveUpLeavesIff | engine/device.go:675-681 | what a time-out leaves: exactly the wanted calls delivered since the last look that nobody took |
| Inbox.DeliveryIsClaimed | engine/device.go:619-683 | a delivery lets a sleeping waiter that wants the call claim one |
| Inbox.TimeoutMayLeaveACall | engine/device.go:675-681 | a run in which the time-out wins over the signal |
| SessionTimer.ReadRefresher | engine/timers.go:37-42 | the parameter loop keeps the last refresher parameter in lower case |
| SessionTimer.HeaderRoundTrip | engine/timers.go:24-44 | a printed Session-Expires is read back cut to whole seconds, or not at all below one |
| SessionTimer.HeaderRead | engine/timers.go:24-44 | any number with any parameters: an interval exactly if it is positive and fits into 64 bits, and its nanoseconds wrap around |
| SessionTimer.LastRefresherCounts | engine/timers.go:37-42 | the last refresher parameter counts, in lower case; parameters of other names do not |
| SessionTimer.AnyCaseRefresher | engine/timers.go:37-42 | its name is read in any case and with any spaces around it |
| SessionTimer.Call.SessionRefreshed | engine/timers.go:59-74 | the refresher's alarm is at half the interval, the other one before its end |
| SessionTimer.Call.SessionForAnswer | engine/timers.go:148-165 | the headers of the answer and what is left to be armed once it is sent |
| SessionTimer.Call.SessionStarts | engine/call.go:245-247 | the answering end arms what was left, after it is connected |
| SessionTimer.Call.AddSessionHeaders | engine/timers.go:126-134 | the response repeats interval and refresher |
| SessionTimer.EndsAgree | engine/timers.go:137-165 | for any token the ends never both refresh or both wait; they share the interval exactly when it is in whole seconds |
| SessionTimer.InviteNamesInterval | engine/timers.go:137-165 | an interval that the INVITE names is armed at both ends with complementary roles |
| SessionTimer.NoSupportNoSession | engine/timers.go:148-165 | an INVITE without timer support starts a session exactly when it carries the header |
| SessionTimer.OwnIntervalProposed | engine/timers.go:148-165 | without the header the answering end proposes its own interval, if it has one and timers are supported |
| SessionTimer.CallerRefreshesByDefault | engine/timers.go:126-165 | without a refresher parameter the caller refreshes and a refresh is echoed with uac |
| SessionTimer.HugeIntervalStartsNothing | engine/timers.go:24-44 | an interval that overflows to a negative duration starts no session |
| SessionTimer.FractionsAreNotShared | engine/timers.go:150-160 | a configured interval of 1.5 s is armed as 1 s by the caller |
| SessionTimer.LaterHeadersNameTheSameParty | engine/timers.go:110-134 | every later re-INVITE and its response name the same party and interval |
| SessionTimer.StaysUpIff | engine/timers.go:59-107 | over any re-INVITEs of either end the waiting end stays up exactly when the end of each and the beginning of the next fit into the slack |
| SessionTimer.SixthIsEnoughIff | engine/timers.go:59-74 | re-INVITEs of under a sixth of the interval each suffice exactly from 192 seconds on |
| SessionTimer.TwoRefreshesAddUp | engine/timers.go:59-107 | a session of 180 seconds that expires although each refresh takes 29 |
| SessionTimer.TwelfthIsEnough | engine/timers.go:59-74 | a twelfth for each direction suffices always |
| SessionTimer.SilenceIsNoticed | engine/timers.go:69-73 | without refreshes the alarm rings before the session expires, by the margin of section 10 of RFC 4028 |

## Left out

- Sockets, the transaction library, digest computation, goroutine scheduling and real timers: only the events and locked sections they produce are modelled.
- The k6 adapter, exporters, command-line tools, dashboards and scripts.
- SDP text: parsing is taken to read back the codecs, telephone-event type and direction that were printed.
- Hold: calls without media, loss or time-out of a re-INVITE's response, re-INVITEs without an offer between the two ends, and UPDATE from foreign peers; every request gets its final response.
- Hold.Endpoint.HandleReinvite: the 481 of the device for a call it does not know, which the runs have as a refusal, and the session headers, which are SessionTimer.Call.AddSessionHeaders.
- Uac: reliable provisional responses carry only their RSeq; headers, routes and the digest of a retried INVITE are one usable/unusable choice.
- Lifecycle: the cause that Hangup of a ringing call writes; its CANCEL appears as the cancelled result of the INVITE.
- AutoSave: writing the file and its name; only the claim to write it.
- Rtp: jitter and the transit clock, which do not enter loss.
- Recorder: the decode tables, which are arbitrary functions applied before a frame is placed.
- DtmfRun.DigitsArrive: requires what RFC 4733 receivers rely on, one packet of each event and events in order; two successive events on one timestamp are excluded, and DtmfRun.TimestampsDiffer says when they occur.
- DtmfRun.Receiver.Take: decoding, level detection and recording of the audio it passes on, and jitter.
- Transfer: spaces beyond ASCII and case folding beyond ASCII; the NOTIFY progress of a transfer.
- Bridges: media, SDP relay and the status codes of a failed call to the target; in the runs of TableStaysAMatching a transfer is one step, and so are everywhere the two locked sections in which it drops the transferor and links the new bridge.
- Inbox: number normalisation, so a match is any relation between waiters and calls; the routing-time event.
- SessionTimer: re-INVITEs that fail or meet the other end's, after which a refresh hangs up; stopping the timer at the end of a call.
- Quality, Spectrum and Comparison: floating-point rounding; square root, logarithm, window and twiddles are parameters; durations are in samples and blocks.
- G.711 tables, WAV layout, retransmission keys, registration: simple members that add little.
