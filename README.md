# audynomial scheduler and packing engine, in Dafny

This project models the core of the audynomial synthesiser: the packed
schedule of timed waves, the run-length decoder of their polynomial
curves, the scheduler that retires and wakes waves, and the player that
fills an output buffer one span at a time.

- A **timed wave** sounds on the samples `start <= time < end`. Its
  **wave** is a frequency curve, an amplitude curve and a phase.
- A **packer** (`TimedWavePacker`) stores a schedule in six parallel
  arrays. These are the timings, the frequency coefficients and their runs,
  the amplitude coefficients and their runs, and the phases. A run is one
  byte per wave giving the length of its curve.
- A **view** (`PackedTimedWaves`) checks the arrays and scans them. The
  timing, phase and both `MultiPoly` decoders advance in lockstep.
- A **deposit** (`deposit_current`) drops the live waves that have ended.
  Before the horizon it takes in the waves that have started and computes
  the next **wakeup**: the first end, the next start or the horizon,
  whichever comes first. At the horizon it re-encodes the survivors with
  `extend` in front of the unscanned arrays and hands back a new packer.
- `extend` records each wave's amplitude run as the length of its
  frequency curve (`src/lib.rs:150`). The model keeps this in every caller:
  `from_iter`, `unravel` and so the horizon hand-back. On waves whose two
  curves are equally long ("balanced") it is the same as the corrected
  encoding, and the hand-back properties are proved under that hypothesis.
  For any other wave the packer handed back can be refused by `get_pack`.
- The **player** (`Player::play`) deposits, writes samples up to the
  wakeup or the end of the buffer, moves the clock by that many samples,
  and repeats.

The modules follow the source:

- `Common` holds Option/Result, the byte type and `as u8`.
- `Func` is `src/func.rs`: curves, derive, scale and `MultiPoly`.
- `Packing` holds the values of the six arrays. This is the encoding that
  `extend` and `bulk_generate` perform and the decoding that the view scans.
- `Scheduler` holds the packer, view and `WaveSlice` classes, with
  `SampleSpec`, `DepositSpec` and `DepositWaves` as their specifications.
- `Playback` holds the `Player` class and `PlaySpec`, the specification of
  `play`.
- `Scenarios` holds the two unit tests of `src/lib.rs`, stated as lemmas.

Each method that changes state is proved against a pure function.

- `Player.Play` is proved to do what `PlaySpec` says on the decoded
  schedule.
- `PlaySpec` is proved to write consecutive times: the whole buffer on
  success, and at the horizon a strict prefix of a non-empty buffer.
- `Player.Play` keeps the schedule sorted by start and every retained wave
  started. At the horizon the waves it keeps still sound, and for balanced
  waves the packer it hands back passes `get_pack` and decodes to them
  followed by the pending ones. `ResumeFromHandBack` proves that a player
  built on that packer at the same clock plays exactly what the interrupted
  one would have played, had it gone on with the same new horizon.
- `FramesMixSoundingWaves` proves that, on a schedule played on time,
  every sample mixes exactly the waves whose interval contains its time,
  each once and in schedule order.

Some parts of the source lie outside the model and become parameters or
abstractions.

- The sine is a parameter `sine: real -> real`.
- The conversion to the output type (`Sample::from`) is a parameter
  `fromF32: real -> N`.
- Coefficients, phases and sample values are `real`. Times are unbounded
  integers.
- The borrowed view holds copies of the packer's arrays. While the borrow
  lives it sees exactly those values.
- The unwritten suffix that `play` returns on exhaustion is given as the
  index where it begins. The buffer past that index is proved untouched.

The deposit drops ended waves before it tests the horizon
(`src/lib.rs:229-230`). So the packer handed back at the horizon holds
only the waves still sounding, followed by every unscanned one.

## Model

| member | source | states |
|---|---|---|
| Common.AsByte | src/lib.rs:149 | `n as u8` keeps the length when it fits in a byte and never exceeds it |
| Func.Eval | src/func.rs:17-22 | a single coefficient is returned whatever `t` is; any other curve is its power series |
| Func.Series | src/func.rs:38-45 | the `ts` generator summed against the coefficients; no contract of its own, its meaning is stated by `Func.SeriesSnoc` and `Func.SeriesOfScaled` |
| Func.SeriesSnoc | src/func.rs:21 | coefficient `i` is multiplied by `t^i`: one more coefficient adds its product with the next power of `t` |
| Func.DerivePolynomial | src/func.rs:25-36 | one item fewer than the input (none for empty); item `i` is `p[i+1] * (i+1)` |
| Func.ScalePolynomial | src/func.rs:47-57 | same length; item `i` is `p[i] * scale` |
| Func.SeriesOfScaled | src/func.rs:55-56 | scaling every coefficient scales the whole power series |
| Func.EvalOfScaled | src/func.rs:18-21 | a scaled curve evaluates to the scaled value, shortcut or not |
| Func.WaveEval | src/func.rs:79-81 | `amp(t)` times the sine of `TAU * (t + phase) * freq(t)` (`Func.Angle`): silent when there are no amplitude coefficients, the sine scaled by the one coefficient of a constant amplitude |
| Func.Sum | src/func.rs:100 | the sum of the run lengths; no contract of its own, its meaning is stated by `Func.RunsSum` and `Func.MultiPoly.New` |
| Func.Split | src/func.rs:109-114 | one group per run, each as long as its run |
| Func.Runs | src/lib.rs:128-131 | one run per group, its length cast `as u8` |
| Func.RunsSum | src/lib.rs:149-153 | the recorded runs never add up to more than the coefficients, and add up to exactly as many exactly when every group fits in a byte |
| Func.FlattenOfSplit | src/func.rs:109-114 | the segments cut by the runs, laid end to end, are the coefficient array |
| Func.SplitOfFlatten | src/func.rs:109-114 | groups that fit in a byte, concatenated with their runs recorded, are cut back into the same groups |
| Func.MultiPoly.constructor | src/func.rs:101-103 | the decoder holds the arrays and the remaining coefficients match the remaining runs |
| Func.MultiPoly.New | src/func.rs:99-104 | a decoder exactly when the runs add up to the number of coefficients |
| Func.MultiPoly.Next | src/func.rs:109-114 | nothing exactly when no runs remain; else the front run's worth of coefficients, the rest kept, the invariant kept, and one fewer segment left |
| Func.MultiPoly.SizeHint | src/func.rs:115-117 | exact: the number of segments left |
| Packing.AppendEmpty | src/lib.rs:105-107 | the six empty arrays of `new` and `default` (`Packing.Empty`) are neutral on either side of `Append` |
| Packing.StartsSorted | src/lib.rs:186 | the neighbour check on the timings; no contract of its own, its meaning is stated by `Packing.AcceptsMeansSorted` and, on decoded waves, `Packing.AcceptsDecoded` |
| Packing.AcceptsMeansSorted | src/lib.rs:183-190 | the neighbour check and the run sums accept exactly the parallel, decodable arrays whose starts never decrease |
| Packing.Accepts | src/lib.rs:183-190 | the check of `new` and of both `MultiPoly::new`; no contract of its own, its meaning is stated by `Packing.AcceptsMeansSorted` and `Packing.EncodeAccepted` |
| Packing.EncodeOne | src/lib.rs:145-155 | one corrected round of `extend`; no contract of its own, what the scan makes of it is stated by `Packing.PopEncodeOne` |
| Packing.EncodeOneAsWritten | src/lib.rs:145-155 | one round of `extend` as written; no contract of its own, its difference from the corrected round is stated by `Packing.EncodeAsWrittenIsBulk` and `Packing.AsWrittenAgrees` |
| Packing.Encode | src/lib.rs:143-157 | the `extend` loop, corrected; no contract of its own, its meaning is stated by `Packing.EncodeBySnoc`, `Packing.EncodeIsBulk`, `Packing.EncodeAccepted` and `Packing.EncodeRoundTrip` |
| Packing.EncodeAsWritten | src/lib.rs:143-157 | the `extend` loop as written; no contract of its own, its meaning is stated by `Packing.EncodeAsWrittenIsBulk`, `Packing.AsWrittenAgrees` and `Packing.AsWrittenRefusesUnequalCurves` |
| Packing.Bulk | src/lib.rs:119-140 | the arrays `bulk_generate` appends; no contract of its own, its meaning is stated by `Packing.EncodeIsBulk` and `Scheduler.TimedWavePacker.BulkGenerate` |
| Packing.EncodeBySnoc | src/lib.rs:144-156 | each round of `extend` appends that wave's arrays |
| Packing.EncodeIsBulk | src/lib.rs:119-156 | corrected `extend` gives the arrays `bulk_generate` gives for the same columns |
| Packing.EncodeAsWrittenIsBulk | src/lib.rs:149-154 | `extend` as written differs from `bulk_generate` only in the amplitude runs, which follow the frequency curves |
| Packing.Pop | src/lib.rs:357-364 | taking one wave off decodable arrays leaves decodable arrays one wave shorter |
| Packing.DecodeAll | src/lib.rs:357-364 | one wave per timing |
| Packing.DecodedWaves | src/lib.rs:357-364 | decoded waves carry the stored timings, and their curves fit in a byte |
| Packing.PopEncodeOne | src/lib.rs:144-156 | the scan takes back exactly the wave one round of `extend` appended |
| Packing.DecodeEncode | src/lib.rs:144-156 | waves encoded by the corrected `extend` in front of decodable arrays decode back, followed by the old waves |
| Packing.EncodeRoundTrip | src/lib.rs:144-156 | the corrected encoding of sorted waves whose curves fit passes the check of `get_pack` and decodes to those waves |
| Packing.AcceptsDecoded | src/lib.rs:183-190 | decodable arrays pass the check of `new` exactly when the waves they decode to are sorted by start |
| Packing.EncodeAccepted | src/lib.rs:183-190 | the corrected encoding passes the check exactly when the waves are sorted and every curve fits in a byte |
| Packing.AsWrittenAgrees | src/lib.rs:149-150 | `extend` as written encodes balanced waves exactly as the corrected one does, and among waves that fit in a byte only balanced ones |
| Packing.CollectRoundTrip | src/lib.rs:159-165 | a packer collected by `from_iter` from balanced waves passes the check exactly when they are sorted and fit in a byte, and then decodes to exactly those waves |
| Packing.DecodeEncodeAsWritten | src/lib.rs:200-221 | balanced waves that fit, re-encoded as written in front of decodable arrays, keep them decodable and decode back followed by the old waves |
| Packing.AsWrittenRefusesUnequalCurves | src/lib.rs:150 | one wave with curves of different lengths: accepted when encoded correctly, refused as written |
| Packing.AsWrittenCrossedLayout | src/lib.rs:149-154 | the exact arrays `extend` as written makes from two waves with crossed curve lengths |
| Packing.AsWrittenScramblesAmplitudes | src/lib.rs:150 | those arrays pass the check but decode to a wrong amplitude curve; the corrected arrays decode correctly |
| Packing.CrossedRoundTrip | src/lib.rs:144-156 | the corrected encoding of the crossed waves decodes to them |
| Packing.TruncatedRunRefused | src/lib.rs:149 | a 256-coefficient curve is recorded as a run of 0, and the check then refuses the arrays |
| Scheduler.Due | src/lib.rs:358 | the `next_if` test on the next timing; no contract of its own, its meaning is stated by `Scheduler.SampleSplits` and `Scheduler.WaveSlice.Next` |
| Scheduler.SampleSpec | src/lib.rs:357-364 | the scan leaves decodable arrays and loses no wave: taken plus left equals before |
| Scheduler.SampleSplits | src/lib.rs:357-364 | the scan takes waves in stored order while they have started, stops at the first that has not, and leaves it pending with everything behind it |
| Scheduler.SampleTakesAllDue | src/lib.rs:358 | on sorted arrays every wave left pending starts after the bound, and the rest still passes the check |
| Scheduler.Retain | src/lib.rs:229 | retiring never adds waves |
| Scheduler.RetainMembers | src/lib.rs:229 | exactly the waves ending after `time` survive |
| Scheduler.RetainAppend | src/lib.rs:229 | retiring distributes over concatenation, so survivors keep their order |
| Scheduler.RetainAll | src/lib.rs:229 | waves that all end later are kept in place |
| Scheduler.MinEnd | src/lib.rs:236-240 | no minimum exactly for an empty live set |
| Scheduler.MinEndBelow | src/lib.rs:236-240 | the minimum end is at most every end |
| Scheduler.MinEndAttained | src/lib.rs:236-240 | the minimum end is the end of one of the waves |
| Scheduler.NextStart | src/lib.rs:241 | the start of the next unscanned timing; no contract of its own, its meaning is stated by `Scheduler.WakeUpBounds` and `Scheduler.WakeUpIsMinimum` |
| Scheduler.WakeUpBounds | src/lib.rs:236-242 | the wakeup is at most the horizon, every live end and the next start, and equals one of them |
| Scheduler.WakeUp | src/lib.rs:236-242 | the soonest of the first live end, the next start and the horizon; no contract of its own, its bounds are stated by `Scheduler.WakeUpBounds` |
| Scheduler.DepositSpec | src/lib.rs:223-245 | a deposit that goes on leaves decodable arrays |
| Scheduler.DepositContinues | src/lib.rs:229-234 | before the horizon: the survivors come first, unchanged; the new waves follow; no pending wave is lost; the new ones have started; the rest start later |
| Scheduler.WakeUpIsMinimum | src/lib.rs:236-242 | before the horizon the wakeup is the minimum of the horizon, every live end and every pending start |
| Scheduler.DepositProgress | src/lib.rs:236-242 | the wakeup lies ahead exactly when every live wave ends after `time` |
| Scheduler.QuietDeposit | src/lib.rs:229-244 | with nothing due, a deposit only retires waves, and the wakeup lies ahead |
| Scheduler.DepositExhausts | src/lib.rs:229-232 | at the horizon the packer's timings, phases and amplitude coefficients are the survivors' followed by the unscanned ones, and its amplitude runs are the survivors' frequency-curve lengths followed by the unscanned runs; for balanced survivors that fit it decodes to the survivors then everything pending |
| Scheduler.UnbalancedHandBackRefused | src/lib.rs:229-232 | a live wave (0, 10) with frequency `[1.0]` and amplitude `[2.0, 3.0]` at the horizon 1 is handed back in a packer that cannot be decoded |
| Scheduler.HandsBackDecodes | src/lib.rs:200-221 | a handed-back packer holds the survivors' timings then the pending ones; for balanced survivors that fit it is decodable and decodes to the survivors then the pending waves |
| Scheduler.TakeDue | src/lib.rs:358 | the due waves are no more than the pending ones |
| Scheduler.SkipDue | src/lib.rs:358 | what is left is no more than the pending ones |
| Scheduler.TakeDueTakes | src/lib.rs:357-358 | the due waves are a prefix of the schedule, all started; the rest is the suffix, and its first wave has not started |
| Scheduler.TakeDueAfterStarted | src/lib.rs:358 | waves that have all started are taken in front of whatever is due after them, and leave the same rest |
| Scheduler.TakeDueOfSplit | src/lib.rs:357-358 | a started prefix followed by an unstarted wave is exactly what is taken |
| Scheduler.DepositWaves | src/lib.rs:223-245 | `deposit_current` on decoded waves; no contract of its own, its meaning is stated by `Scheduler.DepositAgrees`, `Scheduler.DepositContinues`, `Scheduler.WakeUpIsMinimum` and `Scheduler.DepositExhausts` |
| Scheduler.DepositAgrees | src/lib.rs:223-245 | the deposit on the arrays does on the decoded waves what `DepositWaves` says: same live set and wakeup, or the survivors re-encoded by `extend` as written in front of the unscanned arrays |
| Scheduler.SampleEncoded | src/lib.rs:357-364 | scanning the encoding of waves takes the due ones off the front and leaves the encoding of the rest |
| Scheduler.DepositEncoded | src/lib.rs:223-245 | a deposit on the encoding of waves goes on with the encoding of the waves `DepositWaves` leaves pending, or at the horizon hands back the survivors encoded as written in front of the encoded pending waves |
| Scheduler.TimedWavePacker.constructor | src/lib.rs:105-107 | the new packer has six empty arrays |
| Scheduler.TimedWavePacker.Extend | src/lib.rs:143-157 | corrected: the arrays grow by exactly the encoding of the waves |
| Scheduler.TimedWavePacker.ExtendAsWritten | src/lib.rs:143-157 | as written: the arrays grow by the encoding whose amplitude runs follow the frequency curves |
| Scheduler.TimedWavePacker.FromIter | src/lib.rs:159-165 | a fresh packer holding exactly the encoding of the waves by `extend` as written |
| Scheduler.TimedWavePacker.BulkGenerate | src/lib.rs:119-140 | timings and phases appended as given, each group appended with its byte-cast length as its run |
| Scheduler.PushGroups | src/lib.rs:127-132 | the coefficients grow by the groups laid end to end, the runs by their byte-cast lengths |
| Scheduler.GroupsSnoc | src/lib.rs:128-131 | one more group extends the coefficients by it and the runs by its length |
| Scheduler.TimedWavePacker.GetPack | src/lib.rs:108-118 | a valid view over the current arrays exactly when the check accepts them |
| Scheduler.PackedTimedWaves.FromParts | src/lib.rs:187-192 | the view holds the given cursors and decoders |
| Scheduler.PackedTimedWaves.New | src/lib.rs:175-193 | a view exactly when the arrays are parallel, the starts sorted and both run sums match; it holds those arrays |
| Scheduler.PackedTimedWaves.Default | src/lib.rs:247-251 | the view over six empty arrays exists and is valid |
| Scheduler.PackedTimedWaves.Sample | src/lib.rs:194-199 | a fresh scan of this view with the given bound |
| Scheduler.PackedTimedWaves.Unravel | src/lib.rs:200-222 | a fresh packer holding the waves re-encoded by `extend` as written, in front of every unscanned array |
| Scheduler.PackedTimedWaves.DepositCurrent | src/lib.rs:223-245 | the view moves as `DepositSpec` says and returns its live set and wakeup; at the horizon it hands back its packer and is emptied |
| Scheduler.WaveSlice.constructor | src/lib.rs:195-198 | the scan holds the view and the bound |
| Scheduler.WaveSlice.Next | src/lib.rs:357-365 | a wave exactly when the next one has started by the bound; then every cursor moves by one, in lockstep, as `Pop` says; otherwise nothing moves |
| Scheduler.WaveSlice.Collect | src/lib.rs:234 | draining the scan yields exactly the waves and leaves exactly the arrays `SampleSpec` gives |
| Scheduler.WaveSlice.SizeHint | src/lib.rs:366-368 | no lower bound, and an upper bound that no scan exceeds |
| Playback.Cut | src/lib.rs:37-38 | never more than the buffer left |
| Playback.CutIsUnsignedMin | src/lib.rs:37-38 | on 64-bit spans, `Cut` is the minimum of the buffer left and the span cast to an unsigned value |
| Playback.TimedEval | src/lib.rs:89-92 | a wave without amplitude coefficients is silent at every time |
| Playback.Mix | src/lib.rs:44 | silence when nothing is live, and the one wave's value when one is |
| Playback.MixAppend | src/lib.rs:44 | the mix of two live sets laid end to end is the sum of their mixes |
| Playback.Span | src/lib.rs:43 | `cut` frames of the live set, at consecutive times from `time` |
| Playback.StallOnlyWhenDue | src/lib.rs:34-38 | after a deposit before the horizon nothing is due, and a wakeup that is not ahead needs a due wave |
| Playback.PlayProgress | src/lib.rs:33-54 | a round that leaves samples to write either writes some or takes a due wave, so the loop ends |
| Playback.PlaySpec | src/lib.rs:27-55 | samples at consecutive times from the clock; on success the whole buffer and the clock moved by its length; at the horizon a strict prefix of a non-empty buffer and the clock moved by what was written |
| Playback.PlayAdvance | src/lib.rs:40-42 | the frames so far, this span and the later rounds make up the whole |
| Playback.DepositFits | src/lib.rs:34-39 | retiring and sampling keep every curve short enough to encode |
| Playback.RetainFits | src/lib.rs:229 | retiring keeps every curve short enough to encode |
| Playback.DecodedSorted | src/lib.rs:186 | the waves of accepted arrays are sorted by start |
| Playback.TakeDueCuts | src/lib.rs:358 | on a sorted schedule the due prefix and the rest cut it in two: started, then not started and still sorted |
| Playback.DepositOnTime | src/lib.rs:223-245 | on a punctual schedule every live wave is sounding, the wakeup lies ahead, only ended waves are dropped, nothing appears from nowhere, and the schedule stays punctual |
| Playback.DepositBounds | src/lib.rs:229-242 | on a punctual schedule before the horizon every live wave has started, is still sounding and ends no earlier than the wakeup, which lies ahead, and every wave left pending starts at or after it |
| Playback.InOrder | src/lib.rs:186 | the order the player keeps: live waves then pending ones sorted by start, every live wave started; no contract of its own, it is kept by `Playback.PlayInOrder` |
| Playback.DepositInOrder | src/lib.rs:229-234 | a deposit before the horizon keeps the live-then-pending schedule sorted and every live wave started, also at the clock it moves to |
| Playback.HorizonInOrder | src/lib.rs:229-232 | at the horizon the survivors followed by the pending waves are sorted, and every survivor has started and still sounds |
| Playback.PlayInOrder | src/lib.rs:27-55 | from an ordered schedule `play` ends ordered: on success live then pending sorted, at the horizon the same for the survivors, every one of which still sounds |
| Playback.HandBackResumable | src/lib.rs:183-190 | a packer handed back in order holds the survivors' timings then the pending ones, sorted, every survivor sounding; for balanced survivors it passes the check of `get_pack` and decodes to the survivors then the pending waves |
| Playback.ResumeFromHandBack | src/lib.rs:27-55 | a fresh player over the survivors and pending waves, with nothing live, plays exactly as the interrupted player would have with the survivors live, at any new horizon ahead; at a horizon not ahead both stop at once |
| Playback.SameDepositSamePlay | src/lib.rs:34 | two states whose deposits agree play the same samples and end the same way |
| Playback.Sounding | src/lib.rs:82-87 | the waves whose interval `start <= time < end` contains the time, in order: a wave is in it exactly when it is in the input and sounds then |
| Playback.SoundingRetain | src/lib.rs:229 | retiring the waves that ended by a time changes nothing that sounds from that time on |
| Playback.RoundLive | src/lib.rs:229-244 | between a deposit on a punctual schedule and its wakeup, the live set is exactly the sequence of the schedule's waves sounding then |
| Playback.LaterLive | src/lib.rs:229-234 | from the deposit on, the schedule a deposit leaves has the same sounding waves, in the same order, as the one before |
| Playback.RoundSounding | src/lib.rs:43-46 | the samples of one round mix exactly the sequence of sounding waves |
| Playback.LaterSounding | src/lib.rs:39 | after a deposit, the samples from the cut on that mix exactly the sounding waves of the schedule left mix exactly those of the schedule before |
| Playback.SoundingFills | src/lib.rs:43-50 | a round that fills the buffer writes samples that mix exactly the sequence of sounding waves |
| Playback.SoundingContinues | src/lib.rs:36-51 | a round that stops at the wakeup keeps every sample mixing exactly the sequence of sounding waves |
| Playback.PunctualNext | src/lib.rs:36-42 | a round that stops short writes at least one sample and leaves a punctual schedule |
| Playback.FramesMixSoundingWaves | src/lib.rs:27-55 | on a punctual schedule every sample mixes exactly the waves, live or pending, whose interval contains its time, each once and in schedule order |
| Playback.Render | src/lib.rs:43-46 | the samples of the span hold the converted mix at consecutive times; the rest of the buffer is unchanged |
| Playback.RenderFrames | src/lib.rs:40-46 | the buffer holds the earlier frames and this span, and is unchanged past them |
| Playback.Player.constructor | src/lib.rs:18-25 | the player holds the view, the clock and the horizon, with nothing sounding |
| Playback.Player.CurrentTime | src/lib.rs:56-58 | the clock |
| Playback.Player.Deposit | src/lib.rs:34 | the view moves as `DepositWaves` says on the decoded schedule, or at the horizon is emptied and hands back the survivors, re-encoded as written, in front of arrays that decode to the pending waves; the survivors fit in a byte |
| Playback.Player.Round | src/lib.rs:34-46 | one pass: a deposit, then the samples up to the wakeup or the buffer end, and the clock moved past them; at the horizon the hand-back as in `Playback.Player.Deposit` |
| Playback.Player.Advanced | src/lib.rs:36-50 | after a pass the buffer is full and `play` is done, or `play` is part way through and has made progress |
| Playback.Player.Turn | src/lib.rs:34-53 | one pass of the loop on the decoded schedule: horizon with the hand-back of the survivors and pending waves, full buffer, or progress |
| Playback.Player.Rounds | src/lib.rs:33-54 | the loop writes every frame of `PlaySpec` and ends as it says, at the horizon with the hand-back of its survivors and pending waves |
| Playback.Player.Play | src/lib.rs:27-55 | the buffer holds the mixes of `PlaySpec`'s frames, the rest is untouched, and the clock is where it ends; success exactly when filled, keeping schedule and live set in order; otherwise the player is emptied and returns the unwritten index and a packer holding the survivors' timings then the pending ones, sorted, every survivor started and still sounding; when the survivors are balanced the packer passes `get_pack` and decodes to the survivors then the pending waves |
| Scenarios.Schedule | src/lib.rs:255-262 | the four waves of the tests, all with the given wave |
| Scenarios.DepositAt0 | src/lib.rs:264-276 | the deposit at 0 makes (0, 6) live and wakes at 5 |
| Scenarios.DepositAt5 | src/lib.rs:278-297 | the deposit at 5 adds (5, 8) and wakes at 6 |
| Scenarios.DepositAt6 | src/lib.rs:299-311 | the deposit at 6 retires (0, 6) and wakes at 7 |
| Scenarios.DepositAt7 | src/lib.rs:313-332 | the deposit at 7 adds (7, 9) and wakes at 8 |
| Scenarios.DepositAt8 | src/lib.rs:334-337 | the deposit at the horizon 8 stops with (7, 9) kept and (8, 12) pending |
| Scenarios.DepositingOnArrays | src/lib.rs:254-332 | on the arrays: the packer collected from the schedule passes `get_pack`, and each deposit before the horizon leaves the encoding of the waves still pending |
| Scenarios.DepositingHandsBack | src/lib.rs:334-346 | on the arrays, that deposit hands back exactly the packer `from_iter` collects from (7, 9) and (8, 12) |
| Scenarios.ToneAtCrest | src/func.rs:79-81 | the test's wave at a crest of the sine evaluates to its amplitude |
| Scenarios.BufferWriting | src/lib.rs:60-80 | seven samples from 0 with horizon 11: five of (0, 6), one of both, one of (5, 8), ending at 7; with a sine that is 1 at the crests the samples are 0.25 five times, 0.5, 0.25 |

## Left out

- `src/curve.rs` and the `interpolation` module are not part of this model. They are curve geometry with no call site in the scheduler.
- `stretch_polynomial` and the `ts` power generator's floating-point products are not modelled apart from the exact `Series` sum. `f32` rounding is not modelled because coefficients are `real`.
- The sine in `Wave::eval` is a parameter.
- Scenarios.BufferWriting: assumes the sine is 1 at the six crests it uses, because the sine is a parameter. The test's expected samples follow from that.
- `Sample::from` is a parameter, and so is the `as f32` conversion of the mix.
- `i64` overflow of the clock and of `time - start` is not modelled, because times are unbounded integers. `Playback.CutIsUnsignedMin` shows that `Cut` matches the `as usize` cast for 64-bit spans.
- Lifetimes, borrowing, `Peekable` and `mem::replace` are not modelled. The view holds copies of the arrays, and `replace` becomes an explicit reset.
- Playback.ResumeFromHandBack: resuming is stated on `PlaySpec`, for a player built over the decoded packer, not as a second call to `Player.Play`; only balanced survivors are proved to pass `get_pack`.
- Playback.Player.Play: the unwritten suffix of the buffer is returned as its start index rather than as a sub-slice.
- Scheduler.WaveSlice.SizeHint: states only the upper bound the scan respects, not that it is the phase iterator's count.
- Scheduler.DepositSpec: its own contract says only that the arrays left are decodable. Its meaning is stated by `Scheduler.DepositAgrees`, `Scheduler.DepositContinues`, `Scheduler.WakeUpIsMinimum` and `Scheduler.DepositExhausts`.
- When a pending wave is sampled after its end, it stays live for one round. A wakeup behind the clock then makes the span negative, and the whole remaining buffer is written with that live set. The model keeps this behaviour: see `Scheduler.DepositProgress` and `Playback.Cut`. `Playback.FramesMixSoundingWaves` assumes a punctual schedule, where this cannot happen.
- `as u8` truncation of run lengths is modelled as written (`Common.AsByte`), and `Packing.TruncatedRunRefused` exhibits it. The round-trip lemmas require curves shorter than 256 coefficients.

## Findings

| source | as written | input that shows it | evidently intended | confidence | as-written member | corrected member |
|---|---|---|---|---|---|---|
| src/lib.rs:150 | the amplitude run of each wave is the length of its frequency curve; `from_iter`, `unravel` and so the horizon hand-back of `play` all use it | one wave with frequency `[1.0]` and no amplitude coefficients gives arrays the check refuses (`Packing.AsWrittenRefusesUnequalCurves`); waves with curves `[1.0]`/`[2.0, 3.0]` and `[4.0, 5.0]`/`[6.0]` pass the check, and the first decodes with amplitude `[2.0]` (`Packing.AsWrittenScramblesAmplitudes`); a live wave (0, 10) with curves `[1.0]`/`[2.0, 3.0]` at the horizon is handed back in a packer that cannot be decoded (`Scheduler.UnbalancedHandBackRefused`) | the amplitude run is the length of the amplitude curve, so that a collected packer decodes to its waves (`Packing.EncodeRoundTrip`); the two agree on waves whose curves are equally long (`Packing.AsWrittenAgrees`), and only there the model's callers promise decoding | not executed | Scheduler.TimedWavePacker.ExtendAsWritten | Scheduler.TimedWavePacker.Extend |
