// The two unit tests of the scheduler, `depositing` and `buffer_writing`,
// stated on the model. Both use the four waves (0, 6), (5, 8), (7, 9) and
// (8, 12); the deposits only look at the timings, so the steps below are
// proved once for any wave and any horizon late enough.

module Scenarios {
  import opened Common
  import opened Func
  import opened Packing
  import opened Scheduler
  import opened Playback

  /** The schedule of both tests, every entry carrying `wave`. */
  function Schedule(wave: Wave): (ws: seq<TimedWave>)
    ensures |ws| == 4 && forall i :: 0 <= i < 4 ==> ws[i].wave == wave
  {
    [TimedWave(0, 6, wave), TimedWave(5, 8, wave), TimedWave(7, 9, wave), TimedWave(8, 12, wave)]
  }

  /** The deposit at 0: (0, 6) starts sounding and the player wakes at 5,
      when (5, 8) starts. */
  lemma DepositAt0(wave: Wave, horizon: int)
    requires 5 <= horizon
    ensures var ws := Schedule(wave);
      DepositWaves(ws, [], 0, horizon) == Go(ws[1..], [ws[0]], 5)
  {
    var ws := Schedule(wave);
    assert TakeDue(ws[1..], 0) == [] && SkipDue(ws[1..], 0) == ws[1..];
    assert TakeDue(ws, 0) == [ws[0]] && SkipDue(ws, 0) == ws[1..];
    assert MinEnd([ws[0]]) == Some(6);
  }

  /** The deposit at 5: (5, 8) joins and the player wakes at 6, when (0, 6)
      ends. */
  lemma DepositAt5(wave: Wave, horizon: int)
    requires 6 <= horizon
    ensures var ws := Schedule(wave);
      DepositWaves(ws[1..], [ws[0]], 5, horizon) == Go(ws[2..], ws[..2], 6)
  {
    var ws := Schedule(wave);
    assert TakeDue(ws[2..], 5) == [] && SkipDue(ws[2..], 5) == ws[2..];
    assert ws[1..][1..] == ws[2..];
    assert TakeDue(ws[1..], 5) == [ws[1]] && SkipDue(ws[1..], 5) == ws[2..];
    assert Retain([ws[0]], 5) == [ws[0]];
    assert ws[..2] == [ws[0]] + [ws[1]];
    assert MinEnd([ws[1]]) == Some(8);
    assert MinEnd(ws[..2]) == Some(6);
  }

  /** The deposit at 6: (0, 6) is retired, nothing starts, and the player
      wakes at 7, when (7, 9) starts. */
  lemma DepositAt6(wave: Wave, horizon: int)
    requires 7 <= horizon
    ensures var ws := Schedule(wave);
      DepositWaves(ws[2..], ws[..2], 6, horizon) == Go(ws[2..], [ws[1]], 7)
  {
    var ws := Schedule(wave);
    assert TakeDue(ws[2..], 6) == [] && SkipDue(ws[2..], 6) == ws[2..];
    assert ws[..2][1..] == [ws[1]];
    assert Retain([ws[1]], 6) == [ws[1]];
    assert Retain(ws[..2], 6) == [ws[1]];
    assert MinEnd([ws[1]]) == Some(8);
  }

  /** The deposit at 7: (7, 9) joins and the player wakes at 8, when (5, 8)
      ends and (8, 12) starts. */
  lemma DepositAt7(wave: Wave, horizon: int)
    requires 8 <= horizon
    ensures var ws := Schedule(wave);
      DepositWaves(ws[2..], [ws[1]], 7, horizon) == Go(ws[3..], ws[1..3], 8)
  {
    var ws := Schedule(wave);
    assert TakeDue(ws[3..], 7) == [] && SkipDue(ws[3..], 7) == ws[3..];
    assert ws[2..][1..] == ws[3..];
    assert TakeDue(ws[2..], 7) == [ws[2]] && SkipDue(ws[2..], 7) == ws[3..];
    assert Retain([ws[1]], 7) == [ws[1]];
    assert ws[1..3] == [ws[1]] + [ws[2]];
    assert MinEnd([ws[2]]) == Some(9);
    assert MinEnd(ws[1..3]) == Some(8);
  }

  /** The deposit at the horizon 8: (5, 8) is retired and (7, 9) is handed
      back with the still pending (8, 12). */
  lemma DepositAt8(wave: Wave)
    ensures var ws := Schedule(wave);
      DepositWaves(ws[3..], ws[1..3], 8, 8) == Stop([ws[2]], ws[3..])
  {
    var ws := Schedule(wave);
    assert ws[1..3][1..] == [ws[2]];
    assert Retain([ws[2]], 8) == [ws[2]];
  }

  /** The schedule of `depositing` fits in bytes, has equally long curves
      and is sorted, and so does every suffix of it. */
  lemma DepositingFits()
    ensures var ws := Schedule(DefaultWave);
      && Fits(ws) && Balanced(ws) && WavesSorted(ws)
      && Fits(ws[1..]) && Fits(ws[2..]) && Fits(ws[3..])
  {
    var ws := Schedule(DefaultWave);
    assert WaveStartsInOrder(ws, 0) && WaveStartsInOrder(ws, 1) && WaveStartsInOrder(ws, 2);
  }

  /** `depositing` on the arrays: the packer collected from the schedule
      passes the check, and each deposit before the horizon takes the due
      waves off the front of the arrays and leaves the encoding of the waves
      still pending. */
  lemma DepositingOnArrays()
    ensures var ws := Schedule(DefaultWave);
      && Accepts(EncodeAsWritten(ws)) && EncodeAsWritten(ws) == Encode(ws)
      && Consistent(Encode(ws)) && Consistent(Encode(ws[1..]))
      && Consistent(Encode(ws[2..])) && Consistent(Encode(ws[3..]))
      && DepositSpec(Encode(ws), [], 0, 8) == Continue(Encode(ws[1..]), [ws[0]], 5)
      && DepositSpec(Encode(ws[1..]), [ws[0]], 5, 8) == Continue(Encode(ws[2..]), ws[..2], 6)
      && DepositSpec(Encode(ws[2..]), ws[..2], 6, 8) == Continue(Encode(ws[2..]), [ws[1]], 7)
      && DepositSpec(Encode(ws[2..]), [ws[1]], 7, 8) == Continue(Encode(ws[3..]), ws[1..3], 8)
  {
    var ws := Schedule(DefaultWave);
    DepositingFits();
    CollectRoundTrip(ws);
    AsWrittenAgrees(ws);
    DepositEncoded(ws, [], 0, 8);
    DepositAt0(DefaultWave, 8);
    DepositEncoded(ws[1..], [ws[0]], 5, 8);
    DepositAt5(DefaultWave, 8);
    DepositEncoded(ws[2..], ws[..2], 6, 8);
    DepositAt6(DefaultWave, 8);
    DepositEncoded(ws[2..], [ws[1]], 7, 8);
    DepositAt7(DefaultWave, 8);
  }

  /** `depositing`, last step, on the arrays: at the horizon the packer is
      the one `extend` as written collects from the waves (7, 9) and
      (8, 12). */
  lemma DepositingHandsBack()
    ensures var ws := Schedule(DefaultWave);
      && Consistent(Encode(ws[3..]))
      && DepositSpec(Encode(ws[3..]), ws[1..3], 8, 8) == Exhausted(EncodeAsWritten(ws[2..]))
  {
    var ws := Schedule(DefaultWave);
    DepositingFits();
    DepositEncoded(ws[3..], ws[1..3], 8, 8);
    DepositAt8(DefaultWave);
    assert Balanced(ws[3..]);
    AsWrittenAgrees(ws[3..]);
    assert [ws[2]][1..] == [];
    assert EncodeBy([ws[2]], EncodeOneAsWritten) == Append(EncodeOneAsWritten(ws[2]), Empty);
    AppendEmpty(EncodeOneAsWritten(ws[2]));
    assert ws[2..][1..] == ws[3..];
  }

  /** The wave of `buffer_writing`: frequency 1, amplitude 0.25, phase 0.25. */
  const Tone: Wave := Wave([1.0], [0.25], 0.25)

  /** The argument of the sine `x` samples into a `Tone`: a crest. */
  function Crest(x: int): real
  {
    TAU * (x as real + 0.25)
  }

  /** A `Tone` wave `x` samples after its start, with a sine that is 1 at
      that crest, evaluates to its amplitude. */
  lemma ToneAtCrest(w: TimedWave, time: int, sine: real -> real)
    requires w.wave == Tone && sine(Crest(time - w.start)) == 1.0
    ensures TimedEval(w, time, sine) == 0.25
  {
    var x := (time - w.start) as real;
    assert Eval(Tone.freq, x) == 1.0 && Eval(Tone.amp, x) == 0.25;
    assert Angle(w.wave, x) == Crest(time - w.start);
  }

  /** `buffer_writing`: a player from 0 with horizon 11 fills seven samples
      with (0, 6) alone for five samples, then (0, 6) with (5, 8), then
      (5, 8) alone, and is left at 7 with (5, 8) sounding and the last two
      waves pending. With a sine that is 1 at the crests the samples are
      0.25, 0.25, 0.25, 0.25, 0.25, 0.5 and 0.25. */
  lemma BufferWriting(sine: real -> real)
    requires forall x :: 0 <= x <= 5 ==> sine(Crest(x)) == 1.0
    ensures var ws := Schedule(Tone);
      var (frames, ending) := PlaySpec(ws, [], 0, 11, 7);
      && frames == Span([ws[0]], 0, 5) + Span(ws[..2], 5, 1) + Span([ws[1]], 6, 1)
      && ending == Filled(ws[2..], [ws[1]], 7)
      && forall k :: 0 <= k < 7 ==>
           Mix(frames[k].live, frames[k].time, sine) == [0.25, 0.25, 0.25, 0.25, 0.25, 0.5, 0.25][k]
  {
    var ws := Schedule(Tone);
    DepositAt0(Tone, 11);
    DepositAt5(Tone, 11);
    DepositAt6(Tone, 11);
    PlayFills(ws[2..], ws[..2], 6, 11, 1, ws[2..], [ws[1]], 7);
    PlayContinues(ws[1..], [ws[0]], 5, 11, 2, ws[2..], ws[..2], 6, 1);
    PlayContinues(ws, [], 0, 11, 7, ws[1..], [ws[0]], 5, 5);
    var frames := PlaySpec(ws, [], 0, 11, 7).0;
    AppendAssoc(Span([ws[0]], 0, 5), Span(ws[..2], 5, 1), Span([ws[1]], 6, 1));
    forall k | 0 <= k < 7
      ensures Mix(frames[k].live, frames[k].time, sine) == [0.25, 0.25, 0.25, 0.25, 0.25, 0.5, 0.25][k]
    {
      if k < 5 {
        assert frames[k] == Frame([ws[0]], k);
        ToneAtCrest(ws[0], k, sine);
      } else if k == 5 {
        assert frames[k] == Frame(ws[..2], 5);
        ToneAtCrest(ws[0], 5, sine);
        ToneAtCrest(ws[1], 5, sine);
        assert ws[..2][1..] == [ws[1]];
      } else {
        assert frames[k] == Frame([ws[1]], 6);
        ToneAtCrest(ws[1], 6, sine);
      }
    }
  }
}
