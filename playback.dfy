/** The buffer-filling player of `src/lib.rs` (`Player`).

    Each round asks the scheduler for the live waves and the next wakeup,
    fills the buffer up to the wakeup (or its end) with the mix of those
    waves, advances the clock by as many samples, and repeats; when the
    scheduler reaches the horizon it hands back the unplayed schedule and the
    part of the buffer not written. The oscillator and the conversion to the
    output sample type are parameters. */
module Playback {
  import opened Common
  import opened Func
  import opened Packing
  import opened Scheduler

  /** `buffer.len().min(valid_for as usize)`. A negative span converts to an
      unsigned value of at least 2^63, more than any buffer holds, so then the
      whole remaining buffer is taken. */
  function Cut(remaining: nat, validFor: int): (cut: nat)
    ensures cut <= remaining
  {
    if validFor < 0 then remaining else Min(remaining, validFor)
  }

  /** The cast `valid_for as usize` of a 64-bit span, next to a buffer no
      longer than `isize::MAX`, is the same choice as `Cut`. */
  lemma CutIsUnsignedMin(remaining: nat, validFor: int)
    requires -0x8000_0000_0000_0000 <= validFor < 0x8000_0000_0000_0000
    requires remaining < 0x8000_0000_0000_0000
    ensures Cut(remaining, validFor) == Min(remaining, validFor % 0x1_0000_0000_0000_0000)
  {
    if validFor < 0 {
      assert validFor % 0x1_0000_0000_0000_0000 == validFor + 0x1_0000_0000_0000_0000;
    }
  }

  /** `TimedWave::eval`: the wave evaluated at the time since its start; a
      wave without amplitude coefficients is silent at every time. */
  function TimedEval(w: TimedWave, time: int, sine: real -> real): (r: real)
    ensures w.wave.amp == [] ==> r == 0.0
  {
    WaveEval(w.wave, (time - w.start) as real, sine)
  }

  /** The value of one sample: the sum over the live waves, so silence
      when none is live and the one wave's value when one is. */
  function Mix(live: seq<TimedWave>, time: int, sine: real -> real): (r: real)
    ensures live == [] ==> r == 0.0
    ensures |live| == 1 ==> r == TimedEval(live[0], time, sine)
  {
    if live == [] then 0.0 else TimedEval(live[0], time, sine) + Mix(live[1..], time, sine)
  }

  /** The mix of a concatenation is the sum of the mixes, so the order of
      the live set does not matter beyond that. */
  lemma {:induction false} MixAppend(a: seq<TimedWave>, b: seq<TimedWave>, time: int, sine: real -> real)
    ensures Mix(a + b, time, sine) == Mix(a, time, sine) + Mix(b, time, sine)
    decreases a
  {
    if a == [] {
      assert a + b == b;
    } else {
      assert (a + b)[1..] == a[1..] + b;
      MixAppend(a[1..], b, time, sine);
    }
  }

  /** One written sample: the live set it mixes and its time. */
  datatype Frame = Frame(live: seq<TimedWave>, time: int)

  /** `cut` consecutive samples from `time` on, all mixing `live`. */
  function Span(live: seq<TimedWave>, time: int, cut: nat): (fs: seq<Frame>)
    ensures |fs| == cut
    ensures forall k :: 0 <= k < cut ==> fs[k] == Frame(live, time + k)
  {
    seq(cut, k => Frame(live, time + k))
  }

  /** How `play` ends: the buffer was filled and the player can go on with
      the waves still pending and the live set, or the horizon was reached
      and the retained live waves and the pending ones come back. */
  datatype Ending =
    | Filled(pending: seq<TimedWave>, live: seq<TimedWave>, time: int)
    | RanOut(kept: seq<TimedWave>, pending: seq<TimedWave>, time: int)

  /** The next pending wave has started by `time`. */
  predicate DueWave(pending: seq<TimedWave>, time: int)
  {
    pending != [] && pending[0].start <= time
  }

  /** A wakeup that does not lie ahead is only possible when something was
      due, and after any deposit before the horizon nothing is due. */
  lemma StallOnlyWhenDue(pending: seq<TimedWave>, current: seq<TimedWave>, time: int, wakeupTime: int)
    requires time < wakeupTime
    ensures var d := DepositWaves(pending, current, time, wakeupTime);
      && d.Go? && !DueWave(d.pending, time)
      && (d.wakeup <= time ==> DueWave(pending, time))
  {
    var d := DepositWaves(pending, current, time, wakeupTime);
    var kept := Retain(current, time);
    var born := TakeDue(pending, time);
    TakeDueTakes(pending, time);
    if !DueWave(pending, time) {
      assert born == [];
      assert d.live == kept;
      RetainMembers(current, time);
      if kept != [] {
        MinEndAttained(kept);
        var i :| 0 <= i < |kept| && kept[i].end == MinEnd(kept).value;
        assert kept[i] in kept;
      }
    }
  }

  /** A round of `play` that leaves samples to write moves on: it writes
      some, or it stalls on a due wave that the deposit then takes. This is
      why the loop in `play` ends. */
  lemma PlayProgress(pending: seq<TimedWave>, current: seq<TimedWave>, time: int, wakeup: int, remaining: nat,
                     rest: seq<TimedWave>, live: seq<TimedWave>, wake: int, cut: nat)
    requires DepositWaves(pending, current, time, wakeup) == Go(rest, live, wake)
    requires cut == Cut(remaining, wake - time) && cut < remaining
    ensures 0 < cut || (DueWave(pending, time) && !DueWave(rest, time + cut))
  {
    StallOnlyWhenDue(pending, current, time, wakeup);
  }

  /** `play` on the decoded schedule: the samples written, in order, and how
      it ends, for a buffer of `remaining` samples. Each round writes as many
      samples as the span to the wakeup allows, or all that remain. The
      samples carry consecutive times from the clock on; on success they fill
      the whole buffer and the clock moves by its length, and when the
      horizon is reached the clock has moved by the samples written, which
      fall short of a non-empty buffer. */
  function PlaySpec(pending: seq<TimedWave>, current: seq<TimedWave>, time: int, wakeup: int, remaining: nat)
    : (r: (seq<Frame>, Ending))
    ensures forall k :: 0 <= k < |r.0| ==> r.0[k].time == time + k
    ensures r.1.Filled? ==> |r.0| == remaining && r.1.time == time + remaining
    ensures r.1.RanOut? ==> r.1.time == time + |r.0| && (remaining == 0 || |r.0| < remaining)
    decreases remaining, if DueWave(pending, time) then 1 else 0
  {
    match DepositWaves(pending, current, time, wakeup)
    case Stop(kept, rest) => ([], RanOut(kept, rest, time))
    case Go(rest, live, wake) =>
      StallOnlyWhenDue(pending, current, time, wakeup);
      var cut := Cut(remaining, wake - time);
      if cut == remaining then (Span(live, time, cut), Filled(rest, live, time + cut))
      else
        var next := PlaySpec(rest, live, time + cut, wakeup, remaining - cut);
        (Span(live, time, cut) + next.0, next.1)
  }

  /** A round of `play` before the horizon whose span to the wakeup covers
      the rest of the buffer fills it and ends there. */
  lemma PlayFills(pending: seq<TimedWave>, current: seq<TimedWave>, time: int, wakeup: int, remaining: nat,
                  rest: seq<TimedWave>, live: seq<TimedWave>, wake: int)
    requires DepositWaves(pending, current, time, wakeup) == Go(rest, live, wake)
    requires Cut(remaining, wake - time) == remaining
    ensures PlaySpec(pending, current, time, wakeup, remaining) == (Span(live, time, remaining), Filled(rest, live, time + remaining))
  {
  }

  /** A round of `play` before the horizon that stops short of the end of
      the buffer writes the samples up to the wakeup and goes on from there
      with the deposit's schedule. */
  lemma PlayContinues(pending: seq<TimedWave>, current: seq<TimedWave>, time: int, wakeup: int, remaining: nat,
                      rest: seq<TimedWave>, live: seq<TimedWave>, wake: int, cut: nat)
    requires DepositWaves(pending, current, time, wakeup) == Go(rest, live, wake)
    requires cut == Cut(remaining, wake - time) && cut < remaining
    ensures var next := PlaySpec(rest, live, time + cut, wakeup, remaining - cut);
      PlaySpec(pending, current, time, wakeup, remaining) == (Span(live, time, cut) + next.0, next.1)
  {
  }

  /** A round that leaves part of the buffer: the frames so far, this
      round's span and what the later rounds write make up the whole. */
  lemma PlayAdvance(total: (seq<Frame>, Ending), done: seq<Frame>, pending: seq<TimedWave>, current: seq<TimedWave>,
                    time: int, wakeup: int, remaining: nat, rest: seq<TimedWave>, live: seq<TimedWave>, wake: int,
                    cut: nat, later: int, left: nat, next: (seq<Frame>, Ending))
    requires total == (done + PlaySpec(pending, current, time, wakeup, remaining).0, PlaySpec(pending, current, time, wakeup, remaining).1)
    requires DepositWaves(pending, current, time, wakeup) == Go(rest, live, wake)
    requires cut == Cut(remaining, wake - time) && cut < remaining
    requires later == time + cut && left == remaining - cut
    requires next == PlaySpec(rest, live, later, wakeup, left)
    ensures total == (done + Span(live, time, cut) + next.0, next.1)
  {
    PlayContinues(pending, current, time, wakeup, remaining, rest, live, wake, cut);
    assert done + (Span(live, time, cut) + next.0) == done + Span(live, time, cut) + next.0;
  }

  /** A round that fills the rest of the buffer ends `play`. */
  lemma PlayLast(total: (seq<Frame>, Ending), done: seq<Frame>, pending: seq<TimedWave>, current: seq<TimedWave>,
                 time: int, wakeup: int, remaining: nat, rest: seq<TimedWave>, live: seq<TimedWave>, wake: int)
    requires total == (done + PlaySpec(pending, current, time, wakeup, remaining).0, PlaySpec(pending, current, time, wakeup, remaining).1)
    requires DepositWaves(pending, current, time, wakeup) == Go(rest, live, wake)
    requires Cut(remaining, wake - time) == remaining
    ensures total == (done + Span(live, time, remaining), Filled(rest, live, time + remaining))
  {
    PlayFills(pending, current, time, wakeup, remaining, rest, live, wake);
  }

  /** At the horizon `play` writes nothing and hands back the retained live
      waves and everything pending. */
  lemma PlayStop(pending: seq<TimedWave>, current: seq<TimedWave>, time: int, wakeup: int, remaining: nat,
                 kept: seq<TimedWave>, rest: seq<TimedWave>)
    requires DepositWaves(pending, current, time, wakeup) == Stop(kept, rest)
    ensures PlaySpec(pending, current, time, wakeup, remaining) == ([], RanOut(kept, rest, time))
  {
  }

  /** Retiring and sampling keep every curve short enough to encode. */
  lemma DepositFits(pending: seq<TimedWave>, current: seq<TimedWave>, time: int, wakeup: int,
                    rest: seq<TimedWave>, live: seq<TimedWave>, wake: int)
    requires Fits(pending) && Fits(current)
    requires DepositWaves(pending, current, time, wakeup) == Go(rest, live, wake)
    ensures Fits(live) && Fits(Retain(current, time))
  {
    var kept := Retain(current, time);
    var born := TakeDue(pending, time);
    assert live == kept + born;
    TakeDueTakes(pending, time);
    RetainFits(current, time);
    forall i | 0 <= i < |live| ensures |live[i].wave.freq| < 256 && |live[i].wave.amp| < 256 {
      if i < |kept| {
        assert live[i] == kept[i];
      } else {
        assert live[i] == born[i - |kept|] == pending[i - |kept|];
      }
    }
  }

  /** Retiring keeps every curve short enough to encode. */
  lemma RetainFits(current: seq<TimedWave>, time: int)
    requires Fits(current)
    ensures Fits(Retain(current, time))
  {
    var kept := Retain(current, time);
    RetainMembers(current, time);
    forall i | 0 <= i < |kept| ensures |kept[i].wave.freq| < 256 && |kept[i].wave.amp| < 256 {
      assert kept[i] in current;
      var j :| 0 <= j < |current| && current[j] == kept[i];
    }
  }

  lemma {:induction false} WavesSortedBetween(ws: seq<TimedWave>, i: nat, j: nat)
    requires WavesSorted(ws) && i <= j < |ws|
    ensures ws[i].start <= ws[j].start
    decreases j - i
  {
    if i < j {
      WavesSortedBetween(ws, i, j - 1);
      assert WaveStartsInOrder(ws, j - 1);
    }
  }

  /** The waves of arrays that pass the construction check are sorted by
      start. */
  lemma DecodedSorted(p: Packed)
    requires Accepts(p)
    ensures WavesSorted(DecodeAll(p))
  {
    AcceptsDecoded(p);
  }

  /** The schedule is played on time: the pending waves are sorted by start
      and have non-empty intervals, the live waves have started, and no
      pending wave that is already due has ended. */
  predicate Punctual(pending: seq<TimedWave>, current: seq<TimedWave>, time: int)
  {
    && WavesSorted(pending)
    && (forall w :: w in current ==> w.start <= time)
    && (forall w :: w in pending ==> w.start < w.end)
    && (forall w :: w in pending && w.start <= time ==> w.end > time)
  }

  /** On waves sorted by start, the due prefix and the rest cut the schedule
      in two: the prefix has started by `time`, the rest has not and is still
      sorted, and no wave of the rest starts before its first. */
  lemma TakeDueCuts(pending: seq<TimedWave>, time: int)
    requires WavesSorted(pending)
    ensures var born := TakeDue(pending, time);
      var rest := SkipDue(pending, time);
      && pending == born + rest
      && (forall w :: w in born ==> w in pending && w.start <= time)
      && (forall w :: w in rest ==> w in pending && time < w.start)
      && (rest != [] ==> forall w :: w in rest ==> rest[0].start <= w.start)
      && WavesSorted(rest)
  {
    var born := TakeDue(pending, time);
    TakeDueTakes(pending, time);
    assert pending == born + pending[|born|..];
    StartedPrefix(pending, |born|, time);
    LaterSuffix(pending, |born|, time);
  }

  /** A prefix whose waves have all started is made of started waves of the
      whole schedule. */
  lemma StartedPrefix(ws: seq<TimedWave>, k: nat, time: int)
    requires k <= |ws| && forall i :: 0 <= i < k ==> ws[i].start <= time
    ensures forall w :: w in ws[..k] ==> w in ws && w.start <= time
  {
    forall w | w in ws[..k] ensures w in ws && w.start <= time {
      var i :| 0 <= i < k && ws[..k][i] == w;
      assert ws[i] == w;
    }
  }

  /** The suffix of a sorted schedule from a wave that starts after `time` on
      is sorted, starts after `time`, and starts no earlier than its first. */
  lemma LaterSuffix(ws: seq<TimedWave>, k: nat, time: int)
    requires WavesSorted(ws) && k <= |ws| && (k < |ws| ==> time < ws[k].start)
    ensures var rest := ws[k..];
      && (forall w :: w in rest ==> w in ws && time < w.start)
      && (rest != [] ==> forall w :: w in rest ==> rest[0].start <= w.start)
      && WavesSorted(rest)
  {
    var rest := ws[k..];
    forall w | w in rest ensures w in ws && time < w.start && ws[k].start <= w.start {
      var i :| 0 <= i < |rest| && rest[i] == w;
      assert ws[k + i] == w;
      WavesSortedBetween(ws, k, k + i);
    }
    forall i | 0 <= i < |rest| - 1 ensures rest[i].start <= rest[i + 1].start {
      assert WaveStartsInOrder(ws, k + i);
      assert rest[i] == ws[k + i] && rest[i + 1] == ws[k + i + 1];
    }
  }

  /** One deposit on a punctual schedule before the horizon, its bounds:
      every live wave is sounding at `time` and lasts until the wakeup, the
      wakeup lies ahead, and nothing pending starts before it. */
  lemma DepositBounds(pending: seq<TimedWave>, current: seq<TimedWave>, time: int, wakeup: int,
                      rest: seq<TimedWave>, live: seq<TimedWave>, wake: int)
    requires Punctual(pending, current, time) && time < wakeup
    requires DepositWaves(pending, current, time, wakeup) == Go(rest, live, wake)
    ensures forall w :: w in live ==> w.start <= time < w.end && wake <= w.end
    ensures time < wake
    ensures forall w :: w in rest ==> wake <= w.start
  {
    var kept := Retain(current, time);
    var born := TakeDue(pending, time);
    var nextStart := if rest == [] then None else Some(rest[0].start);
    assert rest == SkipDue(pending, time) && live == kept + born;
    assert wake == WakeUp(live, nextStart, wakeup);
    RetainMembers(current, time);
    TakeDueCuts(pending, time);
    WakeUpBounds(live, nextStart, wakeup);
    if rest != [] {
      assert rest[0] in rest;
    }
  }

  /** One deposit on a punctual schedule before the horizon: every live wave
      is sounding at `time`, the wakeup lies ahead, no wave appears from
      nowhere, only waves that have ended are dropped, nothing pending starts
      before the wakeup, and the schedule is still punctual at the wakeup. */
  lemma DepositOnTime(pending: seq<TimedWave>, current: seq<TimedWave>, time: int, wakeup: int,
                      rest: seq<TimedWave>, live: seq<TimedWave>, wake: int)
    requires Punctual(pending, current, time) && time < wakeup
    requires DepositWaves(pending, current, time, wakeup) == Go(rest, live, wake)
    ensures forall w :: w in live ==> w.start <= time < w.end && wake <= w.end
    ensures time < wake
    ensures forall w :: w in live || w in rest ==> w in current || w in pending
    ensures forall w :: (w in current || w in pending) && w.end > time ==> w in live || w in rest
    ensures forall w :: w in rest ==> wake <= w.start
    ensures Punctual(rest, live, wake)
  {
    DepositBounds(pending, current, time, wakeup, rest, live, wake);
    assert rest == SkipDue(pending, time) && live == Retain(current, time) + TakeDue(pending, time);
    RetainMembers(current, time);
    TakeDueCuts(pending, time);
  }

  // ---------------------------------------------------------------------
  // The order the player keeps, and resuming from a hand-back
  // ---------------------------------------------------------------------

  /** The schedule as the player keeps it: the live waves followed by the
      pending ones are sorted by start, and every live wave has started. */
  predicate InOrder(pending: seq<TimedWave>, current: seq<TimedWave>, time: int)
  {
    WavesSorted(current + pending) && forall w :: w in current ==> w.start <= time
  }

  /** Without its first wave a sorted schedule is still sorted, and none of
      its waves starts before that first one. */
  lemma SortedRest(ws: seq<TimedWave>)
    requires WavesSorted(ws) && ws != []
    ensures WavesSorted(ws[1..]) && forall w :: w in ws[1..] ==> ws[0].start <= w.start
  {
    if 1 < |ws| {
      assert WaveStartsInOrder(ws, 0);
    }
    LaterSuffix(ws, 1, ws[0].start - 1);
  }

  /** A wave starting no later than any wave of a sorted schedule can go in
      front of it. */
  lemma SortedCons(w: TimedWave, ws: seq<TimedWave>)
    requires WavesSorted(ws) && forall v :: v in ws ==> w.start <= v.start
    ensures WavesSorted([w] + ws)
  {
    var s := [w] + ws;
    forall i | 0 <= i < |s| - 1 ensures WaveStartsInOrder(s, i) {
      if i == 0 {
        assert ws[0] in ws;
      } else {
        assert WaveStartsInOrder(ws, i - 1);
      }
    }
  }

  /** Retiring waves from the front part of a sorted schedule leaves it
      sorted: what is left is a subsequence. */
  lemma {:induction false} RetainSorted(a: seq<TimedWave>, b: seq<TimedWave>, time: int)
    requires WavesSorted(a + b)
    ensures WavesSorted(Retain(a, time) + b)
    decreases a
  {
    if a == [] {
      assert a + b == b;
    } else {
      assert (a + b)[1..] == a[1..] + b;
      SortedRest(a + b);
      RetainSorted(a[1..], b, time);
      var s := Retain(a[1..], time) + b;
      if a[0].end > time {
        assert Retain(a, time) + b == [a[0]] + s;
        RetainMembers(a[1..], time);
        forall v | v in s ensures a[0].start <= v.start {
          assert v in (a + b)[1..];
        }
        SortedCons(a[0], s);
      } else {
        assert Retain(a, time) + b == s;
      }
    }
  }

  /** A deposit before the horizon keeps the order: the new live set and the
      waves left pending are still in order, from the deposit on. */
  lemma DepositInOrder(pending: seq<TimedWave>, current: seq<TimedWave>, time: int, wakeup: int,
                       rest: seq<TimedWave>, live: seq<TimedWave>, wake: int, later: int)
    requires InOrder(pending, current, time) && time <= later
    requires DepositWaves(pending, current, time, wakeup) == Go(rest, live, wake)
    ensures InOrder(rest, live, later)
  {
    var kept, born := Retain(current, time), TakeDue(pending, time);
    RetainMembers(current, time);
    RetainSorted(current, pending, time);
    TakeDueTakes(pending, time);
    assert pending == born + rest;
    AppendAssoc(kept, born, rest);
    forall w: TimedWave | w in live ensures w.start <= later {
      if w !in kept {
        var i :| 0 <= i < |born| && born[i] == w;
      }
    }
  }

  /** A deposit at the horizon keeps the order: the retained waves have
      started and not yet ended, and come before the pending ones in order. */
  lemma HorizonInOrder(pending: seq<TimedWave>, current: seq<TimedWave>, time: int, wakeup: int,
                       kept: seq<TimedWave>, rest: seq<TimedWave>)
    requires InOrder(pending, current, time)
    requires DepositWaves(pending, current, time, wakeup) == Stop(kept, rest)
    ensures InOrder(rest, kept, time) && forall w :: w in kept ==> time < w.end
  {
    RetainMembers(current, time);
    RetainSorted(current, pending, time);
  }

  /** How `play` ends keeps the order: after filling the buffer the live set
      and the pending waves are in order at the new clock, and at the horizon
      the retained waves have started and not yet ended, and come before the
      pending ones in order. */
  predicate EndsInOrder(e: Ending)
  {
    match e
    case Filled(pending, live, time) => InOrder(pending, live, time)
    case RanOut(kept, pending, time) => InOrder(pending, kept, time) && forall w :: w in kept ==> time < w.end
  }

  /** A round at the horizon ends `play` in order. */
  lemma InOrderStops(pending: seq<TimedWave>, current: seq<TimedWave>, time: int, wakeup: int, remaining: nat,
                     kept: seq<TimedWave>, rest: seq<TimedWave>)
    requires InOrder(pending, current, time)
    requires DepositWaves(pending, current, time, wakeup) == Stop(kept, rest)
    ensures EndsInOrder(PlaySpec(pending, current, time, wakeup, remaining).1)
  {
    HorizonInOrder(pending, current, time, wakeup, kept, rest);
    PlayStop(pending, current, time, wakeup, remaining, kept, rest);
  }

  /** A round that fills the buffer ends `play` in order. */
  lemma InOrderFills(pending: seq<TimedWave>, current: seq<TimedWave>, time: int, wakeup: int, remaining: nat,
                     rest: seq<TimedWave>, live: seq<TimedWave>, wake: int)
    requires InOrder(pending, current, time)
    requires DepositWaves(pending, current, time, wakeup) == Go(rest, live, wake)
    requires Cut(remaining, wake - time) == remaining
    ensures EndsInOrder(PlaySpec(pending, current, time, wakeup, remaining).1)
  {
    DepositInOrder(pending, current, time, wakeup, rest, live, wake, time + remaining);
    PlayFills(pending, current, time, wakeup, remaining, rest, live, wake);
  }

  /** A round that stops at the wakeup ends `play` as the later rounds do. */
  lemma InOrderContinues(pending: seq<TimedWave>, current: seq<TimedWave>, time: int, wakeup: int, remaining: nat,
                         rest: seq<TimedWave>, live: seq<TimedWave>, wake: int, cut: nat)
    requires DepositWaves(pending, current, time, wakeup) == Go(rest, live, wake)
    requires cut == Cut(remaining, wake - time) && cut < remaining
    requires EndsInOrder(PlaySpec(rest, live, time + cut, wakeup, remaining - cut).1)
    ensures EndsInOrder(PlaySpec(pending, current, time, wakeup, remaining).1)
  {
    PlayContinues(pending, current, time, wakeup, remaining, rest, live, wake, cut);
  }

  /** `play` keeps the order from round to round, up to how it ends. */
  lemma {:induction false} PlayInOrder(pending: seq<TimedWave>, current: seq<TimedWave>, time: int, wakeup: int,
                                       remaining: nat)
    requires InOrder(pending, current, time)
    ensures EndsInOrder(PlaySpec(pending, current, time, wakeup, remaining).1)
    decreases remaining, if DueWave(pending, time) then 1 else 0
  {
    match DepositWaves(pending, current, time, wakeup)
    case Stop(kept, rest) =>
      InOrderStops(pending, current, time, wakeup, remaining, kept, rest);
    case Go(rest, live, wake) =>
      var cut := Cut(remaining, wake - time);
      if cut == remaining {
        InOrderFills(pending, current, time, wakeup, remaining, rest, live, wake);
      } else {
        var later, left := time + cut, remaining - cut;
        DepositInOrder(pending, current, time, wakeup, rest, live, wake, later);
        PlayProgress(pending, current, time, wakeup, remaining, rest, live, wake, cut);
        PlayInOrder(rest, live, later, wakeup, left);
        InOrderContinues(pending, current, time, wakeup, remaining, rest, live, wake, cut);
      }
  }

  /** A hand-back in order holds the timings of the retained waves before
      those of the pending ones, in order of start; when the retained waves
      fit in a byte and are balanced it passes the construction check and
      decodes to the retained waves before the pending ones. */
  lemma HandBackResumable(packer: Packed, kept: seq<TimedWave>, pending: seq<TimedWave>, time: int)
    requires HandsBack(packer, kept, pending) && Fits(kept)
    requires InOrder(pending, kept, time) && forall w :: w in kept ==> time < w.end
    ensures packer.timings == TimingsOf(kept) + TimingsOf(pending)
    ensures WavesSorted(kept + pending) && forall w :: w in kept ==> w.start <= time < w.end
    ensures Balanced(kept) ==> Accepts(packer) && DecodeAll(packer) == kept + pending
  {
    HandsBackDecodes(packer, kept, pending);
    if Balanced(kept) {
      AcceptsDecoded(packer);
    }
  }

  /** Resuming from a hand-back: with the retained waves, which have started
      and not yet ended, put in front of the pending ones and nothing live, a
      new `play` from the same clock writes the same samples and ends the
      same way as going on with the retained waves live; at the horizon both
      hand back the retained waves before the pending ones. */
  lemma ResumeFromHandBack(kept: seq<TimedWave>, pending: seq<TimedWave>, time: int, wakeup: int, remaining: nat)
    requires forall w :: w in kept ==> w.start <= time < w.end
    ensures time < wakeup ==>
      PlaySpec(kept + pending, [], time, wakeup, remaining) == PlaySpec(pending, kept, time, wakeup, remaining)
    ensures wakeup <= time ==>
      && PlaySpec(kept + pending, [], time, wakeup, remaining) == ([], RanOut([], kept + pending, time))
      && PlaySpec(pending, kept, time, wakeup, remaining) == ([], RanOut(kept, pending, time))
  {
    forall i | 0 <= i < |kept| ensures kept[i].end > time {
      assert kept[i] in kept;
    }
    RetainAll(kept, time);
    TakeDueAfterStarted(kept, pending, time);
    if time < wakeup {
      assert Retain(kept, time) + TakeDue(pending, time) == [] + TakeDue(kept + pending, time);
      SameDepositSamePlay(kept + pending, [], pending, kept, time, wakeup, remaining);
    } else {
      PlayStop(kept + pending, [], time, wakeup, remaining, [], kept + pending);
      PlayStop(pending, kept, time, wakeup, remaining, kept, pending);
    }
  }

  /** `play` depends on its schedule only through the deposits it makes,
      so two schedules whose first deposit is the same are played the same. */
  lemma SameDepositSamePlay(pending: seq<TimedWave>, current: seq<TimedWave>, other: seq<TimedWave>,
                            live: seq<TimedWave>, time: int, wakeup: int, remaining: nat)
    requires DepositWaves(pending, current, time, wakeup) == DepositWaves(other, live, time, wakeup)
    ensures PlaySpec(pending, current, time, wakeup, remaining) == PlaySpec(other, live, time, wakeup, remaining)
  {
    match DepositWaves(pending, current, time, wakeup)
    case Stop(kept, rest) =>
      PlayStop(pending, current, time, wakeup, remaining, kept, rest);
      PlayStop(other, live, time, wakeup, remaining, kept, rest);
    case Go(rest, now, wake) =>
      var cut := Cut(remaining, wake - time);
      if cut == remaining {
        PlayFills(pending, current, time, wakeup, remaining, rest, now, wake);
        PlayFills(other, live, time, wakeup, remaining, rest, now, wake);
      } else {
        PlayContinues(pending, current, time, wakeup, remaining, rest, now, wake, cut);
        PlayContinues(other, live, time, wakeup, remaining, rest, now, wake, cut);
      }
  }

  /** The waves of `ws` whose interval contains `time`, in their order. */
  function Sounding(ws: seq<TimedWave>, time: int): (r: seq<TimedWave>)
    ensures |r| <= |ws|
    ensures forall w :: w in r <==> w in ws && w.start <= time < w.end
  {
    if ws == [] then []
    else (if ws[0].start <= time < ws[0].end then [ws[0]] else []) + Sounding(ws[1..], time)
  }

  lemma {:induction false} SoundingAppend(a: seq<TimedWave>, b: seq<TimedWave>, time: int)
    ensures Sounding(a + b, time) == Sounding(a, time) + Sounding(b, time)
    decreases a
  {
    if a == [] {
      assert a + b == b;
    } else {
      assert (a + b)[1..] == a[1..] + b;
      SoundingAppend(a[1..], b, time);
    }
  }

  /** Waves that all sound at `time` are all kept, in place. */
  lemma {:induction false} SoundingAll(ws: seq<TimedWave>, time: int)
    requires forall w :: w in ws ==> w.start <= time < w.end
    ensures Sounding(ws, time) == ws
    decreases ws
  {
    if ws != [] {
      HeadTail(ws);
      SoundingAll(ws[1..], time);
    }
  }

  /** Waves none of which sounds at `time` leave nothing. */
  lemma {:induction false} SoundingNone(ws: seq<TimedWave>, time: int)
    requires forall w :: w in ws ==> !(w.start <= time < w.end)
    ensures Sounding(ws, time) == []
    decreases ws
  {
    if ws != [] {
      HeadTail(ws);
      SoundingNone(ws[1..], time);
    }
  }

  /** Retiring the waves that ended by `since` does not change what sounds
      at any time from `since` on. */
  lemma {:induction false} SoundingRetain(ws: seq<TimedWave>, since: int, time: int)
    requires since <= time
    ensures Sounding(Retain(ws, since), time) == Sounding(ws, time)
    decreases ws
  {
    if ws != [] {
      SoundingRetain(ws[1..], since, time);
      var w, tail := ws[0], Retain(ws[1..], since);
      var head := if w.start <= time < w.end then [w] else [];
      assert Sounding(ws, time) == head + Sounding(ws[1..], time);
      if w.end > since {
        var kept := [w] + tail;
        assert Retain(ws, since) == kept;
        assert kept[0] == w && kept[1..] == tail;
        assert Sounding(kept, time) == head + Sounding(tail, time);
      } else {
        assert Retain(ws, since) == tail;
        assert head == [];
        assert head + Sounding(ws[1..], time) == Sounding(ws[1..], time);
      }
    }
  }

  /** Between a deposit on a punctual schedule and its wakeup, the live set
      is exactly the waves of the schedule sounding then, in order. */
  lemma RoundLive(pending: seq<TimedWave>, current: seq<TimedWave>, time: int, wakeup: int,
                  rest: seq<TimedWave>, live: seq<TimedWave>, wake: int, t: int)
    requires Punctual(pending, current, time) && time < wakeup
    requires DepositWaves(pending, current, time, wakeup) == Go(rest, live, wake)
    requires time <= t < wake
    ensures Sounding(current + pending, t) == live
  {
    DepositBounds(pending, current, time, wakeup, rest, live, wake);
    var kept, born := Retain(current, time), TakeDue(pending, time);
    assert rest == SkipDue(pending, time) && live == kept + born;
    TakeDueTakes(pending, time);
    assert pending == born + rest;
    forall w | w in kept ensures w.start <= t < w.end {
      assert w in live;
    }
    forall w | w in born ensures w.start <= t < w.end {
      assert w in live;
    }
    SoundingAppend(current, pending, t);
    SoundingRetain(current, time, t);
    SoundingAppend(born, rest, t);
    SoundingAll(kept, t);
    SoundingAll(born, t);
    SoundingNone(rest, t);
    assert born + [] == born;
  }

  /** After a deposit, the waves sounding at any time from the deposit on
      are the same, in the same order, in the schedule it leaves as in the
      one before. */
  lemma LaterLive(pending: seq<TimedWave>, current: seq<TimedWave>, time: int, wakeup: int,
                  rest: seq<TimedWave>, live: seq<TimedWave>, wake: int, t: int)
    requires DepositWaves(pending, current, time, wakeup) == Go(rest, live, wake)
    requires time <= t
    ensures Sounding(live + rest, t) == Sounding(current + pending, t)
  {
    var kept := Retain(current, time);
    var born := TakeDue(pending, time);
    assert rest == SkipDue(pending, time) && live == kept + born;
    TakeDueTakes(pending, time);
    assert pending == born + rest;
    AppendAssoc(kept, born, rest);
    SoundingAppend(kept, pending, t);
    SoundingAppend(current, pending, t);
    SoundingRetain(current, time, t);
  }

  /** A sample mixes exactly the waves, live or pending, whose interval
      contains its time, each once and in schedule order. */
  predicate MixesSounding(f: Frame, current: seq<TimedWave>, pending: seq<TimedWave>)
  {
    f.live == Sounding(current + pending, f.time)
  }

  /** Every sample of `frames` mixes exactly the sounding waves. */
  ghost predicate AllMixSounding(frames: seq<Frame>, current: seq<TimedWave>, pending: seq<TimedWave>)
  {
    forall k :: 0 <= k < |frames| ==> MixesSounding(frames[k], current, pending)
  }

  /** The samples of the first round, between the deposit and the wakeup,
      mix exactly the sounding waves. */
  lemma RoundSounding(frames: seq<Frame>, cut: nat, pending: seq<TimedWave>, current: seq<TimedWave>, time: int,
                      wakeup: int, rest: seq<TimedWave>, live: seq<TimedWave>, wake: int)
    requires Punctual(pending, current, time) && time < wakeup
    requires DepositWaves(pending, current, time, wakeup) == Go(rest, live, wake)
    requires cut <= |frames| && frames[..cut] == Span(live, time, cut) && time + cut <= wake
    ensures forall k :: 0 <= k < cut ==> MixesSounding(frames[k], current, pending)
  {
    forall k | 0 <= k < cut ensures MixesSounding(frames[k], current, pending) {
      assert frames[k] == frames[..cut][k] == Frame(live, time + k);
      RoundLive(pending, current, time, wakeup, rest, live, wake, time + k);
    }
  }

  /** Samples after the deposit that mix exactly the sounding waves of the
      schedule it leaves mix exactly the sounding waves of the schedule
      before, since only waves that had ended were dropped. */
  lemma LaterSounding(frames: seq<Frame>, cut: nat, pending: seq<TimedWave>, current: seq<TimedWave>, time: int,
                      wakeup: int, rest: seq<TimedWave>, live: seq<TimedWave>, wake: int)
    requires DepositWaves(pending, current, time, wakeup) == Go(rest, live, wake)
    requires cut <= |frames| && AllMixSounding(frames[cut..], live, rest)
    requires forall k :: cut <= k < |frames| ==> time <= frames[k].time
    ensures forall k :: cut <= k < |frames| ==> MixesSounding(frames[k], current, pending)
  {
    var more := frames[cut..];
    forall k | cut <= k < |frames| ensures MixesSounding(frames[k], current, pending) {
      assert frames[k] == more[k - cut];
      assert MixesSounding(more[k - cut], live, rest);
      LaterLive(pending, current, time, wakeup, rest, live, wake, frames[k].time);
    }
  }

  /** A round before the horizon that fills the buffer writes samples that
      mix exactly the sounding waves. */
  lemma SoundingFills(pending: seq<TimedWave>, current: seq<TimedWave>, time: int, wakeup: int, remaining: nat,
                      rest: seq<TimedWave>, live: seq<TimedWave>, wake: int)
    requires Punctual(pending, current, time) && time < wakeup
    requires DepositWaves(pending, current, time, wakeup) == Go(rest, live, wake)
    requires Cut(remaining, wake - time) == remaining
    ensures AllMixSounding(PlaySpec(pending, current, time, wakeup, remaining).0, current, pending)
  {
    DepositBounds(pending, current, time, wakeup, rest, live, wake);
    PlayFills(pending, current, time, wakeup, remaining, rest, live, wake);
    var frames := PlaySpec(pending, current, time, wakeup, remaining).0;
    assert frames[..remaining] == Span(live, time, remaining);
    RoundSounding(frames, remaining, pending, current, time, wakeup, rest, live, wake);
  }

  /** A round before the horizon that stops at the wakeup writes samples
      that mix exactly the sounding waves, and so do the later rounds when
      they mix exactly the waves sounding in the schedule the round leaves. */
  lemma SoundingContinues(pending: seq<TimedWave>, current: seq<TimedWave>, time: int, wakeup: int, remaining: nat,
                          rest: seq<TimedWave>, live: seq<TimedWave>, wake: int, cut: nat)
    requires Punctual(pending, current, time) && time < wakeup
    requires DepositWaves(pending, current, time, wakeup) == Go(rest, live, wake)
    requires cut == Cut(remaining, wake - time) && cut < remaining
    requires AllMixSounding(PlaySpec(rest, live, time + cut, wakeup, remaining - cut).0, live, rest)
    ensures AllMixSounding(PlaySpec(pending, current, time, wakeup, remaining).0, current, pending)
  {
    DepositBounds(pending, current, time, wakeup, rest, live, wake);
    PlayContinues(pending, current, time, wakeup, remaining, rest, live, wake, cut);
    var frames := PlaySpec(pending, current, time, wakeup, remaining).0;
    assert frames[..cut] == Span(live, time, cut);
    RoundSounding(frames, cut, pending, current, time, wakeup, rest, live, wake);
    assert frames[cut..] == PlaySpec(rest, live, time + cut, wakeup, remaining - cut).0;
    LaterSounding(frames, cut, pending, current, time, wakeup, rest, live, wake);
  }

  /** A round before the horizon that stops at the wakeup writes at least
      one sample and leaves a punctual schedule. */
  lemma PunctualNext(pending: seq<TimedWave>, current: seq<TimedWave>, time: int, wakeup: int, remaining: nat,
                     rest: seq<TimedWave>, live: seq<TimedWave>, wake: int, cut: nat)
    requires Punctual(pending, current, time) && time < wakeup
    requires DepositWaves(pending, current, time, wakeup) == Go(rest, live, wake)
    requires cut == Cut(remaining, wake - time) && cut < remaining
    ensures 0 < cut && Punctual(rest, live, time + cut)
  {
    DepositOnTime(pending, current, time, wakeup, rest, live, wake);
  }

  /** On a punctual schedule every sample mixes exactly the waves, live or
      pending when `play` was called, whose interval contains its time. */
  lemma {:induction false} FramesMixSoundingWaves(pending: seq<TimedWave>, current: seq<TimedWave>, time: int, wakeup: int, remaining: nat)
    requires Punctual(pending, current, time)
    ensures AllMixSounding(PlaySpec(pending, current, time, wakeup, remaining).0, current, pending)
    decreases remaining, if DueWave(pending, time) then 1 else 0
  {
    if time < wakeup {
      match DepositWaves(pending, current, time, wakeup)
      case Go(rest, live, wake) =>
        var cut := Cut(remaining, wake - time);
        if cut == remaining {
          SoundingFills(pending, current, time, wakeup, remaining, rest, live, wake);
        } else {
          PunctualNext(pending, current, time, wakeup, remaining, rest, live, wake, cut);
          FramesMixSoundingWaves(rest, live, time + cut, wakeup, remaining - cut);
          SoundingContinues(pending, current, time, wakeup, remaining, rest, live, wake, cut);
        }
    }
  }

  /** The inner loop of `play`: samples `from` to `from + cut` of the
      buffer, zipped with the times from `startTime` on, each set to the
      converted mix of `live`. */
  method Render<N>(output: array<N>, from: nat, cut: nat, live: seq<TimedWave>, startTime: int,
                   sine: real -> real, fromF32: real -> N)
    requires from + cut <= output.Length
    modifies output
    ensures forall j :: 0 <= j < from ==> output[j] == old(output[j])
    ensures forall j :: from <= j < from + cut ==> output[j] == fromF32(Mix(live, startTime + (j - from), sine))
    ensures forall j :: from + cut <= j < output.Length ==> output[j] == old(output[j])
  {
    for k := 0 to cut
      invariant forall j :: 0 <= j < from ==> output[j] == old(output[j])
      invariant forall j :: from <= j < from + k ==> output[j] == fromF32(Mix(live, startTime + (j - from), sine))
      invariant forall j :: from + k <= j < output.Length ==> output[j] == old(output[j])
    {
      output[from + k] := fromF32(Mix(live, startTime + k, sine));
    }
  }

  /** Writes the samples of `cut` frames after the `done` ones already in
      `output`, leaving the rest of the buffer as it was. */
  method RenderFrames<N>(output: array<N>, ghost orig: seq<N>, filled: nat, cut: nat, live: seq<TimedWave>, time: int,
                         ghost done: seq<Frame>, sine: real -> real, fromF32: real -> N)
    returns (ghost frames: seq<Frame>)
    requires filled == |done| && filled + cut <= output.Length
    requires Written(output, orig, done, sine, fromF32)
    modifies output
    ensures frames == done + Span(live, time, cut)
    ensures Written(output, orig, frames, sine, fromF32)
  {
    Render(output, filled, cut, live, time, sine, fromF32);
    ghost var span := Span(live, time, cut);
    frames := done + span;
    forall k | 0 <= k < |frames|
      ensures output[k] == fromF32(Mix(frames[k].live, frames[k].time, sine))
    {
      if k < filled {
        assert frames[k] == done[k];
      } else {
        assert frames[k] == span[k - filled] == Frame(live, time + (k - filled));
      }
    }
  }

  /** The buffer holds the converted mixes of `frames` at their indices,
      and past them it is still `orig`. */
  ghost predicate Written<N>(output: array<N>, orig: seq<N>, frames: seq<Frame>, sine: real -> real, fromF32: real -> N)
    reads output
  {
    && |frames| <= output.Length && |orig| == output.Length
    && (forall k :: 0 <= k < |frames| ==> output[k] == fromF32(Mix(frames[k].live, frames[k].time, sine)))
    && (forall k :: |frames| <= k < output.Length ==> output[k] == orig[k])
  }

  /** `Player`: the scanning view, the clock, the horizon and the waves
      sounding when the last buffer was filled. */
  class Player {
    const pack: PackedTimedWaves
    var time: int
    const wakeup: int
    var current: seq<TimedWave>

    /** The view is well formed, the live waves can be re-encoded, and the
        live waves, all started by the clock, come before the pending ones
        in order of start. */
    ghost predicate Valid()
      reads this, pack, pack.frequencies, pack.amplitudes
    {
      pack.Valid() && Fits(current) && InOrder(DecodeAll(pack.State()), current, time)
    }

    /** `Player::new`: nothing is sounding yet. */
    constructor (pack: PackedTimedWaves, time: int, wakeup: int)
      requires pack.Valid()
      ensures Valid()
      ensures this.pack == pack && this.time == time && this.wakeup == wakeup && current == []
    {
      this.pack := pack;
      this.time := time;
      this.wakeup := wakeup;
      current := [];
      DecodedSorted(pack.State());
      assert [] + DecodeAll(pack.State()) == DecodeAll(pack.State());
    }

    /** `Player::current_time` */
    function CurrentTime(): (t: int)
      reads this
      ensures t == time
    {
      time
    }

    /** One pass of the loop in `play`: a deposit, then, before the horizon,
        the samples from `filled` up to the wakeup or the end of the buffer,
        and the clock moved past them. `done` are the frames already
        written, and `frames` the ones written once this pass is over. */
    method Round<N>(output: array<N>, ghost orig: seq<N>, filled: nat, live: seq<TimedWave>, ghost done: seq<Frame>,
                    sine: real -> real, fromF32: real -> N)
      returns (r: Result<(seq<TimedWave>, nat), TimedWavePacker>, ghost plan: Plan, ghost frames: seq<Frame>)
      requires pack.Valid() && Fits(live) && filled == |done|
      requires Written(output, orig, done, sine, fromF32)
      modifies this, pack, pack.frequencies, pack.amplitudes, output
      ensures pack.Valid() && current == old(current)
      ensures plan == DepositWaves(DecodeAll(old(pack.State())), live, old(time), wakeup)
      ensures r.Ok? <==> plan.Go?
      ensures plan.Go? ==>
          && r.Ok? && r.value.0 == plan.live && r.value.1 == Cut(output.Length - filled, plan.wakeup - old(time))
          && DecodeAll(pack.State()) == plan.pending && Fits(plan.live)
          && time == old(time) + r.value.1
          && frames == done + Span(plan.live, old(time), r.value.1)
      ensures plan.Stop? ==>
          && r.Err? && fresh(r.error) && pack.State() == Empty && time == old(time)
          && HandsBack(r.error.Contents(), plan.kept, plan.pending) && Fits(plan.kept)
          && frames == done
      ensures Written(output, orig, frames, sine, fromF32)
    {
      plan := DepositWaves(DecodeAll(pack.State()), live, time, wakeup);
      frames := done;
      var d := Deposit(live, plan);
      if d.Err? {
        r := Err(d.error);
        return;
      }
      var (c, nextPause) := d.value;
      var cut := Cut(output.Length - filled, nextPause - time);
      frames := RenderFrames(output, orig, filled, cut, c, time, done, sine, fromF32);
      time := time + cut;
      r := Ok((c, cut));
    }

    /** The deposit at the start of a pass, stated on the decoded schedule:
        the view moves on to `plan`, or at the horizon is emptied into a
        packer of the retained and pending waves. */
    method Deposit(live: seq<TimedWave>, ghost plan: Plan) returns (d: Result<(seq<TimedWave>, int), TimedWavePacker>)
      requires pack.Valid() && Fits(live)
      requires plan == DepositWaves(DecodeAll(pack.State()), live, time, wakeup)
      modifies pack, pack.frequencies, pack.amplitudes
      ensures pack.Valid()
      ensures d.Ok? <==> plan.Go?
      ensures d.Ok? ==> d.value == (plan.live, plan.wakeup) && DecodeAll(pack.State()) == plan.pending && Fits(plan.live)
      ensures d.Err? ==>
          && fresh(d.error) && pack.State() == Empty
          && HandsBack(d.error.Contents(), plan.kept, plan.pending) && Fits(plan.kept)
    {
      ghost var before := pack.State();
      d := pack.DepositCurrent(live, time, wakeup);
      DepositAgrees(before, live, time, wakeup);
      DecodedWaves(before);
      if d.Err? {
        RetainFits(live, time);
        assert && Consistent(before) && DecodeAll(before) == plan.pending
               && d.error.Contents() == Append(EncodeAsWritten(plan.kept), before);
      } else {
        DepositFits(DecodeAll(before), live, time, wakeup, DecodeAll(pack.State()), d.value.0, d.value.1);
      }
    }
    /** `play` part way through: `filled` samples written as the mixes of
        the frames `done`, the rest of the buffer still as `orig`, the clock
        and the view moved on, and `total`, the whole of what `play` does,
        made of `done` and what the rounds from here produce. */
    ghost predicate Progress<N>(output: array<N>, orig: seq<N>, filled: nat, live: seq<TimedWave>,
                                done: seq<Frame>, total: (seq<Frame>, Ending), sine: real -> real, fromF32: real -> N)
      reads this, pack, pack.frequencies, pack.amplitudes, output
    {
      && pack.Valid() && Fits(live) && current == []
      && filled == |done| <= output.Length && |orig| == output.Length
      && Written(output, orig, done, sine, fromF32)
      && var tail := PlaySpec(DecodeAll(pack.State()), live, time, wakeup, output.Length - filled);
         total == (done + tail.0, tail.1)
    }

    /** The bookkeeping after a pass that went on, stated on the decoded
        schedule: the clock moved `cut` samples from `clock`, the view now
        holds what `plan` leaves pending, and the buffer holds `frames`.
        When the buffer is full `total` is exactly those frames; otherwise
        `play` is part way through again and has moved on. */
    lemma Advanced<N>(output: array<N>, orig: seq<N>, filled: nat, cut: nat, done: seq<Frame>, frames: seq<Frame>,
                      total: (seq<Frame>, Ending), sine: real -> real, fromF32: real -> N,
                      pending: seq<TimedWave>, live: seq<TimedWave>, clock: int, plan: Plan)
      requires pack.Valid() && current == [] && |orig| == output.Length && filled == |done| <= output.Length
      requires plan == DepositWaves(pending, live, clock, wakeup) && plan.Go?
      requires cut == Cut(output.Length - filled, plan.wakeup - clock)
      requires DecodeAll(pack.State()) == plan.pending && Fits(plan.live) && time == clock + cut
      requires frames == done + Span(plan.live, clock, cut)
      requires Written(output, orig, frames, sine, fromF32)
      requires total == (done + PlaySpec(pending, live, clock, wakeup, output.Length - filled).0,
                         PlaySpec(pending, live, clock, wakeup, output.Length - filled).1)
      ensures filled + cut <= output.Length
      ensures filled + cut == output.Length ==> total == (frames, Filled(DecodeAll(pack.State()), plan.live, time))
      ensures filled + cut < output.Length ==>
          && Progress(output, orig, filled + cut, plan.live, frames, total, sine, fromF32)
          && (0 < cut || (DueWave(pending, clock) && !DueWave(DecodeAll(pack.State()), time)))
    {
      var rem := output.Length - filled;
      if cut == rem {
        PlayLast(total, done, pending, live, clock, wakeup, rem, plan.pending, plan.live, plan.wakeup);
      } else {
        PlayProgress(pending, live, clock, wakeup, rem, plan.pending, plan.live, plan.wakeup, cut);
        var next := PlaySpec(plan.pending, plan.live, time, wakeup, rem - cut);
        PlayAdvance(total, done, pending, live, clock, wakeup, rem, plan.pending, plan.live, plan.wakeup,
                    cut, time, rem - cut, next);
      }
    }

    /** 1 while a pending wave has started by the clock, else 0: what a pass
        that writes nothing still brings down. */
    ghost function Due(): nat
      reads this, pack, pack.frequencies, pack.amplitudes
      requires pack.Valid()
    {
      if DueWave(DecodeAll(pack.State()), time) then 1 else 0
    }

    /** One pass of the loop in `play`, on the decoded schedule: at the
        horizon `total` ends with the frames already written and the packer
        holds the retained and pending waves; when the buffer is full
        `total` is exactly the frames written; otherwise the loop goes on
        from a later point, having written some samples or taken a due
        wave. */
    method Turn<N>(output: array<N>, ghost orig: seq<N>, filled: nat, live: seq<TimedWave>, ghost done: seq<Frame>,
                   ghost total: (seq<Frame>, Ending), sine: real -> real, fromF32: real -> N)
      returns (r: Result<(seq<TimedWave>, nat), TimedWavePacker>, ghost frames: seq<Frame>)
      requires Progress(output, orig, filled, live, done, total, sine, fromF32)
      modifies this, pack, pack.frequencies, pack.amplitudes, output
      ensures r.Err? ==>
          && fresh(r.error) && pack.Valid() && pack.State() == Empty && current == []
          && total.0 == done && total.1.RanOut? && total.1.time == time
          && HandsBack(r.error.Contents(), total.1.kept, total.1.pending) && Fits(total.1.kept)
          && Written(output, orig, done, sine, fromF32)
      ensures r.Ok? ==> filled + r.value.1 <= output.Length
      ensures r.Ok? && filled + r.value.1 == output.Length ==>
          && pack.Valid() && Fits(r.value.0) && current == []
          && total == (frames, Filled(DecodeAll(pack.State()), r.value.0, time))
          && Written(output, orig, frames, sine, fromF32)
      ensures r.Ok? && filled + r.value.1 < output.Length ==>
          && Progress(output, orig, filled + r.value.1, r.value.0, frames, total, sine, fromF32)
          && (0 < r.value.1 || Due() < old(Due()))
    {
      ghost var pending, clock := DecodeAll(pack.State()), time;
      var step, plan, made := Round(output, orig, filled, live, done, sine, fromF32);
      frames := made;
      if step.Err? {
        PlayStop(pending, live, clock, wakeup, output.Length - filled, plan.kept, plan.pending);
        assert done + [] == done;
        return Err(step.error), frames;
      }
      Advanced(output, orig, filled, step.value.1, done, frames, total, sine, fromF32, pending, live, clock, plan);
      r := step;
    }

    /** The loop of `play`, stated on `total`, the whole of what `play`
        does from where it was called, with the buffer as `orig` then and
        `sounding` the waves live then: on success the buffer holds the mixes of
        all of `total`'s frames and the player keeps the schedule and live
        set `total` ends with; at the horizon the player is emptied and hands
        back the packer of the retained and pending waves with the number of
        samples written. */
    method Rounds<N>(output: array<N>, ghost orig: seq<N>, sounding: seq<TimedWave>, ghost total: (seq<Frame>, Ending),
                     sine: real -> real, fromF32: real -> N)
      returns (r: Result<(), (TimedWavePacker, nat)>)
      requires Progress(output, orig, 0, sounding, [], total, sine, fromF32)
      modifies this, pack, pack.frequencies, pack.amplitudes, output
      ensures Written(output, orig, total.0, sine, fromF32) && time == total.1.time
      ensures r.Ok? <==> total.1.Filled?
      ensures total.1.Filled? ==>
          && pack.Valid() && Fits(current) && DecodeAll(pack.State()) == total.1.pending && current == total.1.live
      ensures total.1.RanOut? ==>
          && r.Err? && r.error.1 == |total.0|
          && pack.Valid() && pack.State() == Empty && current == []
          && HandsBack(r.error.0.Contents(), total.1.kept, total.1.pending) && Fits(total.1.kept)
      ensures r.Err? ==> fresh(r.error.0)
    {
      ghost var done: seq<Frame> := [];
      var live := sounding;
      var filled := 0;
      while true
        invariant Progress(output, orig, filled, live, done, total, sine, fromF32)
        decreases output.Length - filled, Due()
      {
        var step, frames := Turn(output, orig, filled, live, done, total, sine, fromF32);
        if step.Err? {
          return Err((step.error, filled));
        }
        var (next, cut) := step.value;
        filled := filled + cut;
        live := next;
        done := frames;
        if filled == output.Length {
          current := live;
          return Ok(());
        }
      }
    }

    /** `Player::play`: fills `output` round by round as `PlaySpec` says.
        On success the whole buffer holds the mixes of the frames, the clock
        has moved by its length, and the player keeps the rest of the
        schedule and the live set. When the horizon is reached first, the
        written prefix holds the mixes, the rest is untouched, and the player
        hands back a packer holding the timings of the retained live waves
        before those of every pending one, with the index where the unwritten
        part of the buffer begins; it is left empty. The retained waves have
        started and not yet ended at the clock, and they and the pending ones
        are in order of start. When each retained wave's two curves are
        equally long the packer passes `get_pack` and decodes to the retained
        waves before the pending ones, so a new player can resume from it;
        otherwise it may not, since the retained waves are re-encoded by
        `extend` as written. */
    method Play<N>(output: array<N>, sine: real -> real, fromF32: real -> N)
      returns (r: Result<(), (TimedWavePacker, nat)>)
      requires Valid()
      modifies this, pack, pack.frequencies, pack.amplitudes, output
      ensures Valid()
      ensures var (frames, ending) :=
        PlaySpec(DecodeAll(old(pack.State())), old(current), old(time), wakeup, output.Length);
        && Written(output, old(output[..]), frames, sine, fromF32)
        && time == ending.time
        && (r.Ok? <==> ending.Filled?)
        && (ending.Filled? ==> DecodeAll(pack.State()) == ending.pending && current == ending.live)
        && (ending.RanOut? ==>
              && r.Err? && r.error.1 == |frames|
              && pack.State() == Empty && current == []
              && HandsBack(r.error.0.Contents(), ending.kept, ending.pending)
              && r.error.0.timings == TimingsOf(ending.kept) + TimingsOf(ending.pending)
              && WavesSorted(ending.kept + ending.pending)
              && (forall w :: w in ending.kept ==> w.start <= ending.time < w.end)
              && (Balanced(ending.kept) ==>
                    && Accepts(r.error.0.Contents())
                    && DecodeAll(r.error.0.Contents()) == ending.kept + ending.pending))
      ensures r.Err? ==> fresh(r.error.0)
    {
      ghost var orig := output[..];
      ghost var total := PlaySpec(DecodeAll(pack.State()), current, time, wakeup, output.Length);
      PlayInOrder(DecodeAll(pack.State()), current, time, wakeup, output.Length);
      var live := current;
      current := [];
      assert [] + total.0 == total.0;
      r := Rounds(output, orig, live, total, sine, fromF32);
      if total.1.RanOut? {
        HandBackResumable(r.error.0.Contents(), total.1.kept, total.1.pending, total.1.time);
      }
    }
  }
}
