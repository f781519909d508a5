/** The builder that owns the packed arrays (`TimedWavePacker`), the view that
    scans them (`PackedTimedWaves`) and the bounded scan over the view
    (`WaveSlice`), all of `src/lib.rs`.

    The Rust view borrows the builder's arrays; here it holds copies of the
    same values, which is what the borrow guarantees while the view lives.
    The Peekable and slice iterators become the remaining sequences, and the
    two decoders are `MultiPoly` objects owned by the view. */
module Scheduler {
  import opened Common
  import opened Func
  import opened Packing

  // ---------------------------------------------------------------------
  // The scan, as functions of the remaining arrays
  // ---------------------------------------------------------------------

  /** The next pending wave has started by `stop`: the `next_if` test. */
  predicate Due(p: Packed, stop: int)
  {
    p.timings != [] && p.timings[0].start <= stop
  }

  lemma SortedTail(ts: seq<Timing>, k: nat)
    requires StartsSorted(ts) && k <= |ts|
    ensures StartsSorted(ts[k..])
  {
    forall i | 0 <= i < |ts[k..]| - 1
      ensures ts[k..][i].start <= ts[k..][i + 1].start
    {
      assert StartsInOrder(ts, k + i);
      assert ts[k..][i] == ts[k + i] && ts[k..][i + 1] == ts[k + i + 1];
    }
  }

  /** What a `WaveSlice` with bound `stop` yields until it stops, and the
      arrays it leaves behind. */
  function SampleSpec(p: Packed, stop: int): (r: (Packed, seq<TimedWave>))
    requires Consistent(p)
    ensures Consistent(r.0)
    ensures |r.0.timings| + |r.1| == |p.timings|
    decreases |p.timings|
  {
    if Due(p, stop) then
      var popped := Pop(p);
      var next := SampleSpec(popped.1, stop);
      (next.0, [popped.0] + next.1)
    else
      (p, [])
  }

  /** A scan that takes the first wave goes on from the arrays without it. */
  lemma SampleStep(p: Packed, stop: int)
    requires Consistent(p) && Due(p, stop)
    ensures var (w, q) := Pop(p);
      SampleSpec(p, stop) == (SampleSpec(q, stop).0, [w] + SampleSpec(q, stop).1)
  {
  }

  /** The scan takes the pending waves in stored order while their start is
      at most `stop`, and stops at the first one starting later, which stays
      pending with everything behind it. */
  lemma {:induction false} SampleSplits(p: Packed, stop: int)
    requires Consistent(p)
    ensures var (rest, born) := SampleSpec(p, stop);
      && DecodeAll(p) == born + DecodeAll(rest)
      && (forall i :: 0 <= i < |born| ==> born[i].start <= stop)
      && !Due(rest, stop)
      && rest.timings == p.timings[|born|..]
    decreases |p.timings|
  {
    if Due(p, stop) {
      var popped := Pop(p);
      SampleSplits(popped.1, stop);
      var next := SampleSpec(popped.1, stop);
      assert SampleSpec(p, stop) == (next.0, [popped.0] + next.1);
      assert DecodeAll(p) == [popped.0] + DecodeAll(popped.1);
      AppendAssoc([popped.0], next.1, DecodeAll(next.0));
      assert p.timings[1..][|next.1|..] == p.timings[1 + |next.1|..];
    } else {
      assert p.timings[0..] == p.timings;
    }
  }

  /** On sorted arrays the scan takes every pending wave that has started by
      `stop` and leaves only waves that start later. */
  lemma SampleTakesAllDue(p: Packed, stop: int)
    requires Accepts(p)
    ensures var (rest, born) := SampleSpec(p, stop);
      && Accepts(rest)
      && forall i :: 0 <= i < |rest.timings| ==> rest.timings[i].start > stop
  {
    var (rest, born) := SampleSpec(p, stop);
    SampleSplits(p, stop);
    SortedTail(p.timings, |born|);
    forall i | 0 <= i < |rest.timings| ensures rest.timings[i].start > stop {
      SortedBetween(rest.timings, 0, i);
    }
  }

  /** `Vec::retain(|tw| tw.end > time)`: the waves still sounding at `time`,
      in their order. */
  function Retain(ws: seq<TimedWave>, time: int): (r: seq<TimedWave>)
    ensures |r| <= |ws|
  {
    if ws == [] then []
    else (if ws[0].end > time then [ws[0]] else []) + Retain(ws[1..], time)
  }

  /** Exactly the waves that end after `time` survive. */
  lemma {:induction false} RetainMembers(ws: seq<TimedWave>, time: int)
    ensures forall w :: w in Retain(ws, time) <==> w in ws && w.end > time
    decreases ws
  {
    if ws != [] {
      RetainMembers(ws[1..], time);
      HeadTail(ws);
    }
  }

  /** `iter().map(|tw| tw.end).min()`. */
  function MinEnd(ws: seq<TimedWave>): (m: Option<int>)
    ensures m.None? <==> ws == []
  {
    if ws == [] then None
    else
      match MinEnd(ws[1..])
      case None => Some(ws[0].end)
      case Some(m) => Some(Min(ws[0].end, m))
  }

  /** The minimum is no larger than any end. */
  lemma {:induction false} MinEndBelow(ws: seq<TimedWave>)
    ensures MinEnd(ws).Some? ==> forall i :: 0 <= i < |ws| ==> MinEnd(ws).value <= ws[i].end
    decreases ws
  {
    if ws != [] {
      MinEndBelow(ws[1..]);
      assert forall i :: 1 <= i < |ws| ==> ws[i] == ws[1..][i - 1];
    }
  }

  /** The minimum is the end of one of the waves. */
  lemma {:induction false} MinEndAttained(ws: seq<TimedWave>)
    requires ws != []
    ensures exists i :: 0 <= i < |ws| && ws[i].end == MinEnd(ws).value
    decreases ws
  {
    var m := MinEnd(ws).value;
    if m == ws[0].end {
      assert ws[0].end == m;
    } else {
      assert MinEnd(ws[1..]).Some? && m == MinEnd(ws[1..]).value;
      MinEndAttained(ws[1..]);
      var i :| 0 <= i < |ws[1..]| && ws[1..][i].end == m;
      assert ws[i + 1].end == m;
    }
  }

  /** The two outcomes of `deposit_current`: go on with the given live set
      until `wakeup`, or hand back everything unplayed as a packer. */
  datatype Deposit =
    | Continue(rest: Packed, live: seq<TimedWave>, wakeup: int)
    | Exhausted(packer: Packed)

  /** `deposit_current` on the remaining arrays `p`: retire the waves that
      ended by `time`; if the horizon `wakeupTime` is reached, re-serialise the
      survivors with `extend` as written in front of the unscanned arrays;
      otherwise append the waves
      that started by `time` and wake at the first end, the next start or the
      horizon, whichever is soonest. */
  function DepositSpec(p: Packed, current: seq<TimedWave>, time: int, wakeupTime: int): (d: Deposit)
    requires Consistent(p)
    ensures d.Continue? ==> Consistent(d.rest)
  {
    var kept := Retain(current, time);
    if time >= wakeupTime then Exhausted(Append(EncodeAsWritten(kept), p))
    else
      var (rest, born) := SampleSpec(p, time);
      var live := kept + born;
      Continue(rest, live, WakeUp(live, NextStart(rest.timings), wakeupTime))
  }

  /** When the player must next look at the schedule: the first end among
      the live waves, the start of the next pending wave, or the horizon,
      whichever is soonest. */
  function WakeUp(live: seq<TimedWave>, nextStart: Option<int>, wakeupTime: int): int
  {
    var kill := MinEnd(live).GetOr(wakeupTime);
    var birth := nextStart.GetOr(wakeupTime);
    Min(Min(kill, birth), wakeupTime)
  }

  /** The wakeup is no later than the horizon, any live end or the next
      start, and it is one of them. */
  lemma WakeUpBounds(live: seq<TimedWave>, nextStart: Option<int>, wakeupTime: int)
    ensures var wake := WakeUp(live, nextStart, wakeupTime);
      && wake <= wakeupTime
      && (forall i :: 0 <= i < |live| ==> wake <= live[i].end)
      && (forall w :: w in live ==> wake <= w.end)
      && (nextStart.Some? ==> wake <= nextStart.value)
      && (|| wake == wakeupTime
          || (exists i :: 0 <= i < |live| && wake == live[i].end)
          || (nextStart.Some? && wake == nextStart.value))
  {
    if live != [] {
      MinEndAttained(live);
    }
    MinEndBelow(live);
    forall w | w in live ensures WakeUp(live, nextStart, wakeupTime) <= w.end {
      var i :| 0 <= i < |live| && live[i] == w;
    }
  }

  /** `timings.peek().map(|&&(s, _)| s)`: the start of the next pending wave. */
  function NextStart(ts: seq<Timing>): Option<int>
  {
    if ts == [] then None else Some(ts[0].start)
  }

  /** Retiring is a filter: it distributes over concatenation, so the
      survivors keep their order. */
  lemma {:induction false} RetainAppend(a: seq<TimedWave>, b: seq<TimedWave>, time: int)
    ensures Retain(a + b, time) == Retain(a, time) + Retain(b, time)
    decreases a
  {
    if a == [] {
      assert a + b == b;
    } else {
      assert (a + b)[1..] == a[1..] + b;
      RetainAppend(a[1..], b, time);
    }
  }

  /** Waves that all end after `time` are all kept, in place. */
  lemma {:induction false} RetainAll(ws: seq<TimedWave>, time: int)
    requires forall i :: 0 <= i < |ws| ==> ws[i].end > time
    ensures Retain(ws, time) == ws
    decreases ws
  {
    if ws != [] {
      RetainAll(ws[1..], time);
    }
  }

  /** Before the horizon, a deposit goes on: the retained live waves come
      first and unchanged, the newly sampled ones follow them, no pending wave
      is lost or duplicated, the new ones have all started and every wave left
      pending starts after `time`. */
  lemma DepositContinues(p: Packed, current: seq<TimedWave>, time: int, wakeupTime: int)
    requires Accepts(p) && time < wakeupTime
    ensures var d := DepositSpec(p, current, time, wakeupTime);
      var k := |Retain(current, time)|;
      && d.Continue?
      && Accepts(d.rest)
      && k <= |d.live| && d.live[..k] == Retain(current, time)
      && DecodeAll(p) == d.live[k..] + DecodeAll(d.rest)
      && (forall i :: k <= i < |d.live| ==> d.live[i].start <= time)
      && (forall i :: 0 <= i < |d.rest.timings| ==> d.rest.timings[i].start > time)
  {
    var kept := Retain(current, time);
    var (rest, born) := SampleSpec(p, time);
    SampleSplits(p, time);
    SampleTakesAllDue(p, time);
    var live := kept + born;
    assert live[..|kept|] == kept && live[|kept|..] == born;
  }

  /** Before the horizon, the wakeup is the minimum of the horizon, every
      live end and every pending start: no larger than any of them and equal
      to one of them. */
  lemma WakeUpIsMinimum(p: Packed, current: seq<TimedWave>, time: int, wakeupTime: int)
    requires Accepts(p) && time < wakeupTime
    ensures var d := DepositSpec(p, current, time, wakeupTime);
      && d.Continue?
      && d.wakeup <= wakeupTime
      && (forall i :: 0 <= i < |d.live| ==> d.wakeup <= d.live[i].end)
      && (forall i :: 0 <= i < |d.rest.timings| ==> d.wakeup <= d.rest.timings[i].start)
      && (|| d.wakeup == wakeupTime
          || (exists i :: 0 <= i < |d.live| && d.wakeup == d.live[i].end)
          || (d.rest.timings != [] && d.wakeup == d.rest.timings[0].start))
  {
    var (rest, born) := SampleSpec(p, time);
    var live := Retain(current, time) + born;
    var wake := WakeUp(live, NextStart(rest.timings), wakeupTime);
    SampleTakesAllDue(p, time);
    WakeUpBounds(live, NextStart(rest.timings), wakeupTime);
    forall i | 0 <= i < |rest.timings| ensures wake <= rest.timings[i].start {
      SortedBetween(rest.timings, 0, i);
    }
  }

  /** Before the horizon, the wakeup lies strictly ahead exactly when every
      live wave ends after `time`; it can only fail to when a wave that was
      sampled had already ended. */
  lemma DepositProgress(p: Packed, current: seq<TimedWave>, time: int, wakeupTime: int)
    requires Accepts(p) && time < wakeupTime
    ensures var d := DepositSpec(p, current, time, wakeupTime);
      && d.Continue?
      && (d.wakeup > time <==> forall i :: 0 <= i < |d.live| ==> d.live[i].end > time)
  {
    var d := DepositSpec(p, current, time, wakeupTime);
    DepositContinues(p, current, time, wakeupTime);
    WakeUpIsMinimum(p, current, time, wakeupTime);
  }

  /** With nothing due, a deposit before the horizon retires what ended and
      samples nothing, so the wakeup lies strictly ahead. */
  lemma QuietDeposit(p: Packed, current: seq<TimedWave>, time: int, wakeupTime: int)
    requires Accepts(p) && time < wakeupTime && !Due(p, time)
    ensures var d := DepositSpec(p, current, time, wakeupTime);
      && d.Continue? && d.live == Retain(current, time) && d.rest == p && d.wakeup > time
  {
    assert SampleSpec(p, time) == (p, []);
    var kept := Retain(current, time);
    assert kept + [] == kept;
    DepositProgress(p, current, time, wakeupTime);
    var d := DepositSpec(p, current, time, wakeupTime);
    RetainMembers(current, time);
    forall i | 0 <= i < |d.live| ensures d.live[i].end > time {
      assert d.live[i] in kept;
    }
  }

  /** At the horizon, the deposit hands back a packer whose timings,
      phases and amplitude coefficients are the retained live waves' followed
      by the unscanned ones, and whose amplitude runs are the retained waves'
      frequency-curve lengths followed by the unscanned runs; when the
      retained curves fit in a byte and each wave's two curves are equally
      long it decodes to the retained live waves followed by every pending
      wave. */
  lemma DepositExhausts(p: Packed, current: seq<TimedWave>, time: int, wakeupTime: int)
    requires Consistent(p) && time >= wakeupTime
    ensures var d := DepositSpec(p, current, time, wakeupTime);
      var kept := Retain(current, time);
      && d.Exhausted?
      && d.packer.timings == TimingsOf(kept) + p.timings
      && d.packer.phases == PhasesOf(kept) + p.phases
      && d.packer.ampCoef == Flatten(AmpsOf(kept)) + p.ampCoef
      && d.packer.ampRuns == Runs(FreqsOf(kept)) + p.ampRuns
      && (Fits(kept) && Balanced(kept) ==>
            Consistent(d.packer) && DecodeAll(d.packer) == kept + DecodeAll(p))
  {
    var kept := Retain(current, time);
    EncodeAsWrittenIsBulk(kept);
    if Fits(kept) && Balanced(kept) {
      DecodeEncodeAsWritten(kept, p);
    }
  }

  /** A live wave whose amplitude curve is longer than its frequency curve,
      handed back at the horizon, makes a packer the construction check
      refuses: its amplitude run falls one short. */
  lemma UnbalancedHandBackRefused()
    ensures var w := TimedWave(0, 10, Wave([1.0], [2.0, 3.0], 0.0));
      var d := DepositSpec(Empty, [w], 1, 1);
      && d.Exhausted?
      && d.packer.timings == [Timing(0, 10)]
      && !Consistent(d.packer)
  {
    var w := TimedWave(0, 10, Wave([1.0], [2.0, 3.0], 0.0));
    assert [w][1..] == [];
    assert Retain([w], 1) == [w];
    assert EncodeBy([w], EncodeOneAsWritten) == Append(EncodeOneAsWritten(w), Empty);
    AppendEmpty(EncodeOneAsWritten(w));
    AppendEmpty(EncodeAsWritten([w]));
    assert Sum([1 as Byte]) == 1;
  }

  /** What a deposit at the horizon hands back, stated on the waves: the
      retained waves encoded by `extend` as written, in front of unscanned
      arrays that decode to the pending waves. */
  ghost predicate HandsBack(packer: Packed, kept: seq<TimedWave>, pending: seq<TimedWave>)
  {
    exists rest :: Consistent(rest) && DecodeAll(rest) == pending && packer == Append(EncodeAsWritten(kept), rest)
  }

  /** A handed-back packer holds every retained and pending timing in order;
      when the retained waves fit in a byte and are balanced it is decodable
      and decodes to the retained waves followed by the pending ones. */
  lemma HandsBackDecodes(packer: Packed, kept: seq<TimedWave>, pending: seq<TimedWave>)
    requires HandsBack(packer, kept, pending)
    ensures packer.timings == TimingsOf(kept) + TimingsOf(pending)
    ensures Fits(kept) && Balanced(kept) ==> Consistent(packer) && DecodeAll(packer) == kept + pending
  {
    var rest :| Consistent(rest) && DecodeAll(rest) == pending && packer == Append(EncodeAsWritten(kept), rest);
    EncodeAsWrittenIsBulk(kept);
    DecodedWaves(rest);
    if Fits(kept) && Balanced(kept) {
      DecodeEncodeAsWritten(kept, rest);
    }
  }

  // ---------------------------------------------------------------------
  // The same step on the decoded schedule
  // ---------------------------------------------------------------------

  /** The waves at the front of `pending` that have started by `time`: what
      the scan yields, read on the decoded waves. */
  function TakeDue(pending: seq<TimedWave>, time: int): (born: seq<TimedWave>)
    ensures |born| <= |pending|
  {
    if pending != [] && pending[0].start <= time then [pending[0]] + TakeDue(pending[1..], time) else []
  }

  /** What is left of `pending` once the waves that have started by `time`
      are taken off its front. */
  function SkipDue(pending: seq<TimedWave>, time: int): (rest: seq<TimedWave>)
    ensures |rest| <= |pending|
  {
    if pending != [] && pending[0].start <= time then SkipDue(pending[1..], time) else pending
  }

  /** The due waves are a prefix of the schedule, all started by `time`,
      the rest is what follows them, and its first wave, if any, has not
      started. */
  lemma {:induction false} TakeDueTakes(pending: seq<TimedWave>, time: int)
    ensures var born := TakeDue(pending, time);
      && born == pending[..|born|]
      && SkipDue(pending, time) == pending[|born|..]
      && (forall i :: 0 <= i < |born| ==> born[i].start <= time)
      && (|born| < |pending| ==> pending[|born|].start > time)
    decreases pending
  {
    if pending != [] && pending[0].start <= time {
      TakeDueTakes(pending[1..], time);
      var born := TakeDue(pending, time);
      assert born[1..] == TakeDue(pending[1..], time);
      HeadTail(pending);
    }
  }

  /** A prefix whose waves have all started, followed by waves of which the
      first has not, is exactly what `TakeDue` takes. */
  lemma {:induction false} TakeDueOfSplit(a: seq<TimedWave>, b: seq<TimedWave>, time: int)
    requires forall i :: 0 <= i < |a| ==> a[i].start <= time
    requires b != [] ==> b[0].start > time
    ensures TakeDue(a + b, time) == a
    decreases a
  {
    if a == [] {
      assert a + b == b;
    } else {
      assert (a + b)[1..] == a[1..] + b;
      TakeDueOfSplit(a[1..], b, time);
    }
  }

  /** Waves that have all started are taken whole, in front of what the
      schedule after them yields, and leave what it leaves. */
  lemma {:induction false} TakeDueAfterStarted(a: seq<TimedWave>, b: seq<TimedWave>, time: int)
    requires forall w :: w in a ==> w.start <= time
    ensures TakeDue(a + b, time) == a + TakeDue(b, time)
    ensures SkipDue(a + b, time) == SkipDue(b, time)
    decreases a
  {
    if a == [] {
      assert a + b == b;
    } else {
      assert a[0] in a;
      assert (a + b)[1..] == a[1..] + b;
      TakeDueAfterStarted(a[1..], b, time);
      HeadTail(a);
    }
  }

  /** A deposit on the decoded schedule: go on with the pending waves left,
      the live set and the wakeup, or stop with the retained waves and
      everything still pending. */
  datatype Plan =
    | Go(pending: seq<TimedWave>, live: seq<TimedWave>, wakeup: int)
    | Stop(kept: seq<TimedWave>, pending: seq<TimedWave>)

  /** `deposit_current` read on the waves the arrays stand for. */
  function DepositWaves(pending: seq<TimedWave>, current: seq<TimedWave>, time: int, wakeupTime: int): Plan
  {
    var kept := Retain(current, time);
    if time >= wakeupTime then Stop(kept, pending)
    else
      var born := TakeDue(pending, time);
      var rest := SkipDue(pending, time);
      var live := kept + born;
      Go(rest, live, WakeUp(live, if rest == [] then None else Some(rest[0].start), wakeupTime))
  }

  /** The deposit on the packed arrays does on their waves what
      `DepositWaves` says: it goes on exactly before the horizon, with the
      same live set and wakeup, leaving arrays that decode to the waves left
      pending; at the horizon the packer is the retained waves encoded in
      front of the unscanned arrays. */
  lemma DepositAgrees(p: Packed, current: seq<TimedWave>, time: int, wakeupTime: int)
    requires Consistent(p)
    ensures match DepositSpec(p, current, time, wakeupTime)
      case Continue(rest, live, wake) =>
        DepositWaves(DecodeAll(p), current, time, wakeupTime) == Go(DecodeAll(rest), live, wake)
      case Exhausted(packer) =>
        && DepositWaves(DecodeAll(p), current, time, wakeupTime) == Stop(Retain(current, time), DecodeAll(p))
        && packer == Append(EncodeAsWritten(Retain(current, time)), p)
  {
    if time < wakeupTime {
      var sampled := SampleSpec(p, time);
      var rest, born := sampled.0, sampled.1;
      SampleSplits(p, time);
      DecodedWaves(rest);
      var tail := DecodeAll(rest);
      assert tail != [] ==> tail[0].start == rest.timings[0].start by {
        if tail != [] {
          assert TimingsOf(tail)[0] == Timing(tail[0].start, tail[0].end);
        }
      }
      TakeDueOfSplit(born, tail, time);
      TakeDueTakes(DecodeAll(p), time);
      assert DecodeAll(p)[|born|..] == tail;
    }
  }

  /** Scanning the encoding of waves whose curves fit in a byte takes the
      due ones off the front and leaves the encoding of the rest. */
  lemma {:induction false} SampleEncoded(ws: seq<TimedWave>, stop: int)
    requires Fits(ws)
    ensures Consistent(Encode(ws))
    ensures SampleSpec(Encode(ws), stop) == (Encode(SkipDue(ws, stop)), TakeDue(ws, stop))
    decreases ws
  {
    DecodeEncode(ws, Empty);
    AppendEmpty(Encode(ws));
    if ws != [] {
      FitsTail(ws);
      var tail := Encode(ws[1..]);
      DecodeEncode(ws[1..], Empty);
      AppendEmpty(tail);
      assert Encode(ws) == Append(EncodeOne(ws[0]), tail);
      PopEncodeOne(ws[0], tail);
      if ws[0].start <= stop {
        SampleEncoded(ws[1..], stop);
      }
    }
  }

  /** A deposit on the encoding of waves is the deposit on the waves: before
      the horizon the arrays left are the encoding of the waves left pending,
      and at the horizon the packer is the retained waves encoded as written
      in front of the encoded pending ones. */
  lemma DepositEncoded(ws: seq<TimedWave>, current: seq<TimedWave>, time: int, wakeupTime: int)
    requires Fits(ws)
    ensures Consistent(Encode(ws))
    ensures match DepositWaves(ws, current, time, wakeupTime)
      case Go(rest, live, wake) =>
        DepositSpec(Encode(ws), current, time, wakeupTime) == Continue(Encode(rest), live, wake)
      case Stop(kept, pending) =>
        DepositSpec(Encode(ws), current, time, wakeupTime) == Exhausted(Append(EncodeAsWritten(kept), Encode(pending)))
  {
    SampleEncoded(ws, time);
    var rest := SkipDue(ws, time);
    EncodeIsBulk(rest);
    assert NextStart(Encode(rest).timings) == if rest == [] then None else Some(rest[0].start);
  }

  // ---------------------------------------------------------------------
  // The owning builder
  // ---------------------------------------------------------------------

  /** `TimedWavePacker`: six growable arrays, appended to and never
      validated until `GetPack`. */
  class TimedWavePacker {
    var timings: seq<Timing>
    var freqCoef: seq<real>
    var freqRuns: seq<Byte>
    var ampCoef: seq<real>
    var ampRuns: seq<Byte>
    var phases: seq<real>

    function Contents(): Packed
      reads this
    {
      Packed(timings, freqCoef, freqRuns, ampCoef, ampRuns, phases)
    }

    /** `TimedWavePacker::new`, the default packer. */
    constructor ()
      ensures Contents() == Empty
    {
      timings, freqCoef, freqRuns := [], [], [];
      ampCoef, ampRuns, phases := [], [], [];
    }

    /** `Extend::extend`, corrected: per wave, one timing, the frequency
        coefficients and their count, the amplitude coefficients and their
        count, and one phase. */
    method Extend(waves: seq<TimedWave>)
      modifies this
      ensures Contents() == Append(old(Contents()), Encode(waves))
    {
      ghost var start := Contents();
      AppendEmpty(start);
      for i := 0 to |waves|
        invariant Contents() == Append(start, Encode(waves[..i]))
      {
        var w := waves[i];
        timings := timings + [Timing(w.start, w.end)];
        var fLen := AsByte(|w.wave.freq|);
        var aLen := AsByte(|w.wave.amp|);
        freqCoef := freqCoef + w.wave.freq;
        ampCoef := ampCoef + w.wave.amp;
        freqRuns := freqRuns + [fLen];
        ampRuns := ampRuns + [aLen];
        phases := phases + [w.wave.phase];
        assert waves[..i + 1] == waves[..i] + [w];
        EncodeBySnoc(waves[..i], w, EncodeOne);
        AppendAssociative(start, Encode(waves[..i]), EncodeOne(w));
      }
      assert waves[..|waves|] == waves;
    }

    /** `Extend::extend` as written: the amplitude run is taken from the
        frequency curve's length. */
    method ExtendAsWritten(waves: seq<TimedWave>)
      modifies this
      ensures Contents() == Append(old(Contents()), EncodeAsWritten(waves))
    {
      ghost var start := Contents();
      AppendEmpty(start);
      for i := 0 to |waves|
        invariant Contents() == Append(start, EncodeAsWritten(waves[..i]))
      {
        var w := waves[i];
        timings := timings + [Timing(w.start, w.end)];
        var fLen := AsByte(|w.wave.freq|);
        var aLen := AsByte(|w.wave.freq|);
        freqCoef := freqCoef + w.wave.freq;
        ampCoef := ampCoef + w.wave.amp;
        freqRuns := freqRuns + [fLen];
        ampRuns := ampRuns + [aLen];
        phases := phases + [w.wave.phase];
        assert waves[..i + 1] == waves[..i] + [w];
        EncodeBySnoc(waves[..i], w, EncodeOneAsWritten);
        AppendAssociative(start, EncodeAsWritten(waves[..i]), EncodeOneAsWritten(w));
      }
      assert waves[..|waves|] == waves;
    }

    /** `FromIterator::from_iter`: a new packer extended by the waves, with
        `extend` as written. */
    static method FromIter(waves: seq<TimedWave>) returns (packer: TimedWavePacker)
      ensures fresh(packer)
      ensures packer.Contents() == EncodeAsWritten(waves)
    {
      packer := new TimedWavePacker();
      packer.ExtendAsWritten(waves);
      AppendEmpty(EncodeAsWritten(waves));
    }

    /** `bulk_generate`: the timings and phases as given, each coefficient
        group appended with its length (cast `as u8`) as its run. The four
        inputs need not be of equal length. */
    method BulkGenerate(ts: seq<Timing>, freqs: seq<seq<real>>, amps: seq<seq<real>>, ps: seq<real>)
      modifies this
      ensures Contents() == Append(old(Contents()), Bulk(ts, freqs, amps, ps))
    {
      timings := timings + ts;
      freqCoef, freqRuns := PushGroups(freqCoef, freqRuns, freqs);
      ampCoef, ampRuns := PushGroups(ampCoef, ampRuns, amps);
      phases := phases + ps;
    }

    /** `get_pack`: a view over the current arrays exactly when the
        construction check accepts them. */
    method GetPack() returns (r: Option<PackedTimedWaves>)
      ensures r.Some? <==> Accepts(Contents())
      ensures r.Some? ==> fresh(r.value) && fresh(r.value.frequencies) && fresh(r.value.amplitudes)
      ensures r.Some? ==> r.value.Valid() && r.value.State() == Contents()
    {
      r := PackedTimedWaves.New(timings, freqCoef, freqRuns, ampCoef, ampRuns, phases);
    }
  }

  /** One of the coefficient loops of `bulk_generate`: each group is
      appended to the coefficients and the growth of their length, cast
      `as u8`, to the runs. */
  method PushGroups(coef: seq<real>, runs: seq<Byte>, groups: seq<seq<real>>)
    returns (newCoef: seq<real>, newRuns: seq<Byte>)
    ensures newCoef == coef + Flatten(groups) && newRuns == runs + Runs(groups)
  {
    newCoef, newRuns := coef, runs;
    for i := 0 to |groups|
      invariant newCoef == coef + Flatten(groups[..i])
      invariant newRuns == runs + Runs(groups[..i])
    {
      var startLen := |newCoef|;
      newCoef := newCoef + groups[i];
      var endLen := |newCoef|;
      newRuns := newRuns + [AsByte(endLen - startLen)];
      GroupsSnoc(groups, i);
      AppendAssoc(coef, Flatten(groups[..i]), groups[i]);
      AppendAssoc(runs, Runs(groups[..i]), [AsByte(|groups[i]|)]);
    }
    assert groups[..|groups|] == groups;
  }

  /** One more group extends the flattened coefficients by that group and the
      runs by its (byte-cast) length. */
  lemma GroupsSnoc(groups: seq<seq<real>>, i: nat)
    requires i < |groups|
    ensures Flatten(groups[..i + 1]) == Flatten(groups[..i]) + groups[i]
    ensures Runs(groups[..i + 1]) == Runs(groups[..i]) + [AsByte(|groups[i]|)]
  {
    assert groups[..i + 1] == groups[..i] + [groups[i]];
    FlattenAppend(groups[..i], [groups[i]]);
    assert [groups[i]][1..] == [];
    assert Flatten([groups[i]]) == groups[i] + [];
  }

  // ---------------------------------------------------------------------
  // The scanning view
  // ---------------------------------------------------------------------

  /** `PackedTimedWaves`: the timings still pending, the two decoders and
      the phases still pending, advanced together one wave at a time. */
  class PackedTimedWaves {
    var timings: seq<Timing>
    const frequencies: MultiPoly
    const amplitudes: MultiPoly
    var phases: seq<real>

    /** The arrays not scanned yet. */
    ghost function State(): Packed
      reads this, frequencies, amplitudes
    {
      Packed(timings, frequencies.coeffs, frequencies.runs, amplitudes.coeffs, amplitudes.runs, phases)
    }

    /** What construction checked keeps holding of the unscanned arrays. */
    ghost predicate Valid()
      reads this, frequencies, amplitudes
    {
      frequencies != amplitudes && Accepts(State())
    }

    constructor FromParts(timings: seq<Timing>, frequencies: MultiPoly, amplitudes: MultiPoly, phases: seq<real>)
      requires frequencies != amplitudes
      ensures this.timings == timings && this.phases == phases
      ensures this.frequencies == frequencies && this.amplitudes == amplitudes
    {
      this.timings := timings;
      this.frequencies := frequencies;
      this.amplitudes := amplitudes;
      this.phases := phases;
    }

    /** `PackedTimedWaves::new`: a view exactly when the arrays are parallel,
        the starts are sorted and both decoders can be built. */
    static method New(timings: seq<Timing>, freqCoef: seq<real>, freqRuns: seq<Byte>,
                      ampCoef: seq<real>, ampRuns: seq<Byte>, phases: seq<real>)
      returns (r: Option<PackedTimedWaves>)
      ensures r.Some? <==> Accepts(Packed(timings, freqCoef, freqRuns, ampCoef, ampRuns, phases))
      ensures r.Some? ==> fresh(r.value) && fresh(r.value.frequencies) && fresh(r.value.amplitudes)
      ensures r.Some? ==> r.value.Valid()
      ensures r.Some? ==> r.value.State() == Packed(timings, freqCoef, freqRuns, ampCoef, ampRuns, phases)
    {
      var shaped := |timings| == |freqRuns| && |freqRuns| == |ampRuns| && |phases| == |timings|
        && StartsSorted(timings);
      var f := MultiPoly.New(freqCoef, freqRuns);
      if f.None? {
        return None;
      }
      var a := MultiPoly.New(ampCoef, ampRuns);
      if a.None? {
        return None;
      }
      if shaped {
        var view := new PackedTimedWaves.FromParts(timings, f.value, a.value, phases);
        r := Some(view);
      } else {
        r := None;
      }
    }

    /** `PackedTimedWaves::default`: the view over six empty arrays; the
        `unwrap` cannot fail. */
    static method Default() returns (view: PackedTimedWaves)
      ensures fresh(view) && fresh(view.frequencies) && fresh(view.amplitudes)
      ensures view.Valid() && view.State() == Empty
    {
      var r := New([], [], [], [], [], []);
      assert Accepts(Empty);
      view := r.value;
    }

    /** `sample`: a scan of this view bounded by `lastTime`. */
    method Sample(lastTime: int) returns (slice: WaveSlice)
      ensures fresh(slice)
      ensures slice.waves == this && slice.stop == lastTime
    {
      slice := new WaveSlice(this, lastTime);
    }

    /** `unravel`: a new packer holding the given waves, re-encoded by
        `extend` as written, in front of everything this view has not
        scanned. */
    method Unravel(currentStore: seq<TimedWave>) returns (packer: TimedWavePacker)
      ensures fresh(packer)
      ensures packer.Contents() == Append(EncodeAsWritten(currentStore), State())
    {
      packer := new TimedWavePacker();
      packer.ExtendAsWritten(currentStore);
      AppendEmpty(EncodeAsWritten(currentStore));
      packer.ampCoef := packer.ampCoef + amplitudes.coeffs;
      packer.ampRuns := packer.ampRuns + amplitudes.runs;
      packer.freqCoef := packer.freqCoef + frequencies.coeffs;
      packer.freqRuns := packer.freqRuns + frequencies.runs;
      packer.phases := packer.phases + phases;
      packer.timings := packer.timings + timings;
    }

    /** `deposit_current`: one step of the scheduler, as `DepositSpec` says.
        On exhaustion the view is replaced by the default one. */
    method DepositCurrent(currentStore: seq<TimedWave>, time: int, wakeupTime: int)
      returns (r: Result<(seq<TimedWave>, int), TimedWavePacker>)
      requires Valid()
      modifies this, frequencies, amplitudes
      ensures Valid()
      ensures r.Ok? ==>
        DepositSpec(old(State()), currentStore, time, wakeupTime) == Continue(State(), r.value.0, r.value.1)
      ensures r.Err? ==> fresh(r.error) && State() == Empty
      ensures r.Err? ==>
        DepositSpec(old(State()), currentStore, time, wakeupTime) == Exhausted(r.error.Contents())
    {
      var store := Retain(currentStore, time);
      if time >= wakeupTime {
        var packer := Unravel(store);
        timings, phases := [], [];
        frequencies.coeffs, frequencies.runs := [], [];
        amplitudes.coeffs, amplitudes.runs := [], [];
        return Err(packer);
      }
      var slice := Sample(time);
      var born := slice.Collect();
      store := store + born;
      r := Ok((store, WakeUp(store, NextStart(timings), wakeupTime)));
    }
  }

  /** `WaveSlice`: the view being scanned and the time bound of the scan. */
  class WaveSlice {
    const waves: PackedTimedWaves
    const stop: int

    constructor (waves: PackedTimedWaves, stop: int)
      ensures this.waves == waves && this.stop == stop
    {
      this.waves := waves;
      this.stop := stop;
    }

    /** What the scan from here yields and leaves behind. */
    ghost function Scan(): (Packed, seq<TimedWave>)
      reads this, waves, waves.frequencies, waves.amplitudes
      requires waves.Valid()
    {
      SampleSpec(waves.State(), stop)
    }

    /** `WaveSlice::next`: if the next pending wave has started by `stop`,
        take its timing, phase, frequency curve and amplitude curve, moving
        every cursor by one; otherwise leave it pending. */
    method Next() returns (w: Option<TimedWave>)
      requires waves.Valid()
      modifies waves, waves.frequencies, waves.amplitudes
      ensures waves.Valid()
      ensures w.Some? <==> Due(old(waves.State()), stop)
      ensures w.Some? ==> (w.value, waves.State()) == Pop(old(waves.State()))
      ensures w.None? ==> waves.State() == old(waves.State())
      ensures w.Some? ==> old(Scan()) == (Scan().0, [w.value] + Scan().1)
      ensures w.None? ==> Scan() == (waves.State(), [])
    {
      if waves.timings == [] || waves.timings[0].start > stop {
        return None;
      }
      ghost var p := waves.State();
      var timing := waves.timings[0];
      waves.timings := waves.timings[1..];
      var phase := waves.phases[0];
      waves.phases := waves.phases[1..];
      var freq := waves.frequencies.Next();
      var amp := waves.amplitudes.Next();
      w := Some(TimedWave(timing.start, timing.end, Wave(freq.value, amp.value, phase)));
      SortedTail(p.timings, 1);
      SampleStep(p, stop);
    }

    /** Draining the scan, as `Vec::extend` does: `Next` until it reports
        nothing, collecting the waves in order. */
    method Collect() returns (born: seq<TimedWave>)
      requires waves.Valid()
      modifies waves, waves.frequencies, waves.amplitudes
      ensures waves.Valid()
      ensures (waves.State(), born) == SampleSpec(old(waves.State()), stop)
    {
      born := [];
      ghost var goal := Scan();
      assert born + goal.1 == goal.1;
      while true
        invariant waves.Valid()
        invariant goal == (Scan().0, born + Scan().1)
        decreases |waves.timings|
      {
        var next := Next();
        if next.None? {
          break;
        }
        ghost var after := Scan();
        assert born + ([next.value] + after.1) == (born + [next.value]) + after.1;
        born := born + [next.value];
      }
      assert born + [] == born;
    }

    /** `WaveSlice::size_hint`: no lower bound, and the pending phases as an
        upper bound, which no scan exceeds. */
    function SizeHint(): (hint: (nat, Option<nat>))
      reads this, waves, waves.frequencies, waves.amplitudes
      requires waves.Valid()
      ensures hint.0 == 0 && hint.1.Some?
      ensures |SampleSpec(waves.State(), stop).1| <= hint.1.value
    {
      (0, Some(|waves.phases|))
    }
  }
}
