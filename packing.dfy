/** The packed representation of a schedule of timed waves (`src/lib.rs`):
    six parallel arrays, with the coefficients of every wave's two curves laid
    end to end and one byte per wave recording how many belong to it.

    This module holds the values only: what the arrays mean, what the
    construction check accepts, and how waves are encoded into and decoded
    out of the arrays. The objects that own and scan them are in `Scheduler`. */
module Packing {
  import opened Common
  import opened Func

  /** A `(start, end)` pair of `timings`; `end` is exclusive. */
  datatype Timing = Timing(start: int, end: int)

  /** `TimedWave`: a wave sounding on sample times `start <= time < end`. */
  datatype TimedWave = TimedWave(start: int, end: int, wave: Wave)

  /** The six arrays of `TimedWavePacker`, in field order. */
  datatype Packed = Packed(
    timings: seq<Timing>,
    freqCoef: seq<real>,
    freqRuns: seq<Byte>,
    ampCoef: seq<real>,
    ampRuns: seq<Byte>,
    phases: seq<real>)

  /** `TimedWavePacker::default()`: all six arrays empty. */
  const Empty: Packed := Packed([], [], [], [], [], [])

  /** Every array of `a` followed by the same array of `b`. */
  function Append(a: Packed, b: Packed): Packed
  {
    Packed(a.timings + b.timings, a.freqCoef + b.freqCoef, a.freqRuns + b.freqRuns,
           a.ampCoef + b.ampCoef, a.ampRuns + b.ampRuns, a.phases + b.phases)
  }

  lemma AppendAssociative(a: Packed, b: Packed, c: Packed)
    ensures Append(Append(a, b), c) == Append(a, Append(b, c))
  {
    assert (a.timings + b.timings) + c.timings == a.timings + (b.timings + c.timings);
    assert (a.freqCoef + b.freqCoef) + c.freqCoef == a.freqCoef + (b.freqCoef + c.freqCoef);
    assert (a.freqRuns + b.freqRuns) + c.freqRuns == a.freqRuns + (b.freqRuns + c.freqRuns);
    assert (a.ampCoef + b.ampCoef) + c.ampCoef == a.ampCoef + (b.ampCoef + c.ampCoef);
    assert (a.ampRuns + b.ampRuns) + c.ampRuns == a.ampRuns + (b.ampRuns + c.ampRuns);
    assert (a.phases + b.phases) + c.phases == a.phases + (b.phases + c.phases);
  }

  lemma AppendEmpty(a: Packed)
    ensures Append(Empty, a) == a && Append(a, Empty) == a
  {
    assert a.timings + [] == a.timings;
    assert a.freqCoef + [] == a.freqCoef;
    assert a.freqRuns + [] == a.freqRuns;
    assert a.ampCoef + [] == a.ampCoef;
    assert a.ampRuns + [] == a.ampRuns;
    assert a.phases + [] == a.phases;
  }

  /** One timing, one frequency run, one amplitude run and one phase per wave. */
  predicate SameLengths(p: Packed)
  {
    && |p.timings| == |p.freqRuns|
    && |p.freqRuns| == |p.ampRuns|
    && |p.phases| == |p.timings|
  }

  /** The arrays can be decoded: parallel, and every run-length array adds
      up to its coefficient array (the check of `MultiPoly::new`). */
  predicate Consistent(p: Packed)
  {
    && SameLengths(p)
    && Sum(p.freqRuns) == |p.freqCoef|
    && Sum(p.ampRuns) == |p.ampCoef|
  }

  /** The window at `i` of the check below: the timing at `i` starts no
      later than the next one. */
  predicate StartsInOrder(ts: seq<Timing>, i: int)
    requires 0 <= i < |ts| - 1
  {
    ts[i].start <= ts[i + 1].start
  }

  /** `timings.windows(2).all(|s| s[0].0 <= s[1].0)`. */
  predicate StartsSorted(ts: seq<Timing>)
  {
    forall i :: 0 <= i < |ts| - 1 ==> StartsInOrder(ts, i)
  }

  /** What `PackedTimedWaves::new` accepts: parallel arrays, starts in
      non-decreasing order, and both decoders constructible. */
  predicate Accepts(p: Packed)
  {
    && SameLengths(p)
    && StartsSorted(p.timings)
    && Sum(p.freqRuns) == |p.freqCoef|
    && Sum(p.ampRuns) == |p.ampCoef|
  }

  lemma {:induction false} SortedBetween(ts: seq<Timing>, i: nat, j: nat)
    requires StartsSorted(ts)
    requires i <= j < |ts|
    ensures ts[i].start <= ts[j].start
    decreases j - i
  {
    if i < j {
      SortedBetween(ts, i, j - 1);
      assert StartsInOrder(ts, j - 1);
    }
  }

  /** The neighbour check of the construction is the same as asking that no
      later wave start before an earlier one; so an unsorted schedule is
      refused. */
  lemma AcceptsMeansSorted(p: Packed)
    ensures Accepts(p) <==>
      Consistent(p) &&
      forall i, j :: 0 <= i <= j < |p.timings| ==> p.timings[i].start <= p.timings[j].start
  {
    if Accepts(p) {
      forall i, j | 0 <= i <= j < |p.timings|
        ensures p.timings[i].start <= p.timings[j].start
      {
        SortedBetween(p.timings, i, j);
      }
    }
  }

  // ---------------------------------------------------------------------
  // Encoding waves into the arrays (`TimedWavePacker::extend`)
  // ---------------------------------------------------------------------

  /** What one round of `extend`'s loop appends, with the amplitude run being
      the length of the amplitude curve. */
  function EncodeOne(w: TimedWave): Packed
  {
    Packed([Timing(w.start, w.end)], w.wave.freq, [AsByte(|w.wave.freq|)],
           w.wave.amp, [AsByte(|w.wave.amp|)], [w.wave.phase])
  }

  /** What one round of `extend`'s loop appends as written: the amplitude
      run is computed from the frequency curve's length. */
  function EncodeOneAsWritten(w: TimedWave): Packed
  {
    Packed([Timing(w.start, w.end)], w.wave.freq, [AsByte(|w.wave.freq|)],
           w.wave.amp, [AsByte(|w.wave.freq|)], [w.wave.phase])
  }

  /** The arrays that a per-wave encoder produces for a sequence of waves. */
  function EncodeBy(ws: seq<TimedWave>, one: TimedWave -> Packed): Packed
  {
    if ws == [] then Empty else Append(one(ws[0]), EncodeBy(ws[1..], one))
  }

  function Encode(ws: seq<TimedWave>): Packed
  {
    EncodeBy(ws, EncodeOne)
  }

  function EncodeAsWritten(ws: seq<TimedWave>): Packed
  {
    EncodeBy(ws, EncodeOneAsWritten)
  }

  /** Encoding one more wave appends its arrays: the step of `extend`'s loop. */
  lemma {:induction false} EncodeBySnoc(ws: seq<TimedWave>, w: TimedWave, one: TimedWave -> Packed)
    ensures EncodeBy(ws + [w], one) == Append(EncodeBy(ws, one), one(w))
    decreases ws
  {
    if ws == [] {
      assert ws + [w] == [w];
      assert [w][1..] == [];
      AppendEmpty(one(w));
    } else {
      assert (ws + [w])[0] == ws[0];
      assert (ws + [w])[1..] == ws[1..] + [w];
      EncodeBySnoc(ws[1..], w, one);
      AppendAssociative(one(ws[0]), EncodeBy(ws[1..], one), one(w));
    }
  }

  /** The per-wave columns of a sequence of waves. */
  function TimingsOf(ws: seq<TimedWave>): (ts: seq<Timing>)
    ensures |ts| == |ws|
    ensures forall i :: 0 <= i < |ws| ==> ts[i] == Timing(ws[i].start, ws[i].end)
  {
    if ws == [] then [] else [Timing(ws[0].start, ws[0].end)] + TimingsOf(ws[1..])
  }

  function FreqsOf(ws: seq<TimedWave>): (fs: seq<seq<real>>)
    ensures |fs| == |ws|
    ensures forall i :: 0 <= i < |ws| ==> fs[i] == ws[i].wave.freq
  {
    if ws == [] then [] else [ws[0].wave.freq] + FreqsOf(ws[1..])
  }

  function AmpsOf(ws: seq<TimedWave>): (amps: seq<seq<real>>)
    ensures |amps| == |ws|
    ensures forall i :: 0 <= i < |ws| ==> amps[i] == ws[i].wave.amp
  {
    if ws == [] then [] else [ws[0].wave.amp] + AmpsOf(ws[1..])
  }

  function PhasesOf(ws: seq<TimedWave>): (ps: seq<real>)
    ensures |ps| == |ws|
    ensures forall i :: 0 <= i < |ws| ==> ps[i] == ws[i].wave.phase
  {
    if ws == [] then [] else [ws[0].wave.phase] + PhasesOf(ws[1..])
  }

  /** What `bulk_generate` appends for already-grouped columns. */
  function Bulk(timings: seq<Timing>, freqs: seq<seq<real>>, amps: seq<seq<real>>, phases: seq<real>): Packed
  {
    Packed(timings, Flatten(freqs), Runs(freqs), Flatten(amps), Runs(amps), phases)
  }

  /** `extend` and `bulk_generate` agree: encoding waves one by one gives the
      arrays that grouping their columns gives. */
  lemma {:induction false} EncodeIsBulk(ws: seq<TimedWave>)
    ensures Encode(ws) == Bulk(TimingsOf(ws), FreqsOf(ws), AmpsOf(ws), PhasesOf(ws))
    decreases ws
  {
    if ws != [] {
      EncodeIsBulk(ws[1..]);
      var fs, amps := FreqsOf(ws), AmpsOf(ws);
      assert fs == [ws[0].wave.freq] + FreqsOf(ws[1..]);
      assert amps == [ws[0].wave.amp] + AmpsOf(ws[1..]);
      assert fs[1..] == FreqsOf(ws[1..]);
      assert amps[1..] == AmpsOf(ws[1..]);
    }
  }

  /** As written, `extend` differs from `bulk_generate` in exactly one
      array: its amplitude runs are the frequency curves' lengths. */
  lemma {:induction false} EncodeAsWrittenIsBulk(ws: seq<TimedWave>)
    ensures EncodeAsWritten(ws) ==
      Bulk(TimingsOf(ws), FreqsOf(ws), AmpsOf(ws), PhasesOf(ws)).(ampRuns := Runs(FreqsOf(ws)))
    decreases ws
  {
    if ws != [] {
      EncodeAsWrittenIsBulk(ws[1..]);
      var fs, amps := FreqsOf(ws), AmpsOf(ws);
      assert fs == [ws[0].wave.freq] + FreqsOf(ws[1..]);
      assert amps == [ws[0].wave.amp] + AmpsOf(ws[1..]);
      assert fs[1..] == FreqsOf(ws[1..]);
      assert amps[1..] == AmpsOf(ws[1..]);
    }
  }

  /** No curve of any wave has more coefficients than a byte can count. */
  predicate Fits(ws: seq<TimedWave>)
  {
    forall i :: 0 <= i < |ws| ==> |ws[i].wave.freq| < 256 && |ws[i].wave.amp| < 256
  }

  /** The wave at `i` starts no later than the next one. */
  predicate WaveStartsInOrder(ws: seq<TimedWave>, i: int)
    requires 0 <= i < |ws| - 1
  {
    ws[i].start <= ws[i + 1].start
  }

  /** `timings` of the waves in non-decreasing order of start. */
  predicate WavesSorted(ws: seq<TimedWave>)
  {
    forall i :: 0 <= i < |ws| - 1 ==> WaveStartsInOrder(ws, i)
  }

  // ---------------------------------------------------------------------
  // Decoding the arrays back into waves (the lockstep scan)
  // ---------------------------------------------------------------------

  /** The first wave of the arrays and the arrays without it: the timing, the
      first run of each coefficient array and the phase are taken together. */
  function Pop(p: Packed): (r: (TimedWave, Packed))
    requires Consistent(p) && p.timings != []
    ensures Consistent(r.1)
    ensures |r.1.timings| == |p.timings| - 1
  {
    var f, a := p.freqRuns[0], p.ampRuns[0];
    HeadTail(p.freqRuns);
    HeadTail(p.ampRuns);
    (TimedWave(p.timings[0].start, p.timings[0].end, Wave(p.freqCoef[..f], p.ampCoef[..a], p.phases[0])),
     Packed(p.timings[1..], p.freqCoef[f..], p.freqRuns[1..], p.ampCoef[a..], p.ampRuns[1..], p.phases[1..]))
  }

  /** Every wave of the arrays, in stored order. */
  function DecodeAll(p: Packed): (ws: seq<TimedWave>)
    requires Consistent(p)
    ensures |ws| == |p.timings|
    decreases |p.timings|
  {
    if p.timings == [] then [] else [Pop(p).0] + DecodeAll(Pop(p).1)
  }

  /** Decoded waves carry the stored timings, and their curves fit in a byte
      because each is as long as its run. */
  lemma {:induction false} DecodedWaves(p: Packed)
    requires Consistent(p)
    ensures Fits(DecodeAll(p))
    ensures TimingsOf(DecodeAll(p)) == p.timings
    decreases |p.timings|
  {
    if p.timings != [] {
      var (w, rest) := Pop(p);
      DecodedWaves(rest);
      var ws := DecodeAll(p);
      assert ws == [w] + DecodeAll(rest);
      forall i | 0 <= i < |ws| ensures |ws[i].wave.freq| < 256 && |ws[i].wave.amp| < 256 {
        if i > 0 {
          assert ws[i] == DecodeAll(rest)[i - 1];
        }
      }
      assert TimingsOf(ws) == [Timing(w.start, w.end)] + TimingsOf(DecodeAll(rest));
    }
  }

  /** Decodable arrays pass the construction check exactly when the waves
      they decode to are sorted by start. */
  lemma AcceptsDecoded(p: Packed)
    requires Consistent(p)
    ensures Accepts(p) <==> WavesSorted(DecodeAll(p))
  {
    var ws := DecodeAll(p);
    DecodedWaves(p);
    forall i | 0 <= i < |ws| - 1
      ensures StartsInOrder(p.timings, i) <==> WaveStartsInOrder(ws, i)
    {
      assert TimingsOf(ws)[i] == p.timings[i] && TimingsOf(ws)[i + 1] == p.timings[i + 1];
    }
  }

  /** One encoded wave in front of decodable arrays is what `Pop` takes off. */
  lemma PopEncodeOne(w: TimedWave, q: Packed)
    requires |w.wave.freq| < 256 && |w.wave.amp| < 256
    requires Consistent(q)
    ensures Consistent(Append(EncodeOne(w), q))
    ensures Pop(Append(EncodeOne(w), q)) == (w, q)
  {
    var e := Append(EncodeOne(w), q);
    var f, a := |w.wave.freq|, |w.wave.amp|;
    assert e.freqRuns[0] == f && e.freqRuns[1..] == q.freqRuns;
    assert e.ampRuns[0] == a && e.ampRuns[1..] == q.ampRuns;
    assert Sum(e.freqRuns) == f + Sum(q.freqRuns);
    assert Sum(e.ampRuns) == a + Sum(q.ampRuns);
    assert e.freqCoef[..f] == w.wave.freq && e.freqCoef[f..] == q.freqCoef;
    assert e.ampCoef[..a] == w.wave.amp && e.ampCoef[a..] == q.ampCoef;
    assert e.timings[1..] == q.timings && e.phases[1..] == q.phases;
  }

  lemma FitsTail(ws: seq<TimedWave>)
    requires Fits(ws) && ws != []
    ensures Fits(ws[1..])
    ensures |ws[0].wave.freq| < 256 && |ws[0].wave.amp| < 256
  {
    forall i | 0 <= i < |ws[1..]|
      ensures |ws[1..][i].wave.freq| < 256 && |ws[1..][i].wave.amp| < 256
    {
      assert ws[1..][i] == ws[i + 1];
    }
  }

  /** Encoding waves in front of decodable arrays keeps them decodable, and
      decoding gives back exactly those waves followed by the old ones. */
  lemma {:induction false} DecodeEncode(ws: seq<TimedWave>, p: Packed)
    requires Fits(ws) && Consistent(p)
    ensures Consistent(Append(Encode(ws), p))
    ensures DecodeAll(Append(Encode(ws), p)) == ws + DecodeAll(p)
    decreases ws
  {
    if ws == [] {
      AppendEmpty(p);
    } else {
      var w := ws[0];
      FitsTail(ws);
      DecodeEncode(ws[1..], p);
      var q := Append(Encode(ws[1..]), p);
      assert Encode(ws) == Append(EncodeOne(w), Encode(ws[1..]));
      AppendAssociative(EncodeOne(w), Encode(ws[1..]), p);
      var e := Append(EncodeOne(w), q);
      PopEncodeOne(w, q);
      assert DecodeAll(e) == [w] + DecodeAll(q);
      AppendAssoc([w], ws[1..], DecodeAll(p));
      HeadTail(ws);
    }
  }

  /** A packer filled by the (corrected) `extend` from sorted waves whose
      curves fit in a byte passes the construction check and decodes to
      exactly those waves. */
  lemma EncodeRoundTrip(ws: seq<TimedWave>)
    requires Fits(ws) && WavesSorted(ws)
    ensures Accepts(Encode(ws))
    ensures DecodeAll(Encode(ws)) == ws
  {
    EncodeAccepted(ws);
    DecodeEncode(ws, Empty);
    AppendEmpty(Encode(ws));
    assert DecodeAll(Empty) == [];
    assert ws + [] == ws;
  }

  /** The check accepts the corrected encoding exactly when the waves are
      sorted and every curve fits in a byte: a longer curve's run is
      truncated and no longer adds up to its coefficients. */
  lemma EncodeAccepted(ws: seq<TimedWave>)
    ensures Accepts(Encode(ws)) <==> Fits(ws) && WavesSorted(ws)
  {
    var e := Encode(ws);
    EncodeIsBulk(ws);
    var fs, amps := FreqsOf(ws), AmpsOf(ws);
    RunsSum(fs);
    RunsSum(amps);
    assert Fits(ws) <==> FitInBytes(fs) && FitInBytes(amps) by {
      if FitInBytes(fs) && FitInBytes(amps) {
        forall i | 0 <= i < |ws| ensures |ws[i].wave.freq| < 256 && |ws[i].wave.amp| < 256 {
          assert fs[i] == ws[i].wave.freq && amps[i] == ws[i].wave.amp;
        }
      }
      if Fits(ws) {
        forall i | 0 <= i < |fs| ensures |fs[i]| < 256 {
          assert fs[i] == ws[i].wave.freq;
        }
        forall i | 0 <= i < |amps| ensures |amps[i]| < 256 {
          assert amps[i] == ws[i].wave.amp;
        }
      }
    }
    assert StartsSorted(e.timings) <==> WavesSorted(ws) by {
      forall i | 0 <= i < |ws| - 1
        ensures StartsInOrder(e.timings, i) <==> WaveStartsInOrder(ws, i)
      {
        assert e.timings[i].start == ws[i].start;
        assert e.timings[i + 1].start == ws[i + 1].start;
      }
    }
  }

  /** Every wave's two curves are equally long: the waves on which `extend`
      as written and the corrected `extend` agree. */
  predicate Balanced(ws: seq<TimedWave>)
  {
    forall i :: 0 <= i < |ws| ==> |ws[i].wave.freq| == |ws[i].wave.amp|
  }

  /** `extend` as written encodes balanced waves exactly as the corrected one
      does; and on waves whose curves fit in a byte, only balanced waves. */
  lemma AsWrittenAgrees(ws: seq<TimedWave>)
    ensures Balanced(ws) ==> EncodeAsWritten(ws) == Encode(ws)
    ensures Fits(ws) && EncodeAsWritten(ws) == Encode(ws) ==> Balanced(ws)
  {
    EncodeIsBulk(ws);
    EncodeAsWrittenIsBulk(ws);
    var fr, ar := Runs(FreqsOf(ws)), Runs(AmpsOf(ws));
    if Balanced(ws) {
      forall i | 0 <= i < |ws| ensures fr[i] == ar[i] {
        assert |ws[i].wave.freq| == |ws[i].wave.amp|;
      }
      assert fr == ar;
    }
    if Fits(ws) && EncodeAsWritten(ws) == Encode(ws) {
      assert fr == EncodeAsWritten(ws).ampRuns == Encode(ws).ampRuns == ar;
      forall i | 0 <= i < |ws| ensures |ws[i].wave.freq| == |ws[i].wave.amp| {
        assert fr[i] == ar[i];
      }
    }
  }

  /** A packer filled by `extend` as written from balanced waves passes the
      construction check exactly when they are sorted and fit in a byte, and
      then decodes to exactly those waves. */
  lemma CollectRoundTrip(ws: seq<TimedWave>)
    requires Balanced(ws)
    ensures Accepts(EncodeAsWritten(ws)) <==> Fits(ws) && WavesSorted(ws)
    ensures Fits(ws) && WavesSorted(ws) ==> DecodeAll(EncodeAsWritten(ws)) == ws
  {
    AsWrittenAgrees(ws);
    EncodeAccepted(ws);
    if Fits(ws) && WavesSorted(ws) {
      EncodeRoundTrip(ws);
    }
  }

  /** Balanced waves encoded as written in front of decodable arrays keep
      them decodable and decode to those waves followed by the old ones. */
  lemma DecodeEncodeAsWritten(ws: seq<TimedWave>, p: Packed)
    requires Fits(ws) && Balanced(ws) && Consistent(p)
    ensures Consistent(Append(EncodeAsWritten(ws), p))
    ensures DecodeAll(Append(EncodeAsWritten(ws), p)) == ws + DecodeAll(p)
  {
    AsWrittenAgrees(ws);
    DecodeEncode(ws, p);
  }

  lemma SumOfTwo(a: Byte, b: Byte)
    ensures Sum([a, b]) == a + b
  {
    var s: seq<Byte> := [a, b];
    assert s[1..] == [b];
    assert [b][1..] == [];
    assert Sum([b]) == b + Sum([]);
    assert Sum(s) == a + Sum(s[1..]);
  }

  /** As written, `extend` makes arrays the construction check refuses as
      soon as one wave's curves differ in length. */
  lemma AsWrittenRefusesUnequalCurves()
    ensures var ws := [TimedWave(0, 1, Wave([1.0], [], 0.0))];
      Accepts(Encode(ws)) && !Accepts(EncodeAsWritten(ws))
  {
    var ws := [TimedWave(0, 1, Wave([1.0], [], 0.0))];
    assert ws[1..] == [];
    AppendEmpty(EncodeOne(ws[0]));
    AppendEmpty(EncodeOneAsWritten(ws[0]));
    assert EncodeAsWritten(ws).ampRuns == [1];
    assert Sum([1 as Byte]) == 1;
  }

  /** The arrays the as-written `extend` makes from two waves whose curve
      lengths are crossed: both run arrays follow the frequency curves. */
  lemma AsWrittenCrossedLayout(w0: TimedWave, w1: TimedWave)
    requires w0 == TimedWave(0, 1, Wave([1.0], [2.0, 3.0], 0.0))
    requires w1 == TimedWave(0, 1, Wave([4.0, 5.0], [6.0], 0.0))
    ensures EncodeAsWritten([w0, w1]) ==
      Packed([Timing(0, 1), Timing(0, 1)], [1.0, 4.0, 5.0], [1, 2], [2.0, 3.0, 6.0], [1, 2], [0.0, 0.0])
  {
    var ws := [w0, w1];
    assert ws[0] == w0 && ws[1..] == [w1] && ws[1..][1..] == [];
    assert EncodeBy([w1], EncodeOneAsWritten) == Append(EncodeOneAsWritten(w1), Empty);
    AppendEmpty(EncodeOneAsWritten(w1));
  }

  /** Worse, when the lengths happen to add up the check passes and the
      amplitude curves come out cut at the wrong places, while the corrected
      encoding decodes to the waves it was given. */
  lemma AsWrittenScramblesAmplitudes()
    ensures var ws := [TimedWave(0, 1, Wave([1.0], [2.0, 3.0], 0.0)),
                       TimedWave(0, 1, Wave([4.0, 5.0], [6.0], 0.0))];
      && Accepts(EncodeAsWritten(ws))
      && DecodeAll(EncodeAsWritten(ws))[0].wave.amp == [2.0]
      && DecodeAll(EncodeAsWritten(ws)) != ws
      && DecodeAll(Encode(ws)) == ws
  {
    var w0 := TimedWave(0, 1, Wave([1.0], [2.0, 3.0], 0.0));
    var w1 := TimedWave(0, 1, Wave([4.0, 5.0], [6.0], 0.0));
    var ws := [w0, w1];
    AsWrittenCrossedLayout(w0, w1);
    var e := EncodeAsWritten(ws);
    SumOfTwo(1, 2);
    assert Accepts(e) && Consistent(e);
    assert DecodeAll(e)[0] == Pop(e).0;
    assert Pop(e).0.wave.amp == [2.0];
    CrossedRoundTrip(w0, w1);
  }

  /** The corrected encoding of the same two waves decodes to them. */
  lemma CrossedRoundTrip(w0: TimedWave, w1: TimedWave)
    requires w0 == TimedWave(0, 1, Wave([1.0], [2.0, 3.0], 0.0))
    requires w1 == TimedWave(0, 1, Wave([4.0, 5.0], [6.0], 0.0))
    ensures Consistent(Encode([w0, w1])) && DecodeAll(Encode([w0, w1])) == [w0, w1]
  {
    var ws := [w0, w1];
    assert Fits(ws) by {
      forall i | 0 <= i < 2 ensures |ws[i].wave.freq| < 256 && |ws[i].wave.amp| < 256 {
      }
    }
    assert WavesSorted(ws);
    EncodeRoundTrip(ws);
  }

  /** `as u8` truncates: a curve of 256 coefficients is recorded as a run of
      0, and the check then refuses the arrays. */
  lemma TruncatedRunRefused()
    ensures var ws := [TimedWave(0, 1, Wave(seq(256, i => 0.0), [], 0.0))];
      Encode(ws).freqRuns == [0] && !Accepts(Encode(ws))
  {
    var ws := [TimedWave(0, 1, Wave(seq(256, i => 0.0), [], 0.0))];
    assert ws[1..] == [];
    assert EncodeBy(ws[1..], EncodeOne) == Empty;
    AppendEmpty(EncodeOne(ws[0]));
    assert Encode(ws) == EncodeOne(ws[0]);
    assert Encode(ws).freqRuns == [0];
    assert Sum([0 as Byte]) == 0;
  }
}
