/** Polynomial curves and the run-length coefficient decoder (`src/func.rs`).

    A polynomial is its coefficient sequence `c0, c1, ..., cn`, read as the
    power series `c0 + c1*t + ... + cn*t^n`. Coefficients are modelled as
    reals; the sine of a wave is a parameter, so only the structure of the
    evaluation is fixed here. */
module Func {
  import opened Common

  /** `std::f32::consts::TAU`, rounded to `f32`. */
  const TAU: real := 6.2831855

  /** The power series of `c` where the first power is `term` and each next
      power is the previous one times `t`, the way the `ts` generator hands
      them out. */
  function Series(c: seq<real>, t: real, term: real): real
  {
    if c == [] then 0.0 else c[0] * term + Series(c[1..], t, term * t)
  }

  /** `t` to the power `n`. */
  function Pow(t: real, n: nat): real
  {
    if n == 0 then 1.0 else t * Pow(t, n - 1)
  }

  /** The series is the sum of each coefficient times its power of `t`: one
      more coefficient `x` after `c` adds `x * term * t^|c|`. */
  lemma {:induction false} SeriesSnoc(c: seq<real>, x: real, t: real, term: real)
    ensures Series(c + [x], t, term) == Series(c, t, term) + x * (term * Pow(t, |c|))
    decreases c
  {
    if c == [] {
      assert c + [x] == [x] && [x][1..] == [];
    } else {
      assert (c + [x])[0] == c[0] && (c + [x])[1..] == c[1..] + [x];
      SeriesSnoc(c[1..], x, t, term * t);
      assert (term * t) * Pow(t, |c| - 1) == term * Pow(t, |c|);
    }
  }

  /** `[f32]::eval`: a single coefficient is returned as it is, without
      touching `t`; any other sequence is summed as a power series (so the
      empty sequence gives 0). The shortcut gives the same value as the sum. */
  function Eval(c: seq<real>, t: real): (r: real)
    ensures |c| == 1 ==> r == c[0]
    ensures r == Series(c, t, 1.0)
  {
    if |c| == 1 then c[0] else Series(c, t, 1.0)
  }

  /** The coefficients of `p` each multiplied by its position counted from
      `k`: the zip of `(k..)` with `p` in `derive_polynomial`. */
  function Weighted(p: seq<real>, k: nat): (r: seq<real>)
    ensures |r| == |p|
    ensures forall i :: 0 <= i < |p| ==> r[i] == p[i] * (k + i) as real
  {
    if p == [] then [] else [p[0] * k as real] + Weighted(p[1..], k + 1)
  }

  /** `derive_polynomial`: drops `c0` and multiplies coefficient `i` by `i`,
      so the result has one item fewer (none for an empty input). */
  function DerivePolynomial(p: seq<real>): (r: seq<real>)
    ensures |r| == if p == [] then 0 else |p| - 1
    ensures forall i :: 0 <= i < |r| ==> r[i] == p[i + 1] * (i + 1) as real
  {
    if p == [] then [] else Weighted(p[1..], 1)
  }

  /** `scale_polynomial`: every coefficient times `scale`. */
  function ScalePolynomial(p: seq<real>, scale: real): (r: seq<real>)
    ensures |r| == |p|
    ensures forall i :: 0 <= i < |p| ==> r[i] == p[i] * scale
  {
    if p == [] then [] else [p[0] * scale] + ScalePolynomial(p[1..], scale)
  }

  /** Scaling the coefficients scales the power series. */
  lemma {:induction false} SeriesOfScaled(p: seq<real>, scale: real, t: real, term: real)
    ensures Series(ScalePolynomial(p, scale), t, term) == scale * Series(p, t, term)
    decreases p
  {
    if p != [] {
      var q := ScalePolynomial(p, scale);
      assert q[1..] == ScalePolynomial(p[1..], scale);
      SeriesOfScaled(p[1..], scale, t, term * t);
      calc {
        Series(q, t, term);
        q[0] * term + Series(q[1..], t, term * t);
        (p[0] * scale) * term + scale * Series(p[1..], t, term * t);
        scale * (p[0] * term + Series(p[1..], t, term * t));
      }
    }
  }

  /** A scaled curve evaluates to the scaled value, with or without the
      single-coefficient shortcut. */
  lemma EvalOfScaled(p: seq<real>, scale: real, t: real)
    ensures Eval(ScalePolynomial(p, scale), t) == scale * Eval(p, t)
  {
    SeriesOfScaled(p, scale, t, 1.0);
  }

  /** `Wave`: a frequency curve, an amplitude curve and a phase offset. */
  datatype Wave = Wave(freq: seq<real>, amp: seq<real>, phase: real)

  /** `Wave::default()`: both curves empty, phase 0. */
  const DefaultWave: Wave := Wave([], [], 0.0)

  /** The angle `Wave::eval` takes the sine of: `TAU * (t + phase) * freq(t)`. */
  function Angle(w: Wave, t: real): real
  {
    TAU * (t + w.phase) * Eval(w.freq, t)
  }

  /** `Wave::eval`: `amp(t) * sin(Angle(w, t))`, with the sine supplied by
      the caller. A wave without amplitude coefficients is silent, and a
      constant amplitude scales the sine. */
  function WaveEval(w: Wave, t: real, sine: real -> real): (r: real)
    ensures w.amp == [] ==> r == 0.0
    ensures |w.amp| == 1 ==> r == w.amp[0] * sine(Angle(w, t))
  {
    Eval(w.amp, t) * sine(Angle(w, t))
  }

  /** The sum of a sequence of run lengths (`usize::from` of each byte). */
  function Sum(runs: seq<Byte>): nat
  {
    if runs == [] then 0 else runs[0] + Sum(runs[1..])
  }

  lemma {:induction false} SumAppend(a: seq<Byte>, b: seq<Byte>)
    ensures Sum(a + b) == Sum(a) + Sum(b)
    decreases a
  {
    if a == [] {
      assert a + b == b;
    } else {
      assert (a + b)[1..] == a[1..] + b;
      SumAppend(a[1..], b);
    }
  }

  /** The coefficient groups that a run-length array cuts out of a flat
      coefficient array, front to back: one group per run, each as long as
      its run. */
  function Split(coeffs: seq<real>, runs: seq<Byte>): (groups: seq<seq<real>>)
    requires |coeffs| == Sum(runs)
    ensures |groups| == |runs|
    ensures forall i :: 0 <= i < |runs| ==> |groups[i]| == runs[i]
    decreases runs
  {
    if runs == [] then [] else [coeffs[..runs[0]]] + Split(coeffs[runs[0]..], runs[1..])
  }

  /** The groups laid end to end. */
  function Flatten(groups: seq<seq<real>>): seq<real>
  {
    if groups == [] then [] else groups[0] + Flatten(groups[1..])
  }

  lemma {:induction false} FlattenAppend(a: seq<seq<real>>, b: seq<seq<real>>)
    ensures Flatten(a + b) == Flatten(a) + Flatten(b)
    decreases a
  {
    if a == [] {
      assert a + b == b;
    } else {
      assert (a + b)[1..] == a[1..] + b;
      FlattenAppend(a[1..], b);
    }
  }

  /** The run length recorded for each group: its length cast `as u8`. */
  function Runs(groups: seq<seq<real>>): (runs: seq<Byte>)
    ensures |runs| == |groups|
    ensures forall i :: 0 <= i < |groups| ==> runs[i] == AsByte(|groups[i]|)
  {
    if groups == [] then [] else [AsByte(|groups[0]|)] + Runs(groups[1..])
  }

  /** No group is longer than a byte can count. */
  predicate FitInBytes(groups: seq<seq<real>>)
  {
    forall i :: 0 <= i < |groups| ==> |groups[i]| < 256
  }

  /** The recorded runs never add up to more than the coefficients, and add
      up to exactly as many when no group is too long for a byte: a longer
      group's run is truncated and falls short. */
  lemma {:induction false} RunsSum(groups: seq<seq<real>>)
    ensures Sum(Runs(groups)) <= |Flatten(groups)|
    ensures Sum(Runs(groups)) == |Flatten(groups)| <==> FitInBytes(groups)
    decreases groups
  {
    if groups != [] {
      var rest := groups[1..];
      RunsSum(rest);
      assert Runs(groups)[1..] == Runs(rest);
      assert Sum(Runs(groups)) == AsByte(|groups[0]|) + Sum(Runs(rest));
      assert |Flatten(groups)| == |groups[0]| + |Flatten(rest)|;
      if FitInBytes(groups) {
        assert |groups[0]| < 256;
        forall i | 0 <= i < |rest| ensures |rest[i]| < 256 {
          assert rest[i] == groups[i + 1];
        }
      }
      if |groups[0]| < 256 && FitInBytes(rest) {
        forall i | 0 <= i < |groups| ensures |groups[i]| < 256 {
          if i > 0 {
            assert groups[i] == rest[i - 1];
          }
        }
      }
    }
  }

  /** Splitting and then concatenating gives back the coefficient array. */
  lemma {:induction false} FlattenOfSplit(coeffs: seq<real>, runs: seq<Byte>)
    requires |coeffs| == Sum(runs)
    ensures Flatten(Split(coeffs, runs)) == coeffs
    decreases runs
  {
    if runs != [] {
      FlattenOfSplit(coeffs[runs[0]..], runs[1..]);
      assert coeffs == coeffs[..runs[0]] + coeffs[runs[0]..];
    }
  }

  /** Concatenating groups that fit in a byte, recording their lengths, and
      splitting again gives back the groups. */
  lemma {:induction false} SplitOfFlatten(groups: seq<seq<real>>)
    requires FitInBytes(groups)
    ensures Sum(Runs(groups)) == |Flatten(groups)|
    ensures Split(Flatten(groups), Runs(groups)) == groups
    decreases groups
  {
    if groups != [] {
      var rest := groups[1..];
      assert FitInBytes(rest) by {
        forall i | 0 <= i < |rest| ensures |rest[i]| < 256 {
          assert rest[i] == groups[i + 1];
        }
      }
      SplitOfFlatten(rest);
      var flat := Flatten(groups);
      var runs := Runs(groups);
      assert runs[0] == |groups[0]|;
      assert runs[1..] == Runs(rest);
      assert flat[..runs[0]] == groups[0];
      assert flat[runs[0]..] == Flatten(rest);
    }
  }

  /** `MultiPoly`: a flat coefficient array and the run lengths still to be
      consumed. Each `Next` splits off the front run as one polynomial. */
  class MultiPoly {
    var coeffs: seq<real>
    var runs: seq<Byte>

    /** The remaining coefficients are exactly as many as the remaining runs
        add up to, so every split stays in range. */
    ghost predicate Valid()
      reads this
    {
      |coeffs| == Sum(runs)
    }

    /** The polynomials still to be yielded, in order. */
    ghost function Segments(): seq<seq<real>>
      reads this
      requires Valid()
    {
      Split(coeffs, runs)
    }

    constructor (coeffs: seq<real>, runs: seq<Byte>)
      requires |coeffs| == Sum(runs)
      ensures Valid()
      ensures this.coeffs == coeffs && this.runs == runs
    {
      this.coeffs := coeffs;
      this.runs := runs;
    }

    /** `MultiPoly::new`: a decoder exactly when the runs add up to the
        number of coefficients. */
    static method New(coeffs: seq<real>, runs: seq<Byte>) returns (m: Option<MultiPoly>)
      ensures m.Some? <==> |coeffs| == Sum(runs)
      ensures m.Some? ==> fresh(m.value) && m.value.Valid()
      ensures m.Some? ==> m.value.coeffs == coeffs && m.value.runs == runs
    {
      if |coeffs| == Sum(runs) {
        var decoder := new MultiPoly(coeffs, runs);
        m := Some(decoder);
      } else {
        m := None;
      }
    }

    /** `MultiPoly::next`: consumes one run length and splits that many
        coefficients off the front. */
    method Next() returns (seg: Option<seq<real>>)
      requires Valid()
      modifies this
      ensures Valid()
      ensures seg.None? <==> old(runs) == []
      ensures seg.None? ==> coeffs == old(coeffs) && runs == old(runs)
      ensures seg.Some? ==> runs == old(runs)[1..]
      ensures seg.Some? ==> seg.value == old(coeffs)[..old(runs)[0]]
      ensures seg.Some? ==> coeffs == old(coeffs)[old(runs)[0]..]
      ensures seg.Some? ==> old(Segments()) == [seg.value] + Segments()
    {
      if runs == [] {
        return None;
      }
      var len := runs[0];
      runs := runs[1..];
      var front, rest := coeffs[..len], coeffs[len..];
      coeffs := rest;
      seg := Some(front);
    }

    /** `MultiPoly::size_hint`: exact, the number of polynomials left. */
    function SizeHint(): (hint: (nat, Option<nat>))
      reads this
      requires Valid()
      ensures hint.0 == |Segments()|
      ensures hint.1 == Some(|Segments()|)
    {
      (|runs|, Some(|runs|))
    }
  }
}
