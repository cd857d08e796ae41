/**
 * A fixed-length FIR (finite impulse response) filter engine.
 *
 * The engine owns four arrays of length N: the tap coefficients and the
 * input signal (read-only inputs supplied by the caller), the sliding input
 * buffer (most recent sample first) and the output signal.  `InitFir` zeroes
 * the two working arrays; `Fir` re-initialises, then for every sample shifts
 * the buffer one slot toward the tail, writes the new sample into slot 0 and
 * stores the dot product of the taps with the buffer as that sample's output.
 *
 * Arithmetic is on mathematical integers; `AccumulatorFitsInt32` states the
 * magnitude bounds under which the 32-bit accumulator of fir.c cannot overflow.
 */
module Fir {

  // ---------------------------------------------------------------------------
  // Specification functions
  // ---------------------------------------------------------------------------

  /** The prefix dot product: the sum of t[j] * b[j] for 0 <= j < n, added in
      increasing j as the accumulation loop does. */
  ghost function Dot(t: seq<int>, b: seq<int>, n: nat): int
    requires n <= |t| && n <= |b|
  {
    if n == 0 then 0 else Dot(t, b, n - 1) + t[n - 1] * b[n - 1]
  }

  /** The sum of t[k] * s[i - k] for 0 <= k < m: the first m terms of the
      convolution at sample i. */
  ghost function ConvTerms(t: seq<int>, s: seq<int>, i: nat, m: nat): int
    requires m <= |t| && m <= i + 1 && i < |s|
  {
    if m == 0 then 0 else ConvTerms(t, s, i, m - 1) + t[m - 1] * s[i - (m - 1)]
  }

  function Min(a: int, b: int): int
  {
    if a <= b then a else b
  }

  /** The causal convolution of taps t with signal s at sample i, with zero
      initial state: the sum of t[k] * s[i - k] for 0 <= k <= min(i, |t| - 1). */
  ghost function Conv(t: seq<int>, s: seq<int>, i: nat): int
    requires i < |s|
  {
    ConvTerms(t, s, i, Min(i + 1, |t|))
  }

  /** The output signal the filter promises: one convolution value per sample. */
  ghost function FirSpec(t: seq<int>, s: seq<int>): seq<int>
  {
    seq(|s|, i requires 0 <= i < |s| => Conv(t, s, i))
  }

  /** The contents of an n-slot input buffer after samples s[0..i] have been
      shifted in, starting from all zeros: slot k holds s[i - k] when that
      sample has arrived and 0 otherwise.  Window(s, -1, n) is the buffer
      before the first sample.  This is the reference closed form: its ensures
      only spell out the definition, and the facts about the shift register
      are proved of it in WindowAdvance and in the loop invariant of Fir. */
  ghost function Window(s: seq<int>, i: int, n: nat): (w: seq<int>)
    requires -1 <= i < |s|
    ensures |w| == n
    ensures forall k :: 0 <= k < n && k <= i ==> w[k] == s[i - k]
    ensures forall k :: 0 <= k < n && i < k ==> w[k] == 0
  {
    seq(n, k => if 0 <= k <= i then s[i - k] else 0)
  }

  ghost function Zeros(n: nat): seq<int>
  {
    seq(n, _ => 0)
  }

  /** The buffer after the shift loop: every slot j >= 1 takes the value of
      slot j - 1, the old last value is dropped, and slot 0 keeps its value
      (the caller overwrites it next). */
  ghost function Shifted(b: seq<int>): (r: seq<int>)
    requires |b| > 0
    ensures |r| == |b|
    ensures r[0] == b[0]
    ensures forall j :: 1 <= j < |b| ==> r[j] == b[j - 1]
  {
    b[..1] + b[..|b| - 1]
  }

  /** Taps that select exactly one delay d: 1 at slot d, 0 elsewhere. */
  ghost function Impulse(n: nat, d: nat): seq<int>
  {
    seq(n, k => if k == d then 1 else 0)
  }

  // ---------------------------------------------------------------------------
  // The filter engine
  // ---------------------------------------------------------------------------

  class FirEngine {
    /** Filter length: the number of taps, samples and buffer slots. */
    const N: nat
    /** Tap coefficients and input signal: read, never written, by the engine. */
    const taps: array<int>
    const inputsignal: array<int>
    /** Working state: the sliding window (most recent first) and the output. */
    const inputbuffer: array<int>
    const outputsignal: array<int>

    /** All four arrays have length N > 0, and the two working arrays are
        distinct from each other and from the two inputs. */
    ghost predicate Valid()
    {
      && N > 0
      && taps.Length == N && inputsignal.Length == N
      && inputbuffer.Length == N && outputsignal.Length == N
      && inputbuffer != outputsignal
      && inputbuffer != taps && inputbuffer != inputsignal
      && outputsignal != taps && outputsignal != inputsignal
    }

    /** Binds the caller's taps and signal and allocates the working arrays;
        their contents are unspecified until InitFir runs. */
    constructor (taps: array<int>, inputsignal: array<int>)
      requires 0 < taps.Length == inputsignal.Length
      ensures Valid()
      ensures N == taps.Length
      ensures this.taps == taps && this.inputsignal == inputsignal
      ensures fresh(inputbuffer) && fresh(outputsignal)
    {
      N := taps.Length;
      this.taps := taps;
      this.inputsignal := inputsignal;
      inputbuffer := new int[taps.Length];
      outputsignal := new int[taps.Length];
    }

    /** Zeroes the input buffer and the output signal, whatever they held. */
    method InitFir()
      requires Valid()
      modifies inputbuffer, outputsignal
      ensures Valid()
      ensures inputbuffer[..] == Zeros(N)
      ensures outputsignal[..] == Zeros(N)
    {
      var i := 0;
      while i < N
        invariant 0 <= i <= N
        invariant forall k :: 0 <= k < i ==> inputbuffer[k] == 0 && outputsignal[k] == 0
      {
        inputbuffer[i] := 0;
        outputsignal[i] := 0;
        i := i + 1;
      }
    }

    /** The shift loop: moves every slot one place toward the tail, from the
        tail down to slot 1, discarding the oldest sample. */
    method Shift()
      requires Valid()
      modifies inputbuffer
      ensures Valid()
      ensures inputbuffer[..] == Shifted(old(inputbuffer[..]))
    {
      var j := N - 1;
      while j > 0
        invariant 0 <= j <= N - 1
        invariant forall k :: 0 <= k <= j ==> inputbuffer[k] == old(inputbuffer[k])
        invariant forall k :: j < k < N ==> inputbuffer[k] == old(inputbuffer[k - 1])
      {
        inputbuffer[j] := inputbuffer[j - 1];
        j := j - 1;
      }
    }

    /** The accumulation loop: the dot product of the taps with the buffer. */
    method Accumulate() returns (result: int)
      requires Valid()
      ensures result == Dot(taps[..], inputbuffer[..], N)
    {
      result := 0;
      var j := 0;
      while j < N
        invariant 0 <= j <= N
        invariant result == Dot(taps[..], inputbuffer[..], j)
      {
        result := result + taps[j] * inputbuffer[j];
        j := j + 1;
      }
    }

    /** One pass of the outer loop of fir: shift sample i into the buffer,
        then emit the dot product of the taps with the buffer as output i. */
    method ProcessSample(i: nat)
      requires Valid() && i < N
      requires inputbuffer[..] == Window(inputsignal[..], i - 1, N)
      modifies inputbuffer, outputsignal
      ensures Valid()
      ensures inputbuffer[..] == Window(inputsignal[..], i, N)
      ensures outputsignal[..] == old(outputsignal[..])[i := Conv(taps[..], inputsignal[..], i)]
    {
      ghost var before := inputbuffer[..];
      Shift();
      inputbuffer[0] := inputsignal[i];
      assert inputbuffer[..] == Shifted(before)[0 := inputsignal[i]];
      WindowAdvance(inputsignal[..], i, N);
      var result := Accumulate();
      DotWindow(taps[..], inputsignal[..], i, N);
      outputsignal[i] := result;
    }

    /** Runs the filter over the whole input signal and returns the output
        array itself.  The result depends only on the taps and the signal,
        never on what the buffers held before the call. */
    method Fir() returns (out: array<int>)
      requires Valid()
      modifies inputbuffer, outputsignal
      ensures Valid()
      ensures out == outputsignal
      ensures outputsignal[..] == FirSpec(taps[..], inputsignal[..])
      ensures inputbuffer[..] == Window(inputsignal[..], N - 1, N)
      ensures unchanged(taps, inputsignal)
    {
      InitFir();
      assert inputbuffer[..] == Window(inputsignal[..], -1, N);
      var i := 0;
      while i < N
        invariant 0 <= i <= N
        invariant inputbuffer[..] == Window(inputsignal[..], i - 1, N)
        invariant forall k :: 0 <= k < i ==> outputsignal[k] == Conv(taps[..], inputsignal[..], k)
      {
        ProcessSample(i);
        i := i + 1;
      }
      out := outputsignal;
    }
  }

  // ---------------------------------------------------------------------------
  // Lemmas about the specification
  // ---------------------------------------------------------------------------

  /** One step of the outer loop: shifting the window of samples up to i - 1
      and writing s[i] into slot 0 gives the window of samples up to i. */
  lemma WindowAdvance(s: seq<int>, i: nat, n: nat)
    requires i < |s| && n > 0
    ensures Shifted(Window(s, i - 1, n))[0 := s[i]] == Window(s, i, n)
  {
    var lhs := Shifted(Window(s, i - 1, n))[0 := s[i]];
    forall k | 0 <= k < n ensures lhs[k] == Window(s, i, n)[k] {
      if k > 0 && k <= i {
        assert lhs[k] == Window(s, i - 1, n)[k - 1] == s[i - 1 - (k - 1)];
      }
    }
  }

  /** The dot product of the taps with the window at sample i, over its first
      n slots, is the convolution restricted to the first min(n, i + 1) taps:
      the slots not yet reached by a sample are zero and contribute nothing. */
  lemma {:induction false} DotWindowPrefix(t: seq<int>, s: seq<int>, i: nat, len: nat, n: nat)
    requires i < |s| && n <= len && n <= |t|
    ensures Dot(t, Window(s, i, len), n) == ConvTerms(t, s, i, Min(n, i + 1))
  {
    if n > 0 {
      DotWindowPrefix(t, s, i, len, n - 1);
    }
  }

  /** What the accumulation loop computes at sample i is the convolution. */
  lemma DotWindow(t: seq<int>, s: seq<int>, i: nat, n: nat)
    requires i < |s| && |t| == n
    ensures Dot(t, Window(s, i, n), n) == Conv(t, s, i)
  {
    DotWindowPrefix(t, s, i, n, n);
  }

  /** Once the window is full (i >= |t| - 1) every tap is used.  This only
      unfolds the Min in Conv; it is kept as the steady-state reading. */
  lemma {:induction false} SteadyState(t: seq<int>, s: seq<int>, i: nat)
    requires i < |s| && |t| <= i + 1
    ensures Conv(t, s, i) == ConvTerms(t, s, i, |t|)
  {
  }

  /** With a single unit tap at delay d, the first m convolution terms pick
      out s[i - d] when d is among them, and are zero otherwise. */
  lemma {:induction false} ImpulseTerms(n: nat, d: nat, s: seq<int>, i: nat, m: nat)
    requires m <= n && m <= i + 1 && i < |s|
    ensures ConvTerms(Impulse(n, d), s, i, m) == if d < m then s[i - d] else 0
  {
    if m > 0 {
      ImpulseTerms(n, d, s, i, m - 1);
    }
  }

  /** The impulse response: taps with a single 1 at slot d delay the signal
      by d samples, with zeros during ramp-up. */
  lemma ImpulseResponse(n: nat, d: nat, s: seq<int>)
    ensures |FirSpec(Impulse(n, d), s)| == |s|
    ensures forall i :: 0 <= i < |s| ==>
      FirSpec(Impulse(n, d), s)[i] == if d <= i && d < n then s[i - d] else 0
  {
    forall i | 0 <= i < |s|
      ensures FirSpec(Impulse(n, d), s)[i] == if d <= i && d < n then s[i - d] else 0
    {
      ImpulseTerms(n, d, s, i, Min(i + 1, n));
    }
  }

  /** The identity filter: taps [1, 0, ..., 0] reproduce the input exactly. */
  lemma IdentityFilter(s: seq<int>)
    requires |s| > 0
    ensures FirSpec(Impulse(|s|, 0), s) == s
  {
    ImpulseResponse(|s|, 0, s);
  }

  /** The pure delay: taps [0, 1, 0, ..., 0] output 0 and then the input
      delayed by one sample. */
  lemma PureDelay(s: seq<int>)
    requires |s| >= 2
    ensures FirSpec(Impulse(|s|, 1), s) == [0] + s[..|s| - 1]
  {
    ImpulseResponse(|s|, 1, s);
  }

  /** The three-tap running sum: taps [1, 1, 1] on [1, 2, 3] give [1, 3, 6]. */
  lemma ThreeTapRunningSum()
    ensures FirSpec([1, 1, 1], [1, 2, 3]) == [1, 3, 6]
  {
    var t, s := [1, 1, 1], [1, 2, 3];
    assert Conv(t, s, 0) == 1;
    assert Conv(t, s, 1) == ConvTerms(t, s, 1, 2) == 3;
    assert Conv(t, s, 2) == ConvTerms(t, s, 2, 3) == 6;
  }

  // ---------------------------------------------------------------------------
  // Bounds on the 32-bit accumulator
  // ---------------------------------------------------------------------------

  const INT32_MIN: int := -0x8000_0000
  const INT32_MAX: int := 0x7fff_ffff

  ghost predicate Bounded(s: seq<int>, b: int)
  {
    forall k :: 0 <= k < |s| ==> -b <= s[k] <= b
  }

  lemma MulNonneg(x: int, y: int)
    requires 0 <= x && 0 <= y
    ensures 0 <= x * y
  {
  }

  lemma MulBound(x: int, y: int, mx: int, my: int)
    requires -mx <= x <= mx && -my <= y <= my
    ensures -(mx * my) <= x * y <= mx * my
  {
    var ax := if x < 0 then -x else x;
    var ay := if y < 0 then -y else y;
    MulNonneg(mx - ax, ay);
    MulNonneg(mx, my - ay);
    MulNonneg(ax, ay);
    assert (mx - ax) * ay == mx * ay - ax * ay;
    assert mx * (my - ay) == mx * my - mx * ay;
    assert x * y == ax * ay || x * y == -(ax * ay) by {
      if x < 0 && y < 0 {
        assert x * y == (-ax) * (-ay) == ax * ay;
      } else if x < 0 {
        assert x * y == (-ax) * ay == -(ax * ay);
      } else if y < 0 {
        assert x * y == ax * (-ay) == -(ax * ay);
      }
    }
  }

  lemma {:induction false} DotBound(t: seq<int>, b: seq<int>, n: nat, bt: int, bb: int)
    requires n <= |t| && n <= |b| && 0 <= bt && 0 <= bb
    requires Bounded(t, bt) && Bounded(b, bb)
    ensures -(n * (bt * bb)) <= Dot(t, b, n) <= n * (bt * bb)
  {
    if n > 0 {
      DotBound(t, b, n - 1, bt, bb);
      MulBound(t[n - 1], b[n - 1], bt, bb);
      assert n * (bt * bb) == (n - 1) * (bt * bb) + bt * bb;
    }
  }

  lemma ScaleMono(j: int, n: int, p: int)
    requires 0 <= j <= n && 0 <= p
    ensures j * p <= n * p
  {
    assert (n - j) * p >= 0;
  }

  /** The bound for one sample i and one loop index j. */
  lemma AccumulatorStepFits(t: seq<int>, s: seq<int>, bt: int, bs: int, i: nat, j: nat)
    requires 0 < |t| == |s| && 0 <= bt && 0 <= bs
    requires Bounded(t, bt) && Bounded(s, bs)
    requires |t| * (bt * bs) <= INT32_MAX
    requires i < |s| && j <= |t|
    ensures INT32_MIN <= Dot(t, Window(s, i, |t|), j) <= INT32_MAX
    ensures j < |t| ==> INT32_MIN <= t[j] * Window(s, i, |t|)[j] <= INT32_MAX
  {
    MulNonneg(bt, bs);
    var n, p, w := |t|, bt * bs, Window(s, i, |t|);
    assert Bounded(w, bs);
    DotBound(t, w, j, bt, bs);
    ScaleMono(j, n, p);
    if j < n {
      MulBound(t[j], w[j], bt, bs);
      ScaleMono(1, n, p);
    }
  }

  /** If every tap lies in [-bt, bt], every sample in [-bs, bs], and
      N * bt * bs fits in a 32-bit int, then no product and no partial sum the
      accumulation loop forms at any sample leaves the 32-bit range. */
  lemma AccumulatorFitsInt32(t: seq<int>, s: seq<int>, bt: int, bs: int)
    requires 0 < |t| == |s| && 0 <= bt && 0 <= bs
    requires Bounded(t, bt) && Bounded(s, bs)
    requires |t| * (bt * bs) <= INT32_MAX
    ensures forall i, j :: 0 <= i < |s| && 0 <= j < |t| ==>
      INT32_MIN <= t[j] * Window(s, i, |t|)[j] <= INT32_MAX
    ensures forall i, j :: 0 <= i < |s| && 0 <= j <= |t| ==>
      INT32_MIN <= Dot(t, Window(s, i, |t|), j) <= INT32_MAX
  {
    forall i, j | 0 <= i < |s| && 0 <= j < |t|
      ensures INT32_MIN <= t[j] * Window(s, i, |t|)[j] <= INT32_MAX
    {
      AccumulatorStepFits(t, s, bt, bs, i, j);
    }
    forall i, j | 0 <= i < |s| && 0 <= j <= |t|
      ensures INT32_MIN <= Dot(t, Window(s, i, |t|), j) <= INT32_MAX
    {
      AccumulatorStepFits(t, s, bt, bs, i, j);
    }
  }

  // ---------------------------------------------------------------------------
  // Clients
  // ---------------------------------------------------------------------------

  /** Two consecutive runs give identical outputs: each run starts from the
      zeroed state, so no filter state carries over between calls. */
  method RunTwice(e: FirEngine) returns (first: seq<int>, second: seq<int>)
    requires e.Valid()
    modifies e.inputbuffer, e.outputsignal
    ensures first == second == FirSpec(e.taps[..], e.inputsignal[..])
  {
    var out := e.Fir();
    first := out[..];
    out := e.Fir();
    second := out[..];
  }

  /** The engine with N = 3, taps [1, 1, 1] and input [1, 2, 3] emits the
      running sums [1, 3, 6]. */
  method ThreeTapScenario() returns (output: seq<int>)
    ensures output == [1, 3, 6]
  {
    var taps := new int[3];
    taps[0], taps[1], taps[2] := 1, 1, 1;
    var signal := new int[3];
    signal[0], signal[1], signal[2] := 1, 2, 3;
    assert taps[..] == [1, 1, 1] && signal[..] == [1, 2, 3];
    var engine := new FirEngine(taps, signal);
    var out := engine.Fir();
    ThreeTapRunningSum();
    output := out[..];
  }
}
