# FIR filter engine — Dafny model

This project models the fixed-length FIR (finite impulse response) filter in
`fir.c`. The engine keeps four process-wide integer arrays of length `N`:

- the tap coefficients `taps`, read only;
- the input signal `inputsignal`, read only;
- the sliding input buffer `inputbuffer`, most recent sample first;
- the output signal `outputsignal`.

`initfir` zeroes the two working arrays. `fir` calls `initfir` and then handles
each sample `i` in four steps:

1. it shifts the buffer one slot toward the tail;
2. it writes `inputsignal[i]` into slot 0;
3. it forms the dot product of the taps with the buffer;
4. it stores that value in `outputsignal[i]`.

Finally it returns a pointer to `outputsignal`.

The model is the class `Fir.FirEngine` in `fir.dfy`. Its `const` array fields
stand for the global arrays, whose addresses never change. `Valid()` says that
all four arrays have length `N > 0` and that the two working arrays are
separate from each other and from the inputs. `InitFir` and `Fir` update the
arrays in place with the loops of `fir.c`. The body of the outer sample loop
(fir.c:15-26) is the method `ProcessSample`, which `Fir` calls once per sample.
Inside it, the shift loop (fir.c:16-18) and the accumulation loop
(fir.c:22-25) are the methods `Shift` and `Accumulate`, called at the same
points as in `fir`.

The specification is a set of ghost functions:

- `Dot`: the prefix dot product, summed in the order the loop adds its terms.
- `Window(s, i, N)`: the buffer after sample `i`. Slot `k` holds `s[i-k]` when `k <= i` and 0 otherwise.
- `Conv(t, s, i)`: the closed-form causal convolution `Σ_{k=0}^{min(i,N-1)} t[k]*s[i-k]`.
- `FirSpec(t, s)`: the whole expected output.

`Fir`'s postcondition fixes the output as `FirSpec(taps, inputsignal)`. That
value depends only on the two inputs, so what the buffers held before the call
does not matter. The lemmas connect the loop-level view (`Shifted`, `Dot` over
the window) with the closed form, and derive the impulse, identity, delay and
three-tap cases from it.

Arithmetic is on mathematical integers. Signed overflow in C is undefined
behaviour, not wrap-around.
`AccumulatorFitsInt32` states sufficient magnitude bounds under which no product
or partial sum leaves the 32-bit range, so that mathematical and machine
arithmetic agree.

`N` and the tap values are defined in `fir.h`, and `fir.h` is not part of this
model. `N` is a field fixed by the constructor. The taps and the signal are
arrays that the caller supplies.

## Model

| member | source | states |
|---|---|---|
| Fir.Dot | fir.c:22-25 | the sum of t[j]*b[j] over the first n slots, added in increasing j as the accumulation loop adds them; the reference for Accumulate |
| Fir.Conv | fir.c:14-26 | the closed-form causal convolution Σ_{k=0}^{min(i,N-1)} t[k]*s[i-k] with zero initial state; FirSpec collects it per sample; the reference for Fir |
| Fir.FirEngine.constructor | fir.c:1 | binds the caller's taps and signal; allocates fresh working buffers of the same length N > 0; establishes Valid() |
| Fir.FirEngine.InitFir | fir.c:3-9 | afterwards every slot of inputbuffer and outputsignal is 0, whatever they held before |
| Fir.FirEngine.Shift | fir.c:16-18 | slot j takes the old value of slot j-1 for 1 <= j < N; slot 0 keeps its value; the old last value is dropped |
| Fir.FirEngine.Accumulate | fir.c:22-25 | the returned accumulator equals Σ_{j<N} taps[j]*inputbuffer[j] (loop invariant: the prefix sum up to j) |
| Fir.FirEngine.ProcessSample | fir.c:15-26 | given the buffer holding the window of samples up to i-1, afterwards it holds the window up to i, and outputsignal changes only at slot i, which becomes Conv(taps, inputsignal, i) |
| Fir.FirEngine.Fir | fir.c:11-29 | returns the outputsignal array itself; afterwards outputsignal[i] == Conv(taps, inputsignal, i) for every i, and inputbuffer holds the last N samples most recent first; taps and inputsignal are unchanged; nothing depends on the buffers' prior contents |
| Fir.Window | fir.c:14-19 | the expected buffer after sample i: slot k holds inputsignal[i-k] for k <= i and 0 otherwise (zero-padded ramp-up) |
| Fir.Shifted | fir.c:16-18 | the shift as a function on sequences: same length, slot 0 unchanged, slot j is the old slot j-1 |
| Fir.WindowAdvance | fir.c:16-19 | shifting the window of samples up to i-1 and writing inputsignal[i] into slot 0 gives the window of samples up to i |
| Fir.DotWindowPrefix | fir.c:22-25 | the dot product of the taps with the window over its first n slots is the convolution restricted to the first min(n, i+1) taps; slots not yet reached contribute nothing |
| Fir.DotWindow | fir.c:22-26 | the value the accumulation loop emits for sample i is the causal convolution Conv(taps, inputsignal, i) |
| Fir.SteadyState | fir.c:22-26 | once i >= N-1 the convolution at i uses all N taps |
| Fir.ImpulseTerms | fir.c:22-25 | with a single unit tap at delay d, the first m convolution terms equal inputsignal[i-d] when d < m, and 0 otherwise |
| Fir.ImpulseResponse | fir.c:14-26 | taps with a single 1 at slot d output inputsignal[i-d] when d <= i, and 0 otherwise |
| Fir.IdentityFilter | fir.c:14-26 | taps [1, 0, …, 0] reproduce the input signal exactly |
| Fir.PureDelay | fir.c:14-26 | taps [0, 1, 0, …, 0] output 0 followed by the input delayed by one sample |
| Fir.ThreeTapRunningSum | fir.c:14-26 | with N = 3, taps [1, 1, 1] and input [1, 2, 3] the output is [1, 3, 6] |
| Fir.DotBound | fir.c:22-25 | with taps bounded by bt and buffer values bounded by bb, every partial sum over n terms lies within ±n·bt·bb |
| Fir.AccumulatorStepFits | fir.c:22-25 | for one sample and one loop index, under the magnitude bounds, the product and the partial sum stay within the 32-bit signed range |
| Fir.AccumulatorFitsInt32 | fir.c:22-25 | if N·bt·bs fits in a 32-bit int, then no product taps[j]*inputbuffer[j] and no partial sum of result, at any sample, leaves the 32-bit signed range |
| Fir.RunTwice | fir.c:11-12 | two consecutive calls of Fir give identical output signals, both equal to FirSpec(taps, inputsignal) |
| Fir.ThreeTapScenario | fir.c:11-29 | running the engine on taps [1, 1, 1] and input [1, 2, 3] yields [1, 3, 6] |

## Left out

- The `.mprjram` linker-section attribute on both functions (fir.c:3, 11) only places code and data in memory. It has no behaviour to model.
- Fixed-width overflow: the model computes on mathematical integers. Signed overflow in C is undefined behaviour. `AccumulatorFitsInt32` gives sufficient magnitude bounds, not necessary ones. Wherever no product or partial sum leaves the 32-bit range, the model's value is the C value. On inputs where one does, the behaviour of C is undefined and the model says nothing about it.
- `fir.h`, which holds `N`, the tap constants and the array declarations, is not part of this model. The taps and the signal are constructor parameters; `N` is their common length.
- The contents of the working buffers before the first `initfir` call are left arbitrary, because their definitions in `fir.h` are not part of this model. Nothing in the model depends on them.
- Concurrency and reentrancy: the engine is single-threaded by design, and the model has no concurrent callers.
