# sc.util.apen in Dafny

A model of the core of `sc.util.apen`, a Max/MSP object that estimates the
Approximate Entropy (ApEn) of a stream of numbers. The object keeps a bounded
history of samples (`test_value`, `series_length`, `series_max_length`), a
configuration (pattern length m, similarity radius r, the
`calculate_on_input` and `size_warning` flags, the vector size) changed by
validated attribute setters, and a `calculate` routine that compares windows
of the history at lengths m and m + 1.

Modules:

- `History` (history.dfy): the retained samples as a sequence; `Push` is one
  sample arriving (append below capacity, shift left and append at capacity).
- `Settings` (settings.dfy): Max atoms as setters read them (a float
  truncated toward zero, a symbol refused) and the setters' acceptance rules.
- `Entropy` (entropy.dfy): `maxdist` and the counting passes of `calculate`
  as methods with loops, and the functions that state what they compute.
- `ApEnObject` (apen.dfy): the object as a class over an `array<real>`, with
  the sample handlers, `clear`, the setters and `calculate`.
- `AsWritten` (as_written.dfy): the capacity setter exactly as the C code
  has it, for the finding below.

The class invariant `Valid()` says that the buffer has `series_max_length`
slots, holds at most that many samples, that `2 <= m` and `2m + 2 <=
series_max_length`, that r > 0 and that both flags are 0 or 1. It holds for
the defaults (m = 3, capacity 50, r = 1.0) and every handler keeps it; the
pattern-length and capacity guards are the same inequality seen from two
sides (`GuardsAgree`).

`maxdist(d0, d1, l, r)` reads only the window at `d0`: it returns the
largest gap between two samples of that one window (stopping once the gap
exceeds r) and never reads `d1`. The model follows the code. Hence the
comparison of window i with window j does not depend on j, each per-window
ratio is 0 or 1 (`RowCountAllOrNothing`), and each average is the fraction
of windows whose samples all lie within r of one another (`AverageRatio`).
A consequence proved in `NoMatchGivesZeroArgument`: when no window of length
m is that flat, the argument passed to `log` is 0 despite the 1e-7 floor.

The logarithm itself is not modelled: a calculation yields the two averages
and the argument of `log`. Samples and the radius are `real`.

The capacity must exceed 2m + 1 (sc.util.apen.c:599), and shrinking the
capacity keeps the oldest samples, a prefix (sc.util.apen.c:610-616).

## Model

| member | source | states |
|---|---|---|
| `Settings.Truncate` | sc.util.apen.c:590 | a float argument becomes the integer next to it toward zero |
| `Settings.ReadLong` | sc.util.apen.c:585-596 | a long atom is read as it is, a float atom truncated toward zero, a symbol refused |
| `Settings.Clamp01` | sc.util.apen.c:752-754 | the stored flag is 0 or 1, and 1 exactly when the argument is at least 1 |
| `Settings.PatternLengthAccepted` | sc.util.apen.c:692 | the guard `p <= max/2 - 1 && p > 1` holds exactly when 1 < p and 2p + 2 <= max |
| `Settings.GuardsAgree` | sc.util.apen.c:599 | for m >= 2, a capacity the `series_length` guard accepts is one under which the `pattern_length` guard (line 692) accepts m, and conversely for a capacity different from the current one |
| `History.Push` | sc.util.apen.c:350-364 | after one sample the length is min(old length + 1, capacity) and the newest sample is last |
| `History.Feed` | sc.util.apen.c:350-364 | a run of samples never leaves more than capacity samples |
| `History.PushKeepsNewest` | sc.util.apen.c:350-364 | one sample keeps the newest `capacity` of the old contents plus the sample |
| `History.FeedKeepsNewest` | sc.util.apen.c:350-364 | any run of samples leaves the newest `capacity` of old contents followed by the run |
| `History.AppendsFromEmpty` | sc.util.apen.c:350-364 | after N samples from empty the buffer holds the last min(N, capacity) inputs in arrival order |
| `Entropy.RowCount` | sc.util.apen.c:889-891 | the count over offsets j < k never exceeds k |
| `Entropy.FlatCount` | sc.util.apen.c:886-895 | the number of matching windows before k never exceeds k |
| `Entropy.FlatFraction` | sc.util.apen.c:883-896 | the average ratio at one window length lies in [0, 1] |
| `Entropy.LogArgument` | sc.util.apen.c:913 | non-negative averages give a non-negative argument; equal positive averages give 1 (ApEn 0); a zero first average gives 0 despite the floor; a positive first average over a non-positive second one is enlarged by the 1e-7 floor |
| `Entropy.Estimate` | sc.util.apen.c:873-916 | insufficient data (need 2m, have L) exactly when L < 2m; otherwise both averages lie in [0, 1] and the log argument is non-negative |
| `Entropy.RowCountAllOrNothing` | sc.util.apen.c:889-893 | window i counts every offset j or none, so every per-window ratio is 1 or 0 |
| `Entropy.RatioOfRow` | sc.util.apen.c:893 | dividing an all-or-nothing count by the number of offsets gives 1 or 0 |
| `Entropy.LongerMatchImpliesShorter` | sc.util.apen.c:919-936 | a window of length m + 1 within r has its length-m prefix within r |
| `Entropy.FlatCountShrinksWithLength` | sc.util.apen.c:883-911 | no more windows match at length m + 1 than at length m |
| `Entropy.ConstantSeriesMatches` | sc.util.apen.c:919-936 | in a constant series every window is within any r >= 0 |
| `Entropy.ConstantSeriesAllMatch` | sc.util.apen.c:883-896 | in a constant series the average ratio is 1 |
| `Entropy.ConstantSeriesHasZeroEntropy` | sc.util.apen.c:873-913 | a constant series of at least 2m samples with r > 0 gives averages 1 and 1 and log argument 1 (ApEn 0) |
| `Entropy.NoMatchGivesZeroArgument` | sc.util.apen.c:883-913 | when no length-m window matches, none of length m + 1 does and the log argument is 0 |
| `Entropy.ZeroLongMatchesGivePositiveEntropy` | sc.util.apen.c:913 | some length-m matches and no length-(m + 1) matches give a log argument above 1, so a positive ApEn, for buffers under 10^7 samples |
| `Entropy.MaxDist` | sc.util.apen.c:919-936 | the result is >= 0; it is <= r exactly when every pair a < b of the first window is within r; it is then the largest gap, otherwise one of the gaps; the second window is not read |
| `Entropy.CountRow` | sc.util.apen.c:889-891 | the inner loop counts all n offsets when window i is within r, none otherwise |
| `Entropy.AverageRatio` | sc.util.apen.c:883-896 | the average of the per-window ratios equals the fraction of windows within r |
| `ApEnObject.ApEn.constructor` | sc.util.apen.c:821-842 | the defaults: m = 3, capacity 50, r = 1.0, both flags 1, vector size 1, empty buffer of 50 slots; the invariant holds |
| `ApEnObject.ApEn.Append` | sc.util.apen.c:287-307 | below capacity the sample lands at index `series_length` and the length grows by one, earlier samples unchanged; at capacity the contents move left by one and the sample is last; capacity unchanged |
| `ApEnObject.ApEn.ReceiveFloat` | sc.util.apen.c:346-371 | the buffer takes the sample as `Append` does; when `calculate_on_input` is 1 the result is the calculation on the new contents, otherwise nothing is calculated |
| `ApEnObject.ApEn.ReceiveInt` | sc.util.apen.c:282-344 | the same as the float handler on the sample converted to real |
| `ApEnObject.ApEn.Clear` | sc.util.apen.c:569-572 | the length becomes 0; capacity, configuration and buffer stay |
| `ApEnObject.ClearTwice` | sc.util.apen.c:551-577 | clearing twice leaves the same state as clearing once |
| `ApEnObject.ApEn.SetSeriesLength` | sc.util.apen.c:580-623 | a capacity above 2m + 1 and different from the current one is taken, the length becomes min(old length, new capacity) and the oldest samples are kept; any other value, a symbol or no argument changes nothing; the configuration never changes |
| `ApEnObject.ApEn.SetPatternLength` | sc.util.apen.c:675-700 | p is taken exactly when 1 < p <= capacity/2 - 1; otherwise m stays and the error names the upper bound or the lower one; the invariant 2m + 2 <= capacity is kept |
| `ApEnObject.ApEn.SetSimilarity` | sc.util.apen.c:712-722 | r takes the argument exactly when it is positive |
| `ApEnObject.ApEn.SetCalcOnInput` | sc.util.apen.c:735-756 | the flag takes the argument clamped into {0, 1}; a symbol changes nothing |
| `ApEnObject.ApEn.SetSizeWarning` | sc.util.apen.c:780-801 | the flag takes the argument clamped into {0, 1}; a symbol changes nothing |
| `ApEnObject.ApEn.SetVectorSize` | sc.util.apen.c:635-663 | the vector size is 1 afterwards whatever the argument; a non-positive value is reported |
| `ApEnObject.ApEn.Calculate` | sc.util.apen.c:873-917 | below 2m samples only the insufficient-data report (with whether it is printed); otherwise the averages at m and m + 1 are the fractions of flat windows and the log argument follows; every window read is inside the buffer, both divisors are positive, and the object does not change |
| `AsWritten.GrowingCapacityOverrunsAllocation` | sc.util.apen.c:599-621 | for every full object whose allocation matches its capacity, accepting a larger capacity keeps the allocation's size and puts the next sample one past its end |

## Left out

- Host glue: class registration, `assist`, `notify`, the attribute getters, `getstate`, `bang` (which only calls `calculate`) and `dump` (which formats the buffer for an outlet and passes one atom too few, so the last sample is dropped).
- Outlets: a calculation returns its outcome instead of sending it; the warning text is reduced to a flag saying whether it is printed.
- The logarithm: the model stops at its argument. Double rounding is not modelled: samples, averages and r are `real`, `fabs` is `Abs`.
- Critical sections (`critical_enter`/`critical_exit`/`critical_tryenter`) and the unused mutex: every handler is atomic.
- Integer width: setter arguments are unbounded integers; the 64-bit range of `long` and the undefined conversion of an out-of-range double are not modelled.
- Creation arguments: `attr_args_process` applies them through the same setters after the defaults; the constructor models the defaults only.
- Memory management: allocation, the per-element frees of `sc_util_apen_free`, and the copy of uninitialised memory in `clear`; after a clear the old values simply stay in the array beyond the length.
- The unused multi-dimensional code: `anything` (only warns), `create_apen_series`, `add_apen_series`, `sc_util_apen_realloc_data`, the `series` field and `t_apen_series`.
- Entropy.MaxDist: when the result exceeds r the contract says only that it is one of the window's gaps, not which one; the callers only compare it with r.

## Findings

| source | as written | input that shows it | evidently intended | confidence | as-written member | corrected member |
|---|---|---|---|---|---|---|
| sc.util.apen.c:602-616 | the new buffer is allocated and filled but never stored in `test_value`, while `series_max_length` takes the new value | any full object, e.g. a new one (50 slots) holding 50 samples, `series_length` set to 60, then one more sample: it is written at index 50 of the 50-slot allocation | `test_value` replaced by the new buffer, holding the copied prefix | high, not executed | `AsWritten.GrowingCapacityOverrunsAllocation` | `ApEnObject.ApEn.SetSeriesLength` |
