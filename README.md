# Electronics calculator toolkit: a Dafny model of its calculators

The toolkit is a menu-driven C program with six calculators for basic
electronics (`funcs.c`). Each one prompts for its inputs, checks them,
computes a result, and prints the result or an error. This project models
the checking and computing of each calculator. The values the user types in
become parameters. The printed result or error message becomes a returned
`Result` (`outcomes.dfy`).

- `resistor_decoder.dfy`: the colour-code decoder. Three codes in 0..9
  give `(band1*10 + band2) * 10^multiplier` ohms. The resistance is shown in
  M, k or plain ohms.
- `circuit_analyser.dfy`: Ohm's law. Selection 1 gives a voltage, 2 a
  current, 3 a resistance. Selections 2 and 3 refuse a zero divisor, and any
  other selection is refused.
- `signal_statistics.dfy`: reads 1..100 samples into a 100-slot buffer
  and accumulates their sum and sum of squares. It reports the mean and the
  mean square; the RMS value is the square root of the mean square.
- `rc_filter.dfy`: the RC low-pass cut-off `1 / (2 pi R C)`. It refuses
  a component value that is zero or negative.
- `parallel_resistors.dfy`: reads n > 1 resistances into a fresh array,
  then adds their reciprocals. It stops at the first value that is not
  positive and reports that resistor's 1-based number.
- `waveform.dfy`: the row schedule of the sine-wave CSV export. At 1000
  samples per second it writes `max(0, (int)(duration*1000))` rows, row i
  at time i/1000.
- `series.dfy`: the left-to-right running sums these loops build. It also
  proves their algebra: appending, bounds, repeated values and reordering.

Floating-point quantities are modelled as mathematical `real` numbers.
The model abstracts away rounding, overflow, infinities and NaN; the
properties proved hold for that idealised arithmetic.

Facts about the code that the model keeps:
- Statistics refuses a sample count of 0 or less, or above 100, with an
  error (funcs.c:138).
- An invalid parallel resistance is reported by its 1-based number, as
  printed (funcs.c:218). Entering `-5, 10` is refused at resistor 1.
- The RC cut-off uses the literal `3.14159265` for pi (funcs.c:179).
- The waveform row count truncates toward zero, as the C cast does
  (funcs.c:246). For non-negative durations this equals the floor.

## Model

| member | source | states |
|---|---|---|
| ResistorDecoder.Pow10 | funcs.c:74 | the power of ten used as the multiplier is at least 1, and a multiple of 10 for a positive exponent |
| ResistorDecoder.Pow10Monotone | funcs.c:74 | a larger multiplier code never gives a smaller power of ten |
| ResistorDecoder.Decode | funcs.c:67-74 | it fails exactly when some code is outside 0..9 (reporting the invalid-code error); otherwise the resistance is a whole number of ohms no larger than 99 * 10^9 |
| ResistorDecoder.DecodeSignificantDigits | funcs.c:73-74 | the decoded resistance divides evenly by 10^multiplier, and the quotient's two decimal digits are band 1 and band 2 (the codes can be read back) |
| ResistorDecoder.OhmsPer | funcs.c:77-83 | each display unit stands for at least one ohm |
| ResistorDecoder.Present | funcs.c:76-83 | exactly one unit is chosen: M for at least 1,000,000, k for 1000 up to 1,000,000, plain ohms below 1000; the magnitude times the unit is the resistance; k and M magnitudes are at least 1, and k and plain magnitudes are below 1000 |
| ResistorDecoder.ResistorDecoder | funcs.c:58-84 | the whole decoder fails exactly on an out-of-range code; otherwise what it shows, scaled back by its unit, is (band1*10 + band2) * 10^multiplier ohms |
| ResistorDecoder.BrownBlackRed | funcs.c:73-83 | codes 1, 0, 2 decode to 1000 ohms, shown as 1 k ohm |
| ResistorDecoder.LargestCode | funcs.c:73-78 | codes 9, 9, 9 decode to the maximum 99 * 10^9 ohms, shown in M ohms |
| CircuitAnalyser.Analyse | funcs.c:96-127 | selection 1 always succeeds and the result satisfies V = I * R; selection 2 succeeds iff R is not 0, with V = I * R for the result current, and reports zero resistance otherwise; selection 3 succeeds iff I is not 0, with V = I * R for the result resistance, and reports zero current otherwise; any other selection is an invalid selection |
| CircuitAnalyser.AnalyseUnique | funcs.c:96-123 | a successful result is the only value Ohm's law allows for the missing quantity |
| CircuitAnalyser.SelectionsAgree | funcs.c:96-123 | the voltage from selection 1 fed to selection 2 gives back the current, and fed to selection 3 gives back the resistance |
| CircuitAnalyser.FourVoltsTwoOhms | funcs.c:102-112 | 4 V across 2 ohms gives 2 A |
| RcFilter.CutOff | funcs.c:167-183 | it fails exactly when R or C is zero or negative; otherwise the cut-off is positive and fc * 2 pi R C = 1 |
| RcFilter.CutOffDecreasing | funcs.c:179-180 | a strictly larger product R C gives a strictly lower cut-off |
| RcFilter.CutOffDecreasingInEach | funcs.c:179-180 | the cut-off strictly decreases in R for fixed C and in C for fixed R |
| Series.Sum | funcs.c:153 | the running total `sum += x`: 0 for no readings, and a single reading sums to itself |
| Series.SumOfSquares | funcs.c:154 | the running total `sq_sum += x * x` is never negative |
| Series.SumAppend | funcs.c:153 | the running sum over two stretches of readings is the sum of their sums |
| Series.SumOfRepeat | funcs.c:153 | adding up n copies of v gives n * v |
| Series.SumOfSquaresOfRepeat | funcs.c:154 | adding up the squares of n copies of v gives n * w, for w = v * v |
| Series.SumOfSquaresConstant | funcs.c:154 | readings that all equal v give a sum of squares of n * (v * v) |
| Series.SumBounds | funcs.c:153 | readings all in [lo, hi] sum to between n * lo and n * hi |
| Series.InvSum | funcs.c:222 | the running total `inverse_sum += 1.0 / x` over positive resistances is never negative, and is positive once at least one resistance is added |
| Series.InvSumAppend | funcs.c:222 | the sum of reciprocals over two stretches of resistances is the sum of their sums |
| Series.InvSumSnoc | funcs.c:222 | one more pass of the loop adds the next resistance's reciprocal to the running sum |
| Series.InvSumRemove | funcs.c:222 | taking one resistance out of the run removes exactly its reciprocal from the sum |
| Series.PositiveUnderPermutation | funcs.c:216-221 | reordering positive resistances keeps them all positive |
| Series.InvSumPermutation | funcs.c:216-223 | the sum of reciprocals is the same for any order of the same resistances |
| SignalStatistics.Mean | funcs.c:158 | the mean times the sample count is the sum of the samples |
| SignalStatistics.MeanSquare | funcs.c:159 | the mean square times the sample count is the sum of squares, and it is never negative, so its square root (the RMS) exists |
| SignalStatistics.SignalStatistics | funcs.c:135-158 | a count of 0 or less, or above 100, is refused before any sample is stored; otherwise the n entered samples go into the 100-slot buffer and the report is their mean and mean square |
| SignalStatistics.MeanWithinRange | funcs.c:158 | the mean lies between the smallest and the largest sample |
| SignalStatistics.ConstantSignal | funcs.c:145-159 | n copies of v have mean v and mean square v * v |
| SignalStatistics.TwoFourSix | funcs.c:153-159 | samples 2, 4, 6 have mean 4 and mean square 56/3 |
| SignalStatistics.TwoFourSixEntered | funcs.c:135-158 | entering 3 samples 2, 4, 6 reports mean 4 and mean square 56/3 |
| ParallelResistors.Total | funcs.c:226 | the combined resistance of positive resistances is positive and is the reciprocal of their sum of reciprocals |
| ParallelResistors.CalcParallelResistors | funcs.c:190-228 | a count of 1 or less is refused before allocation; otherwise it fails iff some entered value is not positive, and then reports the first such resistor by its 1-based number (all before it positive); when all are positive it returns 1 / sum of (1 / R) |
| ParallelResistors.TotalBelowEach | funcs.c:213-226 | with two or more resistors the combined resistance is below each single resistance |
| ParallelResistors.TotalOrderIndependent | funcs.c:213-226 | the combined resistance does not depend on the order the resistors are entered in |
| ParallelResistors.TwoEqual | funcs.c:213-226 | two equal resistances R combine to R/2 |
| ParallelResistors.TwoHundreds | funcs.c:213-226 | two 100 ohm resistors combine to 50 ohms |
| ParallelResistors.NegativeFirstResistor | funcs.c:216-221 | entering -5 then 10 is refused at resistor 1 with no total |
| Waveform.Truncate | funcs.c:246 | the cast truncates toward zero: for x >= 0 the result is the largest integer not above x, for x < 0 the smallest integer not below x |
| Waveform.RowCount | funcs.c:245-261 | the number of data rows is never more than duration * 1000 (none for a non-positive duration), and for a positive duration it is within one row of duration * 1000 |
| Waveform.GenerateWaveform | funcs.c:237-266 | it fails exactly when the output file cannot be created; otherwise it writes the header and exactly RowCount(duration) rows, row i at time i / 1000 |
| Waveform.TimesWithinDuration | funcs.c:261-262 | every row's time lies in [0, duration) |
| Waveform.NonPositiveDurationIsEmpty | funcs.c:246-261 | a zero or negative duration gives no data rows |
| Waveform.OneSecond | funcs.c:245-246 | one second gives exactly 1000 rows |

## Left out

- `get_float_input` and `get_int_input` (funcs.c:9-51) read stdin and retry until a number parses. They are interactive I/O. The values they return are parameters, and `readings` lists the values entered in order.
- The menu loop in main.c is interactive dispatch only.
- app.py is a GUI with foreign-library bindings and plotting.
- `run_system_test` and the `api_*` functions are declared in funcs.h. Their definitions are not part of this model, so the self-diagnostic routine is not modelled.
- NaN, infinities and overflow are not modelled. `sscanf` with `%f` (funcs.c:22) accepts "nan" and "inf". A NaN compares false with everything, so it passes the guards at funcs.c:174 and funcs.c:217. Float products and sums can overflow to infinity (funcs.c:100, funcs.c:153-154). The `real` model has none of these values.
- `RcFilter.CutOff` does not model a NaN component value, which passes the guard at funcs.c:174 and yields a NaN cut-off.
- `ParallelResistors.CalcParallelResistors` does not model a NaN resistance, which passes the check at funcs.c:217 and makes the total NaN.
- Floating-point rounding is not modelled. This covers `float` versus `double` accumulation, the rounding of `3.14159265` to a `float`, and the rounding of `duration * 1000` before the cast.
- `printf` formatting (`%.2f`, `%.0f`, `%.4f`) and the text of the messages are not modelled. Errors are datatype values.
- `SignalStatistics.SignalStatistics` does not compute the RMS square root (funcs.c:159). It reports the mean square, and the RMS is its square root.
- `Waveform.GenerateWaveform` does not model the sine voltage of each row (funcs.c:263), because `sin` is transcendental. It also does not model the CSV formatting of each row or the `fclose`. It returns the header and the row timestamps.
- `Waveform.Truncate` does not model a cast of a value outside the range of `int`, which is undefined behaviour in C.
- `ParallelResistors.CalcParallelResistors` does not model the allocation-failure branch (funcs.c:201-204). That branch is environment behaviour, and the array is always allocated. The `free` is implicit.
- Whether `waveform.csv` can be opened is the parameter `canCreateFile`. The file system itself is not modelled.
