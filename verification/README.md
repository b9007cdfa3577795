# NSE market analyzer: scoring, classification and report tables

This project models the computational core of `script.py`, a console report generator for the Indian equity market. The model covers:

- the **Momentum vs Manipulation Index** (`calc_mmi`). It combines foreign and domestic institutional net flows (FII, DII), a put-call-ratio proxy (PCR) and the India VIX into one score. The score is rounded to hundredths and placed in one of three bands. It is "Undefined" when VIX or PCR is zero.
- the two **fetched indicators** (`get_pcr`, `get_vix`). Each tries one fetch and falls back to a typed-in value.
- the **operator volume tracker**. It builds one record per requested symbol, in input order. Each record holds a volume spike ratio, an activity band, the last traded price and the day-over-day change.
- the **sectoral heatmap table**. It builds one record per sector of a fixed eight-entry table, in table order.

Numbers are exact Dafny `real`s. Python's `round(x, 2)` is `Rounding.Round2`: the nearest hundredth, with an exact tie going to the even neighbour. That is what CPython does on the exact value of its float argument.

Every network fetch is a parameter of type `Option<...>`. `None` stands for a fetch that raised. Every console prompt is a parameter holding the number the user would type. The tracker and the heatmap take one fetch result and one manual entry per position (`fetched[i]`, `manual[i]`). So a symbol that is requested twice may get two different fetch results, as it can in the script.

The tracker's `fetched[i]` stands for the history of ticker `VolumeTracker.Ticker(symbols[i])`, the symbol with the `.NS` suffix. The heatmap's `fetched[i]` stands for the history of ticker `Sectors[i].1`.

Files:

- `wrappers.dfy`: `Option`
- `rounding.dfy`: `Round2` and its laws
- `series.dfy`: mean, latest-over-mean ratio and percent change of a history
- `mmi.dfy`: the score engine
- `indicators.dfy`: PCR and VIX
- `volume_tracker.dfy`: the tracker
- `sector_heatmap.dfy`: the sector table

The score's divisor is written in the code as `abs(fii - dii + 1)`, so the `+ 1` is inside the absolute value. The model follows the code. A `+ 1` beside a divisor is there to keep the divisor away from zero, but as written it only moves the zero from fii = dii to fii - dii = -1. Only `abs(fii - dii) + 1`, which is at least 1, keeps every divisor non-zero. This is logged under Findings.

## Model

| member | source | states |
|---|---|---|
| Rounding.Round2 | script.py:62 | `round(x, 2)` gives a whole number of hundredths that is within half a hundredth of `x` |
| Rounding.Round2Monotone | script.py:62 | rounding to hundredths never reverses the order of two values |
| Rounding.Round2Fixes | script.py:62 | a value that is already in hundredths is unchanged by rounding |
| Rounding.Round2Idempotent | script.py:62 | rounding twice gives the same result as rounding once |
| Series.Mean | script.py:76 | the mean of a non-empty history: its sum over its length, as pandas' `.mean()` (also script.py:36) |
| Series.Last | script.py:77 | the most recent value, `iloc[-1]` (also script.py:36, 48, 79) |
| Series.Prior | script.py:80 | the value before the most recent one, `iloc[-2]` (also script.py:125); needs at least two values |
| Series.MeanBounds | script.py:36 | the mean of a history lies within any bounds that hold for all of its values |
| Series.LastOverMean | script.py:76-78 | the ratio times the mean gives back the latest value, so the ratio is the inverse of scaling by the mean |
| Series.FlatRatioIsOne | script.py:76-78 | in a flat history the mean equals the common value, and the latest-over-mean ratio is exactly 1 |
| Series.PeakRatioAtLeastOne | script.py:76-78 | when the latest value is the highest in a positive history, the mean is positive and the ratio is at least 1 |
| Series.PercentChange | script.py:80 | the prior value times (1 + change/100) gives back the latest value |
| Series.PercentChangeSign | script.py:125 | from a positive prior close, the change is positive, zero or negative exactly when the close rose, stayed the same or fell |
| Mmi.RawScore | script.py:61 | the unrounded score `((fii + dii) / abs(fii - dii + 1)) * (1 / (vix / 15)) * (1 / pcr)`, defined only where none of its divisors is zero |
| Mmi.Status.Text | script.py:63 | the status labels the script returns: "Momentum Driven 🟢", "Balanced ⚪", "Manipulation Risk 🔴" and, from the zero guard at script.py:60, "Undefined" |
| Mmi.Classify | script.py:63 | the bands split every score with no overlap: above 1.5 is Momentum Driven; 1 to 1.5 inclusive is Balanced; below 1 is Manipulation Risk; never Undefined |
| Mmi.ClassifyMonotone | script.py:63 | a higher score is never placed in a lower band |
| Mmi.CalcMmi | script.py:57-65 | the status is Undefined, with score 0, exactly when VIX or PCR is zero, whatever FII and DII are. Otherwise the score is a whole number of hundredths within half a hundredth of the raw formula, and the status is the band of that rounded score. The precondition excludes only a zero divisor `abs(fii - dii + 1)`, where the script raises |
| Mmi.RawScoreClosedForm | script.py:61 | the formula equals 15(fii + dii) / (\|fii - dii + 1\| · vix · pcr); `1/(vix/15)` is `15/vix` |
| Mmi.StatusOfRawScore | script.py:61-63 | a raw score above 1.505, between 1.005 and 1.495, or below 0.995 gets its band whatever the rounding does |
| Mmi.StatusMonotoneInRawScore | script.py:61-63 | across two computable indicator sets, a higher raw score never gives a lower band |
| Mmi.NetOutflowIsManipulationRisk | script.py:61-63 | with positive VIX and PCR, a combined net outflow (fii + dii <= 0) always gives Manipulation Risk |
| Mmi.StrongInflowScenario | script.py:57-65 | FII 1000, DII 800, PCR 0.9, VIX 12 gives Momentum Driven |
| Mmi.MixedFlowScenario | script.py:57-65 | FII 500, DII -200, PCR 1.05, VIX 14.6 gives Manipulation Risk |
| Mmi.UnitGapDividesByZero | script.py:61 | FII 0, DII 1, PCR 1, VIX 15 pass the zero guard, but the divisor as written is zero there; the corrected index at that input is Manipulation Risk |
| Mmi.CorrectedCalcMmi | script.py:57-65 | with divisor \|fii - dii\| + 1 the score is defined for every input, and it has the same zero guard, rounding and banding as `calc_mmi` |
| Mmi.CorrectedAgreesWhenFiiAtLeastDii | script.py:61 | when FII >= DII, the divisor as written is never zero, and the corrected index equals the one the script computes |
| Indicators.PcrComputable | script.py:36 | the point where `get_pcr`'s `try` succeeds: at least one close and a non-zero mean; anything else goes to the prompt |
| Indicators.GetPcr | script.py:32-40 | if the fetched closes are non-empty with a non-zero mean, the PCR is the latest-over-mean ratio rounded to hundredths; otherwise it is the typed-in value |
| Indicators.PeakPcrAtLeastOne | script.py:36 | when the latest close is the highest of a positive window, the fetched PCR proxy is at least 1.00 |
| Indicators.GetVix | script.py:45-52 | if the fetched closes are non-empty, VIX is the latest close rounded to hundredths; otherwise it is the typed-in value |
| VolumeTracker.Ticker | script.py:75 | the ticker fetched for a requested symbol: the symbol followed by `.NS` |
| VolumeTracker.Activity.Text | script.py:81 | the activity labels stored in the record: "🟢 Normal", "🟠 Operator Activity", "🔴 Heavy Operator Control" (the same three at script.py:94) |
| VolumeTracker.Usable | script.py:76-80 | the point where the tracker's `try` succeeds: at least two days and non-zero divisors (mean volume, prior close); anything else goes to `except` |
| VolumeTracker.ClassifyActivity | script.py:81 | the bands split every ratio with no overlap: below 2 is Normal; 2 up to but not including 4 is Operator Activity; 4 and above is Heavy Operator Control |
| VolumeTracker.ActivityMonotone | script.py:94 | a larger volume ratio never gives a lower activity band |
| VolumeTracker.Scan | script.py:74-88 | the fetched path yields a record exactly when the history has at least two days and non-zero divisors. The record keeps the symbol. Its ratio is latest-over-mean volume rounded to hundredths. Its activity is the band of that ratio. Its LTP is the rounded last close. Its change is the rounded percent change of the close |
| VolumeTracker.ManualRecord | script.py:89-101 | the fallback record keeps the symbol and the three typed-in values, and classifies the typed-in ratio by the same rule |
| VolumeTracker.OperatorVolumeTracker | script.py:70-104 | exactly one record per requested symbol, in input order, duplicates included. Record i has symbol i and the activity band of its own ratio. Record i is the fetched record for position i, or else the manual record for position i, so one failed fetch neither drops nor reorders the others |
| SectorHeatmap.Sectors | script.py:111-120 | the eight sector names and their index tickers, in the dict's insertion order |
| SectorHeatmap.SectorChange | script.py:123-126 | the fetched path yields a change exactly when there are at least two closes and the prior close is non-zero; the change is the percent change rounded to hundredths |
| SectorHeatmap.SectoralHeatmap | script.py:109-130 | exactly 8 records, whether or not each fetch succeeds. Record i names the i-th sector of the fixed table, and its change is the fetched change or else the typed-in value |
| SectorHeatmap.SectorNamesDistinct | script.py:111-120 | the eight sector names are distinct, so the table indexed by sector has one row per sector |

## Left out

- Network fetches (script.py:34-35, 47, 75, 124) are parameters of type `Option`. The ticker strings they would use are modelled as `Indicators.PcrTicker` (`^NSEI`, get_pcr's default `symbol`, script.py:32, 157), `Indicators.VixTicker` (`^INDIAVIX`, script.py:47), `VolumeTracker.Ticker` and the `SectorHeatmap.Sectors` table.
- Console prompts (script.py:24-25, 40, 52, 91-93, 128, 162) are parameters. A non-numeric entry raises in `float(...)` and ends the run; the model does not cover this.
- `get_fii_dii` (script.py:22-27) only prompts, so FII and DII are plain inputs.
- The parsing of the symbol line (script.py:162: upper-casing and splitting at commas) is not modelled. The tracker takes the resulting list.
- Printing, the charts (`visualize_sentiment`, the heatmap drawing, the global plot style), the pandas `DataFrame` wrapping, the Excel workbook, the `datetime.now()` timestamp and the `__main__` driver are all I/O and are not modelled. Records are `seq`s of datatypes.
- Floating point is not modelled. Arithmetic is exact over `real`. Float division and pandas' mean carry rounding error of the order of 1e-16. numpy's `round` multiplies by 100 first. Either can move a value that sits within that error of a half-hundredth to the other neighbour. The band edges 1, 1.5, 2 and 4 are exact floats, so the banding of a given rounded value is unaffected.
- Zero divisors inside a fetch: a zero mean volume, a zero prior close or a zero mean close. With numpy scalars these give `inf` or `NaN`, and no exception. The script would then store that value (a `NaN` ratio is banded Heavy Operator Control). `real` has neither value, so the model sends these histories to the manual fallback.
- pandas skips `NaN` entries when it takes a mean. The model's histories contain no `NaN`.
- Mmi.CalcMmi: an input whose divisor `abs(fii - dii + 1)` is zero is excluded by the precondition. The script raises an uncaught `ZeroDivisionError` there; see Findings.
- Rounding.Round2: its contract states "a whole number of hundredths within half a hundredth". The tie-to-even rule is stated only in its body (`RoundHalfEven`).

## Findings

| source | as written | input that shows it | evidently intended | confidence | as-written member | corrected member |
|---|---|---|---|---|---|---|
| script.py:61 | the divisor is `abs(fii - dii + 1)`, which is zero when fii - dii = -1 | fii 0, dii 1, pcr 1, vix 15 passes the zero guard, then raises `ZeroDivisionError`; the corrected score there is 0.5, Manipulation Risk | `abs(fii - dii) + 1`, which is at least 1, so the `+ 1` does keep the divisor away from zero and the zero guard is the only non-computable case | medium, not executed | Mmi.UnitGapDividesByZero | Mmi.CorrectedCalcMmi |
