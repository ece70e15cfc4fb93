# SuperNEMO simulation validation tool — verified model of its own logic

The SuperNEMO SimulationValidationTool reads the `SimValidation` tree of a
simulation output file and of a reference file. For each branch it fills a
histogram from both files and scales the reference to the candidate's
number of entries. It then compares the two with a Kolmogorov test, a
chi-squared test and a set of tests on mean, standard deviation, maximum and
minimum, and prints a verdict for each branch.

Almost all of the numerics are delegated to ROOT. This project models the
four pieces of logic that the tool itself implements in
`SimulationValidationTool.cxx`, and proves properties about them:

- `config_tokenizer.dfy` (module `ConfigTokenizer`): `GetBitBeforeComma`.
  It takes the first comma-separated field off a histogram configuration
  string (title, bin count, low limit, high limit). The by-reference
  argument becomes a second out-parameter holding what the argument is left
  with.
- `branch_names.dfy` (module `BranchNames`): `BranchNameToEnglish`. It turns
  a branch name such as `caloHit_energy_deposit` into the label
  `Energy deposit`. The source's replace loop is kept.
- `chi_square.dfy` (module `ChiSquare`): the bin loop of `ChiSquared`. It
  runs over the regular bins of two same-shape histograms and skips every
  bin with a not-a-number value or a zero error. It counts the degrees of
  freedom and sums `(v1 - v2)^2 / (e1^2 + e2^2)`. The nested loops are
  kept.
- `verdict.dfy` (module `Verdict`): the verdict block of
  `CompareHistogram`. Under the outer test the tool prints the error lines
  of five inner tests; otherwise it prints "All Tests Passed". The model
  keeps the outer test exactly as written. It also has a corrected verdict
  beside it (see Findings).
- `std_string.dfy` (module `StdString`): the library primitives these use:
  - `find_first_of` for one character, with `npos` read back as -1 because
    it is stored into an `int`;
  - `boost::trim` over the "C"-locale whitespace set;
  - `toupper` in the "C" locale.

Modelling choices:

- Doubles are `real`.
- A bin value can be not-a-number (`ChiSquare.Float`).
- Division by zero in the verdict yields an infinity or not-a-number
  (`Verdict.Quotient`), and every comparison with not-a-number is false.
  This replaces a precondition demanding nonzero standard-deviation errors.
- Histograms are values (`seq<seq<Bin>>` in ROOT's bin numbering, with
  underflow and overflow bins at both ends). The tool only reads them
  through pointers.

## Model

| member | source | states |
|---|---|---|
| StdString.FirstIndexOf | SimulationValidationTool.cxx:286 | `find_first_of` stored into an `int`: -1 exactly when the character is absent; otherwise an index holding it with no earlier occurrence |
| StdString.IsSpace | SimulationValidationTool.cxx:288 | the characters `boost::trim` strips: space, tab, newline, vertical tab, form feed and carriage return, the "C"-locale `isspace` set (a definition) |
| StdString.Trim | SimulationValidationTool.cxx:288 | `boost::trim` leaves no whitespace at either end and never lengthens the string |
| StdString.TrimIsSlice | SimulationValidationTool.cxx:288 | the trimmed string is a contiguous slice of the input, and everything removed around it is whitespace |
| StdString.TrimIdempotent | SimulationValidationTool.cxx:288 | trimming twice is trimming once |
| StdString.ToUpper | SimulationValidationTool.cxx:352 | `toupper` maps exactly the 26 lower-case ASCII letters to their capitals and leaves every other character alone |
| ConfigTokenizer.Rest | SimulationValidationTool.cxx:286-296 | the argument is emptied when there is no comma or the comma is the first character; a non-empty argument always gets strictly shorter |
| ConfigTokenizer.RestFollowsFirstComma | SimulationValidationTool.cxx:292-296 | when the first comma is past index 0, the input is the comma-free, non-empty text before it, the comma, then the remainder left in the argument (untrimmed) |
| ConfigTokenizer.Field | SimulationValidationTool.cxx:286-297 | the returned field is the whole input trimmed (no comma, or a comma at index 0), otherwise the trimmed text before the first comma |
| ConfigTokenizer.GetBitBeforeComma | SimulationValidationTool.cxx:284-298 | the source's two branches return `Field` and leave `Rest` in the argument; a non-empty argument strictly shrinks |
| ConfigTokenizer.CommaCountAppend | SimulationValidationTool.cxx:286 | (proof helper for `SplitConsumesOneComma`) the comma count of a concatenation is the sum of the parts' counts |
| ConfigTokenizer.SplitConsumesOneComma | SimulationValidationTool.cxx:286-296 | one call either empties the argument or removes exactly one comma from it |
| ConfigTokenizer.Remaining | SimulationValidationTool.cxx:150-174 | the argument after k successive calls of the tokenizer, each call applied to what the previous one left, as the title, bin-count, low-limit and high-limit calls do (a definition; its properties are in `ConfigConsumed`) |
| ConfigTokenizer.ConfigConsumed | SimulationValidationTool.cxx:150-174 | a configuration with n commas is empty after any n + 1 successive calls, so the four calls for title, bins, low and high limits consume any configuration with at most three commas |
| ConfigTokenizer.LeadingCommaSwallowsConfig | SimulationValidationTool.cxx:286-291 | the returned field contains a comma exactly when the input starts with one; then the field is the whole trimmed configuration and nothing is left |
| BranchNames.Spaced | SimulationValidationTool.cxx:347-350 | what the replace loop leaves: same length, every underscore a space, every other character unchanged |
| BranchNames.Capitalized | SimulationValidationTool.cxx:352 | `output[0]=toupper(output[0])`: same length, first character upper-cased, the rest unchanged; an empty string stays empty |
| BranchNames.English | SimulationValidationTool.cxx:345-353 | the label: the spaced name from just after the first underscore (from index 0 when there is none, as `initpos` = -1 gives), capitalized (a definition; its properties are in the lemmas below) |
| BranchNames.BranchNameToEnglish | SimulationValidationTool.cxx:344-354 | the replace loop terminates and yields `English(name)`, which contains no underscore |
| BranchNames.EnglishHasNoUnderscore | SimulationValidationTool.cxx:347-353 | no label contains an underscore |
| BranchNames.EnglishDropsPrefix | SimulationValidationTool.cxx:345-353 | for `prefix_rest` with an underscore-free prefix, the label is `rest` with underscores turned into spaces and its first letter upper-cased |
| BranchNames.EnglishOfPlainName | SimulationValidationTool.cxx:345-353 | a name without underscores (`initpos` = -1) keeps all its text; only its first character is upper-cased |
| BranchNames.EnglishIdempotent | SimulationValidationTool.cxx:345-353 | converting a label again gives the same label |
| ChiSquare.Pow | SimulationValidationTool.cxx:324-325 | `pow(x, n)` for a natural exponent: the product of n factors x, so `pow(x, 2)` is x times x (a definition) |
| ChiSquare.SquareSign | SimulationValidationTool.cxx:324-325 | (arithmetic helper) `pow(x, 2)` is never negative and is zero only for zero |
| ChiSquare.Counted | SimulationValidationTool.cxx:313-321 | the two skip tests negated: a bin pair enters the sum when neither content nor error is not-a-number and neither error is zero (a definition) |
| ChiSquare.Term | SimulationValidationTool.cxx:324-326 | a counted bin adds a non-negative amount, and zero exactly when the two contents are equal |
| ChiSquare.BinChi | SimulationValidationTool.cxx:313-326 | what one inner iteration adds to `chisq`: the bin's term when neither skip test fires, otherwise 0 (a definition) |
| ChiSquare.RowNdf | SimulationValidationTool.cxx:306-323 | one row adds between 0 and NbinsY degrees of freedom |
| ChiSquare.GridNdf | SimulationValidationTool.cxx:305-323 | the rows 1..m give between 0 and m * NbinsY degrees of freedom |
| ChiSquare.RowChi | SimulationValidationTool.cxx:306-326 | a row's contribution is never negative |
| ChiSquare.GridChi | SimulationValidationTool.cxx:305-326 | the sum over rows 1..m is never negative |
| ChiSquare.Ndf | SimulationValidationTool.cxx:303-323 | the `ndf` the loop reports: the degrees of freedom of all rows 1..NbinsX (a definition; see `NdfCountsBins`) |
| ChiSquare.ChiSq | SimulationValidationTool.cxx:302-326 | the `chisq` the loop reports: the summed terms of all counted regular bins (a definition; see `ChiSqZero`) |
| ChiSquare.ChiSquared | SimulationValidationTool.cxx:300-328 | both outputs are reset and the nested loops compute exactly `ChiSq` and `Ndf`, so `chisq >= 0` and `0 <= ndf <= NbinsX * NbinsY` whatever the caller held before |
| ChiSquare.NdfCountsBins | SimulationValidationTool.cxx:313-323 | `ndf` is the number of regular bins where none of the four values is not-a-number and neither error is zero |
| ChiSquare.ChiSqZero | SimulationValidationTool.cxx:323-326 | chi-squared is zero exactly when every counted bin has equal contents in both histograms (so identical contents give zero) |
| ChiSquare.NoFreedomNoChi | SimulationValidationTool.cxx:313-326 | with no degree of freedom nothing is summed: chi-squared is zero |
| ChiSquare.ChiSquaredSymmetric | SimulationValidationTool.cxx:307-326 | swapping the candidate and reference histograms changes neither output |
| ChiSquare.UnderflowOverflowIgnored | SimulationValidationTool.cxx:305-306 | histograms that differ only in underflow and overflow bins give the same chi-squared and `ndf` |
| Verdict.Div | SimulationValidationTool.cxx:245 | IEEE division: a finite quotient for a nonzero divisor; for a zero divisor, +inf, -inf or not-a-number by the sign of the dividend |
| Verdict.Above | SimulationValidationTool.cxx:245-246 | C++ `q > t` on a quotient: the comparison for a finite q; true for +inf; false for -inf and not-a-number (a definition) |
| Verdict.Below | SimulationValidationTool.cxx:254 | C++ `q < t` on a quotient: the comparison for a finite q; true for -inf; false for +inf and not-a-number (a definition) |
| Verdict.Guard | SimulationValidationTool.cxx:245-246 | the outer test verbatim: its 13 disjuncts in source order, the four std-error ratios through `Div` (a definition; see `GuardMeanTermsTestSign` and the Findings) |
| Verdict.MeanRule | SimulationValidationTool.cxx:249 | the mean test: the candidate mean lies outside reference mean plus or minus reference std (a definition) |
| Verdict.StdErrorRule | SimulationValidationTool.cxx:254 | the std-error test: either ratio above 1.01 or below 0.99, ratios through `Div` (a definition) |
| Verdict.MeanErrorRule | SimulationValidationTool.cxx:259 | the mean-error test: each mean outside the other's mean plus or minus its mean error (a definition) |
| Verdict.MaxMinRule | SimulationValidationTool.cxx:264 | the max/min test: one maximum below the other's minimum (a definition) |
| Verdict.PValueRule | SimulationValidationTool.cxx:269 | the p-value test: p below 0.99 (a definition) |
| Verdict.Keep | SimulationValidationTool.cxx:248-272 | the lines kept are exactly the lines whose test fails, and nothing is kept exactly when no test fails |
| Verdict.KeepKeepsOrder | SimulationValidationTool.cxx:248-272 | the tests run in a fixed order, so the printed lines keep that order |
| Verdict.Failures | SimulationValidationTool.cxx:248-272 | each of the five error lines is printed exactly when its own test fails, in the tool's order and never with "All Tests Passed"; nothing is printed exactly when none fails |
| Verdict.Messages | SimulationValidationTool.cxx:245-275 | "All Tests Passed" is printed exactly when the outer test is false, and then it is the only line; the output is always in the tool's order |
| Verdict.ReportedUnderGuard | SimulationValidationTool.cxx:245-272 | once the outer test holds, each error line is printed exactly when its own condition holds |
| Verdict.ClearFailuresAlwaysReported | SimulationValidationTool.cxx:245-270 | a failing mean-error, max/min or p-value test always prints its line and never "All Tests Passed" |
| Verdict.GuardMeanTermsTestSign | SimulationValidationTool.cxx:245 | the outer test's first two terms together hold exactly when the reference standard deviation is negative |
| Verdict.MeanRuleMaskedByGuard | SimulationValidationTool.cxx:245-251 | a concrete input where the mean test fails but "All Tests Passed" is printed |
| Verdict.MeanRuleCaughtWhenErrorWithinStd | SimulationValidationTool.cxx:245-251 | while the reference mean error does not exceed the reference std, a failing mean test always trips the outer test and prints its line |
| Verdict.StdErrorRuleMaskedByGuard | SimulationValidationTool.cxx:245-256 | a concrete input where the standard-deviation-error test fails but "All Tests Passed" is printed |
| Verdict.SilentVerdict | SimulationValidationTool.cxx:245-275 | a concrete input for which the verdict prints no line at all |
| Verdict.IntendedGuard | SimulationValidationTool.cxx:245-246 | the corrected outer test: the disjunction of the five inner tests of lines 249, 254, 259, 264 and 269 (a definition; see `IntendedMessages`) |
| Verdict.TwoWayMeanRule | SimulationValidationTool.cxx:248-249 | the mean test the comment at line 248 describes: it fails whenever the tool's one-way test fails, and passes exactly when each mean lies within one standard deviation of the other |
| Verdict.TwoWayMeanRuleSymmetric | SimulationValidationTool.cxx:248-249 | the two-way mean test does not depend on which histogram is the reference |
| Verdict.MeanRuleOneWay | SimulationValidationTool.cxx:248-251 | a concrete input where the reference mean lies five candidate standard deviations from the candidate mean, yet the mean line is not printed |
| Verdict.IntendedMessages | SimulationValidationTool.cxx:245-275 | the corrected verdict always prints something: "All Tests Passed" exactly when no inner test fails, otherwise exactly the failing tests' lines, in order |
| Verdict.AgreesWithIntended | SimulationValidationTool.cxx:245-275 | the tool and the corrected verdict print the same lines whenever both outer tests hold, and whenever the mean-error, max/min or p-value test fails |

## Left out

- `main`, `showHelp` and option parsing (SimulationValidationTool.cxx:42-73): command-line plumbing through the GetOpt_pp library, which is not part of this model.
- `ParseRootFile` (SimulationValidationTool.cxx:77-130): file opening, tree lookup, branch iteration and the global `tree`/`reftree`/`hasValidReference` state. This is all I/O.
- Histogram construction, filling, `Clone`/`Reset`/`Sumw2`/`Scale`, `KolmogorovTest` and the ROOT statistics getters (SimulationValidationTool.cxx:182-221): calls into ROOT, whose code is not part of this model. The verdict takes the statistics as inputs, and the chi-squared loop takes the histograms' bins as inputs.
- `TMath::Prob` (SimulationValidationTool.cxx:329): ROOT's chi-squared survival function. `ChiSquare.ChiSquared` stops at `chisq` and `ndf`, and the p-value is an input of the verdict.
- The parsing of bin counts and limits with `std::stoi`/`std::stod` and its fall-backs (SimulationValidationTool.cxx:148-179): this block never runs, because `config` is always empty at line 134. Only its tokenizer is modelled, together with what four successive calls do (`ConfigTokenizer.ConfigConsumed`).
- `exec` (SimulationValidationTool.cxx:332-342): a subprocess pipe.
- The report printing, including `chisq/ndf` printed as "DoF" (SimulationValidationTool.cxx:227-240), and the `TCanvas` (SimulationValidationTool.cxx:182). `Verdict.Messages` gives the verdict's lines as identifiers, not as text.
- The unused `isAverage` parameter of `ChiSquared`.
- `SimulationTool.h`: declarations only.
- Floating point is modelled as exact real arithmetic, with only not-a-number (bins) and division by zero (verdict) made explicit. Rounding, overflow and underflow of `pow` and of the running sum are not modelled, and neither are signed zeros or not-a-number inputs to the verdict's statistics.
- `ChiSquare.ChiSquared` takes both histograms as values of the same shape. The source reads the loop bounds from the first histogram only. It also reads through pointers, so aliasing is not modelled.
- `ConfigTokenizer.GetBitBeforeComma` returns the new value of its by-reference argument as a second out-parameter instead of updating it in place.
- `StdString.ToUpper` and `StdString.Trim` follow the "C" locale only.
- Strings are sequences of characters, while the source works on bytes. `toupper(output[0])` (SimulationValidationTool.cxx:352) on a negative `char` (a non-ASCII byte where `char` is signed) is undefined behaviour in C++; `StdString.ToUpper` leaves every non-ASCII character unchanged.
- `StdString.FirstIndexOf` returns -1 for a missing character. This is the value `npos` takes when stored into an `int` on the usual platforms; other integer widths are not modelled.

## Findings

| source | as written | input that shows it | evidently intended | confidence | as-written member | corrected member |
|---|---|---|---|---|---|---|
| SimulationValidationTool.cxx:245 | the outer test starts with `mean>(mean+std_ref) \|\| mean<(mean-std_ref)`, comparing the candidate mean with itself, so the mean test at line 249 is only reached through other terms | candidate mean 100, reference mean 0, both std 1, both mean errors 200, std errors 1, max 500, min -500, p-value 1: "All Tests Passed" although the mean is 100 standard deviations away. The input needs a reference mean error above the reference std; ROOT reports std/sqrt(n), which never is, and then the mean-error terms catch every failing mean test (`Verdict.MeanRuleCaughtWhenErrorWithinStd`), so the self-comparison has no visible effect with ROOT's statistics | the outer test is true whenever an inner test fails, i.e. it compares with `mean_ref` | not executed | Verdict.MeanRuleMaskedByGuard | Verdict.IntendedMessages |
| SimulationValidationTool.cxx:245 | the outer test compares the std-error ratios with `std_ref` and `std` instead of the 1.01 of the test at line 254 | std errors 1.05 and 1.0 with both standard deviations 10 (other values agreeing, p-value 1): "All Tests Passed" although the errors differ by 5% | the outer test uses the inner test's thresholds | not executed | Verdict.StdErrorRuleMaskedByGuard | Verdict.IntendedMessages |
| SimulationValidationTool.cxx:245-275 | the outer test can hold while none of the five inner tests fails, and then nothing at all is printed | identical statistics for both histograms: mean 0, mean error 0.07, std 0.5, std error 0.05, max 5, min 1, p-value 1. The std-error ratio 1 exceeds the std 0.5: no line printed | exactly one of "All Tests Passed" or at least one error line is printed | not executed | Verdict.SilentVerdict | Verdict.IntendedMessages |
| SimulationValidationTool.cxx:248-249 | the comment says both means should lie within one standard deviation of the other ("and vice versa"), but the test checks only the candidate mean against the reference mean and standard deviation | candidate mean 0 with std 1, reference mean 5 with std 10 (mean errors and std errors 0.1, p-value 1): the reference mean is five candidate standard deviations away, yet "Mean outside of 1 Standard Deviation" is not printed | the test also checks the reference mean against the candidate mean and standard deviation | not executed | Verdict.MeanRuleOneWay | Verdict.TwoWayMeanRule |
