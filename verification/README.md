# Mock credit scorer — a Dafny model

This project models the scoring function of the AI Creditworthiness Predictor's
ML service, `mock_predict_score` in `ml-api/app.py`. The function reads four
alternative-data signals from a JSON request body:

- monthly income;
- monthly rent;
- the number of on-time utility payments;
- years of employment.

It returns a credit score clamped to [300, 850], a default probability rounded
to two decimals, and a risk band (Low, Moderate or High). If converting an
input raises an exception, it returns an error instead.

The model is pure, because the source is: single-assignment locals, one
conditional expression and `min`/`max` clamps. It is written as datatypes,
functions and lemmas over exact `real`s.

- `results.dfy`: `Result<T> = Ok(value) | Error(message)`, the outcome of a
  computation that may raise.
- `json.dfy`: the decoded request body. JSON integers and floats are kept
  apart, as Python's `json` module keeps them apart; the distinction only
  shows in error messages.
- `pyfloat.dfy`: Python's `float()` applied to a JSON value. This includes a
  parser for the decimal literals `float()` accepts in a string, plus lemmas
  about it: `float(str(n)) == n`, the values of decimal literals `a.b` and of
  literals with an exponent `aeb` and `ae-b`, surrounding whitespace is
  ignored, no string without a digit is accepted, and a set of sample
  malformed literals is rejected.
- `pyround.dfy`: Python's `round(x)` (nearest integer, ties to even) and
  `round(x, 2)`, both over reals. Proved: rounding gives the nearest value and
  never reverses order.
- `scorer.dfy`: the score factors, the clamp, the default probability, the
  risk band, input reading with defaults, and `Predict`, which is the whole
  function.
- `scorer_facts.dfy`: bounds, monotonicity in each input, the employment cap,
  the effect of the jitter, the error path, and worked examples.

The service adds `random.uniform(-25, 25)` to the score. Here that noise is
the `jitter` parameter of `Score` and `Predict`, and
`ValidJitter(jitter)` (`-25 <= jitter <= 25`) is a precondition.

In the code only an *absent* key defaults to 0 (`data.get(key,
0)`). A present value that `float()` cannot convert raises, and the `except`
branch turns that into an error result. `Predict`'s contract and
`NullIsNotZero` state this behaviour.

The default probability is computed as `max(0.02, (900 - score) / 600)`. The
0.02 floor never takes effect: a clamped score is at most 850, so the
probability is at least 1/12 (`ProbabilityFloorNeverBinds`). After rounding it
lies in [0.08, 1.0].

The score never decreases when utilities, employment or jitter rise, and
never increases when rent rises. It never decreases as income rises only when
rent is not negative. With a negative rent the ratio `1 - rent/income`
exceeds 1 and falls as income grows: income 100 scores 552 and income 300
scores 506 at rent -100 (`NegativeRentBreaksIncomeMonotonicity`).

## Model

| member | source | states |
|---|---|---|
| `PyRound.RoundHalfEven` | ml-api/app.py:33 | `round(x)` is within 1/2 of `x`, and at an exact tie it is even |
| `PyRound.RoundIsNearest` | ml-api/app.py:33 | no integer is closer to `x` than `round(x)` |
| `PyRound.RoundOfInteger` | ml-api/app.py:33 | an integer rounds to itself |
| `PyRound.RoundTiesToEven` | ml-api/app.py:33 | `round(0.5) == 0`, `round(1.5) == 2`, `round(-2.5) == -2` |
| `PyRound.RoundMonotone` | ml-api/app.py:33 | `x <= y` implies `round(x) <= round(y)` |
| `PyRound.RoundHundredths` | ml-api/app.py:39 | `round(x, 2)` is a whole number of hundredths within 0.005 of `x` |
| `PyRound.RoundHundredthsMonotone` | ml-api/app.py:39 | `round(x, 2)` keeps order |
| `PyRound.RoundHundredthsOfHundredths` | ml-api/app.py:39 | a whole number of hundredths is unchanged by `round(x, 2)` |
| `CreditScorerFacts.ProbabilityTieScores` | ml-api/app.py:39 | `(900 - s) / 600` sits exactly halfway between two hundredths if and only if `s % 6 == 3`, for every clamped score |
| `CreditScorerFacts.ProbabilityTiesRoundToEven` | ml-api/app.py:39 | the model's probability at the tie scores 303 and 315 is 1.0 and 0.98 |
| `CreditScorerFacts.ProbabilityExactTies` | ml-api/app.py:39 | at the tie scores 375, 525, 675 and 825 the probability is 0.88, 0.62, 0.38 and 0.12 |
| `PyFloat.ToFloat` | ml-api/app.py:20-23 | `float(v)` is `i` for an int `i`, `f` for a float `f`, 1 or 0 for a boolean, and the literal's value for a string that is a decimal literal; any other string, null, a list or a dict is an error |
| `PyFloat.ParseFloat` | ml-api/app.py:20-23 | `float(s)` raises for every string `s` with no digit in it |
| `PyFloat.StripKeepsDigit` | ml-api/app.py:20-23 | every digit left after stripping whitespace is a digit of the original string |
| `PyFloat.ParseMantissa` | ml-api/app.py:20-23 | a mantissa that parses is non-negative, starts with a digit or `.`, and holds at least one digit |
| `PyFloat.ParseLiteral` | ml-api/app.py:20-23 | a literal that parses starts with a sign, a digit or `.`, holds at least one digit, and is negative only when it starts with `-` |
| `PyFloat.ParseUnsigned` | ml-api/app.py:20-23 | an unsigned literal that parses is non-negative, starts with a digit or `.`, and holds at least one digit |
| `PyFloatFacts.IntegerMantissa` | ml-api/app.py:20-23 | a digit string as a mantissa is worth the number it spells |
| `PyFloatFacts.DecimalMantissa` | ml-api/app.py:20-23 | `a.b` as a mantissa is `a` plus `b` over ten to the length of `b`, for digit strings `a` and `b` |
| `PyFloatFacts.ParsesDigitsDotDigits` | ml-api/app.py:20-23 | `float(a + "." + b)` is `a` plus `b` over ten to the length of `b`, for all digit strings `a` and `b` |
| `PyFloatFacts.ParsesDecimal` | ml-api/app.py:20-23 | `float(str(m) + "." + str(k))` is `m + k / 10^len(str(k))` for all naturals `m` and `k` |
| `PyFloatFacts.ParsesDigitsExponent` | ml-api/app.py:20-23 | `float(a + "e" + x)` is the value of `a` times ten to the exponent `x` spells |
| `PyFloatFacts.ParsesDigitsUnsignedExponent` | ml-api/app.py:20-23 | `float(a + "e" + b)` is `a * 10^b` for all digit strings `a` and `b` |
| `PyFloatFacts.ParsesDigitsMinusExponent` | ml-api/app.py:20-23 | `float(a + "e-" + b)` is `a` times ten to the power `-b` for all digit strings `a` and `b` |
| `PyFloatFacts.ParsesDigitsNegativeExponent` | ml-api/app.py:20-23 | `float(a + "e-" + b)` is `a / 10^b` for all digit strings `a` and `b` |
| `PyFloatFacts.PlusExponent` | ml-api/app.py:20-23 | a `+` before an exponent without a sign leaves its value unchanged |
| `PyFloatFacts.ParsesDigitsPlusExponent` | ml-api/app.py:20-23 | `float(a + "e+" + b)` is `a * 10^b` for all digit strings `a` and `b` |
| `PyFloatFacts.SignedParse` | ml-api/app.py:20-23 | putting `-` before any accepted literal that starts with a digit or `.` negates its value, and putting `+` there keeps it |
| `PyFloatFacts.ParsesExponent` | ml-api/app.py:20-23 | `float(str(m) + "e" + str(n)) == m * 10^n` for all naturals |
| `PyFloatFacts.ParsesNegativeExponent` | ml-api/app.py:20-23 | `float(str(m) + "e-" + str(n)) == m / 10^n` for all naturals |
| `JsonValue.TypeName` | ml-api/app.py:20-23 | the type name Python reports is `NoneType` exactly for null, `list` exactly for a list and `dict` exactly for a dict |
| `PyFloatFacts.ToFloatFailsExactly` | ml-api/app.py:20-23 | `float(v)` raises exactly for null, lists, dicts and strings that are not literals |
| `PyFloatFacts.NatToStringValue` | ml-api/app.py:20-23 | the digits of a decimal numeral spell back the number |
| `PyFloatFacts.ParsesNatToString` | ml-api/app.py:20-23 | `float(str(n)) == n` for every natural `n` |
| `PyFloatFacts.ParsesNegatedNatToString` | ml-api/app.py:20-23 | `float("-" + str(n)) == -n` |
| `PyFloatFacts.BareLiteral` | ml-api/app.py:20-23 | a string that starts and ends with a digit is unchanged by whitespace stripping and sign splitting |
| `PyFloat.TrimStartRemovesLeadingSpace` | ml-api/app.py:20-23 | stripping at the front removes exactly the leading whitespace and leaves a suffix |
| `PyFloat.TrimEndRemovesTrailingSpace` | ml-api/app.py:20-23 | stripping at the back removes exactly the trailing whitespace and leaves a prefix |
| `PyFloatFacts.TrimStartSkipsPrefix` | ml-api/app.py:20-23 | a whitespace prefix before a non-space character is removed entirely |
| `PyFloatFacts.TrimEndSkipsSuffix` | ml-api/app.py:20-23 | a whitespace suffix after a non-space character is removed entirely |
| `PyFloatFacts.SurroundingSpaceIgnored` | ml-api/app.py:20-23 | whitespace around a literal does not change what `float()` returns |
| `PyFloatFacts.LeadingSpaceIgnored` | ml-api/app.py:20-23 | one leading whitespace character does not change what `float()` returns |
| `PyFloatFacts.RejectsEmptyString` | ml-api/app.py:20-23 | `float("")` raises |
| `PyFloatFacts.RejectsWord` | ml-api/app.py:20-23 | `float("abc")` raises |
| `PyFloatFacts.RejectsDoubledUnderscore` | ml-api/app.py:20-23 | `float("1__0")` raises |
| `PyFloatFacts.RejectsLeadingUnderscore` | ml-api/app.py:20-23 | `float("_1")` raises |
| `PyFloatFacts.RejectsTrailingUnderscore` | ml-api/app.py:20-23 | `float("1_")` raises |
| `PyFloatFacts.RejectsLoneDot` | ml-api/app.py:20-23 | `float(".")` raises |
| `PyFloatFacts.RejectsExponentWithoutDigits` | ml-api/app.py:20-23 | `float("1e")` raises |
| `PyFloatFacts.RejectsDoubledSign` | ml-api/app.py:20-23 | `float("+-1")` raises |
| `PyFloatFacts.RejectsFileSeparatorPadding` | ml-api/app.py:20-23 | `float("\x1c5")` raises: U+001C is not whitespace to `float()` |
| `PyFloatFacts.AcceptsPaddedUnderscoredDecimal` | ml-api/app.py:20-23 | `float(" 1_000.5\n") == 1000.5` |
| `PyFloatFacts.AcceptsSignedFractionWithExponent` | ml-api/app.py:20-23 | `float("-.5e-3") == -0.0005` |
| `PyFloatFacts.AcceptsTrailingDot` | ml-api/app.py:20-23 | `float("2.") == 2.0` |
| `PyFloatFacts.AcceptsUpperCaseExponent` | ml-api/app.py:20-23 | `float("+7E2") == 700.0` |
| `CreditScorer.IncomeFactor` | ml-api/app.py:27 | the income factor is 2 points per 100 of income, and never negative for a non-negative income |
| `CreditScorer.UtilitiesFactor` | ml-api/app.py:30 | the utilities factor has the sign of the number of on-time payments |
| `CreditScorerFacts.FactorsNonDecreasing` | ml-api/app.py:27-31 | the income, utilities and employment factors never fall as their input rises |
| `CreditScorer.RawTotal` | ml-api/app.py:26-33 | the unrounded total is at least base + income + utilities + employment factors + jitter, and with rent >= 0 at most base + income + utilities factors + 75 + 120 + jitter |
| `CreditScorerFacts.JitterIsAdditive` | ml-api/app.py:33 | the jitter is added to the total and changes nothing else |
| `CreditScorer.RiskName` | ml-api/app.py:40 | the band strings `Low`, `Moderate` and `High` each name exactly one band |
| `CreditScorer.IncomeRatio` | ml-api/app.py:28 | the ratio is positive exactly when income exceeds rent and is positive, and is 0 otherwise (so 0 for zero income or rent at least income); with rent >= 0 it is at most 1 |
| `CreditScorer.RentFactor` | ml-api/app.py:28-29 | the rent factor is never negative, is at most 75 when rent >= 0, and is positive exactly when income exceeds rent and is positive |
| `CreditScorer.EmploymentFactor` | ml-api/app.py:31 | at most 120; exactly 120 from 8 years up; 15 per year below 8 |
| `CreditScorer.Clamp` | ml-api/app.py:36 | the result lies in [300, 850]; in-range scores are unchanged; scores below go to 300 and scores above go to 850 |
| `CreditScorer.CreditScore` | ml-api/app.py:27-36 | the score lies in [300, 850], and is within 1/2 of the raw total when that total is in range |
| `CreditScorer.UnroundedDefaultProbability` | ml-api/app.py:39 | the probability is at least 0.02; it is at most 1 for scores >= 300; it equals `(900 - score)/600` up to score 888 |
| `CreditScorer.DefaultProbability` | ml-api/app.py:39 | a whole number of hundredths within 0.005 of the unrounded probability |
| `CreditScorer.RiskLevelOf` | ml-api/app.py:40 | Low iff score >= 700; Moderate iff 600 <= score < 700; High iff score < 600 |
| `CreditScorer.Score` | ml-api/app.py:26-46 | for a jitter in [-25, 25] the score is in [300, 850], and probability and band are the functions of that score |
| `CreditScorer.ReadField` | ml-api/app.py:20-23 | an absent key reads as 0; a present value is passed to `float()` |
| `CreditScorer.ReadApplicant` | ml-api/app.py:18-23 | reading fails exactly when the body is not a dict or one of the four keys holds an unconvertible value; on success each field is what was read for its key |
| `CreditScorer.Predict` | ml-api/app.py:14-49 | an error exactly when the body is not a dict or a present value cannot be converted; otherwise the score is in [300, 850], and the band and probability are those of the score |
| `CreditScorerFacts.ProbabilityFloorNeverBinds` | ml-api/app.py:36-39 | for every clamped score the probability before rounding is `(900 - score)/600` and is at least 1/12 > 0.02 |
| `CreditScorerFacts.UnroundedProbabilityNonIncreasing` | ml-api/app.py:39 | before rounding, the probability never rises with the score |
| `CreditScorerFacts.DefaultProbabilityBounds` | ml-api/app.py:36-39 | for every clamped score the rounded probability lies in [0.08, 1.0], inside [0.02, 1.0] |
| `CreditScorerFacts.DefaultProbabilityNonIncreasing` | ml-api/app.py:39 | the rounded probability never rises with the score |
| `CreditScorerFacts.RiskLevelMonotone` | ml-api/app.py:40 | a higher score never gives a riskier band |
| `CreditScorerFacts.ClampMonotone` | ml-api/app.py:36 | the clamp keeps order |
| `CreditScorerFacts.CreditScoreFollowsTotal` | ml-api/app.py:33-36 | a larger raw total never gives a smaller score |
| `CreditScorerFacts.ScoreMonotoneInUtilities` | ml-api/app.py:30-36 | more on-time utility payments never lower the score |
| `CreditScorerFacts.ScoreMonotoneInEmployment` | ml-api/app.py:31-36 | more years of employment never lower the score |
| `CreditScorerFacts.ScoreMonotoneInJitter` | ml-api/app.py:33-36 | a larger jitter never lowers the score |
| `CreditScorerFacts.ClampNonExpansive` | ml-api/app.py:36 | clamping never moves two scores further apart |
| `CreditScorerFacts.JitterMovesScoreLittle` | ml-api/app.py:33-36 | a jitter in [-25, 25] moves the score at most 26 points from the jitter-free score |
| `CreditScorerFacts.IncomeRatioMonotoneInIncome` | ml-api/app.py:28 | with rent >= 0 the ratio never falls as income rises |
| `CreditScorerFacts.ScoreMonotoneInIncome` | ml-api/app.py:27-36 | with rent >= 0, more income never lowers the score |
| `CreditScorerFacts.IncomeRatioNonIncreasingInRent` | ml-api/app.py:28 | the ratio never rises with rent |
| `CreditScorerFacts.ScoreNonIncreasingInRent` | ml-api/app.py:28-36 | more rent never raises the score |
| `CreditScorerFacts.NegativeRentBreaksIncomeMonotonicity` | ml-api/app.py:27-33 | at rent -100 with no jitter, income 100 scores 552 and income 300 scores 506 |
| `CreditScorerFacts.EmploymentCapHolds` | ml-api/app.py:31 | any two employment values of 8 years or more give the same score |
| `CreditScorerFacts.TwentyYearsLikeEight` | ml-api/app.py:31 | 20 years of employment score the same as 8 |
| `CreditScorerFacts.AbsentKeysReadAsZero` | ml-api/app.py:20-23 | a body without the four keys reads as four zeros |
| `CreditScorerFacts.PredictScoresConvertedInputs` | ml-api/app.py:18-46 | once the inputs are read, the result is the score of the converted inputs |
| `CreditScorerFacts.NullIsNotZero` | ml-api/app.py:20-23 | a present `null` in any of the four keys gives an error, not a 0 |
| `CreditScorerFacts.IncomeErrorReportedFirst` | ml-api/app.py:20-23 | when income cannot be converted, the error reported is income's, whatever the other fields hold |
| `CreditScorerFacts.NonObjectIsError` | ml-api/app.py:20 | a list body gives the error `'list' object has no attribute 'get'` |
| `CreditScorerFacts.ReadsConvertedFields` | ml-api/app.py:20-23 | when all four fields convert, the applicant read holds exactly the converted values |
| `CreditScorerFacts.ReadsNumerals` | ml-api/app.py:20-23 | the worked example sent as numeric strings reads as income 5000, rent 1000, 5 utilities, 3 years |
| `CreditScorerFacts.WorkedExampleScore` | ml-api/app.py:26-40 | income 5000, rent 1000, 5 utilities, 3 years and no jitter give 665, probability 0.39, Moderate |
| `CreditScorerFacts.WorkedExample` | ml-api/app.py:14-46 | the same request as JSON integers gives 665, 0.39, Moderate |
| `CreditScorerFacts.WorkedExampleFromStrings` | ml-api/app.py:14-46 | the same request as numeric strings gives 665, 0.39, Moderate |
| `CreditScorerFacts.BaselineScore` | ml-api/app.py:26-40 | all-zero inputs and no jitter give 400, probability 0.83, High |
| `CreditScorerFacts.EmptyDictExample` | ml-api/app.py:14-46 | an empty dict passed to `mock_predict_score`, with no jitter, gives 400, probability 0.83, High |

## Left out

- The Flask side of `ml-api/app.py` is not modelled: the app and CORS setup, the route handler `predict_creditworthiness`, the health check and `app.run`. It is transport plumbing. On an exception the function returns the tuple `({'error': str(e)}, 500)` (ml-api/app.py:49); the model keeps only the message, as `Error(message)`, and not the status code or the dictionary around it.
- The real random number generator is left out. The jitter is a parameter bounded to [-25, 25].
- `backend/server.js` and `ml-api/train.py` are not part of this model. The first is HTTP forwarding and database I/O. The second is library calls for CSV loading, scaling and fitting, plus file I/O.
- IEEE-754 floating point is not modelled. Arithmetic is over exact reals, so binary representation error, overflow to infinity and NaN do not arise.
- `PyFloat.ToFloat`: rejects the spellings `inf`, `infinity` and `nan`, which Python's `float()` accepts. Handling them would need the IEEE semantics of the later comparisons and of `round`, which are left out. It also does not accept Unicode digits, and does not model the overflow of very large integers.
- `PyFloat.IsSpace`: strips only the six ASCII whitespace characters that `float()` strips from an ASCII string (space, `\t`, `\n`, `\v`, `\f`, `\r`). For a string holding any non-ASCII character, Python first turns every non-ASCII Unicode whitespace character, such as U+00A0, into a space; the model does not, and rejects such strings. U+001C to U+001F are rejected by both.
- `PyFloat.ParseLiteral`: its own contract gives the shape of an accepted literal, not its value. The value is proved for all inputs of the forms `str(n)` and `-str(n)` for naturals `n`, and `a.b`, `aeb`, `ae+b` and `ae-b` for digit strings `a` and `b` (the `Parses` lemmas). A leading `-` or `+` before any accepted literal that starts with a digit or `.` is covered by `SignedParse`, so `-a.b`, `+aeb` and the like follow from the forms above. For underscores, a leading or trailing `.`, an upper-case `E`, and a fraction combined with an exponent, the value is shown only by the examples.
- `PyFloat.ToFloat`: the error messages quote the string between single quotes without Python's `repr` escaping. The `TypeError` wording is that of Python 3.10 and later.
- `PyRound.RoundHundredths`: rounds half-to-even on the exact real value. Python rounds the binary double. The unrounded probability `(900 - s) / 600` is an exact decimal tie for every score `s` with `s % 6 == 3`, which is 92 of the 551 possible scores (`ProbabilityTieScores`). Four of these ties, at scores 375, 525, 675 and 825, are the exact doubles 0.875, 0.625, 0.375 and 0.125. There Python also rounds half-to-even and gives 0.88, 0.62, 0.38 and 0.12, the same as the model (`ProbabilityExactTies`). At the other 88 ties the double is not the tie itself, so Python's direction depends on which side of the tie the double lies, and it can differ from the model by 0.01. For example, the model gives 1.0 at score 303 and 0.98 at score 315 (`ProbabilityTiesRoundToEven`), while the doubles of 0.995 and 0.975 lie just below the tie, so Python rounds them down. For every value the result stays within 0.005, so the bounds and the monotonicity hold either way.
- `PyRound.RoundHalfEven`: is applied to the exact real sum. When that sum sits at an exact tie, the float sum in Python may lie just off the tie and round the other way.
