/** The mock credit scorer of the ML service (`mock_predict_score`).

    Four alternative-data signals (monthly income, monthly rent, the number of
    on-time utility payments and years of employment) are turned into a
    credit score in [300, 850], a default probability and a risk band. The
    random jitter the service adds to the score is a parameter here, drawn by
    the caller from [-25, 25].
 */
module CreditScorer {
  import opened Results
  import opened JsonValue
  import opened PyFloat
  import opened PyRound

  // ---------------------------------------------------------------------
  // Data

  /** The four signals, after conversion to numbers. */
  datatype Applicant = Applicant(
    monthlyIncome: real,
    monthlyRent: real,
    onTimeUtilities: real,
    employmentYears: real)

  datatype RiskLevel = Low | Moderate | High

  /** What a successful call returns: `credit_score`, `default_probability`
      and `risk_level`. */
  datatype Prediction = Prediction(
    creditScore: int,
    defaultProbability: real,
    riskLevel: RiskLevel)

  const BaseScore: real := 400.0
  const MinScore: int := 300
  const MaxScore: int := 850
  const EmploymentCap: real := 8.0
  const ProbabilityFloor: real := 0.02

  /** `random.uniform(-25, 25)` only ever yields values in this range. */
  predicate ValidJitter(jitter: real) {
    -25.0 <= jitter <= 25.0
  }

  /** The string the service reports for a risk band. */
  function RiskName(r: RiskLevel): (name: string)
    ensures name == "Low" <==> r == Low
    ensures name == "Moderate" <==> r == Moderate
    ensures name == "High" <==> r == High
  {
    match r
    case Low => "Low"
    case Moderate => "Moderate"
    case High => "High"
  }

  // ---------------------------------------------------------------------
  // Python's two-argument min and max: the first argument wins unless the
  // second is strictly smaller (min) or strictly larger (max).

  function PyMin(a: real, b: real): real {
    if b < a then b else a
  }

  function PyMax(a: real, b: real): real {
    if b > a then b else a
  }

  function PyMinInt(a: int, b: int): int {
    if b < a then b else a
  }

  function PyMaxInt(a: int, b: int): int {
    if b > a then b else a
  }

  // ---------------------------------------------------------------------
  // The score factors

  /** 100 points per 5000 of monthly income, without a cap. */
  function IncomeFactor(income: real): (f: real)
    ensures f * 50.0 == income
    ensures income >= 0.0 ==> f >= 0.0
  {
    (income / 5000.0) * 100.0
  }

  /** The share of income left after rent, counted only when income exceeds
      rent and is positive. */
  function IncomeRatio(income: real, rent: real): (r: real)
    ensures r >= 0.0
    ensures r > 0.0 <==> (income > rent && income > 0.0)
    ensures rent >= 0.0 ==> r <= 1.0
  {
    if income > rent && income > 0.0 then 1.0 - RentShare(rent, income) else 0.0
  }

  /** `rent / income`, which the service divides only when income is
      positive. */
  function RentShare(rent: real, income: real): real
    requires income > 0.0
  {
    rent / income
  }

  /** Up to 75 points for affordability. */
  function RentFactor(income: real, rent: real): (f: real)
    ensures f >= 0.0
    ensures rent >= 0.0 ==> f <= 75.0
    ensures f > 0.0 <==> (income > rent && income > 0.0)
  {
    IncomeRatio(income, rent) * 75.0
  }

  /** 12 points per on-time utility payment, without a cap. */
  function UtilitiesFactor(utilities: real): (f: real)
    ensures utilities >= 0.0 ==> f >= 0.0
    ensures utilities <= 0.0 ==> f <= 0.0
  {
    utilities * 12.0
  }

  /** 15 points per year of employment, counting at most 8 years. */
  function EmploymentFactor(years: real): (f: real)
    ensures f <= 120.0
    ensures years >= EmploymentCap ==> f == 120.0
    ensures years <= EmploymentCap ==> f == 15.0 * years
  {
    PyMin(years, EmploymentCap) * 15.0
  }

  /** The unrounded score: base, the four factors and the jitter. */
  function RawTotal(a: Applicant, jitter: real): (t: real)
    ensures t >= BaseScore + IncomeFactor(a.monthlyIncome) + UtilitiesFactor(a.onTimeUtilities)
                 + EmploymentFactor(a.employmentYears) + jitter
    ensures a.monthlyRent >= 0.0 ==>
      t <= BaseScore + IncomeFactor(a.monthlyIncome) + UtilitiesFactor(a.onTimeUtilities)
             + 75.0 + 120.0 + jitter
  {
    BaseScore
      + IncomeFactor(a.monthlyIncome)
      + RentFactor(a.monthlyIncome, a.monthlyRent)
      + UtilitiesFactor(a.onTimeUtilities)
      + EmploymentFactor(a.employmentYears)
      + jitter
  }

  // ---------------------------------------------------------------------
  // Score, probability, band

  /** `max(300, min(850, n))`. */
  function Clamp(n: int): (c: int)
    ensures MinScore <= c <= MaxScore
    ensures MinScore <= n <= MaxScore ==> c == n
    ensures n < MinScore ==> c == MinScore
    ensures n > MaxScore ==> c == MaxScore
  {
    PyMaxInt(MinScore, PyMinInt(MaxScore, n))
  }

  /** The rounded and clamped score. */
  function CreditScore(a: Applicant, jitter: real): (s: int)
    ensures MinScore <= s <= MaxScore
    ensures MinScore as real <= RawTotal(a, jitter) <= MaxScore as real ==>
      -0.5 <= RawTotal(a, jitter) - s as real <= 0.5
  {
    Clamp(RoundHalfEven(RawTotal(a, jitter)))
  }

  /** `max(0.02, (900 - score) / 600)`, before rounding to two decimals. */
  function UnroundedDefaultProbability(score: int): (p: real)
    ensures p >= ProbabilityFloor
    ensures score >= MinScore ==> p <= 1.0
    ensures score <= 888 ==> p == (900 - score) as real / 600.0
  {
    PyMax(ProbabilityFloor, (900 - score) as real / 600.0)
  }

  /** The default probability, rounded to two decimals. */
  function DefaultProbability(score: int): (p: real)
    ensures -0.005 <= UnroundedDefaultProbability(score) - p <= 0.005
    ensures (p * 100.0).Floor as real == p * 100.0
  {
    RoundHundredths(UnroundedDefaultProbability(score))
  }

  /** Low from 700 up, Moderate from 600 to 699, High below 600. */
  function RiskLevelOf(score: int): (r: RiskLevel)
    ensures r == Low <==> score >= 700
    ensures r == Moderate <==> 600 <= score < 700
    ensures r == High <==> score < 600
  {
    if score >= 700 then Low else if score >= 600 then Moderate else High
  }

  /** The prediction for converted inputs and a given jitter. */
  function Score(a: Applicant, jitter: real): (p: Prediction)
    requires ValidJitter(jitter)
    ensures MinScore <= p.creditScore <= MaxScore
    ensures p.creditScore == CreditScore(a, jitter)
    ensures p.defaultProbability == DefaultProbability(p.creditScore)
    ensures p.riskLevel == RiskLevelOf(p.creditScore)
  {
    var score := CreditScore(a, jitter);
    Prediction(score, DefaultProbability(score), RiskLevelOf(score))
  }

  // ---------------------------------------------------------------------
  // Reading the request

  const IncomeKey: string := "monthly_income"
  const RentKey: string := "monthly_rent"
  const UtilitiesKey: string := "on_time_utilities"
  const EmploymentKey: string := "employment_years"

  /** `float(data.get(key, 0))`: an absent key reads as 0, a present value
      goes through `float()`. */
  function ReadField(fields: map<string, Json>, key: string): (r: Result<real>)
    ensures key !in fields ==> r == Ok(0.0)
    ensures key in fields ==> r == ToFloat(fields[key])
  {
    if key in fields then ToFloat(fields[key]) else Ok(0.0)
  }

  /** A key that is present with a value `float()` cannot convert. */
  predicate Unconvertible(fields: map<string, Json>, key: string) {
    key in fields && ToFloat(fields[key]).Error?
  }

  /** Any of the four keys present with an unconvertible value. */
  predicate AnyUnconvertible(fields: map<string, Json>) {
    || Unconvertible(fields, IncomeKey)
    || Unconvertible(fields, RentKey)
    || Unconvertible(fields, UtilitiesKey)
    || Unconvertible(fields, EmploymentKey)
  }

  /** The four fields read in the service's order; the first failure is the
      one reported. Anything but a dictionary has no `get`. */
  function ReadApplicant(data: Json): (r: Result<Applicant>)
    ensures r.Error? <==> (!data.JObject? || AnyUnconvertible(data.fields))
    ensures r.Ok? ==>
      && ReadField(data.fields, IncomeKey) == Ok(r.value.monthlyIncome)
      && ReadField(data.fields, RentKey) == Ok(r.value.monthlyRent)
      && ReadField(data.fields, UtilitiesKey) == Ok(r.value.onTimeUtilities)
      && ReadField(data.fields, EmploymentKey) == Ok(r.value.employmentYears)
  {
    if !data.JObject? then
      Error("'" + TypeName(data) + "' object has no attribute 'get'")
    else
      var income :- ReadField(data.fields, IncomeKey);
      var rent :- ReadField(data.fields, RentKey);
      var utilities :- ReadField(data.fields, UtilitiesKey);
      var employment :- ReadField(data.fields, EmploymentKey);
      Ok(Applicant(income, rent, utilities, employment))
  }

  /** `mock_predict_score(data)` with the jitter drawn by the caller: a
      prediction, or the message of the exception raised while reading the
      inputs. */
  function Predict(data: Json, jitter: real): (r: Result<Prediction>)
    requires ValidJitter(jitter)
    ensures r.Error? <==> (!data.JObject? || AnyUnconvertible(data.fields))
    ensures r.Ok? ==> MinScore <= r.value.creditScore <= MaxScore
    ensures r.Ok? ==> r.value.riskLevel == RiskLevelOf(r.value.creditScore)
    ensures r.Ok? ==> r.value.defaultProbability == DefaultProbability(r.value.creditScore)
  {
    var applicant :- ReadApplicant(data);
    Ok(Score(applicant, jitter))
  }
}
