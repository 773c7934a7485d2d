/** What the scoring formula guarantees: bounds on the probability, how the
    score moves with each input, the employment cap, and worked examples. */
module CreditScorerFacts {
  import opened Results
  import opened JsonValue
  import opened PyFloat
  import opened PyFloatFacts
  import opened PyRound
  import opened CreditScorer

  // ---------------------------------------------------------------------
  // Default probability

  /** For every score the clamp lets through, `(900 - score) / 600` is at
      least 1/12, so the 0.02 floor never takes effect. */
  lemma ProbabilityFloorNeverBinds(score: int)
    requires MinScore <= score <= MaxScore
    ensures UnroundedDefaultProbability(score) == (900 - score) as real / 600.0
    ensures UnroundedDefaultProbability(score) >= 1.0 / 12.0 > ProbabilityFloor
  {
  }

  /** Before rounding the probability never rises with the score. */
  lemma UnroundedProbabilityNonIncreasing(s1: int, s2: int)
    requires s1 <= s2
    ensures UnroundedDefaultProbability(s2) <= UnroundedDefaultProbability(s1)
  {
  }

  /** After rounding the probability lies in [0.08, 1.0], inside the
      promised [0.02, 1.0]. */
  lemma DefaultProbabilityBounds(score: int)
    requires MinScore <= score <= MaxScore
    ensures ProbabilityFloor <= 0.08 <= DefaultProbability(score) <= 1.0
  {
    var p := UnroundedDefaultProbability(score);
    RoundHundredthsMonotone(8.0 / 100.0, p);
    RoundHundredthsMonotone(p, 100.0 / 100.0);
    RoundHundredthsOfHundredths(8);
    RoundHundredthsOfHundredths(100);
  }

  /** `(900 - s) / 600` lies exactly halfway between two hundredths for
      precisely the scores `s` with `s % 6 == 3`: 92 of the 551 possible
      scores. */
  lemma ProbabilityTieScores(score: int)
    requires MinScore <= score <= MaxScore
    ensures var x := UnroundedDefaultProbability(score) * 100.0;
            score % 6 == 3 <==> x - x.Floor as real == 0.5
  {
    var n := 900 - score;
    var q, r := n / 6, n % 6;
    assert n == 6 * q + r && 0 <= r < 6;
    var x := UnroundedDefaultProbability(score) * 100.0;
    assert x == q as real + r as real / 6.0;
    assert x.Floor == q;
    assert score % 6 == 3 <==> r == 3;
  }

  /** At the tie scores 303 and 315 the model rounds to an even number of
      hundredths. */
  lemma ProbabilityTiesRoundToEven()
    ensures DefaultProbability(303) == 1.0
    ensures DefaultProbability(315) == 0.98
  {
    assert UnroundedDefaultProbability(303) * 100.0 == 99.5;
    assert RoundHalfEven(99.5) == 100;
    assert UnroundedDefaultProbability(315) * 100.0 == 97.5;
    assert RoundHalfEven(97.5) == 98;
  }

  /** At the tie scores 375, 525, 675 and 825 the unrounded probability is
      7/8, 5/8, 3/8 and 1/8, and the model rounds it to an even number of
      hundredths. */
  lemma ProbabilityExactTies()
    ensures DefaultProbability(375) == 0.88
    ensures DefaultProbability(525) == 0.62
    ensures DefaultProbability(675) == 0.38
    ensures DefaultProbability(825) == 0.12
  {
    assert UnroundedDefaultProbability(375) * 100.0 == 87.5;
    assert RoundHalfEven(87.5) == 88;
    assert UnroundedDefaultProbability(525) * 100.0 == 62.5;
    assert RoundHalfEven(62.5) == 62;
    assert UnroundedDefaultProbability(675) * 100.0 == 37.5;
    assert RoundHalfEven(37.5) == 38;
    assert UnroundedDefaultProbability(825) * 100.0 == 12.5;
    assert RoundHalfEven(12.5) == 12;
  }

  /** Rounding keeps the probability non-increasing in the score. */
  lemma DefaultProbabilityNonIncreasing(s1: int, s2: int)
    requires s1 <= s2
    ensures DefaultProbability(s2) <= DefaultProbability(s1)
  {
    RoundHundredthsMonotone(UnroundedDefaultProbability(s2), UnroundedDefaultProbability(s1));
  }

  // ---------------------------------------------------------------------
  // Risk band

  /** 0 for Low, 1 for Moderate, 2 for High. */
  function RiskRank(r: RiskLevel): nat {
    match r
    case Low => 0
    case Moderate => 1
    case High => 2
  }

  /** A higher score never gives a riskier band. */
  lemma RiskLevelMonotone(s1: int, s2: int)
    requires s1 <= s2
    ensures RiskRank(RiskLevelOf(s2)) <= RiskRank(RiskLevelOf(s1))
  {
  }

  // ---------------------------------------------------------------------
  // The score as a function of each input

  /** Clamping keeps order. */
  lemma ClampMonotone(m: int, n: int)
    requires m <= n
    ensures Clamp(m) <= Clamp(n)
  {
  }

  /** The income, utilities and employment factors never fall as their
      input rises. */
  lemma FactorsNonDecreasing(x: real, y: real)
    requires x <= y
    ensures IncomeFactor(x) <= IncomeFactor(y)
    ensures UtilitiesFactor(x) <= UtilitiesFactor(y)
    ensures EmploymentFactor(x) <= EmploymentFactor(y)
  {
  }

  /** The jitter is added to the total and touches nothing else. */
  lemma JitterIsAdditive(a: Applicant, jitter: real)
    ensures RawTotal(a, jitter) == RawTotal(a, 0.0) + jitter
  {
  }

  /** A larger raw total never gives a smaller credit score. */
  lemma CreditScoreFollowsTotal(a: Applicant, ja: real, b: Applicant, jb: real)
    requires RawTotal(a, ja) <= RawTotal(b, jb)
    ensures CreditScore(a, ja) <= CreditScore(b, jb)
  {
    RoundMonotone(RawTotal(a, ja), RawTotal(b, jb));
    ClampMonotone(RoundHalfEven(RawTotal(a, ja)), RoundHalfEven(RawTotal(b, jb)));
  }

  /** More on-time utility payments never lower the score. */
  lemma ScoreMonotoneInUtilities(a: Applicant, utilities: real, jitter: real)
    requires a.onTimeUtilities <= utilities
    ensures CreditScore(a, jitter) <= CreditScore(a.(onTimeUtilities := utilities), jitter)
  {
    CreditScoreFollowsTotal(a, jitter, a.(onTimeUtilities := utilities), jitter);
  }

  /** More years of employment never lower the score. */
  lemma ScoreMonotoneInEmployment(a: Applicant, years: real, jitter: real)
    requires a.employmentYears <= years
    ensures CreditScore(a, jitter) <= CreditScore(a.(employmentYears := years), jitter)
  {
    CreditScoreFollowsTotal(a, jitter, a.(employmentYears := years), jitter);
  }

  /** A larger jitter never lowers the score. */
  lemma ScoreMonotoneInJitter(a: Applicant, j1: real, j2: real)
    requires j1 <= j2
    ensures CreditScore(a, j1) <= CreditScore(a, j2)
  {
    CreditScoreFollowsTotal(a, j1, a, j2);
  }

  /** Clamping never moves two scores further apart. */
  lemma ClampNonExpansive(m: int, n: int)
    requires m <= n
    ensures 0 <= Clamp(n) - Clamp(m) <= n - m
  {
  }

  /** The jitter drawn from [-25, 25] moves the score by at most 26 points
      from the jitter-free score: 25 from the jitter, 1 from rounding. */
  lemma JitterMovesScoreLittle(a: Applicant, jitter: real)
    requires ValidJitter(jitter)
    ensures -26 <= CreditScore(a, jitter) - CreditScore(a, 0.0) <= 26
  {
    var x, y := RawTotal(a, 0.0), RawTotal(a, jitter);
    assert y == x + jitter;
    var m, n := RoundHalfEven(x), RoundHalfEven(y);
    assert -26 <= n - m <= 26;
    if m <= n {
      ClampNonExpansive(m, n);
    } else {
      ClampNonExpansive(n, m);
    }
  }

  /** With a non-negative rent the affordability ratio never falls as income
      rises. */
  lemma IncomeRatioMonotoneInIncome(i1: real, i2: real, rent: real)
    requires rent >= 0.0 && i1 <= i2
    ensures IncomeRatio(i1, rent) <= IncomeRatio(i2, rent)
  {
    if i1 > rent && i1 > 0.0 {
      assert rent / i1 - rent / i2 == rent * (i2 - i1) / (i1 * i2);
      assert rent * (i2 - i1) >= 0.0 && i1 * i2 > 0.0;
    }
  }

  /** With a non-negative rent, more income never lowers the score. */
  lemma ScoreMonotoneInIncome(a: Applicant, income: real, jitter: real)
    requires a.monthlyRent >= 0.0
    requires a.monthlyIncome <= income
    ensures CreditScore(a, jitter) <= CreditScore(a.(monthlyIncome := income), jitter)
  {
    IncomeRatioMonotoneInIncome(a.monthlyIncome, income, a.monthlyRent);
    CreditScoreFollowsTotal(a, jitter, a.(monthlyIncome := income), jitter);
  }

  /** The affordability ratio never rises with rent. */
  lemma IncomeRatioNonIncreasingInRent(income: real, r1: real, r2: real)
    requires r1 <= r2
    ensures IncomeRatio(income, r2) <= IncomeRatio(income, r1)
  {
    if income > r2 && income > 0.0 {
      assert r1 / income <= r2 / income by {
        assert r2 / income - r1 / income == (r2 - r1) / income;
      }
    }
  }

  /** More rent never raises the score, whatever its sign. */
  lemma ScoreNonIncreasingInRent(a: Applicant, rent: real, jitter: real)
    requires a.monthlyRent <= rent
    ensures CreditScore(a.(monthlyRent := rent), jitter) <= CreditScore(a, jitter)
  {
    IncomeRatioNonIncreasingInRent(a.monthlyIncome, a.monthlyRent, rent);
    CreditScoreFollowsTotal(a.(monthlyRent := rent), jitter, a, jitter);
  }

  /** With a negative rent, raising income can lower the score: the ratio
      `1 - rent / income` then exceeds 1 and shrinks as income grows. */
  lemma NegativeRentBreaksIncomeMonotonicity()
    ensures CreditScore(Applicant(100.0, -100.0, 0.0, 0.0), 0.0) == 552
    ensures CreditScore(Applicant(300.0, -100.0, 0.0, 0.0), 0.0) == 506
  {
    assert RawTotal(Applicant(100.0, -100.0, 0.0, 0.0), 0.0) == 552.0;
    RoundOfInteger(552);
    assert RawTotal(Applicant(300.0, -100.0, 0.0, 0.0), 0.0) == 506.0;
    RoundOfInteger(506);
  }

  /** Every employment of at least 8 years counts the same. */
  lemma EmploymentCapHolds(a: Applicant, years: real, jitter: real)
    requires a.employmentYears >= EmploymentCap && years >= EmploymentCap
    ensures CreditScore(a.(employmentYears := years), jitter) == CreditScore(a, jitter)
  {
    assert RawTotal(a.(employmentYears := years), jitter) == RawTotal(a, jitter);
  }

  /** Twenty years of employment score the same as eight. */
  lemma TwentyYearsLikeEight(a: Applicant, jitter: real)
    ensures CreditScore(a.(employmentYears := 20.0), jitter)
         == CreditScore(a.(employmentYears := 8.0), jitter)
  {
    EmploymentCapHolds(a.(employmentYears := 8.0), 20.0, jitter);
  }

  // ---------------------------------------------------------------------
  // Reading the request

  /** A request whose four keys are absent scores as if every input were 0. */
  lemma AbsentKeysReadAsZero(fields: map<string, Json>)
    requires IncomeKey !in fields && RentKey !in fields
    requires UtilitiesKey !in fields && EmploymentKey !in fields
    ensures ReadApplicant(JObject(fields)) == Ok(Applicant(0.0, 0.0, 0.0, 0.0))
  {
  }

  /** Once the inputs are read, the result is the score of the converted
      inputs. */
  lemma PredictScoresConvertedInputs(data: Json, a: Applicant, jitter: real)
    requires ValidJitter(jitter)
    requires ReadApplicant(data) == Ok(a)
    ensures Predict(data, jitter) == Ok(Score(a, jitter))
  {
  }

  /** A present `null` is an error, not a 0. */
  lemma NullIsNotZero(key: string, jitter: real)
    requires key == IncomeKey || key == RentKey || key == UtilitiesKey || key == EmploymentKey
    requires ValidJitter(jitter)
    ensures Predict(JObject(map[key := JNull]), jitter).Error?
  {
    assert Unconvertible(map[key := JNull], key);
  }

  /** The error reported is the one for income when income fails, whatever
      the other fields hold. */
  lemma IncomeErrorReportedFirst(fields: map<string, Json>, jitter: real)
    requires ValidJitter(jitter)
    requires Unconvertible(fields, IncomeKey)
    ensures Predict(JObject(fields), jitter) == Error(ToFloat(fields[IncomeKey]).message)
  {
  }

  /** A body that is not a dictionary, e.g. a list, is an error. */
  lemma NonObjectIsError(items: seq<Json>, jitter: real)
    requires ValidJitter(jitter)
    ensures Predict(JArray(items), jitter) == Error("'" + "list" + "' object has no attribute 'get'")
  {
  }

  // ---------------------------------------------------------------------
  // Worked examples

  /** Income 5000, rent 1000, 5 utilities, 3 years, no jitter:
      400 + 100 + 60 + 60 + 45 = 665, probability 0.39, Moderate. */
  lemma WorkedExampleScore()
    ensures Score(Applicant(5000.0, 1000.0, 5.0, 3.0), 0.0) == Prediction(665, 0.39, Moderate)
  {
    var a := Applicant(5000.0, 1000.0, 5.0, 3.0);
    assert RawTotal(a, 0.0) == 665.0;
    RoundOfInteger(665);
    assert UnroundedDefaultProbability(665) * 100.0 == 235.0 / 6.0;
    assert RoundHalfEven(235.0 / 6.0) == 39;
  }

  /** The worked example sent as JSON integers. */
  lemma WorkedExample()
    ensures Predict(JObject(map[
        IncomeKey := JInt(5000), RentKey := JInt(1000),
        UtilitiesKey := JInt(5), EmploymentKey := JInt(3)]), 0.0)
      == Ok(Prediction(665, 0.39, Moderate))
  {
    WorkedExampleScore();
  }

  /** The same request with the numbers sent as strings scores the same. */
  lemma WorkedExampleFromStrings()
    ensures Predict(JObject(map[
        IncomeKey := JString("5000"), RentKey := JString("1000"),
        UtilitiesKey := JString("5"), EmploymentKey := JString("3")]), 0.0)
      == Ok(Prediction(665, 0.39, Moderate))
  {
    ReadsNumerals();
    WorkedExampleScore();
  }

  lemma ReadsNumerals()
    ensures ReadApplicant(JObject(map[
        IncomeKey := JString("5000"), RentKey := JString("1000"),
        UtilitiesKey := JString("5"), EmploymentKey := JString("3")]))
      == Ok(Applicant(5000.0, 1000.0, 5.0, 3.0))
  {
    var fields := map[
        IncomeKey := JString("5000"), RentKey := JString("1000"),
        UtilitiesKey := JString("5"), EmploymentKey := JString("3")];
    KeysDistinct();
    assert fields[IncomeKey] == JString("5000");
    assert fields[RentKey] == JString("1000");
    assert fields[UtilitiesKey] == JString("5");
    assert fields[EmploymentKey] == JString("3");
    NumeralsParse();
    ReadsConvertedFields(fields, Applicant(5000.0, 1000.0, 5.0, 3.0));
  }

  lemma KeysDistinct()
    ensures IncomeKey != RentKey && IncomeKey != UtilitiesKey && IncomeKey != EmploymentKey
    ensures RentKey != UtilitiesKey && RentKey != EmploymentKey
    ensures UtilitiesKey != EmploymentKey
  {
    assert |IncomeKey| == 14 && |RentKey| == 12;
    assert |UtilitiesKey| == 17 && |EmploymentKey| == 16;
  }

  /** When each of the four fields converts, the applicant read holds exactly
      the converted values. */
  lemma ReadsConvertedFields(fields: map<string, Json>, a: Applicant)
    requires ReadField(fields, IncomeKey) == Ok(a.monthlyIncome)
    requires ReadField(fields, RentKey) == Ok(a.monthlyRent)
    requires ReadField(fields, UtilitiesKey) == Ok(a.onTimeUtilities)
    requires ReadField(fields, EmploymentKey) == Ok(a.employmentYears)
    ensures ReadApplicant(JObject(fields)) == Ok(a)
  {
  }

  lemma NumeralsParse()
    ensures ParseFloat("5000") == Some(5000.0) && ParseFloat("1000") == Some(1000.0)
    ensures ParseFloat("5") == Some(5.0) && ParseFloat("3") == Some(3.0)
  {
    assert NatToString(5000) == "5000";
    assert NatToString(1000) == "1000";
    assert NatToString(5) == "5";
    assert NatToString(3) == "3";
    ParsesNatToString(5000);
    ParsesNatToString(1000);
    ParsesNatToString(5);
    ParsesNatToString(3);
  }

  /** An empty dictionary passed to the scorer gives the base 400 plus
      jitter: with no jitter, 400, probability 0.83, High. */
  lemma EmptyDictExample()
    ensures Predict(JObject(map[]), 0.0) == Ok(Prediction(400, 0.83, High))
  {
    AbsentKeysReadAsZero(map[]);
    BaselineScore();
  }

  lemma BaselineScore()
    ensures Score(Applicant(0.0, 0.0, 0.0, 0.0), 0.0) == Prediction(400, 0.83, High)
  {
    var a := Applicant(0.0, 0.0, 0.0, 0.0);
    assert RawTotal(a, 0.0) == 400.0;
    RoundOfInteger(400);
    assert UnroundedDefaultProbability(400) * 100.0 == 250.0 / 3.0;
    assert RoundHalfEven(250.0 / 3.0) == 83;
  }
}
