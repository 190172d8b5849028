/**
 * The simulated branch of the external-service adapters: the identity check
 * against the national registry, the mock person generator, the mock credit
 * scorer and the score -> (rating, decision) table shared with the production
 * path, the failure fallback of the credit check, and the display labels.
 *
 * `Math.random()` draws, clock values and the production HTTP replies are
 * parameters: a draw `r` in [0, 1) scaled by `n` and floored becomes an
 * integer `k` with `0 <= k < n`.
 */
module Api {
  import opened Wrappers
  import opened Js

  // ---------------------------------------------------------------------------
  // Identity validation
  // ---------------------------------------------------------------------------

  datatype IdentityRequest = IdentityRequest(
    documentType: string,
    documentNumber: string,
    documentPhoto: Option<string>,
    facePhoto: Option<string>)

  datatype PersonData = PersonData(
    documentNumber: string,
    firstName: string,
    lastName: string,
    birthDate: string,
    expeditionDate: string,
    expeditionPlace: string,
    gender: string,
    bloodType: Option<string>,
    biometricMatch: bool,
    biometricScore: int)

  datatype IdentityResponse = IdentityResponse(
    success: bool,
    valid: bool,
    message: string,
    data: Option<PersonData>,
    provider: string,
    responseTime: int,
    timestamp: string)

  /** `/^\d{6,10}$/`: six to ten ASCII digits and nothing else. */
  predicate IsValidDocumentFormat(documentNumber: string) {
    6 <= |documentNumber| <= 10 && AllDecimal(documentNumber)
  }

  /**
   * The biometric score for one draw `k = floor(r * 30)`: a match scores
   * `floor(r * 15) + 85`, which is `k / 2 + 85`; a mismatch scores `k + 40`.
   */
  function BiometricScore(biometricMatch: bool, k: nat): (score: int)
    requires k < 30
    ensures biometricMatch ==> 85 <= score <= 99
    ensures !biometricMatch ==> 40 <= score <= 69
  {
    if biometricMatch then k / 2 + 85 else k + 40
  }

  /** The seed of the mock generators: `parseInt(documentNumber.substring(0, 6))`. */
  function Seed(documentNumber: string): Num {
    ParseInt(Prefix(documentNumber, 6))
  }

  /** A well-formed document number seeds the generators with the value of its first six digits. */
  lemma SeedOfValidNumber(documentNumber: string)
    requires IsValidDocumentFormat(documentNumber)
    ensures AllDecimal(documentNumber[..6])
    ensures Seed(documentNumber) == Int(DecimalValue(documentNumber[..6]))
    ensures 0 <= Seed(documentNumber).v < 1000000
  {
    var p := documentNumber[..6];
    assert Prefix(documentNumber, 6) == p;
    ParseIntOfDigits(p);
    DecimalBound(p);
  }

  /** A string of k decimal digits denotes a value below 10^k. */
  lemma {:induction false} DecimalBound(s: string)
    requires AllDecimal(s)
    ensures DecimalValue(s) < Pow10(|s|)
  {
    if s != [] {
      var s' := s[..|s| - 1];
      DecimalBound(s');
      assert DecimalValue(s) == DecimalValue(s') * 10 + DigitValue(s[|s| - 1], 10);
    }
  }

  /**
   * `validateIdentity` in demo mode. `biometricMatch` is the draw
   * `Math.random() > 0.1`, `k` the second draw scaled by 30; `responseTime`
   * and `timestamp` come from the clock.
   */
  function ValidateIdentity(request: IdentityRequest, biometricMatch: bool, k: nat,
                            responseTime: int, timestamp: string): (r: IdentityResponse)
    requires k < 30
    ensures !IsValidDocumentFormat(request.documentNumber) ==> !r.success && !r.valid && r.data.None?
    ensures IsValidDocumentFormat(request.documentNumber) && !biometricMatch ==>
              r.success && !r.valid && r.data.None?
    ensures r.valid <==> IsValidDocumentFormat(request.documentNumber) && biometricMatch
    ensures r.data.Some? <==> r.valid
    ensures r.valid ==> r.success && r.data.value.documentNumber == request.documentNumber
                        && r.data.value.biometricMatch && 85 <= r.data.value.biometricScore <= 99
  {
    var score := BiometricScore(biometricMatch, k);
    if !IsValidDocumentFormat(request.documentNumber) then
      IdentityResponse(false, false, "Formato de documento inválido", None,
                       "Registraduría Nacional", responseTime, timestamp)
    else if !biometricMatch then
      IdentityResponse(true, false, "Discrepancia en verificación biométrica", None,
                       "ID-TRUE / Registraduría Nacional", responseTime, timestamp)
    else
      SeedOfValidNumber(request.documentNumber);
      var person := MockPerson(Seed(request.documentNumber).v);
      IdentityResponse(true, true, "Identidad verificada correctamente (MODO DEMO)",
        Some(PersonData(request.documentNumber, person.firstName, person.lastName,
                        person.birthDate, person.expeditionDate, person.expeditionPlace,
                        person.gender, Some(person.bloodType), true, score)),
        "ID-TRUE / Registraduría Nacional (DEMO)", responseTime, timestamp)
  }

  // ---------------------------------------------------------------------------
  // Mock person generator
  // ---------------------------------------------------------------------------

  datatype MockPersonData = MockPersonData(
    firstName: string,
    lastName: string,
    birthDate: string,
    expeditionDate: string,
    expeditionPlace: string,
    gender: string,
    bloodType: string)

  const Names: seq<string> := ["María", "Juan", "Ana", "Carlos", "Laura", "Pedro", "Sofía", "Miguel"]
  const LastNames: seq<string> := ["García", "Rodríguez", "Martínez", "López", "González", "Pérez", "Sánchez"]
  const Cities: seq<string> := ["Bogotá D.C.", "Medellín", "Cali", "Barranquilla", "Cartagena"]
  const BloodTypes: seq<string> := ["O+", "A+", "B+", "AB+", "O-", "A-"]

  /** `generateMockPersonData` for a seed read from a well-formed number (never NaN, never negative). */
  function MockPerson(seed: nat): MockPersonData {
    MockPersonData(
      Names[seed % |Names|],
      LastNames[seed % |LastNames|] + " " + LastNames[(seed + 1) % |LastNames|],
      "19" + DecimalString(70 + seed % 30) + "-" + Padded(seed % 12 + 1, 2) + "-" + Padded(seed % 28 + 1, 2),
      "20" + DecimalString(10 + seed % 15) + "-" + Padded(seed % 12 + 1, 2) + "-" + Padded(seed % 28 + 1, 2),
      Cities[seed % |Cities|],
      if seed % 2 == 0 then "M" else "F",
      BloodTypes[seed % |BloodTypes|])
  }

  /**
   * The person's fields are table entries chosen by the seed: the gender is
   * "M" exactly for an even seed, and the two surnames are always different.
   */
  lemma MockPersonFields(seed: nat)
    ensures MockPerson(seed).firstName in Names
    ensures MockPerson(seed).expeditionPlace in Cities
    ensures MockPerson(seed).bloodType in BloodTypes
    ensures MockPerson(seed).gender == "M" <==> seed % 2 == 0
    ensures MockPerson(seed).gender == "M" || MockPerson(seed).gender == "F"
    ensures exists i, j :: 0 <= i < |LastNames| && 0 <= j < |LastNames| && i != j
                           && LastNames[i] != LastNames[j]
                           && MockPerson(seed).lastName == LastNames[i] + " " + LastNames[j]
  {
    var i, j := seed % 7, (seed + 1) % 7;
    assert i != j;
    assert LastNames[i] != LastNames[j] by {
      DistinctLastNames(i, j);
    }
  }

  /** The surname table has no repeated entry. */
  lemma DistinctLastNames(i: nat, j: nat)
    requires i < |LastNames| && j < |LastNames| && i != j
    ensures LastNames[i] != LastNames[j]
  {
    if LastNames[i][0] == LastNames[j][0] {
      assert LastNames[i][1] != LastNames[j][1];
    }
  }

  // ---------------------------------------------------------------------------
  // Dates as `YYYY-MM-DD` text
  // ---------------------------------------------------------------------------

  datatype Date = Date(year: nat, month: nat, day: nat)

  /** Reads `YYYY-MM-DD`: four digits, a dash, two digits, a dash, two digits. */
  function ParseDate(s: string): Option<Date> {
    if |s| == 10 && s[4] == '-' && s[7] == '-'
       && AllDecimal(s[..4]) && AllDecimal(s[5..7]) && AllDecimal(s[8..])
    then Some(Date(DecimalValue(s[..4]), DecimalValue(s[5..7]), DecimalValue(s[8..])))
    else None
  }

  predicate IsLeapYear(y: nat) {
    (y % 4 == 0 && y % 100 != 0) || y % 400 == 0
  }

  function DaysInMonth(year: nat, month: nat): nat
    requires 1 <= month <= 12
  {
    if month == 2 then (if IsLeapYear(year) then 29 else 28)
    else if month == 4 || month == 6 || month == 9 || month == 11 then 30
    else 31
  }

  /** A day that exists in the Gregorian calendar. */
  predicate IsCalendarDate(d: Date) {
    1 <= d.month <= 12 && 1 <= d.day <= DaysInMonth(d.year, d.month)
  }

  /** A two-digit number renders as two characters. */
  lemma TwoDigitString(n: nat)
    requires 10 <= n < 100
    ensures |DecimalString(n)| == 2
  {
    assert DecimalString(n) == DecimalString(n / 10) + [DigitChar(n % 10)];
  }

  /** The text `CC` + `YY` + `-MM-DD` built by the generator reads back as its date. */
  lemma {:induction false} GeneratedDateParses(century: string, c: nat, yy: nat, month: nat, day: nat)
    requires century == DecimalString(c) && 10 <= c < 100 && 10 <= yy < 100
    requires 1 <= month < 100 && 1 <= day < 100
    ensures ParseDate(century + DecimalString(yy) + "-" + Padded(month, 2) + "-" + Padded(day, 2))
            == Some(Date(c * 100 + yy, month, day))
  {
    TwoDigitString(c);
    TwoDigitString(yy);
    DecimalRoundTrip(c);
    DecimalRoundTrip(yy);
    var y := century + DecimalString(yy);
    var m := Padded(month, 2);
    var d := Padded(day, 2);
    var s := y + "-" + m + "-" + d;
    DecimalConcat(century, DecimalString(yy));
    assert s[..4] == y;
    assert s[5..7] == m;
    assert s[8..] == d;
  }

  /**
   * The mock birth date is a real calendar date in 1970-1999 and the mock
   * expedition date a real calendar date in 2010-2024, with month 01-12 and
   * day 01-28 shared between them.
   */
  lemma MockDatesAreCalendarDates(seed: nat)
    ensures var b := ParseDate(MockPerson(seed).birthDate);
            b.Some? && IsCalendarDate(b.value) && 1970 <= b.value.year <= 1999
            && b.value.day <= 28
    ensures var e := ParseDate(MockPerson(seed).expeditionDate);
            e.Some? && IsCalendarDate(e.value) && 2010 <= e.value.year <= 2024
    ensures ParseDate(MockPerson(seed).birthDate).value.month
            == ParseDate(MockPerson(seed).expeditionDate).value.month
  {
    assert DecimalString(19) == "19";
    assert DecimalString(20) == "20";
    GeneratedDateParses("19", 19, 70 + seed % 30, seed % 12 + 1, seed % 28 + 1);
    GeneratedDateParses("20", 20, 10 + seed % 15, seed % 12 + 1, seed % 28 + 1);
  }

  // ---------------------------------------------------------------------------
  // Credit validation
  // ---------------------------------------------------------------------------

  datatype Rating = Excellent | Good | Fair | Poor | VeryPoor
  datatype Decision = Approved | ManualReview | Rejected

  datatype Bureau = Bureau(name: string, score: Num, reportDate: string, accounts: Num, delinquencies: Num)

  datatype CreditSummary = CreditSummary(
    totalAccounts: Num,
    activeAccounts: Num,
    totalDebt: Num,
    monthlyPayment: Num,
    delinquentAccounts: Num,
    latePayments: Num)

  datatype CreditData = CreditData(
    score: Num,
    rating: Rating,
    decision: Decision,
    bureaus: seq<Bureau>,
    summary: CreditSummary)

  datatype CreditResponse = CreditResponse(success: bool, data: CreditData, timestamp: string)

  /** The score table of the mock scorer; a NaN score fails every comparison and lands in the last row. */
  function Classify(score: Num): (rd: (Rating, Decision))
    ensures rd.0 == Excellent <==> AtLeast(score, 750)
    ensures rd.0 == Good <==> AtLeast(score, 700) && !AtLeast(score, 750)
    ensures rd.0 == Fair <==> AtLeast(score, 650) && !AtLeast(score, 700)
    ensures rd.0 == Poor <==> AtLeast(score, 580) && !AtLeast(score, 650)
    ensures rd.0 == VeryPoor <==> !AtLeast(score, 580)
    ensures rd.1 == Approved <==> AtLeast(score, 650)
    ensures rd.1 == ManualReview <==> AtLeast(score, 580) && !AtLeast(score, 650)
    ensures rd.1 == Rejected <==> !AtLeast(score, 580)
    ensures rd.1 == DecisionFor(rd.0)
  {
    if AtLeast(score, 750) then (Excellent, Approved)
    else if AtLeast(score, 700) then (Good, Approved)
    else if AtLeast(score, 650) then (Fair, Approved)
    else if AtLeast(score, 580) then (Poor, ManualReview)
    else (VeryPoor, Rejected)
  }

  /** The decision each rating carries in the table. */
  function DecisionFor(rating: Rating): Decision {
    match rating
    case Excellent | Good | Fair => Approved
    case Poor => ManualReview
    case VeryPoor => Rejected
  }

  /** Ratings from worst (0) to best (4). */
  function RatingRank(rating: Rating): nat {
    match rating
    case VeryPoor => 0
    case Poor => 1
    case Fair => 2
    case Good => 3
    case Excellent => 4
  }

  /** A higher score never gets a worse rating. */
  lemma ClassifyMonotone(a: int, b: int)
    requires a <= b
    ensures RatingRank(Classify(Int(a)).0) <= RatingRank(Classify(Int(b)).0)
  {
  }

  /**
   * The production path's own copy of the table, over the rounded average
   * of the two bureau scores.
   */
  function ProductionClassify(averageScore: int): (Rating, Decision) {
    if averageScore >= 750 then (Excellent, Approved)
    else if averageScore >= 700 then (Good, Approved)
    else if averageScore >= 650 then (Fair, Approved)
    else if averageScore >= 580 then (Poor, ManualReview)
    else (VeryPoor, Rejected)
  }

  /** Both copies of the table agree on every integer score. */
  lemma ProductionUsesSameTable(averageScore: int)
    ensures ProductionClassify(averageScore) == Classify(Int(averageScore))
  {
  }

  /** The mock score: `500 + seed % 300`, pulled under 750 and, in theory, over 450. */
  function MockScore(seed: Num): (score: Num)
    ensures score.NaN? <==> seed.NaN?
    ensures seed.Int? && seed.v >= 0 ==> 500 <= score.v <= 750
    ensures seed.Int? && seed.v < 0 ==> 300 < score.v <= 500
  {
    match seed
    case NaN => NaN
    case Int(s) =>
      var first := 500 + Rem(s, 300);
      var capped := if first > 750 then 750 - Rem(s, 100) else first;
      Int(if capped < 450 then 450 + Rem(s, 150) else capped)
  }

  /** A negative seed (a document starting with '-') does reach the `< 450` correction. */
  lemma NegativeSeedScore()
    ensures MockScore(Int(-99999)) == Int(351)
  {
  }

  /** `generateMockCreditData` for a parsed seed; `reportDate` is today's date from the clock. */
  function MockCredit(seed: Num, reportDate: string): CreditData {
    var score := MockScore(seed);
    var (rating, decision) := Classify(score);
    CreditData(
      score, rating, decision,
      [ Bureau("DataCrédito", AddN(Plus(score, RemN(seed, 20)), -10), reportDate,
               AddN(RemN(seed, 8), 3),
               if Below(score, 650) then RemN(seed, 3) else Int(0)),
        Bureau("TransUnion", AddN(Plus(score, RemN(AddN(seed, 5), 20)), -10), reportDate,
               AddN(RemN(seed, 6), 2),
               if Below(score, 600) then RemN(seed, 2) else Int(0)) ],
      CreditSummary(
        AddN(RemN(seed, 10), 5),
        AddN(RemN(seed, 5), 3),
        MulN(RemN(seed, 50), 1000000),
        MulN(RemN(seed, 10), 100000),
        if Below(score, 650) then RemN(seed, 2) else Int(0),
        if Below(score, 700) then RemN(seed, 5) else Int(0)))
  }

  /**
   * For a non-negative seed both bureau scores lie within ten points of the
   * consolidated score, and the decision is approval exactly from 650 up.
   */
  lemma MockCreditBureaus(seed: nat, reportDate: string)
    ensures var c := MockCredit(Int(seed), reportDate);
            |c.bureaus| == 2
            && c.score.v - 10 <= c.bureaus[0].score.v <= c.score.v + 9
            && c.score.v - 10 <= c.bureaus[1].score.v <= c.score.v + 9
            && (c.decision == Approved <==> c.score.v >= 650)
  {
  }

  /** A NaN seed (no leading digits) gives a NaN score, which the table rejects, and no delinquencies. */
  lemma MockCreditOfNaN(reportDate: string)
    ensures var c := MockCredit(NaN, reportDate);
            c.score.NaN? && c.rating == VeryPoor && c.decision == Rejected
            && c.bureaus[0].delinquencies == Int(0) && c.summary.latePayments == Int(0)
  {
  }

  /** The response installed when the credit check fails: score 0, rejected, no bureaus, all-zero summary. */
  function CreditFailure(timestamp: string): CreditResponse {
    CreditResponse(false,
      CreditData(Int(0), VeryPoor, Rejected, [],
        CreditSummary(Int(0), Int(0), Int(0), Int(0), Int(0), Int(0))),
      timestamp)
  }

  /**
   * `validateCredit` in demo mode. An absent document number makes
   * `substring` throw, which the adapter turns into the failure response.
   */
  function ValidateCredit(documentNumber: Option<string>, reportDate: string, timestamp: string): (r: CreditResponse)
    ensures r.success <==> documentNumber.Some?
    ensures documentNumber.None? ==> r.data.score == Int(0) && r.data.decision == Rejected
                                     && r.data.rating == VeryPoor && r.data.bureaus == []
    ensures r.success ==> (r.data.decision == Approved <==> AtLeast(r.data.score, 650))
    ensures r.success ==> |r.data.bureaus| == 2
  {
    match documentNumber
    case None => CreditFailure(timestamp)
    case Some(d) => CreditResponse(true, MockCredit(Seed(d), reportDate), timestamp)
  }

  // ---------------------------------------------------------------------------
  // Labels
  // ---------------------------------------------------------------------------

  function RatingName(rating: Rating): string {
    match rating
    case Excellent => "excellent"
    case Good => "good"
    case Fair => "fair"
    case Poor => "poor"
    case VeryPoor => "very-poor"
  }

  function DecisionName(decision: Decision): string {
    match decision
    case Approved => "approved"
    case ManualReview => "manual-review"
    case Rejected => "rejected"
  }

  /** `getRatingLabel`: the Spanish label of a known rating, or the text itself. */
  function RatingLabel(rating: string): string {
    if rating == "excellent" then "Excelente"
    else if rating == "good" then "Bueno"
    else if rating == "fair" then "Regular"
    else if rating == "poor" then "Bajo"
    else if rating == "very-poor" then "Muy Bajo"
    else rating
  }

  /** `getDecisionLabel`: the Spanish label of a known decision, or the text itself. */
  function DecisionLabel(decision: string): string {
    if decision == "approved" then "Aprobado"
    else if decision == "manual-review" then "Revisión Manual"
    else if decision == "rejected" then "Rechazado"
    else decision
  }

  /** Different ratings and different decisions are shown with different labels. */
  lemma LabelsDistinguish(a: Rating, b: Rating, x: Decision, y: Decision)
    ensures RatingLabel(RatingName(a)) == RatingLabel(RatingName(b)) ==> a == b
    ensures DecisionLabel(DecisionName(x)) == DecisionLabel(DecisionName(y)) ==> x == y
  {
  }
}
