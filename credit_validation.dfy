/**
 * Step 4 of the wizard: the credit check against the two bureaus, its
 * progress ticker, the advance rule and the outcome shown for each decision.
 */
module CreditValidationStep {
  import opened Wrappers
  import opened Js
  import opened Records
  import Api

  /** `data.creditValidation || null`: a result already held in the case record. */
  function InitialResult(data: Record): (r: Option<Api.CreditResponse>)
    ensures r.Some? <==> "creditValidation" in data && data["creditValidation"].CreditResult?
    ensures r.Some? ==> r.value == data["creditValidation"].credit
  {
    if "creditValidation" in data && data["creditValidation"].CreditResult?
    then Some(data["creditValidation"].credit) else None
  }

  /** The document number sent to the adapter: `undefined` when the record holds none. */
  function RequestedNumber(data: Record): (n: Option<string>)
    ensures n.Some? <==> "documentNumber" in data && data["documentNumber"].Text?
    ensures n.Some? ==> n.value == data["documentNumber"].s
  {
    if "documentNumber" in data && data["documentNumber"].Text? then Some(data["documentNumber"].s)
    else None
  }

  // ---------------------------------------------------------------------------
  // The progress ticker
  // ---------------------------------------------------------------------------

  /** One tick of the interval: ten more, held at 100 once reached. */
  function NextProgress(progress: nat): (next: nat)
    ensures progress >= 100 ==> next == 100
    ensures progress < 100 ==> next == progress + 10
  {
    if progress >= 100 then 100 else progress + 10
  }

  /** The progress after `k` ticks from `progress`. */
  function Ticks(progress: nat, k: nat): nat
    decreases k
  {
    if k == 0 then progress else Ticks(NextProgress(progress), k - 1)
  }

  /** A progress the ticker can show: a multiple of ten up to 100. */
  predicate Reachable(progress: nat) {
    progress <= 100 && progress % 10 == 0
  }

  /** From any reachable value, ticks never go beyond 100 and reach it after enough of them. */
  lemma {:induction false} TicksBounded(progress: nat, k: nat)
    requires Reachable(progress)
    decreases k
    ensures Reachable(Ticks(progress, k))
    ensures Ticks(progress, k) == if progress + 10 * k >= 100 then 100 else progress + 10 * k
  {
    if k > 0 {
      TicksBounded(NextProgress(progress), k - 1);
    }
  }

  /** From a fresh start the bar shows `min(10 k, 100)` after `k` ticks, and stays full from the tenth on. */
  lemma TicksFromZero(k: nat)
    ensures Ticks(0, k) == if k >= 10 then 100 else 10 * k
  {
    TicksBounded(0, k);
  }

  // ---------------------------------------------------------------------------
  // Advance and display
  // ---------------------------------------------------------------------------

  /** What the step passes to `onNext` after an attempt: only a successful approval advances. */
  function Advance(outcome: Option<Api.CreditResponse>): (next: Option<Record>)
    ensures next.Some? <==>
              outcome.Some? && outcome.value.success && outcome.value.data.decision == Api.Approved
    ensures next.Some? ==> next.value == map["creditValidation" := CreditResult(outcome.value)]
  {
    match outcome
    case Some(r) =>
      if r.success && r.data.decision == Api.Approved
      then Some(map["creditValidation" := CreditResult(r)]) else None
    case None => None
  }

  /**
   * In demo mode, the check of the case record's document number advances
   * exactly when the record holds one and the mock score is at least 650.
   */
  lemma DemoAdvance(data: Record, reportDate: string, timestamp: string)
    ensures var r := Api.ValidateCredit(RequestedNumber(data), reportDate, timestamp);
            Advance(Some(r)).Some? <==>
              "documentNumber" in data && data["documentNumber"].Text? && AtLeast(r.data.score, 650)
  {
  }

  /** The failure result never advances. */
  lemma FailureNeverAdvances(timestamp: string)
    ensures Advance(Some(Api.CreditFailure(timestamp))) == None
  {
  }

  datatype Alert = ApprovedAlert | ReviewAlert | RejectedAlert

  /** `getResultAlert`: nothing without a result; otherwise the decision alone picks the alert. */
  function ResultAlert(result: Option<Api.CreditResponse>): (a: Option<Alert>)
    ensures a.None? <==> result.None?
    ensures a == Some(ApprovedAlert) <==> result.Some? && result.value.data.decision == Api.Approved
    ensures a == Some(ReviewAlert) <==> result.Some? && result.value.data.decision == Api.ManualReview
    ensures a == Some(RejectedAlert) <==> result.Some? && result.value.data.decision == Api.Rejected
  {
    match result
    case None => None
    case Some(r) =>
      match r.data.decision
      case Approved => Some(ApprovedAlert)
      case ManualReview => Some(ReviewAlert)
      case Rejected => Some(RejectedAlert)
  }

  datatype ActionButton = ValidateButton | ApprovedButton | EscalateButton | RejectedButton

  /** Which of the action buttons the footer shows. */
  predicate Shows(result: Option<Api.CreditResponse>, button: ActionButton) {
    match button
    case ValidateButton => result.None?
    case ApprovedButton => result.Some? && result.value.data.decision == Api.Approved
    case EscalateButton => result.Some? && result.value.data.decision == Api.ManualReview
    case RejectedButton => result.Some? && result.value.data.decision == Api.Rejected
  }

  /**
   * Exactly one action button is shown: the validate button while there is no
   * result, so a held result can never be re-validated, and otherwise the one
   * that matches the alert.
   */
  lemma ExactlyOneButton(result: Option<Api.CreditResponse>)
    ensures exists b :: Shows(result, b)
    ensures forall b, c :: Shows(result, b) && Shows(result, c) ==> b == c
    ensures result.Some? ==> !Shows(result, ValidateButton)
  {
    var b :=
      if result.None? then ValidateButton
      else if result.value.data.decision == Api.Approved then ApprovedButton
      else if result.value.data.decision == Api.ManualReview then EscalateButton
      else RejectedButton;
    assert Shows(result, b);
  }

  class CreditValidation {
    const data: Record
    var isValidating: bool
    var validationResult: Option<Api.CreditResponse>
    var progress: nat

    predicate Valid()
      reads this
    {
      Reachable(progress)
    }

    constructor (data: Record)
      ensures Valid()
      ensures this.data == data
      ensures !isValidating && validationResult == InitialResult(data) && progress == 0
    {
      this.data := data;
      isValidating := false;
      validationResult := InitialResult(data);
      progress := 0;
    }

    /** One run of the interval callback; the interval exists only while validating. */
    method Tick()
      requires Valid()
      modifies this
      ensures Valid()
      ensures progress == if isValidating then NextProgress(old(progress)) else old(progress)
      ensures isValidating == old(isValidating) && validationResult == old(validationResult)
    {
      if isValidating {
        progress := if progress >= 100 then 100 else progress + 10;
      }
    }

    /** The interval firing `k` times while the check is outstanding. */
    method RunInterval(k: nat)
      requires Valid() && isValidating
      modifies this
      ensures Valid() && isValidating
      ensures progress == Ticks(old(progress), k)
      ensures validationResult == old(validationResult)
    {
      var fired := 0;
      while fired < k
        invariant 0 <= fired <= k
        invariant Valid() && isValidating && validationResult == old(validationResult)
        invariant Ticks(old(progress), k) == Ticks(progress, k - fired)
      {
        Tick();
        fired := fired + 1;
      }
    }

    /** The validate button: shown while there is no result, disabled while validating. */
    predicate ValidateEnabled()
      reads this
    {
      validationResult.None? && !isValidating
    }

    /**
     * `handleValidate` up to its `await`: the bar restarts from 0 and the
     * adapter is asked about the record's document number.
     */
    method StartValidate() returns (request: Option<string>)
      requires Valid() && ValidateEnabled()
      modifies this
      ensures Valid() && isValidating && progress == 0 && !ValidateEnabled()
      ensures validationResult == old(validationResult)
      ensures request == RequestedNumber(data)
    {
      isValidating := true;
      progress := 0;
      request := RequestedNumber(data);
    }

    /**
     * `handleValidate` after its `await`: the response (or, when the call
     * throws, `outcome == None`, the failure result) is installed and the
     * step advances only on a successful approval.
     */
    method FinishValidate(outcome: Option<Api.CreditResponse>, timestamp: string)
      returns (next: Option<Record>)
      requires Valid() && isValidating
      modifies this
      ensures Valid() && !isValidating && progress == old(progress)
      ensures validationResult == Some(outcome.GetOr(Api.CreditFailure(timestamp)))
      ensures next == Advance(outcome)
      ensures next.Some? ==> ResultAlert(validationResult) == Some(ApprovedAlert)
      ensures !Shows(validationResult, ValidateButton)
    {
      isValidating := false;
      validationResult := Some(outcome.GetOr(Api.CreditFailure(timestamp)));
      next := Advance(outcome);
    }

    /**
     * A whole click: start, `k` ticks of the interval while the adapter
     * answers, finish; the bar then shows `min(10 k, 100)`.
     */
    method HandleValidate(k: nat, outcome: Option<Api.CreditResponse>, timestamp: string)
      returns (request: Option<string>, next: Option<Record>)
      requires Valid() && ValidateEnabled()
      modifies this
      ensures Valid() && !isValidating
      ensures request == RequestedNumber(data)
      ensures progress == if k >= 10 then 100 else 10 * k
      ensures validationResult == Some(outcome.GetOr(Api.CreditFailure(timestamp)))
      ensures next == Advance(outcome)
    {
      request := StartValidate();
      RunInterval(k);
      TicksFromZero(k);
      next := FinishValidate(outcome, timestamp);
    }
  }
}
