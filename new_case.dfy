/**
 * The sales wizard controller: eight steps in a fixed order, a current step
 * and the case record that the steps fill in through `onNext`.
 */
module Wizard {
  import opened Records

  datatype StepComponent =
    | IdentityValidation | Enrollment | DocumentUpload | CreditValidation
    | ServiceSelection | ContractGeneration | DigitalSignature | CaseComplete

  datatype Step = Step(id: nat, name: string, component: StepComponent)

  /** The step table, in order. */
  const Steps: seq<Step> := [
    Step(1, "Validación de Identidad", IdentityValidation),
    Step(2, "Enrolamiento", Enrollment),
    Step(3, "Recepción de Documentos", DocumentUpload),
    Step(4, "Validación Crediticia", CreditValidation),
    Step(5, "Selección de Servicios", ServiceSelection),
    Step(6, "Generación de Contrato", ContractGeneration),
    Step(7, "Firma Digital", DigitalSignature),
    Step(8, "Cierre", CaseComplete)
  ]

  /** The table numbers its steps 1..8 in order and ends with the closing step. */
  lemma StepTable()
    ensures |Steps| == 8
    ensures forall i :: 0 <= i < |Steps| ==> Steps[i].id == i + 1
    ensures Steps[|Steps| - 1].component == CaseComplete
    ensures forall i :: 0 <= i < |Steps| - 1 ==> Steps[i].component != CaseComplete
  {
  }

  /** `handleNext`'s step change: one forward, with a ceiling at the last step. */
  function NextStep(current: nat): (next: nat)
    requires 1 <= current <= |Steps|
    ensures 1 <= next <= |Steps|
    ensures current < |Steps| ==> next == current + 1
    ensures current == |Steps| ==> next == current
  {
    if current < |Steps| then current + 1 else current
  }

  /** `handleBack`'s step change: one back, with a floor at the first step. */
  function BackStep(current: nat): (back: nat)
    requires 1 <= current <= |Steps|
    ensures 1 <= back <= |Steps|
    ensures current > 1 ==> back == current - 1
    ensures current == 1 ==> back == 1
  {
    if current > 1 then current - 1 else current
  }

  /** Going back after going forward returns to the step one started from, anywhere before the last step. */
  lemma BackUndoesNext(current: nat)
    requires 1 <= current < |Steps|
    ensures BackStep(NextStep(current)) == current
  {
  }

  /** How the progress header shows one step. */
  datatype Indicator = Completed | Current | Pending

  function IndicatorOf(stepId: nat, current: nat): Indicator {
    if stepId < current then Completed
    else if stepId == current then Current
    else Pending
  }

  /** The indicators of the whole table, in order. */
  function Indicators(current: nat): (s: seq<Indicator>)
    ensures |s| == |Steps|
  {
    seq(|Steps|, i requires 0 <= i < |Steps| => IndicatorOf(Steps[i].id, current))
  }

  /** How many entries of `s` equal `x`. */
  function Count(s: seq<Indicator>, x: Indicator): nat {
    if s == [] then 0 else (if s[0] == x then 1 else 0) + Count(s[1..], x)
  }

  /** Counting over a sequence split in two. */
  lemma {:induction false} CountAppend(a: seq<Indicator>, b: seq<Indicator>, x: Indicator)
    ensures Count(a + b, x) == Count(a, x) + Count(b, x)
  {
    if a != [] {
      assert (a + b)[1..] == a[1..] + b;
      CountAppend(a[1..], b, x);
    } else {
      assert a + b == b;
    }
  }

  /** Counting in a sequence whose entries all equal `y`. */
  lemma {:induction false} CountConstant(s: seq<Indicator>, x: Indicator, y: Indicator)
    requires forall i :: 0 <= i < |s| ==> s[i] == y
    ensures Count(s, x) == if x == y then |s| else 0
  {
    if s != [] {
      CountConstant(s[1..], x, y);
    }
  }

  /**
   * On a step in range exactly one step shows as current, the steps before
   * it as completed, and the rest as pending.
   */
  lemma {:induction false} IndicatorCounts(current: nat)
    requires 1 <= current <= |Steps|
    ensures forall i :: 0 <= i < |Steps| ==>
              (Indicators(current)[i] == Current <==> i == current - 1)
    ensures Count(Indicators(current), Current) == 1
    ensures Count(Indicators(current), Completed) == current - 1
    ensures Count(Indicators(current), Pending) == |Steps| - current
  {
    StepTable();
    var s := Indicators(current);
    var before, here, after := s[..current - 1], [s[current - 1]], s[current..];
    assert s == before + here + after;
    CountAppend(before + here, after, Current);
    CountAppend(before, here, Current);
    CountAppend(before + here, after, Completed);
    CountAppend(before, here, Completed);
    CountAppend(before + here, after, Pending);
    CountAppend(before, here, Pending);
    CountConstant(before, Current, Completed);
    CountConstant(before, Completed, Completed);
    CountConstant(before, Pending, Completed);
    CountConstant(after, Current, Pending);
    CountConstant(after, Completed, Pending);
    CountConstant(after, Pending, Pending);
    CountConstant(here, Current, Current);
    CountConstant(here, Completed, Current);
    CountConstant(here, Pending, Current);
  }

  /** The wizard's state: the current step and the case record. */
  class NewCase {
    var currentStep: nat
    var caseData: Record

    /** `steps[currentStep - 1]` is always in bounds. */
    predicate Valid()
      reads this
    {
      1 <= currentStep <= |Steps|
    }

    /** A new wizard starts at step 1 with an empty record. */
    constructor ()
      ensures Valid()
      ensures currentStep == 1 && caseData == map[]
    {
      currentStep := 1;
      caseData := map[];
    }

    /** The component the wizard shows. */
    function CurrentComponent(): StepComponent
      reads this
      requires Valid()
    {
      Steps[currentStep - 1].component
    }

    predicate IsFirstStep()
      reads this
    {
      currentStep == 1
    }

    predicate IsLastStep()
      reads this
    {
      currentStep == |Steps|
    }

    /** `handleNext`: merge the step's data, then advance unless already on the last step. */
    method HandleNext(data: Record)
      requires Valid()
      modifies this
      ensures Valid()
      ensures caseData == Merge(old(caseData), data)
      ensures currentStep == NextStep(old(currentStep))
    {
      caseData := Merge(caseData, data);
      if currentStep < |Steps| {
        currentStep := currentStep + 1;
      }
    }

    /** `handleBack`: step back unless on the first step; the record is kept as it is. */
    method HandleBack()
      requires Valid()
      modifies this
      ensures Valid()
      ensures caseData == old(caseData)
      ensures currentStep == BackStep(old(currentStep))
    {
      if currentStep > 1 {
        currentStep := currentStep - 1;
      }
    }

    /** `handleReset`: back to the first step with an empty record. */
    method HandleReset()
      modifies this
      ensures Valid()
      ensures currentStep == 1 && caseData == map[]
    {
      currentStep := 1;
      caseData := map[];
    }
  }
}
