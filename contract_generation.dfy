/**
 * Step 6 of the wizard: generating the e-contract record once, and passing
 * it on.
 */
module ContractGenerationStep {
  import opened Wrappers
  import opened Js
  import opened Records

  const ContractPrefix: string := "CONT-2025-"
  const Template: string := "Contrato Servicios Telco v3.2"
  const PdfUrl: string := "/contracts/sample.pdf"
  const HashPrefix: string := "sha256:"

  /**
   * The contract number for the random draw `k = floor(random * 10000)`:
   * the prefix and four zero-padded digits that read back as `k`.
   */
  function ContractNumber(k: nat): (s: string)
    requires k < 10000
    ensures |s| == 14 && s[..10] == ContractPrefix
    ensures AllDecimal(s[10..]) && DecimalValue(s[10..]) == k
  {
    var digits := Padded(k, 4);
    assert (ContractPrefix + digits)[10..] == digits;
    ContractPrefix + digits
  }

  /** Different draws give different contract numbers. */
  lemma ContractNumberInjective(a: nat, b: nat)
    requires a < 10000 && b < 10000
    ensures ContractNumber(a) == ContractNumber(b) <==> a == b
  {
  }

  /** The record `handleGenerate` builds from the draw, the clock and the random hash tail. */
  function NewContract(k: nat, generatedAt: string, hashTail: string): (c: Contract)
    requires k < 10000
    ensures c.template == Template && c.pdfUrl == PdfUrl
    ensures |c.hash| == |HashPrefix| + |hashTail|
    ensures c.hash[..|HashPrefix|] == HashPrefix && c.hash[|HashPrefix|..] == hashTail
    ensures c.contractNumber == ContractNumber(k) && c.generatedAt == generatedAt
  {
    Contract(ContractNumber(k), generatedAt, Template, PdfUrl, HashPrefix + hashTail)
  }

  /** `data.contract || null`. */
  function InitialContract(data: Record): (c: Option<Contract>)
    ensures c.Some? <==> "contract" in data && data["contract"].ContractDoc?
    ensures c.Some? ==> c.value == data["contract"].contract
  {
    if "contract" in data && data["contract"].ContractDoc? then Some(data["contract"].contract) else None
  }

  /** `handleContinue`'s payload: `{ contract }`, `null` when there is none. */
  function ContinuePayload(contract: Option<Contract>): Record {
    map["contract" := match contract case Some(c) => ContractDoc(c) case None => Null]
  }

  /** Going back after continuing and returning shows the same contract, so it is not generated again. */
  lemma ContractKept(data: Record, c: Contract)
    ensures InitialContract(Merge(data, ContinuePayload(Some(c)))) == Some(c)
  {
  }

  class ContractGeneration {
    var isGenerating: bool
    var contract: Option<Contract>

    constructor (data: Record)
      ensures !isGenerating && contract == InitialContract(data)
    {
      isGenerating := false;
      contract := InitialContract(data);
    }

    /** The generate button is shown only while there is no contract. */
    predicate GenerateShown()
      reads this
    {
      contract.None?
    }

    /** ... and is disabled while generating. */
    predicate GenerateEnabled()
      reads this
    {
      contract.None? && !isGenerating
    }

    /** Continue is shown only once a contract exists, never beside the generate button. */
    predicate ContinueShown()
      reads this
    {
      contract.Some?
    }

    /** `handleGenerate` up to its `await`: generation starts and the button is disabled. */
    method StartGenerate()
      requires GenerateEnabled()
      modifies this
      ensures isGenerating && contract == old(contract)
      ensures GenerateShown() && !GenerateEnabled() && !ContinueShown()
    {
      isGenerating := true;
    }

    /**
     * `handleGenerate` after its `await`: the contract built from the draw
     * is set and generation ends; the generate button gives way to continue.
     */
    method FinishGenerate(k: nat, generatedAt: string, hashTail: string)
      requires k < 10000 && isGenerating
      modifies this
      ensures contract == Some(NewContract(k, generatedAt, hashTail))
      ensures !isGenerating && ContinueShown() && !GenerateShown()
    {
      contract := Some(NewContract(k, generatedAt, hashTail));
      isGenerating := false;
    }

    method HandleContinue() returns (payload: Record)
      ensures payload == ContinuePayload(contract)
      ensures ContinueShown() ==> payload["contract"] == ContractDoc(contract.value)
    {
      payload := ContinuePayload(contract);
    }
  }
}
