/**
 * The case record the sales wizard accumulates: a string-keyed map whose
 * values are whatever the steps pass to `onNext`, together with the value
 * entities that travel through it (the generated contract and the chosen
 * catalogue item).
 */
module Records {
  import opened Wrappers
  import Api

  /** The generated e-contract. */
  datatype Contract = Contract(
    contractNumber: string,
    generatedAt: string,
    template: string,
    pdfUrl: string,
    hash: string)

  /** One entry of the service catalogue: an individual service or a combo of services. */
  datatype CatalogItem =
    | Service(id: string, name: string, description: string, price: nat,
              features: seq<string>, popular: bool)
    | Combo(id: string, name: string, description: string, services: seq<string>,
            price: nat, originalPrice: nat, features: seq<string>, popular: bool,
            badge: string)

  /** A value stored in the case record. */
  datatype Value =
    | Text(s: string)
    | Flag(b: bool)
    | Number(n: int)
    | Null
    | Fields(fields: map<string, Value>)
    | IdentityResult(identity: Api.IdentityResponse)
    | CreditResult(credit: Api.CreditResponse)
    | ContractDoc(contract: Contract)
    | Item(item: CatalogItem)
    | Signature(signedAt: string, otp: string)

  type Record = map<string, Value>

  /** JavaScript truthiness of a stored value: empty text, `false`, `0` and `null` are falsy. */
  predicate Truthy(v: Value) {
    match v
    case Text(s) => s != ""
    case Flag(b) => b
    case Number(n) => n != 0
    case Null => false
    case _ => true
  }

  /** `{ ...base, ...partial }`: every key of `partial` takes its new value, every other key keeps its old one. */
  function Merge(base: Record, partial: Record): (r: Record)
    ensures r.Keys == base.Keys + partial.Keys
    ensures forall k :: k in partial ==> r[k] == partial[k]
    ensures forall k :: k in base && k !in partial ==> r[k] == base[k]
  {
    base + partial
  }

  /** `data[key] || fallback` for a text field: the stored text when it is non-empty. */
  function TextOr(data: Record, key: string, fallback: string): (s: string)
    ensures key in data && data[key].Text? && data[key].s != "" ==> s == data[key].s
    ensures !(key in data && data[key].Text? && data[key].s != "") ==> s == fallback
  {
    if key in data && data[key].Text? && data[key].s != "" then data[key].s else fallback
  }

  /** `data[key] || null` for a text field. */
  function TextOrNull(data: Record, key: string): (o: Option<string>)
    ensures o.Some? <==> key in data && data[key].Text? && data[key].s != ""
    ensures o.Some? ==> o.value == data[key].s
  {
    if key in data && data[key].Text? && data[key].s != "" then Some(data[key].s) else None
  }

  /** A text that may be absent, as a record value: `null` when absent. */
  function OptionalText(o: Option<string>): Value {
    match o
    case Some(s) => Text(s)
    case None => Null
  }

  /** Reading back an optional text written with `OptionalText` gives it again, when it is non-empty or absent. */
  lemma OptionalTextRoundTrip(data: Record, key: string, o: Option<string>)
    requires o.None? || o.value != ""
    ensures TextOrNull(data[key := OptionalText(o)], key) == o
  {
  }
}
