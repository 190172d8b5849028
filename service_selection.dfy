/**
 * Step 5 of the wizard: the catalogue of individual services and combos,
 * the single current choice, the total shown for it and the payload passed
 * on when the agent continues.
 */
module ServiceSelectionStep {
  import opened Wrappers
  import opened Records

  const IndividualServices: seq<CatalogItem> := [
    Service("telefonia", "Telefonía Móvil", "Plan móvil con minutos ilimitados", 45000,
            ["Minutos ilimitados", "5GB de datos", "SMS ilimitados", "Llamadas nacionales"], false),
    Service("internet", "Internet Fibra Óptica", "Conexión de alta velocidad", 80000,
            ["Velocidad 100 Mbps", "Instalación gratuita", "Router WiFi incluido", "Soporte técnico 24/7"], true),
    Service("tv", "TV por Cable", "Entretenimiento para toda la familia", 55000,
            ["120+ canales HD", "Canales premium", "Grabación en la nube", "Control parental"], false)
  ]

  const Combos: seq<CatalogItem> := [
    Combo("duo-internet-telefonia", "Dúo Digital", "Internet + Telefonía", ["internet", "telefonia"],
          110000, 125000,
          ["Internet 100 Mbps", "Plan móvil 5GB", "Minutos ilimitados", "15% descuento"], false, "15% OFF"),
    Combo("duo-internet-tv", "Dúo Entretenimiento", "Internet + TV", ["internet", "tv"],
          120000, 135000,
          ["Internet 100 Mbps", "120+ canales HD", "Router WiFi gratis", "15% descuento"], false, "15% OFF"),
    Combo("combo-triple", "Combo Triple", "Internet + TV + Telefonía", ["internet", "tv", "telefonia"],
          160000, 180000,
          ["Internet 200 Mbps", "150+ canales HD", "Plan móvil 10GB", "Instalación gratis"], true, "20% OFF"),
    Combo("combo-triple-plus", "Combo Triple Plus", "Paquete premium todo incluido",
          ["internet", "tv", "telefonia"], 220000, 260000,
          ["Internet 500 Mbps", "200+ canales HD + Premium", "Plan móvil 20GB", "Netflix Basic incluido",
           "Soporte prioritario"], false, "PREMIUM")
  ]

  /** `[...individualServices, ...combos]`. */
  function Catalog(): seq<CatalogItem> {
    IndividualServices + Combos
  }

  /** `items.find(s => s.id === id)`: the first item with that id. */
  function Find(items: seq<CatalogItem>, id: string): (r: Option<CatalogItem>)
    ensures r.None? <==> forall i :: 0 <= i < |items| ==> items[i].id != id
    ensures r.Some? ==> r.value in items && r.value.id == id
  {
    if items == [] then None
    else if items[0].id == id then Some(items[0])
    else Find(items[1..], id)
  }

  /** The catalogue holds three services and four combos, and its seven ids are distinct. */
  lemma CatalogShape()
    ensures |IndividualServices| == 3 && |Combos| == 4 && |Catalog()| == 7
    ensures forall i :: 0 <= i < 3 ==> IndividualServices[i].Service?
    ensures forall i :: 0 <= i < 4 ==> Combos[i].Combo?
    ensures forall i, j :: 0 <= i < j < |Catalog()| ==> Catalog()[i].id != Catalog()[j].id
  {
  }

  /** With distinct ids, looking an item's id up finds that item. */
  lemma FindsEachItem(i: nat)
    requires i < |Catalog()|
    ensures Find(Catalog(), Catalog()[i].id) == Some(Catalog()[i])
  {
    CatalogShape();
    var c := Catalog();
    var r := Find(c, c[i].id);
    var k :| 0 <= k < |c| && c[k] == r.value;
  }

  /** The price of an individual service, by id (0 when there is none). */
  function ServicePrice(id: string): nat {
    match Find(IndividualServices, id)
    case Some(s) => s.price
    case None => 0
  }

  function SumPrices(ids: seq<string>): nat {
    if ids == [] then 0 else ServicePrice(ids[0]) + SumPrices(ids[1..])
  }

  /** The three individual prices, looked up by id. */
  lemma ServicePrices()
    ensures Find(IndividualServices, "telefonia") == Some(IndividualServices[0])
    ensures Find(IndividualServices, "internet") == Some(IndividualServices[1])
    ensures Find(IndividualServices, "tv") == Some(IndividualServices[2])
    ensures ServicePrice("telefonia") == 45000 && ServicePrice("internet") == 80000
    ensures ServicePrice("tv") == 55000
  {
  }

  /**
   * Every combo is made of individual services; every combo saves money; the
   * two duos and the triple are priced, before discount, at the sum of their
   * services, and the premium combo above it.
   */
  lemma CombosAreConsistent()
    ensures forall c, k :: 0 <= c < |Combos| && 0 <= k < |Combos[c].services| ==>
              Find(IndividualServices, Combos[c].services[k]).Some?
    ensures forall c :: 0 <= c < |Combos| ==> Combos[c].originalPrice > Combos[c].price
    ensures forall c :: 0 <= c < 3 ==> Combos[c].originalPrice == SumPrices(Combos[c].services)
    ensures Combos[3].originalPrice > SumPrices(Combos[3].services)
  {
    ServicePrices();
    var duo, duoTv, triple := ["internet", "telefonia"], ["internet", "tv"], ["internet", "tv", "telefonia"];
    assert SumPrices(duo) == 125000 by {
      assert duo[1..] == ["telefonia"] && duo[1..][1..] == [];
    }
    assert SumPrices(duoTv) == 135000 by {
      assert duoTv[1..] == ["tv"] && duoTv[1..][1..] == [];
    }
    assert SumPrices(triple) == 180000 by {
      assert triple[1..] == ["tv", "telefonia"] && triple[1..][1..] == ["telefonia"];
      assert triple[1..][1..][1..] == [];
    }
  }

  /** `savings`: what the combo saves against its original price. */
  function Savings(combo: CatalogItem): int
    requires combo.Combo?
  {
    combo.originalPrice - combo.price
  }

  /** Every combo shows a positive saving. */
  lemma SavingsPositive(c: nat)
    requires c < |Combos|
    ensures Savings(Combos[c]) > 0
  {
    CombosAreConsistent();
  }

  /** `getSelectedTotal`: the selected item's price, or 0 when the selection names no item. */
  function SelectedTotal(selected: string): (total: nat)
    ensures Find(Catalog(), selected).Some? ==> total == Find(Catalog(), selected).value.price
    ensures Find(Catalog(), selected).None? ==> total == 0
  {
    match Find(Catalog(), selected)
    case Some(item) => item.price
    case None => 0
  }

  /** `handleContinue`'s payload for a selection that names a catalogue item; nothing otherwise. */
  function ContinuePayload(selected: string): (r: Option<Record>)
    ensures r.Some? <==> exists i :: 0 <= i < |Catalog()| && Catalog()[i].id == selected
  {
    match Find(Catalog(), selected)
    case Some(item) =>
      Some(map["selectedService" := Text(selected), "serviceName" := Text(item.name),
               "servicePrice" := Number(item.price), "serviceDetails" := Item(item)])
    case None => None
  }

  /** Continuing with a catalogue item passes its id, name and price and the item itself. */
  lemma ContinueCarriesItem(i: nat)
    requires i < |Catalog()|
    ensures var item := Catalog()[i];
            var r := ContinuePayload(item.id);
            r.Some? && r.value["selectedService"] == Text(item.id)
            && r.value["serviceName"] == Text(item.name)
            && r.value["servicePrice"] == Number(item.price)
            && r.value["serviceDetails"] == Item(item)
            && SelectedTotal(item.id) == item.price
  {
    FindsEachItem(i);
  }

  /** `data.selectedService || ''`. */
  function InitialSelection(data: Record): string {
    TextOr(data, "selectedService", "")
  }

  /** After continuing, coming back to the step shows the same choice. */
  lemma ContinueRoundTrip(data: Record, selected: string)
    requires ContinuePayload(selected).Some?
    ensures InitialSelection(Merge(data, ContinuePayload(selected).value)) == selected
  {
    CatalogShape();
  }

  /** The empty selection (the button's disabled state) names no item, so it would pass nothing on. */
  lemma EmptySelectionEmitsNothing()
    ensures ContinuePayload("") == None && SelectedTotal("") == 0
  {
    CatalogShape();
  }

  class ServiceSelection {
    var selectedOption: string

    constructor (data: Record)
      ensures selectedOption == InitialSelection(data)
    {
      selectedOption := InitialSelection(data);
    }

    /** Continue is disabled while nothing is selected. */
    predicate ContinueEnabled()
      reads this
    {
      selectedOption != ""
    }

    /** `handleSelect`: the new choice replaces the old one. */
    method HandleSelect(id: string)
      modifies this
      ensures selectedOption == id
    {
      selectedOption := id;
    }

    method HandleContinue() returns (next: Option<Record>)
      ensures next == ContinuePayload(selectedOption)
    {
      next := ContinuePayload(selectedOption);
    }
  }
}
