/**
 * The advisor's list of cases: a fixed list, narrowed by a search term
 * and a status filter, with a badge per status.
 */
module CasesList {
  import Text
  import Seqs

  datatype Status = Completed | InProgress | Rejected | Review

  datatype Case = Case(id: string, client: string, document: string, status: Status, stage: string,
                       advisor: string, date: string, duration: string)

  /** The status select: every status, or one. */
  datatype StatusFilter = AllStatuses | Only(status: Status)

  const MockCases: seq<Case> := [
    Case("CASO-001", "María García López", "1234567890", Completed, "Contrato Firmado", "Juan Pérez",
         "2025-11-05 10:30", "11 min"),
    Case("CASO-002", "Carlos Rodríguez M.", "2345678901", InProgress, "Validación Crediticia", "Ana López",
         "2025-11-05 11:15", "8 min"),
    Case("CASO-003", "Laura Martínez P.", "3456789012", Completed, "Contrato Firmado", "Juan Pérez",
         "2025-11-05 09:45", "13 min"),
    Case("CASO-004", "Pedro Sánchez V.", "4567890123", Rejected, "Validación Identidad", "Carlos Díaz",
         "2025-11-05 08:20", "5 min"),
    Case("CASO-005", "Ana Fernández C.", "5678901234", InProgress, "Enrolamiento", "Juan Pérez",
         "2025-11-05 12:00", "3 min"),
    Case("CASO-006", "José Torres R.", "6789012345", Completed, "Contrato Firmado", "Ana López",
         "2025-11-04 16:30", "12 min"),
    Case("CASO-007", "Sofía Ramírez G.", "7890123456", Review, "Revisión Manual", "Carlos Díaz",
         "2025-11-05 10:00", "15 min"),
    Case("CASO-008", "Miguel Ángel Cruz", "8901234567", Completed, "Contrato Firmado", "Juan Pérez",
         "2025-11-04 14:20", "10 min")
  ]

  /** The term matches the client name or the id regardless of case, or the document as typed. */
  predicate MatchesSearch(c: Case, term: string) {
    Text.Contains(Text.ToLower(c.client), Text.ToLower(term))
    || Text.Contains(c.document, term)
    || Text.Contains(Text.ToLower(c.id), Text.ToLower(term))
  }

  predicate MatchesStatus(c: Case, filter: StatusFilter) {
    filter.AllStatuses? || c.status == filter.status
  }

  function Keeps(term: string, filter: StatusFilter): Case -> bool {
    c => MatchesSearch(c, term) && MatchesStatus(c, filter)
  }

  /** `filteredCases`. */
  function FilteredCases(term: string, filter: StatusFilter): seq<Case> {
    Seqs.Filter(MockCases, Keeps(term, filter))
  }

  /**
   * The list shown is the mock list with exactly the matching cases left,
   * in their order; the header counts it.
   */
  lemma FilteredCasesSpec(term: string, filter: StatusFilter, c: Case)
    ensures Seqs.SubsequenceOf(FilteredCases(term, filter), MockCases)
    ensures |FilteredCases(term, filter)| <= |MockCases| == 8
    ensures c in FilteredCases(term, filter) <==>
              c in MockCases && MatchesSearch(c, term) && MatchesStatus(c, filter)
  {
    Seqs.FilterIsSubsequence(MockCases, Keeps(term, filter));
    Seqs.FilterLength(MockCases, Keeps(term, filter));
    Seqs.FilterMembership(MockCases, Keeps(term, filter), c);
  }

  /** An empty search over every status shows all eight cases. */
  lemma EmptySearchShowsAll()
    ensures FilteredCases("", AllStatuses) == MockCases
  {
    forall i | 0 <= i < |MockCases|
      ensures Keeps("", AllStatuses)(MockCases[i])
    {
      Text.ContainsEmpty(Text.ToLower(MockCases[i].client));
    }
    Seqs.FilterKeepsAll(MockCases, Keeps("", AllStatuses));
  }

  /** Typing the name or id in another case finds the same cases. */
  lemma SearchIgnoresCaseOfName(c: Case, term: string)
    requires !Text.Contains(c.document, term) && !Text.Contains(c.document, Text.ToLower(term))
    ensures MatchesSearch(c, Text.ToLower(term)) == MatchesSearch(c, term)
  {
    Text.ToLowerIdempotent(term);
  }

  datatype Variant = DefaultVariant | Destructive

  datatype Badge = Badge(variant: Variant, caption: string, className: string)

  /** `getStatusBadge`. */
  function StatusBadge(s: Status): (b: Badge)
    ensures b.variant == Destructive <==> s == Rejected
  {
    match s
    case Completed => Badge(DefaultVariant, "Completado", "bg-green-600")
    case InProgress => Badge(DefaultVariant, "En Proceso", "bg-blue-600")
    case Rejected => Badge(Destructive, "Rechazado", "bg-red-600")
    case Review => Badge(DefaultVariant, "Revisión", "bg-orange-600")
  }

  /** Each status has its own label, so the badge tells the status. */
  lemma BadgeLabelsDistinct(s: Status, t: Status)
    ensures StatusBadge(s).caption == StatusBadge(t).caption <==> s == t
  {
  }
}
