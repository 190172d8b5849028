/**
 * The audit log view: a fixed list of events narrowed by a search term
 * over the case id, the user and the event name, with a badge per status.
 */
module AuditLog {
  import Text
  import Seqs

  datatype Status = Success | Warning | Failure

  datatype Entry = Entry(id: string, timestamp: string, caseId: string, user: string, event: string,
                         details: string, status: Status)

  const MockAuditLog: seq<Entry> := [
    Entry("AUD-001", "2025-11-05 12:35:42", "CASO-005", "Juan Pérez", "Inicio de Caso",
          "Caso iniciado para cliente Ana Fernández C.", Success),
    Entry("AUD-002", "2025-11-05 12:36:15", "CASO-005", "Sistema BPMS", "Validación Identidad",
          "Llamada API ID-TRUE - Respuesta OK (998ms)", Success),
    Entry("AUD-003", "2025-11-05 12:37:03", "CASO-005", "Juan Pérez", "Enrolamiento",
          "Datos personales capturados y validados", Success),
    Entry("AUD-004", "2025-11-05 11:18:22", "CASO-002", "Sistema BPMS", "Validación Crediticia",
          "Consulta centrales de riesgo - Score: 720", Success),
    Entry("AUD-005", "2025-11-05 11:19:45", "CASO-002", "Ana López", "Carga de Documentos",
          "3 archivos adjuntados (Cédula, Comprobante domicilio, RUT)", Success),
    Entry("AUD-006", "2025-11-05 10:32:10", "CASO-001", "Sistema BPMS", "Generación Contrato",
          "Contrato CONT-2025-001 generado exitosamente", Success),
    Entry("AUD-007", "2025-11-05 10:33:28", "CASO-001", "María García López", "Firma Digital",
          "Contrato firmado con OTP verificado", Success),
    Entry("AUD-008", "2025-11-05 10:33:55", "CASO-001", "Sistema BPMS", "Envío Contrato",
          "Correo certificado enviado a maria.garcia@email.com", Success),
    Entry("AUD-009", "2025-11-05 10:34:01", "CASO-001", "Sistema BPMS", "Almacenamiento ECM",
          "Contrato archivado en ECM con hash SHA-256", Success),
    Entry("AUD-010", "2025-11-05 10:34:05", "CASO-001", "Sistema BPMS", "Cierre de Caso",
          "Caso completado exitosamente - Duración: 11 min", Success),
    Entry("AUD-011", "2025-11-05 08:22:33", "CASO-004", "Sistema BPMS", "Validación Identidad",
          "Rechazo por discrepancia en datos biométricos", Failure),
    Entry("AUD-012", "2025-11-05 08:22:40", "CASO-004", "Carlos Díaz", "Cierre de Caso",
          "Caso rechazado - No supera validación de identidad", Failure),
    Entry("AUD-013", "2025-11-05 10:05:12", "CASO-007", "Sistema BPMS", "Validación Crediticia",
          "Score bajo (580) - Requiere revisión manual", Warning),
    Entry("AUD-014", "2025-11-05 10:06:30", "CASO-007", "Carlos Díaz", "Revisión Manual",
          "Caso escalado a supervisor para aprobación", Warning)
  ]

  /** The lower-cased term occurs in the lower-cased case id, user or event. */
  predicate MatchesSearch(e: Entry, term: string) {
    var t := Text.ToLower(term);
    Text.Contains(Text.ToLower(e.caseId), t) || Text.Contains(Text.ToLower(e.user), t)
    || Text.Contains(Text.ToLower(e.event), t)
  }

  function Keeps(term: string): Entry -> bool {
    e => MatchesSearch(e, term)
  }

  /** `filteredLog`. */
  function FilteredLog(term: string): seq<Entry> {
    Seqs.Filter(MockAuditLog, Keeps(term))
  }

  /** The events shown are the log with exactly the matching entries left, in their order. */
  lemma FilteredLogSpec(term: string, e: Entry)
    ensures Seqs.SubsequenceOf(FilteredLog(term), MockAuditLog)
    ensures |FilteredLog(term)| <= |MockAuditLog| == 14
    ensures e in FilteredLog(term) <==> e in MockAuditLog && MatchesSearch(e, term)
  {
    Seqs.FilterIsSubsequence(MockAuditLog, Keeps(term));
    Seqs.FilterLength(MockAuditLog, Keeps(term));
    Seqs.FilterMembership(MockAuditLog, Keeps(term), e);
  }

  /** An empty search shows all fourteen events. */
  lemma EmptySearchShowsAll()
    ensures FilteredLog("") == MockAuditLog
  {
    forall i | 0 <= i < |MockAuditLog|
      ensures Keeps("")(MockAuditLog[i])
    {
      Text.ContainsEmpty(Text.ToLower(MockAuditLog[i].caseId));
    }
    Seqs.FilterKeepsAll(MockAuditLog, Keeps(""));
  }

  /** The details of an entry are never searched: changing them never changes whether it is shown. */
  lemma DetailsNeverSearched(e: Entry, term: string, details: string)
    ensures MatchesSearch(e.(details := details), term) == MatchesSearch(e, term)
  {
  }

  /** The search ignores case: a term and its lower-cased form match the same entries. */
  lemma SearchIgnoresCase(e: Entry, term: string)
    ensures MatchesSearch(e, Text.ToLower(term)) == MatchesSearch(e, term)
  {
    Text.ToLowerIdempotent(term);
  }

  /** The header counts the events shown; the "today" figure always counts the whole log. */
  function Counts(term: string): (nat, nat) {
    (|FilteredLog(term)|, |MockAuditLog|)
  }

  /** The header count never exceeds the "today" figure, and matches it for an empty search. */
  lemma CountsSpec(term: string)
    ensures Counts(term).0 <= Counts(term).1 == 14
    ensures term == "" ==> Counts(term).0 == Counts(term).1
  {
    FilteredLogSpec(term, MockAuditLog[0]);
    if term == "" {
      EmptySearchShowsAll();
    }
  }

  datatype Badge = Badge(className: string, caption: string)

  /** `getStatusBadge`. */
  function StatusBadge(s: Status): Badge {
    match s
    case Success => Badge("bg-green-600", "Éxito")
    case Warning => Badge("bg-orange-600", "Advertencia")
    case Failure => Badge("bg-red-600", "Error")
  }

  /** Each status has its own label and colour. */
  lemma BadgesDistinct(s: Status, t: Status)
    ensures StatusBadge(s).caption == StatusBadge(t).caption <==> s == t
    ensures StatusBadge(s).className == StatusBadge(t).className <==> s == t
  {
  }
}
