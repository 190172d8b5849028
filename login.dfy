/**
 * The login screen: the two demo advisor accounts, the client look-up by
 * document number, and the error and loading flags around each attempt.
 * Each handler is split at its simulated delay into a start and a finish;
 * the session it opens is returned instead of calling `onLogin`.
 */
module LoginScreen {
  import opened Wrappers
  import opened Auth

  const DemoPassword: string := "demo123"
  const AdvisorEmail: string := "asesor@konrad.com"
  const SupervisorEmail: string := "supervisor@konrad.com"
  const AdvisorError: string := "Credenciales incorrectas. Usa: asesor@konrad.com / demo123"
  const ClientError: string := "Por favor ingresa un número de documento válido (mínimo 6 dígitos)"
  const DefaultCaseNumber: string := "CASO-001"

  /** The user data of an accepted advisor pair; `None` for any other pair. */
  function AdvisorAccount(email: string, password: string): (d: Option<UserData>)
    ensures d.Some? <==> password == DemoPassword && (email == AdvisorEmail || email == SupervisorEmail)
    ensures d.Some? ==> d.value.email == Some(email)
    ensures d.Some? && email == AdvisorEmail ==>
              d.value.name == "Juan Pérez" && d.value.id == Some("ASE-001")
    ensures d.Some? && email == SupervisorEmail ==>
              d.value.name == "Ana López" && d.value.id == Some("SUP-001")
  {
    if email == AdvisorEmail && password == DemoPassword then
      Some(UserData("Juan Pérez", Some(email), Some("Asesor de Ventas"), Some("ASE-001"), None, None, None))
    else if email == SupervisorEmail && password == DemoPassword then
      Some(UserData("Ana López", Some(email), Some("Supervisor"), Some("SUP-001"), None, None, None))
    else None
  }

  /** The user data of a client look-up: any document number of six characters or more, digits or not. */
  function ClientAccount(documentNumber: string, contractNumber: string): (d: Option<UserData>)
    ensures d.Some? <==> |documentNumber| >= 6
    ensures d.Some? ==> d.value.documentNumber == Some(documentNumber)
    ensures d.Some? && contractNumber != "" ==> d.value.contractNumber == Some(contractNumber)
    ensures d.Some? && contractNumber == "" ==> d.value.contractNumber == Some(DefaultCaseNumber)
  {
    if |documentNumber| >= 6 then
      Some(UserData("María García López", Some("maria.garcia@email.com"), None, None,
                    Some(documentNumber), Some(if contractNumber != "" then contractNumber else DefaultCaseNumber),
                    Some("3001234567")))
    else None
  }

  /** The two accounts are distinct people, and the password alone never opens one. */
  lemma AdvisorAccountsDistinct(email: string, password: string)
    ensures AdvisorAccount(AdvisorEmail, DemoPassword) != AdvisorAccount(SupervisorEmail, DemoPassword)
    ensures password != DemoPassword ==> AdvisorAccount(email, password).None?
    ensures email != AdvisorEmail && email != SupervisorEmail ==> AdvisorAccount(email, password).None?
  {
  }

  /** A session the screen opens. */
  datatype Session = Session(userType: UserType, userData: UserData)

  class Login {
    var email: string
    var password: string
    var documentNumber: string
    var contractNumber: string
    var error: string
    var isLoading: bool

    constructor ()
      ensures email == "" && password == "" && documentNumber == "" && contractNumber == ""
      ensures error == "" && !isLoading
    {
      email := "";
      password := "";
      documentNumber := "";
      contractNumber := "";
      error := "";
      isLoading := false;
    }

    /** Typing in the advisor's e-mail field changes only that field. */
    method SetEmail(value: string)
      modifies this
      ensures email == value && password == old(password)
      ensures documentNumber == old(documentNumber) && contractNumber == old(contractNumber)
      ensures error == old(error) && isLoading == old(isLoading)
    {
      email := value;
    }

    /** Typing in the advisor's password field changes only that field. */
    method SetPassword(value: string)
      modifies this
      ensures password == value && email == old(email)
      ensures documentNumber == old(documentNumber) && contractNumber == old(contractNumber)
      ensures error == old(error) && isLoading == old(isLoading)
    {
      password := value;
    }

    /** Typing in the client's document field changes only that field. */
    method SetDocumentNumber(value: string)
      modifies this
      ensures documentNumber == value && contractNumber == old(contractNumber)
      ensures email == old(email) && password == old(password)
      ensures error == old(error) && isLoading == old(isLoading)
    {
      documentNumber := value;
    }

    /** Typing in the client's contract field changes only that field. */
    method SetContractNumber(value: string)
      modifies this
      ensures contractNumber == value && documentNumber == old(documentNumber)
      ensures email == old(email) && password == old(password)
      ensures error == old(error) && isLoading == old(isLoading)
    {
      contractNumber := value;
    }

    /** Both submit buttons are disabled while an attempt is under way. */
    predicate SubmitEnabled()
      reads this
    {
      !isLoading
    }

    /** The start of either handler: the error is cleared and loading begins. */
    method StartAttempt()
      requires SubmitEnabled()
      modifies this
      ensures error == "" && isLoading && !SubmitEnabled()
      ensures email == old(email) && password == old(password)
      ensures documentNumber == old(documentNumber) && contractNumber == old(contractNumber)
    {
      error := "";
      isLoading := true;
    }

    /** `handleAdvisorLogin` after its delay: an accepted pair opens an advisor session, any other sets the error. */
    method FinishAdvisorLogin() returns (session: Option<Session>)
      requires isLoading
      modifies this
      ensures !isLoading
      ensures session.Some? <==> AdvisorAccount(email, password).Some?
      ensures session.Some? ==> session.value == Session(Advisor, AdvisorAccount(email, password).value)
      ensures error == (if session.Some? then old(error) else AdvisorError)
      ensures email == old(email) && password == old(password)
    {
      var account := AdvisorAccount(email, password);
      if account.Some? {
        session := Some(Session(Advisor, account.value));
      } else {
        session := None;
        error := AdvisorError;
      }
      isLoading := false;
    }

    /** `handleClientLogin` after its delay: a long enough document number opens a client session. */
    method FinishClientLogin() returns (session: Option<Session>)
      requires isLoading
      modifies this
      ensures !isLoading
      ensures session.Some? <==> |documentNumber| >= 6
      ensures session.Some? ==> session.value == Session(Client, ClientAccount(documentNumber, contractNumber).value)
      ensures error == (if session.Some? then old(error) else ClientError)
      ensures documentNumber == old(documentNumber) && contractNumber == old(contractNumber)
    {
      var account := ClientAccount(documentNumber, contractNumber);
      if account.Some? {
        session := Some(Session(Client, account.value));
      } else {
        session := None;
        error := ClientError;
      }
      isLoading := false;
    }

    /** A whole advisor attempt: it ends not loading, with no error exactly when it opened a session. */
    method AdvisorLogin() returns (session: Option<Session>)
      requires SubmitEnabled()
      modifies this
      ensures SubmitEnabled()
      ensures session.Some? <==> AdvisorAccount(email, password).Some?
      ensures error == "" <==> session.Some?
    {
      StartAttempt();
      session := FinishAdvisorLogin();
    }

    /** A whole client attempt, likewise. */
    method ClientLogin() returns (session: Option<Session>)
      requires SubmitEnabled()
      modifies this
      ensures SubmitEnabled()
      ensures session.Some? <==> |documentNumber| >= 6
      ensures error == "" <==> session.Some?
    {
      StartAttempt();
      session := FinishClientLogin();
    }
  }
}
