/** The case list page: its state (`cases`, `loading`, `error` and the two view
    parameters) and `fetchCases`, which loads the collection from the server. The
    browser calls it makes are replaced by parameters: the `auth_token` read from
    storage and what `fetch` produced. */
module CaseList {
  import opened Common
  import opened CaseView

  /** What `await response.json()` gave: a body whose `cases` field is present or
      absent, or a rejection (malformed JSON). */
  datatype CasesBody = Parsed(cases: Option<seq<Case>>) | Malformed(thrown: Thrown)

  /** Why a load did not produce a collection. */
  datatype LoadError =
    | Unauthenticated
    | AuthExpired
    | Forbidden
    | ServiceUnavailable
    | TransportError(thrown: Thrown)

  const AuthRequiredText: string := "Authentication required. Please log in."
  const AuthFailedText: string := "Authentication failed. Please log in again."
  const ForbiddenText: string := "You do not have permission to access cases."
  const UnavailableText: string := "Failed to fetch cases. Please try again later."
  const NonErrorText: string := "Failed to fetch cases"

  /** The message the page shows for each failure; a thrown `Error` shows its own
      message. */
  function ErrorText(e: LoadError): (text: string)
    ensures e == Unauthenticated ==> text == AuthRequiredText
    ensures e == AuthExpired ==> text == AuthFailedText
    ensures e == Forbidden ==> text == ForbiddenText
    ensures e == ServiceUnavailable ==> text == UnavailableText
    ensures e.TransportError? && e.thrown.ErrorObject? ==> text == e.thrown.message
    ensures e == TransportError(NonError) ==> text == NonErrorText
  {
    match e
    case Unauthenticated => AuthRequiredText
    case AuthExpired => AuthFailedText
    case Forbidden => ForbiddenText
    case ServiceUnavailable => UnavailableText
    case TransportError(ErrorObject(m)) => m
    case TransportError(NonError) => NonErrorText
  }

  /** The outcome of one `fetchCases` run as a value: which collection replaces
      `cases`, or which failure is reported. */
  function Load(token: Option<string>, outcome: HttpOutcome<CasesBody>): (r: Result<seq<Case>, LoadError>)
    ensures r == Err(Unauthenticated) <==> !Truthy(token)
    ensures r == Err(AuthExpired) <==> Truthy(token) && outcome.Response? && outcome.status == 401
    ensures r == Err(Forbidden) <==> Truthy(token) && outcome.Response? && outcome.status == 403
    ensures r == Err(ServiceUnavailable) <==>
      Truthy(token) && outcome.Response? && !IsOk(outcome.status) && outcome.status !in {401, 403}
    ensures r.Err? && r.error.TransportError? <==>
      Truthy(token) && (outcome.Threw? || (IsOk(outcome.status) && outcome.body.Malformed?))
    ensures Truthy(token) && outcome.Threw? ==> r == Err(TransportError(outcome.thrown))
    ensures Truthy(token) && outcome.Response? && IsOk(outcome.status) && outcome.body.Malformed? ==>
      r == Err(TransportError(outcome.body.thrown))
    ensures r.Ok? <==> Truthy(token) && outcome.Response? && IsOk(outcome.status) && outcome.body.Parsed?
    ensures r.Ok? ==> r.value == outcome.body.cases.GetOr([])
  {
    if !Truthy(token) then Err(Unauthenticated)
    else
      match outcome
      case Threw(thrown) => Err(TransportError(thrown))
      case Response(status, _, body) =>
        if !IsOk(status) then
          if status == 401 then Err(AuthExpired)
          else if status == 403 then Err(Forbidden)
          else Err(ServiceUnavailable)
        else
          match body
          case Malformed(thrown) => Err(TransportError(thrown))
          case Parsed(cases) => Ok(cases.GetOr([]))
  }

  /** The request `fetchCases` issues when it has a token. */
  function CasesRequest(apiUrl: string, token: string): Request<()> {
    Request("GET", apiUrl + "/v1/cases", Some(token), None)
  }

  class CaseListPage {
    const apiUrl: string
    var cases: seq<Case>
    var loading: bool
    var error: Option<string>
    var filter: StatusFilter
    var sortBy: SortKey

    /** Mounting the page: the `apiUrl` prop (or its default), an empty list shown as
        loading, filter `all` and sort by last update. */
    constructor (apiUrlProp: Option<string>, env: Option<string>)
      ensures apiUrl == apiUrlProp.GetOr(DefaultApiUrl(env))
      ensures cases == [] && loading && error == None
      ensures filter == All && sortBy == Updated
    {
      apiUrl := apiUrlProp.GetOr(DefaultApiUrl(env));
      cases := [];
      loading := true;
      error := None;
      filter := All;
      sortBy := Updated;
    }

    /** `fetchCases`: issues the GET only with a token; on success replaces `cases`
        wholesale, on any failure keeps them and reports the failure's message; ends
        with `loading` false on every path. Returns the request it issued, if any. */
    method FetchCases(token: Option<string>, outcome: HttpOutcome<CasesBody>) returns (sent: Option<Request<()>>)
      modifies this
      ensures !loading
      ensures filter == old(filter) && sortBy == old(sortBy)
      ensures sent == if Truthy(token) then Some(CasesRequest(apiUrl, token.value)) else None
      ensures Load(token, outcome).Ok? ==> cases == Load(token, outcome).value && error == None
      ensures Load(token, outcome).Err? ==>
        cases == old(cases) && error == Some(ErrorText(Load(token, outcome).error))
      ensures !Truthy(token) ==> error == Some(AuthRequiredText)
      ensures Truthy(token) && outcome.Response? && outcome.status == 401 ==> error == Some(AuthFailedText)
      ensures Truthy(token) && outcome.Response? && outcome.status == 403 ==> error == Some(ForbiddenText)
      ensures Truthy(token) && outcome.Response? && !IsOk(outcome.status) && outcome.status !in {401, 403} ==>
        error == Some(UnavailableText)
      ensures Truthy(token) && outcome.Threw? && outcome.thrown.ErrorObject? ==>
        error == Some(outcome.thrown.message)
      ensures Truthy(token) && outcome.Threw? && outcome.thrown.NonError? ==> error == Some(NonErrorText)
    {
      loading := true;
      error := None;
      sent := None;
      if !Truthy(token) {
        error := Some(AuthRequiredText);
        loading := false;
        return;
      }
      sent := Some(CasesRequest(apiUrl, token.value));
      match outcome {
        case Threw(thrown) =>
          error := Some(ErrorText(TransportError(thrown)));
        case Response(status, _, body) =>
          if !IsOk(status) {
            if status == 401 {
              error := Some(AuthFailedText);
            } else if status == 403 {
              error := Some(ForbiddenText);
            } else {
              error := Some(UnavailableText);
            }
          } else {
            match body {
              case Malformed(thrown) =>
                error := Some(ErrorText(TransportError(thrown)));
              case Parsed(data) =>
                cases := data.GetOr([]);
            }
          }
      }
      loading := false;
    }

    /** The status drop-down's `onChange`. */
    method SetFilter(f: StatusFilter)
      modifies this`filter
      ensures filter == f
    {
      filter := f;
    }

    /** The sort drop-down's `onChange`. */
    method SetSortBy(key: SortKey)
      modifies this`sortBy
      ensures sortBy == key
    {
      sortBy := key;
    }

    /** The list the page renders: a projection that never reorders `cases` itself. */
    function SortedCases(): (r: seq<Case>)
      reads this
      ensures multiset(r) == multiset(Filter(filter, cases))
      ensures multiset(r) <= multiset(cases)
      ensures forall c :: c in r ==> Keeps(filter, c)
      ensures Sorted(sortBy, r)
    {
      Project(cases, filter, sortBy)
    }
  }
}
