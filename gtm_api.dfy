/** The `GTMManager` class of frontend/csvScript.js seen from its callers: which API call each
    `create*` method makes, what it returns, and the message it throws. The HTTP exchange
    itself is an oracle: one `Reply` per call. */
module GtmApi {
  import opened Wrappers
  import opened Text
  import opened GtmPayloads

  /** A `create*` call with its arguments. */
  datatype Call =
    | CreateWorkspace(accountId: string, containerId: string, date: string)
    | CreateGA4ConfigTag(accountId: string, containerId: string, workspaceId: string, measurementId: string)
    | CreateVariable(accountId: string, containerId: string, workspaceId: string, parameterName: string)
    | CreateTrigger(accountId: string, containerId: string, workspaceId: string, eventName: string)
    | CreateEventTag(accountId: string, containerId: string, workspaceId: string, eventName: string,
                     parameters: seq<string>, triggerId: string, measurementId: string)

  /** What the `fetch` of a call comes back with: a 2xx response carrying the new resource's
      id, a non-2xx response, or a rejected promise (network failure) with its message. */
  datatype Reply =
    | Ok(id: string)
    | NotOk(status: nat, statusText: string)
    | Rejected(message: string)

  /** A created resource: its id, and the body that was posted for it. */
  datatype Created = Created(id: string, body: Body)

  /** The body a call posts. */
  function RequestBody(call: Call): Body {
    match call
    case CreateWorkspace(_, _, date) => WorkspacePayload(date)
    case CreateGA4ConfigTag(_, _, _, mid) => ConfigTagPayload(mid)
    case CreateVariable(_, _, _, p) => VariablePayload(p)
    case CreateTrigger(_, _, _, e) => TriggerPayload(e)
    case CreateEventTag(_, _, _, e, ps, tid, mid) => EventTagPayload(e, ps, tid, mid)
  }

  /** The start of the message a call throws on a non-2xx response. */
  function FailurePrefix(call: Call): string {
    match call
    case CreateWorkspace(_, _, _) => "Failed to create workspace"
    case CreateGA4ConfigTag(_, _, _, _) => "Failed to create GA4 Config tag"
    case CreateVariable(_, _, _, p) => "Failed to create variable " + p
    case CreateTrigger(_, _, _, e) => "Failed to create trigger " + e
    case CreateEventTag(_, _, _, e, _, _, _) => "Failed to create event tag " + e
  }

  /** `${prefix}: ${response.status} ${response.statusText}`. */
  function StatusMessage(prefix: string, status: nat, statusText: string): string {
    prefix + ": " + NatToString(status) + " " + statusText
  }

  /** What a `create*` method resolves to or throws: a 2xx reply yields the new resource
      with the body that was posted; a non-2xx reply throws a message that opens with the
      call's prefix and carries the status code and text; a rejected fetch rethrows its
      own message unchanged. */
  function Outcome(call: Call, reply: Reply): (r: Result<Created>)
    ensures r.Success? <==> reply.Ok?
    ensures r.Success? ==> r.value.id == reply.id && r.value.body == RequestBody(call)
    ensures reply.NotOk? ==> r.Failure? && ReadsBackAs(r.error, FailurePrefix(call), reply.status, reply.statusText)
    ensures reply.Rejected? ==> r.Failure? && r.error == reply.message
  {
    match reply
    case Ok(id) => Success(Created(id, RequestBody(call)))
    case NotOk(status, text) =>
      StatusMessageStatus(FailurePrefix(call), status, text);
      Failure(StatusMessage(FailurePrefix(call), status, text))
    case Rejected(message) => Failure(message)
  }

  /** `m` opens with `prefix` and `": "`, then holds exactly the decimal digits of `status`,
      then a space and `statusText`. */
  predicate ReadsBackAs(m: string, prefix: string, status: nat, statusText: string) {
    var p := prefix + ": ";
    var digits := NatToString(status);
    && |m| == |p| + |digits| + 1 + |statusText|
    && m[..|p|] == p
    && m[|p|..|p| + |digits|] == digits && DigitsValue(digits) == status
    && m[|p| + |digits|..] == " " + statusText
  }

  /** The status code can be read back out of a non-2xx message. */
  lemma StatusMessageStatus(prefix: string, status: nat, statusText: string)
    ensures ReadsBackAs(StatusMessage(prefix, status, statusText), prefix, status, statusText)
  {
    NatToStringValue(status);
    var m := StatusMessage(prefix, status, statusText);
    assert m == (prefix + ": ") + NatToString(status) + (" " + statusText);
  }

  // ---------------------------------------------------------------------------
  // Listing accounts and containers
  // ---------------------------------------------------------------------------

  datatype Account = Account(accountId: string, name: string)
  datatype Container = Container(containerId: string, name: string)

  /** The reply to a list request: 2xx with the `account` / `container` field of the JSON
      (absent when the list is empty), a non-2xx response, or a rejected fetch. */
  datatype ListReply<T> =
    | Listed(items: Option<seq<T>>)
    | ListNotOk(status: nat, statusText: string)
    | ListRejected(message: string)

  const NotAuthenticated: string := "Not authenticated with GTM"

  /** The token state of `GTMManager`. */
  class GtmManager {
    var accessToken: Option<string>
    var isAuthenticated: bool

    constructor()
      ensures accessToken == None && !isAuthenticated
    {
      accessToken := None;
      isAuthenticated := false;
    }

    /** `handleAuthSuccess`: the OAuth callback stores the token. */
    method HandleAuthSuccess(token: string)
      modifies this
      ensures isAuthenticated && accessToken == Some(token)
    {
      isAuthenticated := true;
      accessToken := Some(token);
    }

    /** `loadAccounts`: refused unless authenticated; a missing list is an empty one. */
    function LoadAccounts(reply: ListReply<Account>): (r: Result<seq<Account>>)
      reads this
      ensures !isAuthenticated ==> r == Failure(NotAuthenticated)
      ensures r.Success? <==> isAuthenticated && reply.Listed?
      ensures r.Success? ==> r.value == reply.items.GetOr([])
      ensures isAuthenticated && reply.ListNotOk? ==>
                r == Failure(StatusMessage("Failed to load accounts", reply.status, reply.statusText))
      ensures isAuthenticated && reply.ListRejected? ==> r == Failure(reply.message)
    {
      ListOutcome(reply, "Failed to load accounts")
    }

    /** `loadContainers`: the same guard and the same handling of the reply. */
    function LoadContainers(accountId: string, reply: ListReply<Container>): (r: Result<seq<Container>>)
      reads this
      ensures !isAuthenticated ==> r == Failure(NotAuthenticated)
      ensures r.Success? <==> isAuthenticated && reply.Listed?
      ensures r.Success? ==> r.value == reply.items.GetOr([])
      ensures isAuthenticated && reply.ListNotOk? ==>
                r == Failure(StatusMessage("Failed to load containers", reply.status, reply.statusText))
      ensures isAuthenticated && reply.ListRejected? ==> r == Failure(reply.message)
    {
      ListOutcome(reply, "Failed to load containers")
    }

    function ListOutcome<T>(reply: ListReply<T>, prefix: string): Result<seq<T>>
      reads this
    {
      if !isAuthenticated then Failure(NotAuthenticated)
      else
        match reply
        case Listed(items) => Success(items.GetOr([]))
        case ListNotOk(status, text) => Failure(StatusMessage(prefix, status, text))
        case ListRejected(message) => Failure(message)
    }
  }
}
