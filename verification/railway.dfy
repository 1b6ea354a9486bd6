/** railway.Client: the status and payload checks applied to the identity and
    workspace API responses, and the workspace-membership test. The HTTP round
    trip itself is an input: a transport failure, or a status and the outcome
    of decoding the JSON body. */
module Railway {
  import opened Wrappers

  const StatusOK := 200

  datatype UserInfo = UserInfo(sub: string, email: string, name: string, picture: string)

  datatype Workspace = Workspace(id: string, name: string)

  /** The decoded GraphQL reply: data.me.workspaces and the messages of `errors`. */
  datatype WorkspacesReply = WorkspacesReply(workspaces: seq<Workspace>, errors: seq<string>)

  datatype Reply<T> =
    | TransportFailed(reason: string)
    | Replied(status: int, body: Result<T, string>)

  datatype ClientError =
    | RequestFailed(reason: string)        // "do request: ..."
    | UnexpectedStatus(status: int)        // "unexpected status: %d"
    | DecodeFailed(reason: string)         // "decode response: ..."
    | GraphQLFailed(message: string)       // "graphql error: <first message>"
    | FetchWorkspacesFailed(cause: ClientError)  // "fetch workspaces: ..."

  /** FetchUserInfo: the user info is returned only from a 200 reply whose body decodes. */
  function FetchUserInfo(reply: Reply<UserInfo>): (r: Result<UserInfo, ClientError>)
    ensures r.Ok? <==> reply.Replied? && reply.status == StatusOK && reply.body.Ok?
    ensures r.Ok? ==> r.value == reply.body.value
    ensures reply.Replied? && reply.status != StatusOK ==> r == Err(UnexpectedStatus(reply.status))
  {
    match reply
    case TransportFailed(reason) => Err(RequestFailed(reason))
    case Replied(status, body) =>
      if status != StatusOK then Err(UnexpectedStatus(status))
      else match body
        case Err(reason) => Err(DecodeFailed(reason))
        case Ok(info) => Ok(info)
  }

  /** FetchUserWorkspaces: as above, and a non-empty GraphQL `errors` array is an
      error carrying its first message, the workspaces being discarded. */
  function FetchUserWorkspaces(reply: Reply<WorkspacesReply>): (r: Result<seq<Workspace>, ClientError>)
    ensures r.Ok? <==>
      reply.Replied? && reply.status == StatusOK && reply.body.Ok? && reply.body.value.errors == []
    ensures r.Ok? ==> r.value == reply.body.value.workspaces
    ensures reply.Replied? && reply.status != StatusOK ==> r == Err(UnexpectedStatus(reply.status))
    ensures reply.Replied? && reply.status == StatusOK && reply.body.Ok? && reply.body.value.errors != [] ==>
      r == Err(GraphQLFailed(reply.body.value.errors[0]))
  {
    match reply
    case TransportFailed(reason) => Err(RequestFailed(reason))
    case Replied(status, body) =>
      if status != StatusOK then Err(UnexpectedStatus(status))
      else match body
        case Err(reason) => Err(DecodeFailed(reason))
        case Ok(result) =>
          if |result.errors| > 0 then Err(GraphQLFailed(result.errors[0]))
          else Ok(result.workspaces)
  }

  /** UserHasWorkspaceAccess: (false, err) when the fetch fails; otherwise
      whether some workspace has exactly the target id. */
  method UserHasWorkspaceAccess(reply: Reply<WorkspacesReply>, workspaceID: string)
    returns (hasAccess: bool, err: Option<ClientError>)
    ensures err.Some? <==> FetchUserWorkspaces(reply).Err?
    ensures err.Some? ==> !hasAccess && err.value == FetchWorkspacesFailed(FetchUserWorkspaces(reply).error)
    ensures err.None? ==>
      var ws := FetchUserWorkspaces(reply).value;
      hasAccess <==> exists i :: 0 <= i < |ws| && ws[i].id == workspaceID
  {
    var fetched := FetchUserWorkspaces(reply);
    if fetched.Err? {
      return false, Some(FetchWorkspacesFailed(fetched.error));
    }
    var workspaces := fetched.value;
    var k := 0;
    while k < |workspaces|
      invariant 0 <= k <= |workspaces|
      invariant forall i :: 0 <= i < k ==> workspaces[i].id != workspaceID
    {
      if workspaces[k].id == workspaceID {
        return true, None;
      }
      k := k + 1;
    }
    return false, None;
  }

  /** An account with no workspaces has no access, and that is not an error. */
  method NoWorkspacesNoAccess(workspaceID: string) returns (hasAccess: bool, err: Option<ClientError>)
    ensures !hasAccess && err.None?
  {
    hasAccess, err := UserHasWorkspaceAccess(Replied(StatusOK, Ok(WorkspacesReply([], []))), workspaceID);
  }
}
