/**
 * The group handlers of the worker API: how a new group's path and URN
 * are built from the create request, which create requests are refused
 * before the group API is called, and how the group API's answer is
 * turned into a response. The group API is a function parameter, the
 * JSON body is already decoded (`None` when decoding failed) and the
 * freshly generated group ID is a parameter.
 */
module Groups {

  import opened Common
  import Strings

  /** The decoded body of a create-group request. */
  datatype CreateGroupRequest = CreateGroupRequest(name: string, path: string)

  /** A group as the group API stores it. */
  datatype Group = Group(id: string, name: string, path: string, urn: string, org: string)

  /** An error value of the group API's own error type. */
  datatype ApiError = ApiError(code: string, message: string)

  /** An error returned by the group API: its own error type, or any other error value. */
  datatype Error = Api(apiError: ApiError) | Other(message: string)

  /** The code the group API uses when no group has the given org and name. */
  const GroupByOrgAndNameNotFound: string := "GROUP_BY_ORG_AND_NAME_NOT_FOUND"

  const UrnPrefix: string := "urn:iws:iam:"
  const GroupUrnInfix: string := ":group/"

  /**
   * The response a handler writes. `Aborted` is the handler panicking, so
   * that no response is written at all.
   */
  datatype Response = Ok(group: Group) | BadRequest | NotFound | InternalServerError | Aborted

  /** The create handler's response and the group it passed to `AddGroup`, if it called it. */
  datatype CreateOutcome = CreateOutcome(response: Response, addGroupCall: Option<Group>)

  /** The get handler's response and the (org, name) it passed to `GetGroupByName`. */
  datatype GetOutcome = GetOutcome(response: Response, getGroupCall: (string, string))

  /**
   * The stored path of a group: the requested path, "/", then the name.
   * A name without '/' is its last segment, so both can be read back.
   */
  function GroupPath(path: string, name: string): (p: string)
    ensures |p| == |path| + 1 + |name|
    ensures p[..|path|] == path && p[|path|] == '/' && p[|path| + 1..] == name
    ensures '/' !in name ==> Strings.SplitAtLast(p, '/') == Some((path, name))
  {
    var p := Strings.Join(path, '/', name);
    assert '/' !in name ==> Strings.SplitAtLast(p, '/') == Some((path, name)) by {
      if '/' !in name { Strings.SplitAtLastJoin(path, '/', name); }
    }
    p
  }

  /** The URN of a group of `org` stored under `path`. */
  function GroupUrn(org: string, path: string): (urn: string)
    ensures |urn| == |UrnPrefix| + |org| + |GroupUrnInfix| + |path|
    ensures urn[..|UrnPrefix|] == UrnPrefix
    ensures urn[|UrnPrefix|..|UrnPrefix| + |org|] == org
    ensures urn[|UrnPrefix| + |org|..|UrnPrefix| + |org| + |GroupUrnInfix|] == GroupUrnInfix
    ensures urn[|urn| - |path|..] == path
  {
    UrnPrefix + org + GroupUrnInfix + path
  }

  /**
   * `createGroupFromRequest`: name copied, path `Path + "/" + Name`, URN
   * `urn:iws:iam:<org>:group/<path>`, org from the URL, and `id` the
   * freshly generated identifier.
   */
  function CreateGroupFromRequest(request: CreateGroupRequest, org: string, id: string): (g: Group)
    ensures g.id == id && g.name == request.name && g.org == org
    ensures g.path == GroupPath(request.path, request.name)
    ensures g.urn == GroupUrn(org, g.path)
    ensures g.urn[..|UrnPrefix|] == UrnPrefix
    ensures |g.urn| > |request.name| && g.urn[|g.urn| - |request.name| - 1..] == "/" + request.name
  {
    var path := GroupPath(request.path, request.name);
    UrnEndsWithName(org, request.path, request.name);
    Group(id, request.name, path, GroupUrn(org, path), org)
  }

  /** The URN of a group path ends with "/" and the name. */
  lemma UrnEndsWithName(org: string, path: string, name: string)
    ensures var urn := GroupUrn(org, GroupPath(path, name));
            |urn| > |name| && urn[|urn| - |name| - 1..] == "/" + name
  {
    var head := UrnPrefix + org + GroupUrnInfix + path;
    var urn := GroupUrn(org, GroupPath(path, name));
    assert GroupPath(path, name) == path + "/" + name;
    assert urn == head + ("/" + name);
    assert |urn| - |name| - 1 == |head|;
  }

  /** Read a group URN back into its org and path; the org ends at the first ':'. */
  function ParseGroupUrn(urn: string): Option<(string, string)> {
    if |urn| < |UrnPrefix| || urn[..|UrnPrefix|] != UrnPrefix then None
    else
      var rest := urn[|UrnPrefix|..];
      match Strings.FirstIndexOf(rest, ':')
      case None => None
      case Some(k) =>
        var tail := rest[k..];
        if |tail| < |GroupUrnInfix| || tail[..|GroupUrnInfix|] != GroupUrnInfix then None
        else Some((rest[..k], tail[|GroupUrnInfix|..]))
  }

  /** For an org without ':' the URN gives back the org and the path. */
  lemma GroupUrnRoundTrip(org: string, path: string)
    requires ':' !in org
    ensures ParseGroupUrn(GroupUrn(org, path)) == Some((org, path))
  {
    var urn := GroupUrn(org, path);
    var rest := urn[|UrnPrefix|..];
    var after := "group/" + path;
    assert rest == org + [':'] + after;
    Strings.FirstIndexOfJoin(org, ':', after);
    assert rest[..|org|] == org;
    var tail := rest[|org|..];
    assert tail == GroupUrnInfix + path;
    assert tail[..|GroupUrnInfix|] == GroupUrnInfix;
    assert tail[|GroupUrnInfix|..] == path;
  }

  /**
   * The URN of a created group determines its org, requested path and
   * name, when the org has no ':' and the name no '/'.
   */
  lemma CreatedGroupUrnDecodes(request: CreateGroupRequest, org: string, id: string)
    requires ':' !in org && '/' !in request.name
    ensures var g := CreateGroupFromRequest(request, org, id);
            && ParseGroupUrn(g.urn) == Some((org, g.path))
            && Strings.SplitAtLast(g.path, '/') == Some((request.path, request.name))
  {
    var g := CreateGroupFromRequest(request, org, id);
    GroupUrnRoundTrip(org, g.path);
  }

  /**
   * Two requests that differ in org, path or name yield different URNs
   * (orgs without ':', names without '/').
   */
  lemma DistinctRequestsDistinctUrns(r1: CreateGroupRequest, org1: string, id1: string,
                                     r2: CreateGroupRequest, org2: string, id2: string)
    requires ':' !in org1 && '/' !in r1.name
    requires ':' !in org2 && '/' !in r2.name
    requires (org1, r1) != (org2, r2)
    ensures CreateGroupFromRequest(r1, org1, id1).urn != CreateGroupFromRequest(r2, org2, id2).urn
  {
    CreatedGroupUrnDecodes(r1, org1, id1);
    CreatedGroupUrnDecodes(r2, org2, id2);
  }

  /** `len(strings.TrimSpace(s)) == 0`: the parameter counts as missing. */
  predicate IsBlank(s: string) {
    |Strings.TrimSpace(s)| == 0
  }

  /**
   * `handleCreateGroup`. A body that does not decode, or whose Name or
   * Path is only whitespace, is a bad request and the group API is not
   * called. Otherwise the group built by `CreateGroupFromRequest` is
   * passed to `AddGroup`; any error it returns is an internal error, and
   * a success answers with the group it returned.
   */
  function HandleCreateGroup(body: Option<CreateGroupRequest>, org: string, id: string,
                             addGroup: Group -> Result<Group, Error>): (h: CreateOutcome)
    ensures h.addGroupCall.None? <==>
      (body.None? || Strings.AllSpace(body.value.name) || Strings.AllSpace(body.value.path))
    ensures h.addGroupCall.None? ==> h.response == BadRequest
    ensures h.addGroupCall.Some? ==>
      var g := h.addGroupCall.value;
      && g.name == body.value.name && g.org == org && g.id == id
      && g.path == GroupPath(body.value.path, body.value.name)
      && g.urn == GroupUrn(org, g.path)
      && (addGroup(g).Failure? <==> h.response == InternalServerError)
      && (addGroup(g).Success? ==> h.response == Ok(addGroup(g).value))
    ensures h.response.BadRequest? || h.response.InternalServerError? || h.response.Ok?
  {
    match body
    case None => CreateOutcome(BadRequest, None)
    case Some(request) =>
      if IsBlank(request.name) || IsBlank(request.path) then CreateOutcome(BadRequest, None)
      else
        var g := CreateGroupFromRequest(request, org, id);
        match addGroup(g)
        case Failure(_) => CreateOutcome(InternalServerError, Some(g))
        case Success(created) => CreateOutcome(Ok(created), Some(g))
  }

  /**
   * `handleGetGroup`. The org and name from the URL go to
   * `GetGroupByName` unchanged. The not-found code becomes not-found, any
   * other code of the API's error type an internal error, and an error of
   * another type makes the handler panic on its type assertion.
   */
  function HandleGetGroup(org: string, name: string,
                          getGroupByName: (string, string) -> Result<Group, Error>): (h: GetOutcome)
    ensures h.getGroupCall == (org, name)
    ensures var r := getGroupByName(org, name);
      && (h.response.Ok? <==> r.Success?)
      && (h.response.Ok? ==> h.response.group == r.value)
      && (h.response.NotFound? <==>
            r.Failure? && r.error.Api? && r.error.apiError.code == GroupByOrgAndNameNotFound)
      && (h.response.InternalServerError? <==>
            r.Failure? && r.error.Api? && r.error.apiError.code != GroupByOrgAndNameNotFound)
      && (h.response.Aborted? <==> r.Failure? && r.error.Other?)
    ensures !h.response.BadRequest?
  {
    var call := (org, name);
    match getGroupByName(call.0, call.1)
    case Success(g) => GetOutcome(Ok(g), call)
    case Failure(Api(e)) =>
      if e.code == GroupByOrgAndNameNotFound then GetOutcome(NotFound, call)
      else GetOutcome(InternalServerError, call)
    case Failure(Other(_)) => GetOutcome(Aborted, call)
  }
}
