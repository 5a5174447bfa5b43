/**
 The user directory client (`YEasyDingTalk\UserV2\Client`). Each public method
 turns its arguments into exactly one request to the injected transport: a
 keyed GET or a JSON POST, a fixed endpoint path and an ordered body. The
 method returns the transport's response unchanged, so each function here
 returns the request the method hands over.
 */
module UserV2 {
  import opened PhpArray

  /** The two transport primitives the client calls. */
  datatype Verb = HttpGet | PostJson

  /** One call on the transport: `$this->client->get(path, body)` or `postJson(path, body)`. */
  datatype Request = Request(verb: Verb, path: string, body: Assoc)

  /** An argument the role methods accept either as one string or as a list. */
  datatype IdArg = Single(id: string) | Many(ids: seq<string>)

  // ---------------------------------------------------------------------------
  // The remote operations and their wire shape

  /** The remote operations the client reaches, one per endpoint. */
  datatype Operation =
    | GetUser | ListUserIds | ListUsers | ListDetailedUsers
    | Admins | AdminScope | UseridByUnionid
    | CreateUser | UpdateUser | DeleteUser | UserByCode
    | AddRolesForEmps | RemoveRolesForEmps
    | OrgUserCount | UseridByMobile | InactiveUsers

  function VerbOf(op: Operation): Verb {
    match op
    case Admins | AdminScope | UseridByUnionid | DeleteUser | UserByCode | OrgUserCount => HttpGet
    case _ => PostJson
  }

  function PathOf(op: Operation): string {
    match op
    case GetUser => "topapi/v2/user/get"
    case ListUserIds => "topapi/user/listid"
    case ListUsers => "topapi/user/listsimple"
    case ListDetailedUsers => "topapi/v2/user/list"
    case Admins => "user/get_admin"
    case AdminScope => "topapi/user/get_admin_scope"
    case UseridByUnionid => "user/getUseridByUnionid"
    case CreateUser => "user/create"
    case UpdateUser => "user/update"
    case DeleteUser => "user/delete"
    case UserByCode => "user/getuserinfo"
    case AddRolesForEmps => "topapi/role/addrolesforemps"
    case RemoveRolesForEmps => "topapi/role/removerolesforemps"
    case OrgUserCount => "user/get_org_user_count"
    case UseridByMobile => "topapi/v2/user/getbymobile"
    case InactiveUsers => "topapi/inactive/user/get"
  }

  /** The wire keys of an operation, in order; None where the caller supplies them. */
  function WireKeys(op: Operation): Option<seq<string>> {
    match op
    case GetUser => Some(["userid", "language"])
    case ListUserIds => Some(["dept_id"])
    case ListUsers | ListDetailedUsers =>
      Some(["dept_id", "cursor", "size", "order_field", "language", "contain_access_limit"])
    case Admins => Some([])
    case AdminScope | DeleteUser => Some(["userid"])
    case UseridByUnionid => Some(["unionid"])
    case CreateUser | UpdateUser => None
    case UserByCode => Some(["code"])
    case AddRolesForEmps | RemoveRolesForEmps => Some(["userIds", "roleIds"])
    case OrgUserCount => Some(["onlyActive"])
    case UseridByMobile => Some(["mobile"])
    case InactiveUsers => Some(["query_date", "offset", "size"])
  }

  /** `r` is a call of `op`: the right primitive, the right path and exactly its wire keys. */
  predicate Conforms(r: Request, op: Operation) {
    && r.verb == VerbOf(op)
    && r.path == PathOf(op)
    && (WireKeys(op).Some? ==> Keys(r.body) == WireKeys(op).value)
  }

  // ---------------------------------------------------------------------------
  // Argument normalisation

  /**
   `is_array($x) ? implode(',', $x) : $x`. A non-empty list of comma-free ids
   can be read back from the wire string by splitting on commas.
   */
  function Normalise(arg: IdArg): (wire: string)
    ensures arg.Many? && |arg.ids| >= 1 && (forall i :: 0 <= i < |arg.ids| ==> ',' !in arg.ids[i]) ==>
              Explode(',', wire) == arg.ids
  {
    match arg
    case Single(s) => s
    case Many(xs) => Implode(',', xs)
  }

  // ---------------------------------------------------------------------------
  // The client's methods

  /** `get($userid, $lang = null)` */
  function Get(userid: string, lang: Option<string> := None): (r: Request)
    ensures Conforms(r, GetUser)
    ensures ("userid", VStr(userid)) in r.body
    ensures ("language", if lang.Some? then VStr(lang.value) else VNull) in r.body
  {
    Request(PostJson, "topapi/v2/user/get", [
      ("userid", VStr(userid)),
      ("language", match lang case None => VNull case Some(l) => VStr(l))
    ])
  }

  /** `getUserIds($departmentId)` */
  function GetUserIds(departmentId: int): (r: Request)
    ensures Conforms(r, ListUserIds)
    ensures ("dept_id", VInt(departmentId)) in r.body
  {
    Request(PostJson, "topapi/user/listid", [("dept_id", VInt(departmentId))])
  }

  /** The body both department listings send. */
  function ListingBody(departmentId: int, offset: int, size: int, order: string, lang: string): Assoc {
    [
      ("dept_id", VInt(departmentId)),
      ("cursor", VInt(offset)),
      ("size", VInt(size)),
      ("order_field", VStr(order)),
      ("language", VStr(lang)),
      ("contain_access_limit", VBool(false))
    ]
  }

  /** `getUsers($departmentId, $offset = 0, $size = 50, $order = 'custom', $lang = 'zh_CN')` */
  function GetUsers(departmentId: int, offset: int := 0, size: int := 50,
                    order: string := "custom", lang: string := "zh_CN"): (r: Request)
    ensures Conforms(r, ListUsers)
    ensures ("dept_id", VInt(departmentId)) in r.body && ("cursor", VInt(offset)) in r.body
    ensures ("size", VInt(size)) in r.body && ("order_field", VStr(order)) in r.body
    ensures ("language", VStr(lang)) in r.body && ("contain_access_limit", VBool(false)) in r.body
  {
    Request(PostJson, "topapi/user/listsimple", ListingBody(departmentId, offset, size, order, lang))
  }

  /** `getDetailedUsers($departmentId, $offset = 0, $size = 50, $order = 'custom', $lang = 'zh_CN')` */
  function GetDetailedUsers(departmentId: int, offset: int := 0, size: int := 50,
                            order: string := "custom", lang: string := "zh_CN"): (r: Request)
    ensures Conforms(r, ListDetailedUsers)
    ensures ("dept_id", VInt(departmentId)) in r.body && ("cursor", VInt(offset)) in r.body
    ensures ("size", VInt(size)) in r.body && ("order_field", VStr(order)) in r.body
    ensures ("language", VStr(lang)) in r.body && ("contain_access_limit", VBool(false)) in r.body
  {
    Request(PostJson, "topapi/v2/user/list", ListingBody(departmentId, offset, size, order, lang))
  }

  /** `administrators()` */
  function Administrators(): (r: Request)
    ensures Conforms(r, Admins)
    ensures r.body == []
  {
    Request(HttpGet, "user/get_admin", [])
  }

  /** `administratorScope($userid)` */
  function AdministratorScope(userid: string): (r: Request)
    ensures Conforms(r, AdminScope)
    ensures ("userid", VStr(userid)) in r.body
  {
    Request(HttpGet, "topapi/user/get_admin_scope", [("userid", VStr(userid))])
  }

  /** `getUseridByUnionid($unionid)` */
  function GetUseridByUnionid(unionid: string): (r: Request)
    ensures Conforms(r, UseridByUnionid)
    ensures ("unionid", VStr(unionid)) in r.body
  {
    Request(HttpGet, "user/getUseridByUnionid", [("unionid", VStr(unionid))])
  }

  /** `create(array $params)`: the attributes are the body, verbatim. */
  function Create(params: Assoc): (r: Request)
    ensures Conforms(r, CreateUser)
    ensures r.body == params
  {
    Request(PostJson, "user/create", params)
  }

  /** `update($userid, array $params)`: the body is `compact('userid') + $params`. */
  function Update(userid: string, params: Assoc): (r: Request)
    ensures Conforms(r, UpdateUser)
    ensures |r.body| >= 1 && r.body[0] == ("userid", VStr(userid))
    ensures forall k :: k in Keys(r.body) <==> k == "userid" || k in Keys(params)
    ensures r.body == [("userid", VStr(userid))] + Omit(params, ["userid"])
  {
    var head: Assoc := [("userid", VStr(userid))];
    assert Keys(head) == ["userid"];
    UnionIsOmit(head, params);
    Request(PostJson, "user/update", Union(head, params))
  }

  /** `delete($userid)` */
  function Delete(userid: string): (r: Request)
    ensures Conforms(r, DeleteUser)
    ensures ("userid", VStr(userid)) in r.body
  {
    Request(HttpGet, "user/delete", [("userid", VStr(userid))])
  }

  /** `getUserByCode($code)` */
  function GetUserByCode(code: string): (r: Request)
    ensures Conforms(r, UserByCode)
    ensures ("code", VStr(code)) in r.body
  {
    Request(HttpGet, "user/getuserinfo", [("code", VStr(code))])
  }

  /** The body both role methods send: `compact('userIds', 'roleIds')` after normalising. */
  function RolesBody(userIds: IdArg, roleIds: IdArg): Assoc {
    [("userIds", VStr(Normalise(userIds))), ("roleIds", VStr(Normalise(roleIds)))]
  }

  /** `addRoles($userIds, $roleIds)` */
  function AddRoles(userIds: IdArg, roleIds: IdArg): (r: Request)
    ensures Conforms(r, AddRolesForEmps)
    ensures ("userIds", VStr(Normalise(userIds))) in r.body
    ensures ("roleIds", VStr(Normalise(roleIds))) in r.body
  {
    Request(PostJson, "topapi/role/addrolesforemps", RolesBody(userIds, roleIds))
  }

  /** `removeRoles($userIds, $roleIds)` */
  function RemoveRoles(userIds: IdArg, roleIds: IdArg): (r: Request)
    ensures Conforms(r, RemoveRolesForEmps)
    ensures ("userIds", VStr(Normalise(userIds))) in r.body
    ensures ("roleIds", VStr(Normalise(roleIds))) in r.body
  {
    Request(PostJson, "topapi/role/removerolesforemps", RolesBody(userIds, roleIds))
  }

  /** `getCount($onlyActive = 0)` */
  function GetCount(onlyActive: int := 0): (r: Request)
    ensures Conforms(r, OrgUserCount)
    ensures ("onlyActive", VInt(onlyActive)) in r.body
  {
    Request(HttpGet, "user/get_org_user_count", [("onlyActive", VInt(onlyActive))])
  }

  /** `getActivatedCount()`: delegates to `getCount(1)`. */
  function GetActivatedCount(): (r: Request)
    ensures Conforms(r, OrgUserCount)
    ensures ("onlyActive", VInt(1)) in r.body
  {
    GetCount(1)
  }

  /** `getUserIdByPhone($mobile = '')` */
  function GetUserIdByPhone(mobile: string := ""): (r: Request)
    ensures Conforms(r, UseridByMobile)
    ensures ("mobile", VStr(mobile)) in r.body
  {
    Request(PostJson, "topapi/v2/user/getbymobile", [("mobile", VStr(mobile))])
  }

  /** `getInactiveUsers($query_date, $offset, $size)` */
  function GetInactiveUsers(queryDate: string, offset: int, size: int): (r: Request)
    ensures Conforms(r, InactiveUsers)
    ensures ("query_date", VStr(queryDate)) in r.body
    ensures ("offset", VInt(offset)) in r.body && ("size", VInt(size)) in r.body
  {
    Request(PostJson, "topapi/inactive/user/get", [
      ("query_date", VStr(queryDate)), ("offset", VInt(offset)), ("size", VInt(size))
    ])
  }

  // ---------------------------------------------------------------------------
  // Properties of the client

  /** Without a language, `get` sends `language => null`; a given language is forwarded as is. */
  lemma GetLanguage(userid: string, lang: string)
    ensures Get(userid) == Request(PostJson, "topapi/v2/user/get", [("userid", VStr(userid)), ("language", VNull)])
    ensures Get(userid, Some(lang)).body == [("userid", VStr(userid)), ("language", VStr(lang))]
  {
  }

  /** With every optional argument omitted, `getUsers` sends the defaults in its signature, in key order. */
  lemma GetUsersDefaults(departmentId: int)
    ensures GetUsers(departmentId) == Request(PostJson, "topapi/user/listsimple", [
              ("dept_id", VInt(departmentId)), ("cursor", VInt(0)), ("size", VInt(50)),
              ("order_field", VStr("custom")), ("language", VStr("zh_CN")),
              ("contain_access_limit", VBool(false))])
  {
  }

  /**
   The two department listings send the same body and differ only in path; the
   offset travels under `cursor` and `contain_access_limit` is always false.
   */
  lemma ListingsDifferOnlyInPath(departmentId: int, offset: int, size: int, order: string, lang: string)
    ensures var simple := GetUsers(departmentId, offset, size, order, lang);
            var detailed := GetDetailedUsers(departmentId, offset, size, order, lang);
            && simple.verb == detailed.verb
            && simple.body == detailed.body
            && simple.path != detailed.path
            && Lookup(simple.body, "cursor") == Some(VInt(offset))
            && Lookup(simple.body, "contain_access_limit") == Some(VBool(false))
  {
  }

  /** `getActivatedCount()` is `getCount(1)`; `getCount()` asks for `onlyActive => 0`. */
  lemma ActivatedCountIsCountOfActive()
    ensures GetActivatedCount() == GetCount(1)
    ensures GetCount() == Request(HttpGet, "user/get_org_user_count", [("onlyActive", VInt(0))])
  {
  }

  /** An empty list normalises to the empty string; a string is passed through, so normalising twice changes nothing. */
  lemma NormaliseLaws(arg: IdArg, s: string)
    ensures Normalise(Many([])) == ""
    ensures Normalise(Single(s)) == s
    ensures Normalise(Single(Normalise(arg))) == Normalise(arg)
  {
  }

  /**
   Normalising is not injective: the empty list, a list holding one empty id and
   the empty string all send `""`, and an id containing a comma is
   indistinguishable from two ids.
   */
  lemma NormaliseCollisions()
    ensures Normalise(Many([])) == Normalise(Many([""])) == Normalise(Single("")) == ""
    ensures Normalise(Many(["a,b"])) == Normalise(Many(["a", "b"]))
  {
  }

  /**
   A list and the same list already joined with commas produce the same
   request, for both role methods.
   */
  lemma RolesAcceptPreJoined(userIds: seq<string>, roleIds: IdArg)
    ensures AddRoles(Single(Implode(',', userIds)), roleIds) == AddRoles(Many(userIds), roleIds)
    ensures RemoveRoles(Single(Implode(',', userIds)), roleIds) == RemoveRoles(Many(userIds), roleIds)
    ensures AddRoles(roleIds, Single(Implode(',', userIds))) == AddRoles(roleIds, Many(userIds))
    ensures RemoveRoles(roleIds, Single(Implode(',', userIds))) == RemoveRoles(roleIds, Many(userIds))
  {
  }

  /** `addRoles` and `removeRoles` send the same body and differ only in path. */
  lemma RolesDifferOnlyInPath(userIds: IdArg, roleIds: IdArg)
    ensures AddRoles(userIds, roleIds).verb == RemoveRoles(userIds, roleIds).verb
    ensures AddRoles(userIds, roleIds).body == RemoveRoles(userIds, roleIds).body
    ensures AddRoles(userIds, roleIds).path != RemoveRoles(userIds, roleIds).path
  {
  }

  /** Two concrete calls: a list and a pre-joined string end up as the same wire strings. */
  lemma RolesExamples()
    ensures AddRoles(Many(["u1", "u2"]), Single("r1")).body == [("userIds", VStr("u1,u2")), ("roleIds", VStr("r1"))]
    ensures AddRoles(Single("u1,u2"), Many(["r1", "r2"])).body == [("userIds", VStr("u1,u2")), ("roleIds", VStr("r1,r2"))]
  {
    assert Implode(',', ["u1", "u2"]) == "u1" + [','] + "u2" == "u1,u2";
    assert Implode(',', ["r1", "r2"]) == "r1" + [','] + "r2" == "r1,r2";
  }

  /**
   In the body `update` sends, the explicit identifier wins over a `userid`
   among the attributes, and every other attribute is sent with the caller's value.
   */
  lemma UpdatePrecedence(userid: string, params: Assoc, k: string)
    ensures Lookup(Update(userid, params).body, "userid") == Some(VStr(userid))
    ensures k != "userid" ==> Lookup(Update(userid, params).body, k) == Lookup(params, k)
  {
  }

  /** A conflicting `userid` among the attributes is dropped, not sent. */
  lemma UpdateDropsCallerUserid(userid: string, params: Assoc, v: Value)
    requires ("userid", v) in params && v != VStr(userid)
    ensures ("userid", v) !in Update(userid, params).body
  {
  }

  /** No two operations share a path, so a request's path tells which operation issued it. */
  lemma PathsIdentifyOperations(op1: Operation, op2: Operation)
    requires PathOf(op1) == PathOf(op2)
    ensures op1 == op2
  {
  }
}
