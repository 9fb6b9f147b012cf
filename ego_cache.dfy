/**
 * The caching layer of python/ego_client.py: the lazily built policy map
 * (policy name to id), permission map (policy name to the set of
 * lower-cased e-mails holding it), user map (lower-cased name to id) and
 * set of account e-mails, and the operations that read and update them.
 *
 * The REST service is a fixed oracle (`Service`): what each GET, POST and
 * DELETE answers, where `Err(e)` is the exception the request raises.
 * Every request made is appended to the cache's log, so that the
 * properties can say which requests an operation makes. Each operation is
 * a function from a `Cache` to the new `Cache` and the outcome; the class
 * `EgoClient` in module `EgoClientClass` performs the same steps on its
 * fields and is proved to follow these functions.
 */
module EgoCache {
  import opened Wrappers
  import opened Text
  import opened PyValues

  /** A JSON object from the service, each field's value as text. */
  type Item = map<string, string>

  /** The reply to a field search: `count` and `resultSet`. */
  datatype SearchReply = SearchReply(count: int, resultSet: seq<Item>)

  /** The JSON body of a POST. */
  datatype PostData =
    | Permission(mask: string, policyId: string)
    | NewUser(email: string, firstName: string, lastName: string, userType: string, status: string)

  /** One request to the service, by endpoint (relative to the base URL). */
  datatype Request =
    | Get(endpoint: string)
    | Post(endpoint: string, data: PostData)
    | Delete(endpoint: string)

  /** The service's answers, fixed for the run: a field search's reply, a
      list of objects, a POST's reply, and whether a DELETE succeeds. */
  datatype Service = Service(
    search: string -> Result<SearchReply, Exn>,
    list: string -> Result<seq<Item>, Exn>,
    post: (string, PostData) -> Result<Item, Exn>,
    delete: string -> bool)

  /** The client's settings: the DACO and cloud policy names, each in the
      order the client's sets are iterated, and the service. */
  datatype Config = Config(daco: seq<string>, cloud: seq<string>, svc: Service)

  /** The four caches (`None` until built) and the requests made so far. */
  datatype Cache = Cache(
    policyMap: Option<map<string, string>>,
    permissionMap: Option<map<string, set<string>>>,
    userMap: Option<map<string, string>>,
    egoUsers: Option<set<string>>,
    log: seq<Request>)

  const EmptyCache: Cache := Cache(None, None, None, None, [])

  /** `cloud` without the names already in `daco`. */
  function CloudOnly(cloud: seq<string>, daco: seq<string>): (r: seq<string>)
    ensures forall p :: p in r <==> p in cloud && p !in daco
  {
    if cloud == [] then []
    else (if cloud[0] in daco then [] else [cloud[0]]) + CloudOnly(cloud[1..], daco)
  }

  /** `all_policies = daco_policies | cloud_policies`. */
  function AllPolicies(cfg: Config): (r: seq<string>)
    ensures forall p :: p in r <==> p in cfg.daco || p in cfg.cloud
  {
    cfg.daco + CloudOnly(cfg.cloud, cfg.daco)
  }

  function Logged(c: Cache, req: Request): Cache
  {
    c.(log := c.log + [req])
  }

  /** An object attached to an exception, seen only through its text. */
  function Opaque(what: string): PyValue
  {
    PyObject(what, what)
  }

  /** `IOError(msg, obj)`. In Python 3 `IOError` is another name for
      `OSError`, so the class name `format_exception` prints is "OSError". */
  function IOError(msg: string, obj: PyValue): Exn
  {
    Exn("OSError", [PyStr(msg), obj])
  }

  // ------------------------------------------------------------------
  // Field search and the policy map
  // ------------------------------------------------------------------

  /** `[item for item in items if item[name] == value]`: the first item
      lacking the field raises KeyError. */
  function ExactMatches(items: seq<Item>, name: string, value: string): (r: Result<seq<Item>, Exn>)
    ensures r.Ok? <==> forall i :: 0 <= i < |items| ==> name in items[i]
    ensures r.Err? ==> r.error == KeyError(name)
    ensures r.Ok? ==> forall it :: it in r.value ==> it in items && name in it && it[name] == value
    ensures r.Ok? ==> forall i :: 0 <= i < |items| && items[i][name] == value ==> items[i] in r.value
    ensures r.Ok? ==> (r.value == [] <==> forall i :: 0 <= i < |items| ==> items[i][name] != value)
  {
    if items == [] then Ok([])
    else if name !in items[0] then Err(KeyError(name))
    else match ExactMatches(items[1..], name, value)
      case Err(e) => Err(e)
      case Ok(rest) => Ok((if items[0][name] == value then [items[0]] else []) + rest)
  }

  function SearchQuery(endpoint: string, name: string, value: string): string
  {
    endpoint + "?" + name + "=" + value + "&limit=9999999"
  }

  /** `_field_search(endpoint, name, value)`: the items whose field equals
      the value exactly; IOError when the service reports no match at all
      or none matches exactly. */
  function FieldSearch(cfg: Config, c: Cache, endpoint: string, name: string, value: string)
    : (res: (Cache, Result<seq<Item>, Exn>))
    ensures res.0 == Logged(c, Get(SearchQuery(endpoint, name, value)))
    ensures var reply := cfg.svc.search(SearchQuery(endpoint, name, value));
      res.1.Ok? <==>
        reply.Ok? && reply.value.count != 0 &&
        (forall i :: 0 <= i < |reply.value.resultSet| ==> name in reply.value.resultSet[i]) &&
        (exists i :: 0 <= i < |reply.value.resultSet| && reply.value.resultSet[i][name] == value)
    ensures res.1.Ok? ==> |res.1.value| > 0 && forall it :: it in res.1.value ==> name in it && it[name] == value
  {
    var q := SearchQuery(endpoint, name, value);
    var c1 := Logged(c, Get(q));
    match cfg.svc.search(q)
    case Err(e) => (c1, Err(e))
    case Ok(reply) =>
      if reply.count == 0 then
        (c1, Err(IOError("No matches for " + value + " from ego endpoint " + q, Opaque("result"))))
      else
        match ExactMatches(reply.resultSet, name, value)
        case Err(e) => (c1, Err(e))
        case Ok(ms) =>
          if ms == [] then
            (c1, Err(IOError("Can't find " + value + " in results from endpoint " + q, Opaque("result"))))
          else (c1, Ok(ms))
  }

  /** `_get_policy(name)`: the one policy of that exact name. */
  function GetPolicy(cfg: Config, c: Cache, policyName: string): (Cache, Result<Item, Exn>)
  {
    var (c1, r) := FieldSearch(cfg, c, "/policies", "name", policyName);
    match r
    case Err(e) => (c1, Err(e))
    case Ok(items) =>
      if |items| > 1 then
        (c1, Err(IOError("Found multiple policies with name '" + policyName + "'", Opaque("items"))))
      else (c1, Ok(items[0]))
  }

  /** `_create_policy_map()` over the names `names`, in order. */
  function CreatePolicyMap(cfg: Config, c: Cache, names: seq<string>): (Cache, Result<map<string, string>, Exn>)
    decreases |names|
  {
    if names == [] then (c, Ok(map[]))
    else
      var (c1, r) := CreatePolicyMap(cfg, c, names[..|names| - 1]);
      match r
      case Err(e) => (c1, Err(e))
      case Ok(m) =>
        var name := names[|names| - 1];
        var (c2, p) := GetPolicy(cfg, c1, name);
        match p
        case Err(e) => (c2, Err(e))
        case Ok(policy) =>
          if "id" !in policy then (c2, Err(KeyError("id")))
          else (c2, Ok(m[name := policy["id"]]))
  }

  /** `_get_policy_map()`: built once, when it is still `None`. */
  function GetPolicyMap(cfg: Config, c: Cache): (Cache, Result<map<string, string>, Exn>)
  {
    if c.policyMap.Some? then (c, Ok(c.policyMap.value))
    else
      var (c1, r) := CreatePolicyMap(cfg, c, AllPolicies(cfg));
      match r
      case Err(e) => (c1, Err(e))
      case Ok(m) => (c1.(policyMap := Some(m)), Ok(m))
  }

  /** `_get_policy_id(name)`. */
  function GetPolicyId(cfg: Config, c: Cache, name: string): (Cache, Result<string, Exn>)
  {
    var (c1, r) := GetPolicyMap(cfg, c);
    match r
    case Err(e) => (c1, Err(e))
    case Ok(m) => if name in m then (c1, Ok(m[name])) else (c1, Err(KeyError(name)))
  }

  // ------------------------------------------------------------------
  // The permission map
  // ------------------------------------------------------------------

  /** `{u[field].lower() for u in items}`. */
  function LowerField(items: seq<Item>, field: string): (r: Result<set<string>, Exn>)
    ensures r.Ok? <==> forall i :: 0 <= i < |items| ==> field in items[i]
    ensures r.Ok? ==> forall x :: x in r.value <==> exists i :: 0 <= i < |items| && Lower(items[i][field]) == x
  {
    if items == [] then Ok({})
    else if field !in items[0] then Err(KeyError(field))
    else match LowerField(items[1..], field)
      case Err(e) => Err(e)
      case Ok(rest) =>
        assert forall i :: 1 <= i < |items| ==> items[i] == items[1..][i - 1];
        Ok({Lower(items[0][field])} + rest)
  }

  function PolicyUsersEndpoint(policyId: string): string
  {
    "/policies/" + policyId + "/users"
  }

  /** `_get_policy_users(name)`: the lower-cased names of the policy's users. */
  function GetPolicyUsers(cfg: Config, c: Cache, name: string): (Cache, Result<set<string>, Exn>)
  {
    var (c1, id) := GetPolicyId(cfg, c, name);
    match id
    case Err(e) => (c1, Err(e))
    case Ok(policyId) =>
      var ep := PolicyUsersEndpoint(policyId);
      var c2 := Logged(c1, Get(ep));
      match cfg.svc.list(ep)
      case Err(e) => (c2, Err(e))
      case Ok(users) => (c2, LowerField(users, "name"))
  }

  /** `_create_permission_map()` over the names `names`, in order. */
  function CreatePermissionMap(cfg: Config, c: Cache, names: seq<string>): (Cache, Result<map<string, set<string>>, Exn>)
    decreases |names|
  {
    if names == [] then (c, Ok(map[]))
    else
      var (c1, r) := CreatePermissionMap(cfg, c, names[..|names| - 1]);
      match r
      case Err(e) => (c1, Err(e))
      case Ok(m) =>
        var name := names[|names| - 1];
        var (c2, users) := GetPolicyUsers(cfg, c1, name);
        match users
        case Err(e) => (c2, Err(e))
        case Ok(s) => (c2, Ok(m[name := s]))
  }

  /** `_get_permission_map()`: rebuilt whenever it is `None` or empty (the
      source tests it for falsiness). */
  function GetPermissionMap(cfg: Config, c: Cache): (Cache, Result<map<string, set<string>>, Exn>)
  {
    if c.permissionMap.Some? && c.permissionMap.value != map[] then (c, Ok(c.permissionMap.value))
    else
      var (c1, r) := CreatePermissionMap(cfg, c, AllPolicies(cfg));
      match r
      case Err(e) => (c1, Err(e))
      case Ok(m) => (c1.(permissionMap := Some(m)), Ok(m))
  }

  /** The cached permission map, once built. */
  function PermissionMap(c: Cache): map<string, set<string>>
  {
    if c.permissionMap.Some? then c.permissionMap.value else map[]
  }

  /** `_has_permission(user, permission)`. */
  function HasPermission(cfg: Config, c: Cache, user: string, permission: string): (Cache, Result<bool, Exn>)
  {
    var (c1, r) := GetPermissionMap(cfg, c);
    match r
    case Err(e) => (c1, Err(e))
    case Ok(m) => if permission in m then (c1, Ok(user in m[permission])) else (c1, Err(KeyError(permission)))
  }

  /** `all(map(lambda p: user in m[p], policies))`: stops at the first
      policy the user lacks; a policy missing from the map raises KeyError. */
  function AllHeld(m: map<string, set<string>>, user: string, policies: seq<string>): Result<bool, Exn>
  {
    if policies == [] then Ok(true)
    else if policies[0] !in m then Err(KeyError(policies[0]))
    else if user !in m[policies[0]] then Ok(false)
    else AllHeld(m, user, policies[1..])
  }

  /** `has_policies(user, policies)`. */
  function HasPolicies(cfg: Config, c: Cache, user: string, policies: seq<string>): (Cache, Result<bool, Exn>)
  {
    var (c1, r) := GetPermissionMap(cfg, c);
    match r
    case Err(e) => (c1, Err(e))
    case Ok(m) => (c1, AllHeld(m, user, policies))
  }

  /** `has_daco(user)`: the user is lower-cased first. */
  function HasDaco(cfg: Config, c: Cache, user: string): (Cache, Result<bool, Exn>)
  {
    HasPolicies(cfg, c, Lower(user), cfg.daco)
  }

  /** `has_cloud(user)`: the user is lower-cased first. */
  function HasCloud(cfg: Config, c: Cache, user: string): (Cache, Result<bool, Exn>)
  {
    HasPolicies(cfg, c, Lower(user), cfg.cloud)
  }

  /** The union of `m[p]` over `policies`, taken in order. */
  function UnionOver(m: map<string, set<string>>, policies: seq<string>): Result<set<string>, Exn>
    decreases |policies|
  {
    if policies == [] then Ok({})
    else match UnionOver(m, policies[..|policies| - 1])
      case Err(e) => Err(e)
      case Ok(s) =>
        var p := policies[|policies| - 1];
        if p in m then Ok(s + m[p]) else Err(KeyError(p))
  }

  /** `get_daco_users()`: everyone holding any of the policies. */
  function GetDacoUsers(cfg: Config, c: Cache): (Cache, Result<set<string>, Exn>)
  {
    var (c1, r) := GetPermissionMap(cfg, c);
    match r
    case Err(e) => (c1, Err(e))
    case Ok(m) => (c1, UnionOver(m, AllPolicies(cfg)))
  }

  // ------------------------------------------------------------------
  // Accounts and the user map
  // ------------------------------------------------------------------

  const EgoUsersEndpoint := "/users?limit=9999999"
  const UserMapEndpoint := "/users?limit=999999"

  /** `_get_ego_users()`: the lower-cased e-mails of all accounts. */
  function GetEgoUsers(cfg: Config, c: Cache): (Cache, Result<set<string>, Exn>)
  {
    var c1 := Logged(c, Get(EgoUsersEndpoint));
    match cfg.svc.list(EgoUsersEndpoint)
    case Err(e) => (c1, Err(e))
    case Ok(users) => (c1, LowerField(users, "email"))
  }

  /** `user_exists(user)`: the account set is fetched once. */
  function UserExists(cfg: Config, c: Cache, user: string): (Cache, Result<bool, Exn>)
  {
    if c.egoUsers.Some? then (c, Ok(Lower(user) in c.egoUsers.value))
    else
      var (c1, r) := GetEgoUsers(cfg, c);
      match r
      case Err(e) => (c1, Err(e))
      case Ok(s) => (c1.(egoUsers := Some(s)), Ok(Lower(user) in s))
  }

  /** `{u['name'].lower(): u['id'] for u in users}`: a later entry wins. */
  function IdMap(users: seq<Item>): Result<map<string, string>, Exn>
    decreases |users|
  {
    if users == [] then Ok(map[])
    else match IdMap(users[..|users| - 1])
      case Err(e) => Err(e)
      case Ok(m) =>
        var u := users[|users| - 1];
        if "name" !in u then Err(KeyError("name"))
        else if "id" !in u then Err(KeyError("id"))
        else Ok(m[Lower(u["name"]) := u["id"]])
  }

  /** `_get_user_map()`: built once, when it is still `None`. */
  function GetUserMap(cfg: Config, c: Cache): (Cache, Result<map<string, string>, Exn>)
  {
    if c.userMap.Some? then (c, Ok(c.userMap.value))
    else
      var c1 := Logged(c, Get(UserMapEndpoint));
      match cfg.svc.list(UserMapEndpoint)
      case Err(e) => (c1, Err(e))
      case Ok(users) =>
        match IdMap(users)
        case Err(e) => (c1, Err(e))
        case Ok(m) => (c1.(userMap := Some(m)), Ok(m))
  }

  /** `_user_id(user)`. */
  function UserId(cfg: Config, c: Cache, user: string): (Cache, Result<string, Exn>)
  {
    var (c1, r) := GetUserMap(cfg, c);
    match r
    case Err(e) => (c1, Err(e))
    case Ok(m) => if Lower(user) in m then (c1, Ok(m[Lower(user)])) else (c1, Err(KeyError(Lower(user))))
  }

  /** `_set_id(user, user_id)`. */
  function SetId(cfg: Config, c: Cache, user: string, userId: string): (Cache, Result<(), Exn>)
  {
    var (c1, r) := GetUserMap(cfg, c);
    match r
    case Err(e) => (c1, Err(e))
    case Ok(m) => (c1.(userMap := Some(m[Lower(user) := userId])), Ok(()))
  }

  /** `name.rpartition(" ")`, without the separator: the text before the
      last space and the text after it, or `""` and the whole name. */
  function SplitName(name: string): (r: (string, string))
    ensures ' ' in name ==> r.0 + " " + r.1 == name && ' ' !in r.1
    ensures ' ' !in name ==> r == ("", name)
  {
    if ' ' !in name then ("", name)
    else if name[|name| - 1] == ' ' then
      assert name == name[..|name| - 1] + " ";
      (name[..|name| - 1], "")
    else
      var (first, last) := SplitName(name[..|name| - 1]);
      assert name == name[..|name| - 1] + [name[|name| - 1]];
      (first, last + [name[|name| - 1]])
  }

  /** `create_user(user, name, ego_type)`: posts the new account, records
      its id, and adds `user` as given to the account set when
      `user_exists(user)` does not already hold. */
  function CreateUser(cfg: Config, c: Cache, user: string, name: string, egoType: string): (Cache, Result<Item, Exn>)
  {
    var (first, last) := SplitName(name);
    var data := NewUser(user, first, last, egoType, "Approved");
    var c1 := Logged(c, Post("/users", data));
    match cfg.svc.post("/users", data)
    case Err(e) => (c1, Err(e))
    case Ok(reply) =>
      if "name" !in reply then (c1, Err(KeyError("name")))
      else if "id" !in reply then (c1, Err(KeyError("id")))
      else
        var (c2, s) := SetId(cfg, c1, reply["name"], reply["id"]);
        match s
        case Err(e) => (c2, Err(e))
        case Ok(_) =>
          var (c3, exists_) := UserExists(cfg, c2, user);
          match exists_
          case Err(e) => (c3, Err(e))
          case Ok(b) =>
            if b then (c3, Ok(reply))
            else (c3.(egoUsers := Some(c3.egoUsers.value + {user})), Ok(reply))
  }

  /** `create_user` as evidently intended: the account set holds
      lower-cased e-mails, so the new one is added lower-cased. */
  function CreateUserLowered(cfg: Config, c: Cache, user: string, name: string, egoType: string): (Cache, Result<Item, Exn>)
  {
    var (first, last) := SplitName(name);
    var data := NewUser(user, first, last, egoType, "Approved");
    var c1 := Logged(c, Post("/users", data));
    match cfg.svc.post("/users", data)
    case Err(e) => (c1, Err(e))
    case Ok(reply) =>
      if "name" !in reply then (c1, Err(KeyError("name")))
      else if "id" !in reply then (c1, Err(KeyError("id")))
      else
        var (c2, s) := SetId(cfg, c1, reply["name"], reply["id"]);
        match s
        case Err(e) => (c2, Err(e))
        case Ok(_) =>
          var (c3, exists_) := UserExists(cfg, c2, user);
          match exists_
          case Err(e) => (c3, Err(e))
          case Ok(b) =>
            if b then (c3, Ok(reply))
            else (c3.(egoUsers := Some(c3.egoUsers.value + {Lower(user)})), Ok(reply))
  }

  // ------------------------------------------------------------------
  // Granting and revoking
  // ------------------------------------------------------------------

  function GrantEndpoint(userId: string): string
  {
    "/users/" + userId + "/permissions"
  }

  function RevokeEndpoint(policyId: string, userId: string): string
  {
    "/policies/" + policyId + "/permission/user/" + userId
  }

  /** `_grant_permissions(user, policy)`: a READ permission for the user. */
  function GrantPermissions(cfg: Config, c: Cache, user: string, policy: string): (Cache, Result<(), Exn>)
  {
    var (c1, pid) := GetPolicyId(cfg, c, policy);
    match pid
    case Err(e) => (c1, Err(e))
    case Ok(policyId) =>
      var (c2, uid) := UserId(cfg, c1, user);
      match uid
      case Err(e) => (c2, Err(e))
      case Ok(userId) =>
        var ep := GrantEndpoint(userId);
        var data := Permission("READ", policyId);
        var c3 := Logged(c2, Post(ep, data));
        match cfg.svc.post(ep, data)
        case Err(e) => (c3, Err(e))
        case Ok(_) => (c3, Ok(()))
  }

  /** The loop of `grant_daco`/`grant_cloud` over `policies`, in order,
      with the permission map already built: a grant is posted only for
      a policy the user is not in, and the user is then added to it. */
  function GrantEach(cfg: Config, c: Cache, user: string, policies: seq<string>): (Cache, Result<(), Exn>)
    decreases |policies|
  {
    if policies == [] then (c, Ok(()))
    else
      var (c1, r) := GrantEach(cfg, c, user, policies[..|policies| - 1]);
      match r
      case Err(e) => (c1, Err(e))
      case Ok(_) =>
        var p := policies[|policies| - 1];
        var m := PermissionMap(c1);
        if p !in m then (c1, Err(KeyError(p)))
        else if user in m[p] then (c1, Ok(()))
        else
          var (c2, g) := GrantPermissions(cfg, c1, user, p);
          match g
          case Err(e) => (c2, Err(e))
          case Ok(_) => (c2.(permissionMap := Some(m[p := m[p] + {user}])), Ok(()))
  }

  /** `grant_daco(user)` (policies `daco`) and `grant_cloud(user)`
      (policies `cloud`); the user is not lower-cased. */
  function GrantPolicies(cfg: Config, c: Cache, user: string, policies: seq<string>): (Cache, Result<(), Exn>)
  {
    var (c1, r) := GetPermissionMap(cfg, c);
    match r
    case Err(e) => (c1, Err(e))
    case Ok(_) => GrantEach(cfg, c1, user, policies)
  }

  /** `revoke_policy(user, policy_name)`: a DELETE only when the cached
      map says the user holds the policy. */
  function RevokePolicy(cfg: Config, c: Cache, user: string, policy: string): (Cache, Result<(), Exn>)
  {
    var (c1, uid) := UserId(cfg, c, user);
    match uid
    case Err(e) => (c1, Err(e))
    case Ok(userId) =>
      var (c2, pid) := GetPolicyId(cfg, c1, policy);
      match pid
      case Err(e) => (c2, Err(e))
      case Ok(policyId) =>
        var (c3, held) := HasPermission(cfg, c2, user, policy);
        match held
        case Err(e) => (c3, Err(e))
        case Ok(b) =>
          if !b then (c3, Ok(()))
          else
            var ep := RevokeEndpoint(policyId, userId);
            var c4 := Logged(c3, Delete(ep));
            if cfg.svc.delete(ep) then (c4, Ok(()))
            else (c4, Err(IOError("Can't revoke policy " + policyId, Opaque("response"))))
  }

  /** The loop of `revoke_policies` over `policies`, in order: each policy
      is revoked, then the user is discarded from its cached set. */
  function RevokeEach(cfg: Config, c: Cache, user: string, policies: seq<string>): (Cache, Result<(), Exn>)
    decreases |policies|
  {
    if policies == [] then (c, Ok(()))
    else
      var (c1, r) := RevokeEach(cfg, c, user, policies[..|policies| - 1]);
      match r
      case Err(e) => (c1, Err(e))
      case Ok(_) =>
        var p := policies[|policies| - 1];
        var (c2, d) := RevokePolicy(cfg, c1, user, p);
        match d
        case Err(e) => (c2, Err(e))
        case Ok(_) =>
          var m := PermissionMap(c2);
          if p !in m then (c2, Err(KeyError(p)))
          else (c2.(permissionMap := Some(m[p := m[p] - {user}])), Ok(()))
  }

  /** `revoke_policies(user, policies)`; `revoke_daco` and `revoke_cloud`
      pass the DACO and the cloud policies. */
  function RevokePolicies(cfg: Config, c: Cache, user: string, policies: seq<string>): (Cache, Result<(), Exn>)
  {
    var (c1, r) := GetPermissionMap(cfg, c);
    match r
    case Err(e) => (c1, Err(e))
    case Ok(_) => RevokeEach(cfg, c1, user, policies)
  }

  // ------------------------------------------------------------------
  // The loops stop at the first exception
  // ------------------------------------------------------------------

  /** Once building the policy map fails, the later policies change nothing. */
  lemma {:induction false} CreatePolicyMapErrorStops(cfg: Config, c: Cache, names: seq<string>, n: nat)
    requires n <= |names|
    requires CreatePolicyMap(cfg, c, names[..n]).1.Err?
    ensures CreatePolicyMap(cfg, c, names) == CreatePolicyMap(cfg, c, names[..n])
    decreases |names| - n
  {
    if n < |names| {
      assert names[..n + 1][..n] == names[..n];
      CreatePolicyMapErrorStops(cfg, c, names, n + 1);
    } else {
      assert names[..n] == names;
    }
  }

  /** Once building the permission map fails, the later policies change nothing. */
  lemma {:induction false} CreatePermissionMapErrorStops(cfg: Config, c: Cache, names: seq<string>, n: nat)
    requires n <= |names|
    requires CreatePermissionMap(cfg, c, names[..n]).1.Err?
    ensures CreatePermissionMap(cfg, c, names) == CreatePermissionMap(cfg, c, names[..n])
    decreases |names| - n
  {
    if n < |names| {
      assert names[..n + 1][..n] == names[..n];
      CreatePermissionMapErrorStops(cfg, c, names, n + 1);
    } else {
      assert names[..n] == names;
    }
  }

  /** Once the union fails, the later policies change nothing. */
  lemma {:induction false} UnionOverErrorStops(m: map<string, set<string>>, names: seq<string>, n: nat)
    requires n <= |names|
    requires UnionOver(m, names[..n]).Err?
    ensures UnionOver(m, names) == UnionOver(m, names[..n])
    decreases |names| - n
  {
    if n < |names| {
      assert names[..n + 1][..n] == names[..n];
      UnionOverErrorStops(m, names, n + 1);
    } else {
      assert names[..n] == names;
    }
  }

  /** Once a grant fails, the later policies change nothing. */
  lemma {:induction false} GrantEachErrorStops(cfg: Config, c: Cache, user: string, names: seq<string>, n: nat)
    requires n <= |names|
    requires GrantEach(cfg, c, user, names[..n]).1.Err?
    ensures GrantEach(cfg, c, user, names) == GrantEach(cfg, c, user, names[..n])
    decreases |names| - n
  {
    if n < |names| {
      assert names[..n + 1][..n] == names[..n];
      GrantEachErrorStops(cfg, c, user, names, n + 1);
    } else {
      assert names[..n] == names;
    }
  }

  /** Once a revocation fails, the later policies change nothing. */
  lemma {:induction false} RevokeEachErrorStops(cfg: Config, c: Cache, user: string, names: seq<string>, n: nat)
    requires n <= |names|
    requires RevokeEach(cfg, c, user, names[..n]).1.Err?
    ensures RevokeEach(cfg, c, user, names) == RevokeEach(cfg, c, user, names[..n])
    decreases |names| - n
  {
    if n < |names| {
      assert names[..n + 1][..n] == names[..n];
      RevokeEachErrorStops(cfg, c, user, names, n + 1);
    } else {
      assert names[..n] == names;
    }
  }

  /** One more policy in `_create_permission_map()`. */
  lemma CreatePermissionMapStep(cfg: Config, c: Cache, names: seq<string>, i: nat, c1: Cache, m: map<string, set<string>>)
    requires i < |names|
    requires CreatePermissionMap(cfg, c, names[..i]) == (c1, Ok(m))
    ensures var (c2, users) := GetPolicyUsers(cfg, c1, names[i]);
      CreatePermissionMap(cfg, c, names[..i + 1]) ==
        if users.Ok? then (c2, Ok(m[names[i] := users.value])) else (c2, Err(users.error))
  {
    assert names[..i + 1][..i] == names[..i];
  }

  /** One more policy in `_create_policy_map()`. */
  lemma CreatePolicyMapStep(cfg: Config, c: Cache, names: seq<string>, i: nat, c1: Cache, m: map<string, string>)
    requires i < |names|
    requires CreatePolicyMap(cfg, c, names[..i]) == (c1, Ok(m))
    ensures var (c2, p) := GetPolicy(cfg, c1, names[i]);
      CreatePolicyMap(cfg, c, names[..i + 1]) ==
        if p.Err? then (c2, Err(p.error))
        else if "id" !in p.value then (c2, Err(KeyError("id")))
        else (c2, Ok(m[names[i] := p.value["id"]]))
  {
    assert names[..i + 1][..i] == names[..i];
  }
}
