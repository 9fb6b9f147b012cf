/**
 * `EgoClient` of python/ego_client.py as an object: its four caches are
 * fields that the methods fill in and update, and every request it makes
 * goes to the fixed service `svc` and is appended to `log`. Each method
 * is proved to do what the function of the same name in `EgoCache` says.
 */
module EgoClientClass {
  import opened Wrappers
  import opened Text
  import opened PyValues
  import E = EgoCache

  class EgoClient {
    const daco: seq<string>
    const cloud: seq<string>
    const svc: E.Service
    var policyMap: Option<map<string, string>>
    var permissionMap: Option<map<string, set<string>>>
    var userMap: Option<map<string, string>>
    var egoUsers: Option<set<string>>
    var log: seq<E.Request>

    function Cfg(): E.Config
    {
      E.Config(daco, cloud, svc)
    }

    function State(): E.Cache
      reads this
    {
      E.Cache(policyMap, permissionMap, userMap, egoUsers, log)
    }

    /** `EgoClient(base_url, daco_policies, cloud_policies, rest_client)`:
        every cache starts out `None`. */
    constructor (daco: seq<string>, cloud: seq<string>, svc: E.Service)
      ensures Cfg() == E.Config(daco, cloud, svc)
      ensures State() == E.EmptyCache
    {
      this.daco := daco;
      this.cloud := cloud;
      this.svc := svc;
      policyMap := None;
      permissionMap := None;
      userMap := None;
      egoUsers := None;
      log := [];
    }

    method FieldSearch(endpoint: string, name: string, value: string) returns (r: Result<seq<E.Item>, Exn>)
      modifies this
      ensures (State(), r) == E.FieldSearch(Cfg(), old(State()), endpoint, name, value)
    {
      var q := E.SearchQuery(endpoint, name, value);
      log := log + [E.Get(q)];
      var reply := svc.search(q);
      if reply.Err? {
        return Err(reply.error);
      }
      if reply.value.count == 0 {
        return Err(E.IOError("No matches for " + value + " from ego endpoint " + q, E.Opaque("result")));
      }
      var matches := E.ExactMatches(reply.value.resultSet, name, value);
      if matches.Err? {
        return Err(matches.error);
      }
      if matches.value == [] {
        return Err(E.IOError("Can't find " + value + " in results from endpoint " + q, E.Opaque("result")));
      }
      r := Ok(matches.value);
    }

    method GetPolicy(policyName: string) returns (r: Result<E.Item, Exn>)
      modifies this
      ensures (State(), r) == E.GetPolicy(Cfg(), old(State()), policyName)
    {
      var items := FieldSearch("/policies", "name", policyName);
      if items.Err? {
        return Err(items.error);
      }
      if |items.value| > 1 {
        return Err(E.IOError("Found multiple policies with name '" + policyName + "'", E.Opaque("items")));
      }
      r := Ok(items.value[0]);
    }

    method CreatePolicyMap() returns (r: Result<map<string, string>, Exn>)
      modifies this
      ensures (State(), r) == E.CreatePolicyMap(Cfg(), old(State()), E.AllPolicies(Cfg()))
    {
      var names := E.AllPolicies(Cfg());
      var m: map<string, string> := map[];
      for i := 0 to |names|
        invariant E.CreatePolicyMap(Cfg(), old(State()), names[..i]) == (State(), Ok(m))
      {
        E.CreatePolicyMapStep(Cfg(), old(State()), names, i, State(), m);
        var policy := GetPolicy(names[i]);
        if policy.Err? {
          E.CreatePolicyMapErrorStops(Cfg(), old(State()), names, i + 1);
          return Err(policy.error);
        }
        if "id" !in policy.value {
          E.CreatePolicyMapErrorStops(Cfg(), old(State()), names, i + 1);
          return Err(KeyError("id"));
        }
        m := m[names[i] := policy.value["id"]];
      }
      assert names[..|names|] == names;
      r := Ok(m);
    }

    method GetPolicyMap() returns (r: Result<map<string, string>, Exn>)
      modifies this
      ensures (State(), r) == E.GetPolicyMap(Cfg(), old(State()))
    {
      if policyMap.None? {
        var m := CreatePolicyMap();
        if m.Err? {
          return Err(m.error);
        }
        policyMap := Some(m.value);
      }
      r := Ok(policyMap.value);
    }

    method GetPolicyId(name: string) returns (r: Result<string, Exn>)
      modifies this
      ensures (State(), r) == E.GetPolicyId(Cfg(), old(State()), name)
    {
      var m := GetPolicyMap();
      if m.Err? {
        return Err(m.error);
      }
      if name !in m.value {
        return Err(KeyError(name));
      }
      r := Ok(m.value[name]);
    }

    method GetPolicyUsers(name: string) returns (r: Result<set<string>, Exn>)
      modifies this
      ensures (State(), r) == E.GetPolicyUsers(Cfg(), old(State()), name)
    {
      var policyId := GetPolicyId(name);
      if policyId.Err? {
        return Err(policyId.error);
      }
      var ep := E.PolicyUsersEndpoint(policyId.value);
      log := log + [E.Get(ep)];
      var users := svc.list(ep);
      if users.Err? {
        return Err(users.error);
      }
      r := E.LowerField(users.value, "name");
    }

    method CreatePermissionMap() returns (r: Result<map<string, set<string>>, Exn>)
      modifies this
      ensures (State(), r) == E.CreatePermissionMap(Cfg(), old(State()), E.AllPolicies(Cfg()))
    {
      var names := E.AllPolicies(Cfg());
      var m: map<string, set<string>> := map[];
      for i := 0 to |names|
        invariant E.CreatePermissionMap(Cfg(), old(State()), names[..i]) == (State(), Ok(m))
      {
        E.CreatePermissionMapStep(Cfg(), old(State()), names, i, State(), m);
        var users := GetPolicyUsers(names[i]);
        if users.Err? {
          E.CreatePermissionMapErrorStops(Cfg(), old(State()), names, i + 1);
          return Err(users.error);
        }
        m := m[names[i] := users.value];
      }
      assert names[..|names|] == names;
      r := Ok(m);
    }

    method GetPermissionMap() returns (r: Result<map<string, set<string>>, Exn>)
      modifies this
      ensures (State(), r) == E.GetPermissionMap(Cfg(), old(State()))
    {
      if permissionMap.None? || permissionMap.value == map[] {
        var m := CreatePermissionMap();
        if m.Err? {
          return Err(m.error);
        }
        permissionMap := Some(m.value);
      }
      r := Ok(permissionMap.value);
    }

    method HasPermission(user: string, permission: string) returns (r: Result<bool, Exn>)
      modifies this
      ensures (State(), r) == E.HasPermission(Cfg(), old(State()), user, permission)
    {
      var m := GetPermissionMap();
      if m.Err? {
        return Err(m.error);
      }
      if permission !in m.value {
        return Err(KeyError(permission));
      }
      r := Ok(user in m.value[permission]);
    }

    method HasPolicies(user: string, policies: seq<string>) returns (r: Result<bool, Exn>)
      modifies this
      ensures (State(), r) == E.HasPolicies(Cfg(), old(State()), user, policies)
    {
      var m := GetPermissionMap();
      if m.Err? {
        return Err(m.error);
      }
      r := E.AllHeld(m.value, user, policies);
    }

    method HasDaco(user: string) returns (r: Result<bool, Exn>)
      modifies this
      ensures (State(), r) == E.HasDaco(Cfg(), old(State()), user)
    {
      r := HasPolicies(Lower(user), daco);
    }

    method HasCloud(user: string) returns (r: Result<bool, Exn>)
      modifies this
      ensures (State(), r) == E.HasCloud(Cfg(), old(State()), user)
    {
      r := HasPolicies(Lower(user), cloud);
    }

    method GetDacoUsers() returns (r: Result<set<string>, Exn>)
      modifies this
      ensures (State(), r) == E.GetDacoUsers(Cfg(), old(State()))
    {
      var m := GetPermissionMap();
      if m.Err? {
        return Err(m.error);
      }
      var all := E.AllPolicies(Cfg());
      var users: set<string> := {};
      for i := 0 to |all|
        invariant E.UnionOver(m.value, all[..i]) == Ok(users)
      {
        assert all[..i + 1][..i] == all[..i];
        if all[i] !in m.value {
          E.UnionOverErrorStops(m.value, all, i + 1);
          return Err(KeyError(all[i]));
        }
        users := users + m.value[all[i]];
      }
      assert all[..|all|] == all;
      r := Ok(users);
    }

    method GetEgoUsers() returns (r: Result<set<string>, Exn>)
      modifies this
      ensures (State(), r) == E.GetEgoUsers(Cfg(), old(State()))
    {
      log := log + [E.Get(E.EgoUsersEndpoint)];
      var users := svc.list(E.EgoUsersEndpoint);
      if users.Err? {
        return Err(users.error);
      }
      r := E.LowerField(users.value, "email");
    }

    method UserExists(user: string) returns (r: Result<bool, Exn>)
      modifies this
      ensures (State(), r) == E.UserExists(Cfg(), old(State()), user)
    {
      if egoUsers.None? {
        var s := GetEgoUsers();
        if s.Err? {
          return Err(s.error);
        }
        egoUsers := Some(s.value);
      }
      r := Ok(Lower(user) in egoUsers.value);
    }

    method GetUserMap() returns (r: Result<map<string, string>, Exn>)
      modifies this
      ensures (State(), r) == E.GetUserMap(Cfg(), old(State()))
    {
      if userMap.None? {
        log := log + [E.Get(E.UserMapEndpoint)];
        var users := svc.list(E.UserMapEndpoint);
        if users.Err? {
          return Err(users.error);
        }
        var m := E.IdMap(users.value);
        if m.Err? {
          return Err(m.error);
        }
        userMap := Some(m.value);
      }
      r := Ok(userMap.value);
    }

    method UserId(user: string) returns (r: Result<string, Exn>)
      modifies this
      ensures (State(), r) == E.UserId(Cfg(), old(State()), user)
    {
      var m := GetUserMap();
      if m.Err? {
        return Err(m.error);
      }
      if Lower(user) !in m.value {
        return Err(KeyError(Lower(user)));
      }
      r := Ok(m.value[Lower(user)]);
    }

    method SetId(user: string, userId: string) returns (r: Result<(), Exn>)
      modifies this
      ensures (State(), r) == E.SetId(Cfg(), old(State()), user, userId)
    {
      var m := GetUserMap();
      if m.Err? {
        return Err(m.error);
      }
      userMap := Some(m.value[Lower(user) := userId]);
      r := Ok(());
    }

    method CreateUser(user: string, name: string, egoType: string) returns (r: Result<E.Item, Exn>)
      modifies this
      ensures (State(), r) == E.CreateUser(Cfg(), old(State()), user, name, egoType)
    {
      var (first, last) := E.SplitName(name);
      var data := E.NewUser(user, first, last, egoType, "Approved");
      log := log + [E.Post("/users", data)];
      var reply := svc.post("/users", data);
      if reply.Err? {
        return Err(reply.error);
      }
      if "name" !in reply.value {
        return Err(KeyError("name"));
      }
      if "id" !in reply.value {
        return Err(KeyError("id"));
      }
      var s := SetId(reply.value["name"], reply.value["id"]);
      if s.Err? {
        return Err(s.error);
      }
      var exists_ := UserExists(user);
      if exists_.Err? {
        return Err(exists_.error);
      }
      if !exists_.value {
        egoUsers := Some(egoUsers.value + {user});
      }
      r := Ok(reply.value);
    }

    method GrantPermissions(user: string, policy: string) returns (r: Result<(), Exn>)
      modifies this
      ensures (State(), r) == E.GrantPermissions(Cfg(), old(State()), user, policy)
    {
      var policyId := GetPolicyId(policy);
      if policyId.Err? {
        return Err(policyId.error);
      }
      var userId := UserId(user);
      if userId.Err? {
        return Err(userId.error);
      }
      var ep := E.GrantEndpoint(userId.value);
      var data := E.Permission("READ", policyId.value);
      log := log + [E.Post(ep, data)];
      var reply := svc.post(ep, data);
      if reply.Err? {
        return Err(reply.error);
      }
      r := Ok(());
    }

    /** The body shared by `grant_daco` and `grant_cloud`. */
    method GrantPolicies(user: string, policies: seq<string>) returns (r: Result<(), Exn>)
      modifies this
      ensures (State(), r) == E.GrantPolicies(Cfg(), old(State()), user, policies)
    {
      var m0 := GetPermissionMap();
      if m0.Err? {
        return Err(m0.error);
      }
      ghost var start := State();
      for i := 0 to |policies|
        invariant E.GrantEach(Cfg(), start, user, policies[..i]) == (State(), Ok(()))
      {
        assert policies[..i + 1][..i] == policies[..i];
        var p := policies[i];
        var m := E.PermissionMap(State());
        if p !in m {
          E.GrantEachErrorStops(Cfg(), start, user, policies, i + 1);
          return Err(KeyError(p));
        }
        if user !in m[p] {
          var g := GrantPermissions(user, p);
          if g.Err? {
            E.GrantEachErrorStops(Cfg(), start, user, policies, i + 1);
            return Err(g.error);
          }
          permissionMap := Some(m[p := m[p] + {user}]);
        }
      }
      assert policies[..|policies|] == policies;
      r := Ok(());
    }

    method GrantDaco(user: string) returns (r: Result<(), Exn>)
      modifies this
      ensures (State(), r) == E.GrantPolicies(Cfg(), old(State()), user, daco)
    {
      r := GrantPolicies(user, daco);
    }

    method GrantCloud(user: string) returns (r: Result<(), Exn>)
      modifies this
      ensures (State(), r) == E.GrantPolicies(Cfg(), old(State()), user, cloud)
    {
      r := GrantPolicies(user, cloud);
    }

    method RevokePolicy(user: string, policy: string) returns (r: Result<(), Exn>)
      modifies this
      ensures (State(), r) == E.RevokePolicy(Cfg(), old(State()), user, policy)
    {
      var userId := UserId(user);
      if userId.Err? {
        return Err(userId.error);
      }
      var policyId := GetPolicyId(policy);
      if policyId.Err? {
        return Err(policyId.error);
      }
      var held := HasPermission(user, policy);
      if held.Err? {
        return Err(held.error);
      }
      if held.value {
        var ep := E.RevokeEndpoint(policyId.value, userId.value);
        log := log + [E.Delete(ep)];
        if !svc.delete(ep) {
          return Err(E.IOError("Can't revoke policy " + policyId.value, E.Opaque("response")));
        }
      }
      r := Ok(());
    }

    method RevokePolicies(user: string, policies: seq<string>) returns (r: Result<(), Exn>)
      modifies this
      ensures (State(), r) == E.RevokePolicies(Cfg(), old(State()), user, policies)
    {
      var m0 := GetPermissionMap();
      if m0.Err? {
        return Err(m0.error);
      }
      ghost var start := State();
      for i := 0 to |policies|
        invariant E.RevokeEach(Cfg(), start, user, policies[..i]) == (State(), Ok(()))
      {
        assert policies[..i + 1][..i] == policies[..i];
        var p := policies[i];
        var d := RevokePolicy(user, p);
        if d.Err? {
          E.RevokeEachErrorStops(Cfg(), start, user, policies, i + 1);
          return Err(d.error);
        }
        var m := E.PermissionMap(State());
        if p !in m {
          E.RevokeEachErrorStops(Cfg(), start, user, policies, i + 1);
          return Err(KeyError(p));
        }
        permissionMap := Some(m[p := m[p] - {user}]);
      }
      assert policies[..|policies|] == policies;
      r := Ok(());
    }

    method RevokeDaco(user: string) returns (r: Result<(), Exn>)
      modifies this
      ensures (State(), r) == E.RevokePolicies(Cfg(), old(State()), user, daco)
    {
      r := RevokePolicies(user, daco);
    }

    method RevokeCloud(user: string) returns (r: Result<(), Exn>)
      modifies this
      ensures (State(), r) == E.RevokePolicies(Cfg(), old(State()), user, cloud)
    {
      r := RevokePolicies(user, cloud);
    }
  }
}
