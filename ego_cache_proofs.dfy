/**
 * Properties of the caching layer of python/ego_client.py, proved about
 * the functions of module `EgoCache`: what a field search returns, that
 * the caches are built once, what `has_policies` and `get_daco_users`
 * compute, and that granting and revoking update the cached permission
 * sets and make a remote request exactly for the policies that need one.
 */
module EgoCacheProofs {
  import opened Wrappers
  import opened Text
  import opened PyValues
  import opened EgoCache

  // ------------------------------------------------------------------
  // Counting the requests that change the service
  // ------------------------------------------------------------------

  predicate IsGrantPost(r: Request)
  {
    r.Post? && r.data.Permission?
  }

  /** How many permission grants were posted. */
  function GrantPosts(reqs: seq<Request>): nat
    decreases |reqs|
  {
    if reqs == [] then 0
    else GrantPosts(reqs[..|reqs| - 1]) + (if IsGrantPost(reqs[|reqs| - 1]) then 1 else 0)
  }

  /** How many DELETE requests were made. */
  function Deletes(reqs: seq<Request>): nat
    decreases |reqs|
  {
    if reqs == [] then 0
    else Deletes(reqs[..|reqs| - 1]) + (if reqs[|reqs| - 1].Delete? then 1 else 0)
  }

  lemma CountsAppend(reqs: seq<Request>, r: Request)
    ensures GrantPosts(reqs + [r]) == GrantPosts(reqs) + (if IsGrantPost(r) then 1 else 0)
    ensures Deletes(reqs + [r]) == Deletes(reqs) + (if r.Delete? then 1 else 0)
  {
    assert (reqs + [r])[..|reqs|] == reqs;
  }

  /** From `c` to `c1` only lookups happened: nothing was granted or
      revoked, the permission map and account set are as they were, and
      a policy or user map already built is kept. */
  ghost predicate Lookups(c: Cache, c1: Cache)
  {
    GrantPosts(c1.log) == GrantPosts(c.log) && Deletes(c1.log) == Deletes(c.log) &&
    c1.permissionMap == c.permissionMap && c1.egoUsers == c.egoUsers &&
    (c.policyMap.Some? ==> c1.policyMap == c.policyMap) &&
    (c.userMap.Some? ==> c1.userMap == c.userMap)
  }

  lemma LookupsTransitive(c: Cache, c1: Cache, c2: Cache)
    requires Lookups(c, c1) && Lookups(c1, c2)
    ensures Lookups(c, c2)
  {
  }

  lemma LoggedGetIsLookup(c: Cache, ep: string)
    ensures Lookups(c, Logged(c, Get(ep)))
  {
    CountsAppend(c.log, Get(ep));
  }

  lemma GetPolicyLookups(cfg: Config, c: Cache, name: string)
    ensures Lookups(c, GetPolicy(cfg, c, name).0)
  {
    LoggedGetIsLookup(c, SearchQuery("/policies", "name", name));
  }

  lemma {:induction false} CreatePolicyMapLookups(cfg: Config, c: Cache, names: seq<string>)
    ensures Lookups(c, CreatePolicyMap(cfg, c, names).0)
    decreases |names|
  {
    if names != [] {
      var n := |names| - 1;
      assert names[..n + 1] == names;
      CreatePolicyMapLookups(cfg, c, names[..n]);
      var (c1, r) := CreatePolicyMap(cfg, c, names[..n]);
      if r.Ok? {
        CreatePolicyMapStep(cfg, c, names, n, c1, r.value);
        GetPolicyLookups(cfg, c1, names[n]);
      }
    }
  }

  lemma GetPolicyIdLookups(cfg: Config, c: Cache, name: string)
    ensures Lookups(c, GetPolicyId(cfg, c, name).0)
    ensures GetPolicyId(cfg, c, name).1.Ok? ==>
      GetPolicyId(cfg, c, name).0.policyMap.Some? &&
      name in GetPolicyId(cfg, c, name).0.policyMap.value &&
      GetPolicyId(cfg, c, name).1.value == GetPolicyId(cfg, c, name).0.policyMap.value[name]
  {
    if c.policyMap.None? {
      CreatePolicyMapLookups(cfg, c, AllPolicies(cfg));
    }
  }

  lemma GetUserMapLookups(cfg: Config, c: Cache)
    ensures Lookups(c, GetUserMap(cfg, c).0)
    ensures GetUserMap(cfg, c).1.Ok? ==> GetUserMap(cfg, c).0.userMap == Some(GetUserMap(cfg, c).1.value)
  {
    if c.userMap.None? {
      var c1 := Logged(c, Get(UserMapEndpoint));
      LoggedGetIsLookup(c, UserMapEndpoint);
      var users := cfg.svc.list(UserMapEndpoint);
      if users.Ok? && IdMap(users.value).Ok? {
        assert GetUserMap(cfg, c) == (c1.(userMap := Some(IdMap(users.value).value)), IdMap(users.value));
      } else {
        assert GetUserMap(cfg, c).0 == c1;
      }
    }
  }

  lemma UserIdLookups(cfg: Config, c: Cache, user: string)
    ensures Lookups(c, UserId(cfg, c, user).0)
    ensures UserId(cfg, c, user).1.Ok? ==>
      UserId(cfg, c, user).0.userMap.Some? &&
      Lower(user) in UserId(cfg, c, user).0.userMap.value &&
      UserId(cfg, c, user).1.value == UserId(cfg, c, user).0.userMap.value[Lower(user)]
  {
    GetUserMapLookups(cfg, c);
  }

  lemma GetPolicyUsersLookups(cfg: Config, c: Cache, name: string)
    ensures Lookups(c, GetPolicyUsers(cfg, c, name).0)
  {
    GetPolicyIdLookups(cfg, c, name);
    var (c1, id) := GetPolicyId(cfg, c, name);
    if id.Ok? {
      var ep := PolicyUsersEndpoint(id.value);
      LoggedGetIsLookup(c1, ep);
      assert GetPolicyUsers(cfg, c, name).0 == Logged(c1, Get(ep));
      LookupsTransitive(c, c1, Logged(c1, Get(ep)));
    } else {
      assert GetPolicyUsers(cfg, c, name).0 == c1;
    }
  }

  /** Building the permission map fetches one user list per policy and
      yields a map over exactly those policies. */
  lemma {:induction false} CreatePermissionMapEffect(cfg: Config, c: Cache, names: seq<string>)
    ensures Lookups(c, CreatePermissionMap(cfg, c, names).0)
    ensures CreatePermissionMap(cfg, c, names).1.Ok? ==>
      forall p :: p in CreatePermissionMap(cfg, c, names).1.value <==> p in names
    decreases |names|
  {
    if names != [] {
      var n := |names| - 1;
      var pre := names[..n];
      CreatePermissionMapEffect(cfg, c, pre);
      var (c1, r) := CreatePermissionMap(cfg, c, pre);
      assert names[..n + 1] == names;
      if r.Ok? {
        CreatePermissionMapStep(cfg, c, names, n, c1, r.value);
        GetPolicyUsersLookups(cfg, c1, names[n]);
        LookupsTransitive(c, c1, GetPolicyUsers(cfg, c1, names[n]).0);
        assert forall p :: p in names <==> p in pre || p == names[n] by {
          assert names == pre + [names[n]];
        }
      }
    }
  }

  /** The cached permission map, when there is one, covers exactly the
      client's policies; every cache the client builds has this shape. */
  ghost predicate Coherent(cfg: Config, c: Cache)
  {
    c.permissionMap.Some? ==> forall p :: p in c.permissionMap.value <==> p in AllPolicies(cfg)
  }

  /** `_get_permission_map()` yields the cached map, over exactly the
      client's policies, and stores it; nothing is granted or revoked. */
  lemma GetPermissionMapEffect(cfg: Config, c: Cache)
    requires Coherent(cfg, c)
    ensures var (c1, r) := GetPermissionMap(cfg, c);
      GrantPosts(c1.log) == GrantPosts(c.log) && Deletes(c1.log) == Deletes(c.log) &&
      c1.egoUsers == c.egoUsers && Coherent(cfg, c1) &&
      (c.policyMap.Some? ==> c1.policyMap == c.policyMap) &&
      (c.userMap.Some? ==> c1.userMap == c.userMap) &&
      (r.Ok? ==> c1.permissionMap == Some(r.value) && forall p :: p in r.value <==> p in AllPolicies(cfg)) &&
      (r.Err? ==> c1.permissionMap == c.permissionMap)
  {
    if !(c.permissionMap.Some? && c.permissionMap.value != map[]) {
      CreatePermissionMapEffect(cfg, c, AllPolicies(cfg));
    }
  }

  lemma PolicyCovered(cfg: Config, c: Cache, p: string)
    requires Coherent(cfg, c) && c.permissionMap.Some?
    requires p in AllPolicies(cfg)
    ensures p in c.permissionMap.value
  {
  }

  /** Once built over the client's policies, the permission map is reused
      without any request, even when it is empty. */
  lemma PermissionMapReused(cfg: Config, c: Cache)
    requires Coherent(cfg, c) && c.permissionMap.Some?
    ensures GetPermissionMap(cfg, c) == (c, Ok(c.permissionMap.value))
  {
    if c.permissionMap.value == map[] {
      var all := AllPolicies(cfg);
      assert all == [] by {
        if all != [] {
          PolicyCovered(cfg, c, all[0]);
        }
      }
      assert CreatePermissionMap(cfg, c, AllPolicies(cfg)) == (c, Ok(map[]));
    }
  }

  // ------------------------------------------------------------------
  // has_policies and get_daco_users
  // ------------------------------------------------------------------

  /** Over policies that are all in the map, `AllHeld` says whether the
      user is in every one of their sets; for no policies it holds. */
  lemma {:induction false} AllHeldMeaning(m: map<string, set<string>>, user: string, policies: seq<string>)
    requires forall p :: p in policies ==> p in m
    ensures AllHeld(m, user, policies) == Ok(forall p :: p in policies ==> user in m[p])
    decreases |policies|
  {
    if policies != [] {
      AllHeldMeaning(m, user, policies[1..]);
      assert forall p :: p in policies ==> p == policies[0] || p in policies[1..];
    }
  }

  /** `has_daco(u)` holds iff the lower-cased `u` is in the cached set of
      every DACO policy (so it holds when there are none); `has_cloud`
      likewise over the cloud policies. Only building the map may fail. */
  lemma HasPoliciesMeaning(cfg: Config, c: Cache, user: string)
    requires Coherent(cfg, c)
    ensures var (c1, r) := GetPermissionMap(cfg, c);
      (r.Ok? ==>
        HasDaco(cfg, c, user) == (c1, Ok(forall p :: p in cfg.daco ==> p in r.value && Lower(user) in r.value[p])) &&
        HasCloud(cfg, c, user) == (c1, Ok(forall p :: p in cfg.cloud ==> p in r.value && Lower(user) in r.value[p]))) &&
      (r.Err? ==> HasDaco(cfg, c, user) == (c1, Err(r.error)) && HasCloud(cfg, c, user) == (c1, Err(r.error)))
  {
    GetPermissionMapEffect(cfg, c);
    var (c1, r) := GetPermissionMap(cfg, c);
    if r.Ok? {
      AllHeldMeaning(r.value, Lower(user), cfg.daco);
      AllHeldMeaning(r.value, Lower(user), cfg.cloud);
    }
  }

  lemma {:induction false} UnionOverMeaning(m: map<string, set<string>>, policies: seq<string>)
    requires forall p :: p in policies ==> p in m
    ensures UnionOver(m, policies).Ok?
    ensures forall x :: x in UnionOver(m, policies).value <==> exists p :: p in policies && x in m[p]
    decreases |policies|
  {
    if policies != [] {
      var pre := policies[..|policies| - 1];
      var last := policies[|policies| - 1];
      assert forall p :: p in pre ==> p in policies;
      UnionOverMeaning(m, pre);
      assert policies == pre + [last];
    }
  }

  /** `get_daco_users()` is everyone in the cached set of any DACO or
      cloud policy. */
  lemma GetDacoUsersMeaning(cfg: Config, c: Cache)
    requires Coherent(cfg, c)
    ensures var (c1, r) := GetPermissionMap(cfg, c);
      r.Ok? ==>
        (GetDacoUsers(cfg, c).0 == c1 && GetDacoUsers(cfg, c).1.Ok? &&
         forall x :: x in GetDacoUsers(cfg, c).1.value <==>
           exists p :: (p in cfg.daco || p in cfg.cloud) && p in r.value && x in r.value[p])
  {
    GetPermissionMapEffect(cfg, c);
    var (c1, r) := GetPermissionMap(cfg, c);
    if r.Ok? {
      UnionOverMeaning(r.value, AllPolicies(cfg));
    }
  }

  // ------------------------------------------------------------------
  // Granting
  // ------------------------------------------------------------------

  ghost predicate Distinct(ps: seq<string>)
  {
    forall i, j :: 0 <= i < j < |ps| ==> ps[i] != ps[j]
  }

  /** The policies of `ps` whose cached set lacks the user. */
  function Missing(m: map<string, set<string>>, user: string, ps: seq<string>): seq<string>
    decreases |ps|
  {
    if ps == [] then []
    else
      var p := ps[|ps| - 1];
      Missing(m, user, ps[..|ps| - 1]) + (if p in m && user !in m[p] then [p] else [])
  }

  /** The policies of `ps` whose cached set holds the user. */
  function Held(m: map<string, set<string>>, user: string, ps: seq<string>): seq<string>
    decreases |ps|
  {
    if ps == [] then []
    else
      var p := ps[|ps| - 1];
      Held(m, user, ps[..|ps| - 1]) + (if p in m && user in m[p] then [p] else [])
  }

  /** `m1` is `m` with the user added to the set of each policy of `ps`. */
  ghost predicate AddedTo(m: map<string, set<string>>, m1: map<string, set<string>>, user: string, ps: seq<string>)
  {
    (forall q :: q in m1 <==> q in m) &&
    forall q :: q in m ==> m1[q] == if q in ps then m[q] + {user} else m[q]
  }

  /** `m1` is `m` with the user taken out of the set of each policy of `ps`. */
  ghost predicate RemovedFrom(m: map<string, set<string>>, m1: map<string, set<string>>, user: string, ps: seq<string>)
  {
    (forall q :: q in m1 <==> q in m) &&
    forall q :: q in m ==> m1[q] == if q in ps then m[q] - {user} else m[q]
  }

  /** `_grant_permissions(user, p)` posts one READ grant, for the policy's
      id and the user's id, as its last request; nothing cached changes
      but the policy and user maps being built. */
  lemma GrantPermissionsEffect(cfg: Config, c: Cache, user: string, p: string)
    ensures var (c1, r) := GrantPermissions(cfg, c, user, p);
      c1.permissionMap == c.permissionMap && c1.egoUsers == c.egoUsers &&
      Deletes(c1.log) == Deletes(c.log) &&
      GrantPosts(c.log) <= GrantPosts(c1.log) <= GrantPosts(c.log) + 1 &&
      (r.Ok? ==>
        GrantPosts(c1.log) == GrantPosts(c.log) + 1 &&
        c1.policyMap.Some? && p in c1.policyMap.value &&
        c1.userMap.Some? && Lower(user) in c1.userMap.value &&
        c1.log[|c1.log| - 1] ==
          Post(GrantEndpoint(c1.userMap.value[Lower(user)]), Permission("READ", c1.policyMap.value[p])))
  {
    GetPolicyIdLookups(cfg, c, p);
    var (c1, pid) := GetPolicyId(cfg, c, p);
    if pid.Ok? {
      UserIdLookups(cfg, c1, user);
      var (c2, uid) := UserId(cfg, c1, user);
      if uid.Ok? {
        CountsAppend(c2.log, Post(GrantEndpoint(uid.value), Permission("READ", pid.value)));
      }
    }
  }

  /** One more policy in the grant loop, once the earlier ones succeeded. */
  lemma GrantEachStep(cfg: Config, c: Cache, user: string, ps: seq<string>, c1: Cache)
    requires ps != []
    requires GrantEach(cfg, c, user, ps[..|ps| - 1]) == (c1, Ok(()))
    ensures var p := ps[|ps| - 1]; var m := PermissionMap(c1);
      GrantEach(cfg, c, user, ps) ==
        if p !in m then (c1, Err(KeyError(p)))
        else if user in m[p] then (c1, Ok(()))
        else
          var (c2, g) := GrantPermissions(cfg, c1, user, p);
          if g.Err? then (c2, Err(g.error))
          else (c2.(permissionMap := Some(m[p := m[p] + {user}])), Ok(()))
  {
  }

  /** What the grant loop over `ps` did, from `c` to `c1` with outcome
      `r`: see `GrantEachEffect`. */
  ghost predicate GrantFacts(c: Cache, c1: Cache, r: Result<(), Exn>, user: string, ps: seq<string>)
    requires c.permissionMap.Some?
  {
    var m := c.permissionMap.value;
    c1.permissionMap.Some? && c1.egoUsers == c.egoUsers && Deletes(c1.log) == Deletes(c.log) &&
    (forall q :: q in c1.permissionMap.value <==> q in m) &&
    (forall q :: q in m ==> m[q] <= c1.permissionMap.value[q] <= m[q] + {user}) &&
    (r.Ok? ==>
      AddedTo(m, c1.permissionMap.value, user, ps) &&
      GrantPosts(c1.log) == GrantPosts(c.log) + |Missing(m, user, ps)|)
  }

  /** The grant loop's facts extend over one more policy `p`, from what
      that policy's step did to the cache. */
  lemma GrantFactsExtend(c: Cache, c1: Cache, c2: Cache, r2: Result<(), Exn>, user: string, ps: seq<string>)
    requires c.permissionMap.Some? && c1.permissionMap.Some?
    requires ps != [] && ps[|ps| - 1] in c.permissionMap.value && ps[|ps| - 1] !in ps[..|ps| - 1]
    requires GrantFacts(c, c1, Ok(()), user, ps[..|ps| - 1])
    requires var p := ps[|ps| - 1]; var m1 := c1.permissionMap.value;
      (user in m1[p] && c2 == c1 && r2 == Ok(())) ||
      (user !in m1[p] && r2.Err? && c2.permissionMap == c1.permissionMap &&
       c2.egoUsers == c1.egoUsers && Deletes(c2.log) == Deletes(c1.log)) ||
      (user !in m1[p] && r2.Ok? && c2.permissionMap == Some(m1[p := m1[p] + {user}]) &&
       c2.egoUsers == c1.egoUsers && Deletes(c2.log) == Deletes(c1.log) &&
       GrantPosts(c2.log) == GrantPosts(c1.log) + 1)
    ensures GrantFacts(c, c2, r2, user, ps)
  {
    var pre := ps[..|ps| - 1];
    var p := ps[|ps| - 1];
    assert forall q :: q in ps <==> q in pre || q == p;
  }

  /** The grant loop's last policy, given what the earlier ones did. */
  lemma GrantEachLast(cfg: Config, c: Cache, user: string, ps: seq<string>, c1: Cache)
    requires c.permissionMap.Some?
    requires ps != [] && Distinct(ps)
    requires forall p :: p in ps ==> p in c.permissionMap.value
    requires GrantEach(cfg, c, user, ps[..|ps| - 1]) == (c1, Ok(()))
    requires GrantFacts(c, c1, Ok(()), user, ps[..|ps| - 1])
    ensures GrantFacts(c, GrantEach(cfg, c, user, ps).0, GrantEach(cfg, c, user, ps).1, user, ps)
  {
    var p := ps[|ps| - 1];
    assert p !in ps[..|ps| - 1];
    GrantEachStep(cfg, c, user, ps, c1);
    if user !in c1.permissionMap.value[p] {
      GrantPermissionsEffect(cfg, c1, user, p);
    }
    GrantFactsExtend(c, c1, GrantEach(cfg, c, user, ps).0, GrantEach(cfg, c, user, ps).1, user, ps);
  }

  /** The grant loop adds the user to the cached set of each policy and
      posts a grant exactly for the policies whose set lacked the user;
      when it stops at an exception, each set has at most gained the
      user. */
  lemma {:induction false} GrantEachEffect(cfg: Config, c: Cache, user: string, ps: seq<string>)
    requires c.permissionMap.Some?
    requires forall p :: p in ps ==> p in c.permissionMap.value
    requires Distinct(ps)
    ensures GrantFacts(c, GrantEach(cfg, c, user, ps).0, GrantEach(cfg, c, user, ps).1, user, ps)
    decreases |ps|
  {
    if ps != [] {
      var pre := ps[..|ps| - 1];
      assert forall q :: q in pre ==> q in ps;
      GrantEachEffect(cfg, c, user, pre);
      var (c1, r1) := GrantEach(cfg, c, user, pre);
      if r1.Ok? {
        GrantEachLast(cfg, c, user, ps, c1);
      }
    }
  }

  /** When the user is in every policy's set already, the grant loop
      makes no request and changes nothing. */
  lemma {:induction false} GrantEachAlreadyHeld(cfg: Config, c: Cache, user: string, ps: seq<string>)
    requires c.permissionMap.Some?
    requires forall p :: p in ps ==> p in c.permissionMap.value && user in c.permissionMap.value[p]
    ensures GrantEach(cfg, c, user, ps) == (c, Ok(()))
    decreases |ps|
  {
    if ps != [] {
      assert forall q :: q in ps[..|ps| - 1] ==> q in ps;
      GrantEachAlreadyHeld(cfg, c, user, ps[..|ps| - 1]);
      GrantEachStep(cfg, c, user, ps, c);
    }
  }

  // ------------------------------------------------------------------
  // Revoking
  // ------------------------------------------------------------------

  /** `revoke_policy(user, p)` sends a DELETE for the policy's id and the
      user's id exactly when the cached set holds the user, as its last
      request; the cached sets are left to the caller. */
  lemma RevokePolicyEffect(cfg: Config, c: Cache, user: string, p: string)
    requires c.permissionMap.Some? && p in c.permissionMap.value
    ensures var (c1, r) := RevokePolicy(cfg, c, user, p); var m := c.permissionMap.value;
      c1.permissionMap == c.permissionMap && c1.egoUsers == c.egoUsers &&
      GrantPosts(c1.log) == GrantPosts(c.log) &&
      (r.Ok? ==> Deletes(c1.log) == Deletes(c.log) + (if user in m[p] then 1 else 0)) &&
      (r.Ok? && user in m[p] ==>
        c1.policyMap.Some? && p in c1.policyMap.value &&
        c1.userMap.Some? && Lower(user) in c1.userMap.value &&
        c1.log[|c1.log| - 1] == Delete(RevokeEndpoint(c1.policyMap.value[p], c1.userMap.value[Lower(user)])))
  {
    UserIdLookups(cfg, c, user);
    var (c1, uid) := UserId(cfg, c, user);
    if uid.Ok? {
      GetPolicyIdLookups(cfg, c1, p);
      var (c2, pid) := GetPolicyId(cfg, c1, p);
      LookupsTransitive(c, c1, c2);
      if pid.Ok? {
        HasPermissionCached(cfg, c2, user, p);
        var ep := RevokeEndpoint(pid.value, uid.value);
        CountsAppend(c2.log, Delete(ep));
        RevokePolicyLast(cfg, c, user, p, c2, uid.value, pid.value);
      } else {
        assert RevokePolicy(cfg, c, user, p) == (c2, Err(pid.error));
      }
    } else {
      assert RevokePolicy(cfg, c, user, p) == (c1, Err(uid.error));
    }
  }

  /** With the permission map cached over `p`, `_has_permission` answers
      from it without a request. */
  lemma HasPermissionCached(cfg: Config, c: Cache, user: string, p: string)
    requires c.permissionMap.Some? && p in c.permissionMap.value
    ensures HasPermission(cfg, c, user, p) == (c, Ok(user in c.permissionMap.value[p]))
  {
    assert c.permissionMap.value != map[];
  }

  /** The end of `revoke_policy`, once both ids are known. */
  lemma RevokePolicyLast(cfg: Config, c: Cache, user: string, p: string, c2: Cache, userId: string, policyId: string)
    requires UserId(cfg, c, user).1 == Ok(userId)
    requires GetPolicyId(cfg, UserId(cfg, c, user).0, p) == (c2, Ok(policyId))
    requires c2.permissionMap.Some? && p in c2.permissionMap.value
    requires HasPermission(cfg, c2, user, p) == (c2, Ok(user in c2.permissionMap.value[p]))
    ensures var ep := RevokeEndpoint(policyId, userId);
      RevokePolicy(cfg, c, user, p) ==
        if user !in c2.permissionMap.value[p] then (c2, Ok(()))
        else if cfg.svc.delete(ep) then (Logged(c2, Delete(ep)), Ok(()))
        else (Logged(c2, Delete(ep)), Err(IOError("Can't revoke policy " + policyId, Opaque("response"))))
  {
  }

  /** One more policy in the revoke loop, once the earlier ones succeeded. */
  lemma RevokeEachStep(cfg: Config, c: Cache, user: string, ps: seq<string>, c1: Cache)
    requires ps != []
    requires RevokeEach(cfg, c, user, ps[..|ps| - 1]) == (c1, Ok(()))
    ensures var p := ps[|ps| - 1]; var (c2, d) := RevokePolicy(cfg, c1, user, p); var m := PermissionMap(c2);
      RevokeEach(cfg, c, user, ps) ==
        if d.Err? then (c2, Err(d.error))
        else if p !in m then (c2, Err(KeyError(p)))
        else (c2.(permissionMap := Some(m[p := m[p] - {user}])), Ok(()))
  {
  }

  /** What the revoke loop over `ps` did, from `c` to `c1` with outcome
      `r`: see `RevokeEachEffect`. */
  ghost predicate RevokeFacts(c: Cache, c1: Cache, r: Result<(), Exn>, user: string, ps: seq<string>)
    requires c.permissionMap.Some?
  {
    var m := c.permissionMap.value;
    c1.permissionMap.Some? && c1.egoUsers == c.egoUsers && GrantPosts(c1.log) == GrantPosts(c.log) &&
    (forall q :: q in c1.permissionMap.value <==> q in m) &&
    (forall q :: q in m ==> m[q] - {user} <= c1.permissionMap.value[q] <= m[q]) &&
    (r.Ok? ==>
      RemovedFrom(m, c1.permissionMap.value, user, ps) &&
      Deletes(c1.log) == Deletes(c.log) + |Held(m, user, ps)|)
  }

  /** The revoke loop's facts extend over one more policy `p`, from what
      that policy's step did to the cache. */
  lemma RevokeFactsExtend(c: Cache, c1: Cache, c2: Cache, r2: Result<(), Exn>, user: string, ps: seq<string>)
    requires c.permissionMap.Some? && c1.permissionMap.Some?
    requires ps != [] && ps[|ps| - 1] in c.permissionMap.value && ps[|ps| - 1] !in ps[..|ps| - 1]
    requires RevokeFacts(c, c1, Ok(()), user, ps[..|ps| - 1])
    requires var p := ps[|ps| - 1]; var m1 := c1.permissionMap.value;
      (r2.Err? && c2.permissionMap == c1.permissionMap &&
       c2.egoUsers == c1.egoUsers && GrantPosts(c2.log) == GrantPosts(c1.log)) ||
      (r2.Ok? && c2.permissionMap == Some(m1[p := m1[p] - {user}]) &&
       c2.egoUsers == c1.egoUsers && GrantPosts(c2.log) == GrantPosts(c1.log) &&
       Deletes(c2.log) == Deletes(c1.log) + (if user in m1[p] then 1 else 0))
    ensures RevokeFacts(c, c2, r2, user, ps)
  {
    var pre := ps[..|ps| - 1];
    var p := ps[|ps| - 1];
    assert forall q :: q in ps <==> q in pre || q == p;
  }

  /** The revoke loop's last policy, given what the earlier ones did. */
  lemma RevokeEachLast(cfg: Config, c: Cache, user: string, ps: seq<string>, c1: Cache)
    requires c.permissionMap.Some?
    requires ps != [] && Distinct(ps)
    requires forall p :: p in ps ==> p in c.permissionMap.value
    requires RevokeEach(cfg, c, user, ps[..|ps| - 1]) == (c1, Ok(()))
    requires RevokeFacts(c, c1, Ok(()), user, ps[..|ps| - 1])
    ensures RevokeFacts(c, RevokeEach(cfg, c, user, ps).0, RevokeEach(cfg, c, user, ps).1, user, ps)
  {
    var p := ps[|ps| - 1];
    assert p !in ps[..|ps| - 1];
    RevokeEachStep(cfg, c, user, ps, c1);
    RevokePolicyEffect(cfg, c1, user, p);
    RevokeFactsExtend(c, c1, RevokeEach(cfg, c, user, ps).0, RevokeEach(cfg, c, user, ps).1, user, ps);
  }

  /** The revoke loop takes the user out of the cached set of each policy
      and sends a DELETE exactly for the policies whose set held the user;
      when it stops at an exception, each set has at most lost the user. */
  lemma {:induction false} RevokeEachEffect(cfg: Config, c: Cache, user: string, ps: seq<string>)
    requires c.permissionMap.Some?
    requires forall p :: p in ps ==> p in c.permissionMap.value
    requires Distinct(ps)
    ensures RevokeFacts(c, RevokeEach(cfg, c, user, ps).0, RevokeEach(cfg, c, user, ps).1, user, ps)
    decreases |ps|
  {
    if ps != [] {
      var pre := ps[..|ps| - 1];
      assert forall q :: q in pre ==> q in ps;
      RevokeEachEffect(cfg, c, user, pre);
      var (c1, r1) := RevokeEach(cfg, c, user, pre);
      if r1.Ok? {
        RevokeEachLast(cfg, c, user, ps, c1);
      }
    }
  }

  // ------------------------------------------------------------------
  // grant_daco, grant_cloud, revoke_daco, revoke_cloud
  // ------------------------------------------------------------------

  /** `grant_daco(u)`/`grant_cloud(u)` (policies `ps`): afterwards `u` is
      in the cached set of each of `ps`, a grant was posted for each policy
      whose set lacked `u` and for no other, nothing was deleted, and no
      request at all follows the map's fetch when `u` held them all. As the
      user is not lower-cased here while `has_daco`/`has_cloud` lower-case
      it, a policy of `ps` then counts as held exactly when `u` is lower
      case or its lower-cased form already held it. */
  lemma GrantPoliciesEffect(cfg: Config, c: Cache, user: string, ps: seq<string>)
    requires Coherent(cfg, c)
    requires Distinct(ps) && forall p :: p in ps ==> p in AllPolicies(cfg)
    ensures var (c0, r0) := GetPermissionMap(cfg, c); var (c1, r) := GrantPolicies(cfg, c, user, ps);
      (r0.Ok? && (forall p :: p in ps ==> p in r0.value && user in r0.value[p]) ==> (c1, r) == (c0, Ok(()))) &&
      (r.Ok? ==>
        r0.Ok? && Coherent(cfg, c1) &&
        AddedTo(r0.value, c1.permissionMap.value, user, ps) &&
        GrantPosts(c1.log) == GrantPosts(c.log) + |Missing(r0.value, user, ps)| &&
        Deletes(c1.log) == Deletes(c.log) &&
        HasDaco(cfg, c1, user) == (c1, Ok(forall p :: p in cfg.daco ==>
          p in r0.value && (Lower(user) in r0.value[p] || (p in ps && Lower(user) == user)))) &&
        HasCloud(cfg, c1, user) == (c1, Ok(forall p :: p in cfg.cloud ==>
          p in r0.value && (Lower(user) in r0.value[p] || (p in ps && Lower(user) == user)))))
  {
    GetPermissionMapEffect(cfg, c);
    var (c0, r0) := GetPermissionMap(cfg, c);
    if r0.Ok? {
      GrantEachEffect(cfg, c0, user, ps);
      if forall p :: p in ps ==> p in r0.value && user in r0.value[p] {
        GrantEachAlreadyHeld(cfg, c0, user, ps);
      }
      var (c1, r) := GrantEach(cfg, c0, user, ps);
      if r.Ok? {
        assert Coherent(cfg, c1);
        GrantedHasPolicies(cfg, c1, user, r0.value, ps);
      }
    }
  }

  /** After the user was added to the sets of `ps`, `has_daco` and
      `has_cloud` answer from the updated cached map. */
  lemma GrantedHasPolicies(cfg: Config, c1: Cache, user: string, m0: map<string, set<string>>, ps: seq<string>)
    requires Coherent(cfg, c1) && c1.permissionMap.Some?
    requires AddedTo(m0, c1.permissionMap.value, user, ps)
    ensures HasDaco(cfg, c1, user) == (c1, Ok(forall p :: p in cfg.daco ==>
      p in m0 && (Lower(user) in m0[p] || (p in ps && Lower(user) == user))))
    ensures HasCloud(cfg, c1, user) == (c1, Ok(forall p :: p in cfg.cloud ==>
      p in m0 && (Lower(user) in m0[p] || (p in ps && Lower(user) == user))))
  {
    PermissionMapReused(cfg, c1);
    HasPoliciesMeaning(cfg, c1, user);
    AddedMembership(m0, c1.permissionMap.value, user, ps, cfg.daco, Lower(user));
    AddedMembership(m0, c1.permissionMap.value, user, ps, cfg.cloud, Lower(user));
  }

  lemma AddedMembership(m0: map<string, set<string>>, m1: map<string, set<string>>, user: string, ps: seq<string>,
                        qs: seq<string>, x: string)
    requires AddedTo(m0, m1, user, ps)
    ensures (forall p :: p in qs ==> p in m1 && x in m1[p]) <==>
      (forall p :: p in qs ==> p in m0 && (x in m0[p] || (p in ps && x == user)))
  {
  }

  /** `revoke_daco(u)`/`revoke_cloud(u)` (policies `ps`): afterwards `u`
      is in none of the cached sets of `ps`, a DELETE was sent for each
      policy whose set held `u` and for no other, and nothing was granted.
      A policy of `ps` then counts as held by `has_daco`/`has_cloud`
      exactly when `u` is not lower case and its lower-cased form held it. */
  lemma RevokePoliciesEffect(cfg: Config, c: Cache, user: string, ps: seq<string>)
    requires Coherent(cfg, c)
    requires Distinct(ps) && forall p :: p in ps ==> p in AllPolicies(cfg)
    ensures var (c0, r0) := GetPermissionMap(cfg, c); var (c1, r) := RevokePolicies(cfg, c, user, ps);
      r.Ok? ==>
        r0.Ok? && Coherent(cfg, c1) &&
        RemovedFrom(r0.value, c1.permissionMap.value, user, ps) &&
        Deletes(c1.log) == Deletes(c.log) + |Held(r0.value, user, ps)| &&
        GrantPosts(c1.log) == GrantPosts(c.log) &&
        HasDaco(cfg, c1, user) == (c1, Ok(forall p :: p in cfg.daco ==>
          p in r0.value && Lower(user) in r0.value[p] && !(p in ps && Lower(user) == user))) &&
        HasCloud(cfg, c1, user) == (c1, Ok(forall p :: p in cfg.cloud ==>
          p in r0.value && Lower(user) in r0.value[p] && !(p in ps && Lower(user) == user)))
  {
    GetPermissionMapEffect(cfg, c);
    var (c0, r0) := GetPermissionMap(cfg, c);
    if r0.Ok? {
      RevokeEachEffect(cfg, c0, user, ps);
      var (c1, r) := RevokeEach(cfg, c0, user, ps);
      if r.Ok? {
        assert Coherent(cfg, c1);
        PermissionMapReused(cfg, c1);
        HasPoliciesMeaning(cfg, c1, user);
      }
    }
  }

  // ------------------------------------------------------------------
  // Policies, caches and accounts
  // ------------------------------------------------------------------

  /** `_get_policy(name)` succeeds exactly when the search finds one
      policy of that exact name, which it returns; more than one is an
      IOError. */
  lemma GetPolicyUnique(cfg: Config, c: Cache, name: string)
    ensures var reply := cfg.svc.search(SearchQuery("/policies", "name", name));
      var r := GetPolicy(cfg, c, name).1;
      (r.Ok? <==>
        reply.Ok? && reply.value.count != 0 &&
        ExactMatches(reply.value.resultSet, "name", name).Ok? &&
        |ExactMatches(reply.value.resultSet, "name", name).value| == 1) &&
      (r.Ok? ==> r.value in reply.value.resultSet && "name" in r.value && r.value["name"] == name) &&
      (reply.Ok? && reply.value.count != 0 &&
       ExactMatches(reply.value.resultSet, "name", name).Ok? &&
       |ExactMatches(reply.value.resultSet, "name", name).value| > 1 ==>
         r == Err(IOError("Found multiple policies with name '" + name + "'", Opaque("items"))))
  {
    var reply := cfg.svc.search(SearchQuery("/policies", "name", name));
    if reply.Ok? && reply.value.count != 0 && ExactMatches(reply.value.resultSet, "name", name).Ok? {
      var ms := ExactMatches(reply.value.resultSet, "name", name).value;
      if ms != [] {
        assert ms[0] in ms;
      }
    }
  }

  /** Each cache is built by the first call that succeeds and then
      reused: calling again makes no request and changes nothing. */
  lemma CachesBuiltOnce(cfg: Config, c: Cache, user: string, other: string)
    requires Coherent(cfg, c)
    ensures var (c1, r) := GetPolicyMap(cfg, c); r.Ok? ==> GetPolicyMap(cfg, c1) == (c1, r)
    ensures var (c1, r) := GetUserMap(cfg, c); r.Ok? ==> GetUserMap(cfg, c1) == (c1, r)
    ensures var (c1, r) := GetPermissionMap(cfg, c); r.Ok? ==> GetPermissionMap(cfg, c1) == (c1, r)
    ensures var (c1, r) := UserExists(cfg, c, user);
      r.Ok? ==> c1.egoUsers.Some? && UserExists(cfg, c1, other) == (c1, Ok(Lower(other) in c1.egoUsers.value))
  {
    GetPermissionMapEffect(cfg, c);
    var (c1, r) := GetPermissionMap(cfg, c);
    if r.Ok? {
      PermissionMapReused(cfg, c1);
    }
  }

  /** `create_user(u, name)` on success records the new account's id
      under its lower-cased name; afterwards `user_exists(u)` holds when
      `u` is lower case. */
  lemma CreateUserEffect(cfg: Config, c: Cache, user: string, name: string, egoType: string)
    ensures var (c1, r) := CreateUser(cfg, c, user, name, egoType);
      r.Ok? ==>
        "name" in r.value && "id" in r.value &&
        c1.userMap.Some? && Lower(r.value["name"]) in c1.userMap.value &&
        c1.userMap.value[Lower(r.value["name"])] == r.value["id"] &&
        (Lower(user) == user ==> UserExists(cfg, c1, user) == (c1, Ok(true)))
  {
    var (first, last) := SplitName(name);
    var data := NewUser(user, first, last, egoType, "Approved");
    var c1 := Logged(c, Post("/users", data));
    var reply := cfg.svc.post("/users", data);
    if reply.Ok? && "name" in reply.value && "id" in reply.value {
      GetUserMapLookups(cfg, c1);
    }
  }

  /** The first request `create_user(u, name)` makes posts the name split
      at its last space. */
  lemma CreateUserRequest(cfg: Config, c: Cache, user: string, name: string, egoType: string)
    ensures var (first, last) := SplitName(name);
      |CreateUser(cfg, c, user, name, egoType).0.log| > |c.log| &&
      CreateUser(cfg, c, user, name, egoType).0.log[|c.log|] == Post("/users", NewUser(user, first, last, egoType, "Approved"))
  {
    var (first, last) := SplitName(name);
    var data := NewUser(user, first, last, egoType, "Approved");
    var c1 := Logged(c, Post("/users", data));
    var reply := cfg.svc.post("/users", data);
    if reply.Ok? && "name" in reply.value && "id" in reply.value {
      var (c2, s) := SetId(cfg, c1, reply.value["name"], reply.value["id"]);
      assert c1.log <= c2.log;
      if s.Ok? {
        var (c3, e) := UserExists(cfg, c2, user);
        assert c2.log <= c3.log;
      }
    }
  }

  /** The account set holds lower-cased e-mails, but `create_user` adds
      the e-mail as given: for a new mixed-case e-mail, `user_exists`
      still fails right after the account was created. */
  lemma CreateUserMixedCaseNotFound()
    ensures var svc := Service(
        q => Err(IOError("no search", Opaque(""))),
        ep => Ok([]),
        (ep, d) => Ok(map["name" := "A@x", "id" := "7"]),
        ep => true);
      var cfg := Config([], [], svc);
      var c := Cache(None, None, Some(map[]), Some({}), []);
      var (c1, r) := CreateUser(cfg, c, "A@x", "Ann", "USER");
      r.Ok? && UserExists(cfg, c1, "A@x") == (c1, Ok(false))
  {
    var user := "A@x";
    assert Lower(user)[0] == 'a';
    assert Lower(user) != user;
    assert Lower(user) !in {user};
  }

  /** With the e-mail lower-cased before it is added, `user_exists(u)`
      holds after every successful `create_user(u, name)`. */
  lemma CreateUserLoweredFound(cfg: Config, c: Cache, user: string, name: string, egoType: string)
    ensures var (c1, r) := CreateUserLowered(cfg, c, user, name, egoType);
      r.Ok? ==> UserExists(cfg, c1, user) == (c1, Ok(true))
  {
  }
}
