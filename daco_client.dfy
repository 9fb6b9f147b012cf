/**
 * `DacoClient` (python/daco_client.py) as an object: it holds the service
 * client, the group names, the desired users, the map from lower-cased
 * e-mail to user, and the counters, which its methods update in place.
 * Every method is proved to do what the function of the same name in
 * module `Reconciler` describes.
 */
module ReconcilerClass {
  import opened Wrappers
  import opened PyValues
  import opened DacoUser
  import opened FormatErrors
  import GroupService
  import R = Reconciler

  class DacoClient {
    const ego: GroupService.Client
    const dacoGroup: string
    const cloudGroup: string
    const users: seq<User>
    /** `self._user_map`. */
    const userMap: map<string, User>
    /** `self._counts`. */
    var counts: R.Counts

    ghost predicate Valid()
    {
      userMap == R.UserMap(users)
    }

    function Cfg(): R.Config
    {
      R.Config(dacoGroup, cloudGroup, users)
    }

    function World(): R.World
      reads this, ego
    {
      R.World(ego.State(), counts)
    }

    constructor (dacoGroup: string, cloudGroup: string, users: seq<User>, ego: GroupService.Client)
      ensures Valid()
      ensures Cfg() == R.Config(dacoGroup, cloudGroup, users) && this.ego == ego
      ensures counts == R.NoCounts
    {
      this.ego := ego;
      this.users := users;
      this.dacoGroup := dacoGroup;
      this.cloudGroup := cloudGroup;
      this.userMap := R.UserMap(users);
      this.counts := R.NoCounts;
    }

    method Count(category: string, err: bool)
      modifies this
      ensures counts == R.Count(old(counts), category, err)
    {
      if category in counts.table {
        var c := counts.table[category];
        counts := counts.(table := counts.table[category := c.(n := c.n + 1)]);
      } else {
        counts := R.Counts(counts.order + [category], counts.table[category := R.Counter(1, err)]);
      }
    }

    /** `get_summary()`. */
    function GetSummary(): (map<string, nat>, seq<string>)
      reads this
    {
      R.Summary(counts)
    }

    /** `get_user(ego_id)`. */
    method GetUser(egoId: string) returns (u: User)
      requires Valid()
      ensures u == R.GetUser(Cfg(), egoId)
    {
      var key := Text.Lower(egoId);
      if key in userMap {
        u := userMap[key];
      } else {
        u := User(egoId, None, false, false);
      }
    }

    /** `is_unique_user(user)`. */
    method IsUniqueUser(u: User) returns (b: bool)
      requires Valid()
      ensures b == R.IsUniqueUser(Cfg(), u)
    {
      var u1 := GetUser(u.email);
      b := SameUser(u1, u);
      SameUserIsValueEquality(u1, u, u);
    }

    /** The wrapper pattern: on failure count the category as an error and
        raise `LookupError(msg, e)`. */
    method Fail(category: string, msg: string, e: Exn) returns (r: Exn)
      modifies this
      ensures counts == R.Count(old(counts), category, true)
      ensures r == LookupError(msg, e)
    {
      Count(category, true);
      r := LookupError(msg, e);
    }

    method HasDaco(u: User) returns (r: Result<bool, Exn>)
      modifies this, ego
      ensures (World(), r) == R.HasDaco(Cfg(), old(World()), u)
    {
      r := ego.IsMember(dacoGroup, u.email);
      if r.Err? {
        var x := Fail(R.HasDacoCategory, R.HasDacoMessage(u), r.error);
        r := Err(x);
      }
    }

    method HasCloud(u: User) returns (r: Result<bool, Exn>)
      modifies this, ego
      ensures (World(), r) == R.HasCloud(Cfg(), old(World()), u)
    {
      r := ego.IsMember(cloudGroup, u.email);
      if r.Err? {
        var x := Fail(R.HasCloudCategory, R.HasCloudMessage(u), r.error);
        r := Err(x);
      }
    }

    method GrantDaco(u: User) returns (r: Result<(), Exn>)
      modifies this, ego
      ensures (World(), r) == R.GrantDaco(Cfg(), old(World()), u)
    {
      r := ego.Add(dacoGroup, u.email);
      if r.Err? {
        var x := Fail(R.GrantDacoCategory, R.GrantDacoMessage(u), r.error);
        r := Err(x);
      }
    }

    method GrantCloud(u: User) returns (r: Result<(), Exn>)
      modifies this, ego
      ensures (World(), r) == R.GrantCloud(Cfg(), old(World()), u)
    {
      r := ego.Add(cloudGroup, u.email);
      if r.Err? {
        var x := Fail(R.GrantCloudCategory, R.GrantCloudMessage(u), r.error);
        r := Err(x);
      }
    }

    method RevokeDaco(u: User) returns (r: Result<(), Exn>)
      modifies this, ego
      ensures (World(), r) == R.RevokeDaco(Cfg(), old(World()), u)
    {
      r := ego.Remove(dacoGroup, u.email);
      if r.Err? {
        var x := Fail(R.RevokeDacoCategory, R.RevokeDacoMessage(u), r.error);
        r := Err(x);
      }
    }

    method RevokeCloud(u: User) returns (r: Result<(), Exn>)
      modifies this, ego
      ensures (World(), r) == R.RevokeCloud(Cfg(), old(World()), u)
    {
      r := ego.Remove(cloudGroup, u.email);
      if r.Err? {
        var x := Fail(R.RevokeCloudCategory, R.RevokeCloudMessage(u), r.error);
        r := Err(x);
      }
    }

    method UserExists(u: User) returns (r: Result<bool, Exn>)
      modifies this, ego
      ensures (World(), r) == R.UserExists(old(World()), u)
    {
      r := ego.UserExists(u.email);
      if r.Err? {
        Count(R.UserExistsCategory, true);
        var x := Fail(R.UserNotFoundCategory(u), R.UserExistsMessage(u), r.error);
        r := Err(x);
      }
    }

    method FetchEgoIds() returns (r: Result<seq<string>, Exn>)
      modifies ego
      ensures (World(), r) == R.FetchEgoIds(Cfg(), old(World()))
    {
      var daco := ego.GetUsers(dacoGroup);
      if daco.Err? {
        return Err(LookupError(R.FetchMessage, daco.error));
      }
      var cloud := ego.GetUsers(cloudGroup);
      if cloud.Err? {
        return Err(LookupError(R.FetchMessage, cloud.error));
      }
      r := Ok(R.Dedup(daco.value + cloud.value));
    }

    /** `existing_user(user)`. */
    method ExistingUser(u: User) returns (r: Result<Option<string>, Exn>)
      modifies this, ego
      ensures (World(), r) == R.ExistingUser(Cfg(), old(World()), u)
    {
      var grantedDaco, grantedCloud := false, false;
      var daco := HasDaco(u);
      if daco.Err? {
        return Err(daco.error);
      }
      if !daco.value {
        var g := GrantDaco(u);
        if g.Err? {
          return Err(g.error);
        }
        grantedDaco := true;
      }
      ghost var mid := World();
      assert R.ExistingUser(Cfg(), old(World()), u) == R.ExistingUserCloud(Cfg(), mid, u, grantedDaco);
      if u.hasCloud {
        var cloud := HasCloud(u);
        if cloud.Err? {
          return Err(cloud.error);
        }
        if !cloud.value {
          var g := GrantCloud(u);
          if g.Err? {
            return Err(g.error);
          }
          grantedCloud := true;
        }
      }
      if grantedDaco && grantedCloud {
        Count("grant_both", false);
        r := Ok(Some(R.GrantedBothMessage(u)));
      } else if grantedDaco {
        Count("grant_daco", false);
        r := Ok(Some(R.GrantedDacoMessage(u)));
      } else if grantedCloud {
        Count("grant_cloud", false);
        r := Ok(Some(R.GrantedCloudMessage(u)));
      } else {
        r := Ok(None);
      }
    }

    /** `grant_access_if_necessary(user)`. */
    method GrantAccessIfNecessary(u: User) returns (r: Result<Option<string>, Exn>)
      requires Valid()
      modifies this, ego
      ensures (World(), r) == R.GrantAccess(Cfg(), old(World()), u)
    {
      var unique := IsUniqueUser(u);
      if !unique {
        Count("multiple_entries", false);
        return Ok(Some(R.DuplicateWarning(u)));
      }
      if Text.Find(u.email, '@') == -1 {
        Count("invalid_email", false);
        return Ok(Some(R.InvalidEmailWarning(u)));
      }
      if IsInvalid(u) {
        Count("invalid", false);
        return Ok(Some(R.InvalidUserWarning(u)));
      }
      var exists_ := ego.UserExists(u.email);
      if exists_.Err? {
        return Err(exists_.error);
      }
      if exists_.value {
        r := ExistingUser(u);
        return;
      }
      Count("ego_user_not_found", false);
      r := Ok(Some(R.NotInEgoMessage(u)));
    }

    /** The `except LookupError` handler of `grant_user` and `revoke_user`. */
    method CatchLookup(outcome: Result<Option<string>, Exn>) returns (r: Result<Option<string>, Exn>)
      ensures r == R.CatchLookup(outcome)
    {
      if outcome.Ok? || !R.IsLookupClass(outcome.error.cls) {
        return outcome;
      }
      var e := outcome.error;
      if |e.args| < 2 {
        return Err(R.TupleIndexError);
      }
      if !e.args[1].PyExn? {
        return Err(R.NoArgsError(e.args[1]));
      }
      var text := ErrMsg(Str(e.args[0]), e.args[1].e);
      if text.Err? {
        return Err(text.error);
      }
      r := Ok(Some(text.value));
    }

    /** `grant_user(user)`. */
    method GrantUser(u: User) returns (r: Result<Option<string>, Exn>)
      requires Valid()
      modifies this, ego
      ensures (World(), r) == R.GrantUser(Cfg(), old(World()), u)
    {
      var outcome := GrantAccessIfNecessary(u);
      r := CatchLookup(outcome);
    }

    /** `list(grant_users(users))`. */
    method GrantUsers(users: seq<User>) returns (r: Result<seq<string>, Exn>)
      requires Valid()
      modifies this, ego
      ensures (World(), r) == R.GrantUsers(Cfg(), old(World()), users)
    {
      var issues: seq<string> := [];
      for i := 0 to |users|
        invariant R.GrantUsers(Cfg(), old(World()), users[..i]) == (World(), Ok(issues))
      {
        assert users[..i + 1][..i] == users[..i];
        var m := GrantUser(users[i]);
        if m.Err? {
          R.GrantUsersErrorStops(Cfg(), old(World()), users, i + 1);
          return Err(m.error);
        }
        issues := issues + R.Issues(m.value);
      }
      assert users[..|users|] == users;
      r := Ok(issues);
    }

    /** Second branch of `revoke_access_if_necessary`. */
    method RevokeAll(u: User) returns (r: Result<Option<string>, Exn>)
      modifies this, ego
      ensures (World(), r) == R.RevokeAll(Cfg(), old(World()), u)
    {
      Count("revoke_daco", false);
      var d := RevokeDaco(u);
      if d.Err? {
        return Err(d.error);
      }
      var c := RevokeCloud(u);
      if c.Err? {
        return Err(c.error);
      }
      r := Ok(Some(R.RevokedAllMessage(u)));
    }

    /** Third branch of `revoke_access_if_necessary`. */
    method RevokeCloudIfHeld(u: User) returns (r: Result<Option<string>, Exn>)
      modifies this, ego
      ensures (World(), r) == R.RevokeCloudIfHeld(Cfg(), old(World()), u)
    {
      if u.hasCloud {
        return Ok(None);
      }
      var held := HasCloud(u);
      if held.Err? {
        return Err(held.error);
      }
      if !held.value {
        return Ok(None);
      }
      Count("revoke_cloud", false);
      var c := RevokeCloud(u);
      if c.Err? {
        return Err(c.error);
      }
      r := Ok(Some(R.RevokedCloudMessage(u)));
    }

    /** `revoke_access_if_necessary(user)`. */
    method RevokeAccessIfNecessary(u: User) returns (r: Result<Option<string>, Exn>)
      modifies this, ego
      ensures (World(), r) == R.RevokeAccess(Cfg(), old(World()), u)
    {
      if IsInvalid(u) {
        var d := RevokeDaco(u);
        if d.Err? {
          return Err(d.error);
        }
        var c := RevokeCloud(u);
        if c.Err? {
          return Err(c.error);
        }
        Count("revoke_invalid", false);
        return Ok(Some(R.RevokedInvalidMessage(u)));
      }
      if !u.hasDaco {
        var daco := HasDaco(u);
        if daco.Err? {
          return Err(daco.error);
        }
        if daco.value {
          r := RevokeAll(u);
          return;
        }
        var cloud := HasCloud(u);
        if cloud.Err? {
          return Err(cloud.error);
        }
        if cloud.value {
          r := RevokeAll(u);
          return;
        }
      }
      r := RevokeCloudIfHeld(u);
    }

    /** `revoke_user(user)`. */
    method RevokeUser(u: User) returns (r: Result<Option<string>, Exn>)
      modifies this, ego
      ensures (World(), r) == R.RevokeUser(Cfg(), old(World()), u)
    {
      var outcome := RevokeAccessIfNecessary(u);
      r := CatchLookup(outcome);
    }

    /** `list(revoke_users(users))`. */
    method RevokeUsers(users: seq<User>) returns (r: Result<seq<string>, Exn>)
      modifies this, ego
      ensures (World(), r) == R.RevokeUsers(Cfg(), old(World()), users)
    {
      var issues: seq<string> := [];
      for i := 0 to |users|
        invariant R.RevokeUsers(Cfg(), old(World()), users[..i]) == (World(), Ok(issues))
      {
        assert users[..i + 1][..i] == users[..i];
        var m := RevokeUser(users[i]);
        if m.Err? {
          R.RevokeUsersErrorStops(Cfg(), old(World()), users, i + 1);
          return Err(m.error);
        }
        issues := issues + R.Issues(m.value);
      }
      assert users[..|users|] == users;
      r := Ok(issues);
    }

    /** `get_ego_users(ego_id_list)`, forced: the desired user of every id. */
    method GetEgoUsers(ids: seq<string>) returns (visited: seq<User>)
      requires Valid()
      ensures visited == R.EgoUsers(Cfg(), ids)
    {
      visited := [];
      for i := 0 to |ids|
        invariant visited == R.EgoUsers(Cfg(), ids[..i])
      {
        var u := GetUser(ids[i]);
        visited := visited + [u];
        assert visited == R.EgoUsers(Cfg(), ids[..i + 1]);
      }
      assert ids[..|ids|] == ids;
    }

    /** `list(revoke())`. */
    method Revoke() returns (r: Result<seq<string>, Exn>)
      requires Valid()
      modifies this, ego
      ensures (World(), r) == R.Revoke(Cfg(), old(World()))
    {
      var ids := FetchEgoIds();
      if ids.Err? {
        var text := ErrMsg(R.RevokeFetchMessage, ids.error);
        if text.Err? {
          return Err(text.error);
        }
        return Ok([text.value]);
      }
      var visited := GetEgoUsers(ids.value);
      r := RevokeUsers(visited);
    }

    /** `update_ego()`. */
    method UpdateEgo() returns (r: Result<seq<string>, Exn>)
      requires Valid()
      modifies this, ego
      ensures (World(), r) == R.UpdateEgo(Cfg(), old(World()))
    {
      var granted := GrantUsers(users);
      if granted.Err? {
        return granted;
      }
      var revoked := Revoke();
      if revoked.Err? {
        return revoked;
      }
      r := Ok(granted.value + revoked.value);
    }
  }
}
