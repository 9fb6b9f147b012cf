/**
 * The earlier `DacoClient` (daco_client.py at the repository root) as an
 * object: the DACO map, the two key sets and the service client are fixed
 * at construction, and `issues_log` is appended to in place by every
 * wrapper. Every method is proved to do what the function of the same name
 * in `LegacyReconciler` describes.
 */
module LegacyReconcilerClass {
  import opened Wrappers
  import opened PyValues
  import S = LegacyService
  import L = LegacyReconciler

  class DacoClient {
    const ego: S.Client
    /** `self.daco_map`. */
    const dacoMap: map<string, string>
    /** `self.daco_users`, in the map's insertion order. */
    const dacoUsers: seq<string>
    /** `self.cloud_users`, in the map's insertion order. */
    const cloudUsers: seq<string>
    var issuesLog: seq<string>

    function Cfg(): L.Config
    {
      L.Config(dacoUsers, dacoMap, cloudUsers)
    }

    function State(): L.State
      reads this, ego
    {
      L.State(issuesLog, ego.State())
    }

    constructor (dacoUsers: seq<string>, dacoMap: map<string, string>, cloudUsers: seq<string>, ego: S.Client)
      ensures Cfg() == L.Config(dacoUsers, dacoMap, cloudUsers) && this.ego == ego
      ensures issuesLog == []
    {
      this.ego := ego;
      this.dacoMap := dacoMap;
      this.dacoUsers := dacoUsers;
      this.cloudUsers := cloudUsers;
      this.issuesLog := [];
    }

    method Log(msg: string)
      modifies this
      ensures issuesLog == old(issuesLog) + [msg]
    {
      issuesLog := issuesLog + [msg];
    }

    method Err(msg: string, e: Exn)
      modifies this
      ensures issuesLog == old(issuesLog) + [L.ErrorLine(msg, e)]
    {
      issuesLog := issuesLog + ["Error: " + msg + " -- " + ExnRepr(e)];
    }

    method GetUserName(user: string) returns (name: Option<string>)
      modifies this
      ensures (State(), name) == L.GetUserName(Cfg(), old(State()), user)
    {
      if user in dacoMap {
        name := Some(dacoMap[user]);
      } else {
        Err(L.NameError(user), KeyError(user));
        name := None;
      }
    }

    method GetEgoUsers() returns (users: seq<string>)
      modifies this, ego
      ensures (State(), users) == L.GetEgoUsers(old(State()))
    {
      var r := ego.GetDacoUsers();
      if r.Ok? {
        users := r.value;
      } else {
        Err(L.FetchError, r.error);
        users := [];
      }
    }

    method CreateUser(user: string, name: Option<string>)
      modifies this, ego
      ensures State() == L.CreateUser(old(State()), user, name)
    {
      var r := ego.CreateUser(user, name);
      if r.Ok? {
        Log(L.CreatedMessage(user, name));
      } else {
        Err(L.CreateError(user), r.error);
      }
    }

    method RevokeAccess(user: string, reason: string)
      modifies this, ego
      ensures State() == L.RevokeAccess(old(State()), user, reason)
    {
      var r := ego.RevokeAccess(user);
      if r.Ok? {
        Log(L.RevokedMessage(user, reason));
      } else {
        Err(L.RevokeError(user), r.error);
      }
    }

    method RevokeCloud(user: string)
      modifies this, ego
      ensures State() == L.RevokeCloud(old(State()), user)
    {
      var r := ego.RevokeCloud(user);
      if r.Ok? {
        Log(L.RevokedCloudMessage(user));
      } else {
        Err(L.RevokeCloudError(user), r.error);
      }
    }

    method EnsureAccess(user: string, grantCloud: bool)
      modifies this, ego
      ensures State() == L.EnsureAccess(old(State()), user, grantCloud)
    {
      var r := ego.EnsureAccess(user, grantCloud);
      if r.Ok? {
        Log(L.EnsuredMessage(user, grantCloud));
      } else {
        Err(L.EnsureError(user, grantCloud), r.error);
      }
    }

    method HandleAccessAllowed(user: string)
      modifies this, ego
      ensures State() == L.HandleAccessAllowed(Cfg(), old(State()), user)
    {
      var egoUsers := GetEgoUsers();
      if user !in egoUsers {
        var name := GetUserName(user);
        CreateUser(user, name);
      }
      EnsureAccess(user, L.GrantCloud(Cfg(), user));
    }

    method HandleAccessDenied(user: string)
      modifies this, ego
      ensures State() == L.HandleAccessDenied(Cfg(), old(State()), user)
    {
      if user !in L.ValidDacoUsers(Cfg()) {
        RevokeAccess(user, L.NotInDaco);
      } else if user !in L.ValidCloudUsers(Cfg()) {
        RevokeCloud(user);
      }
    }

    method HandleInvalidUser(user: string)
      modifies this, ego
      ensures State() == L.HandleInvalidUser(old(State()), user)
    {
      RevokeAccess(user, L.InCsaNotInDaco);
    }

    /** The loop of `update_ego` over the invalid users. */
    method RevokeInvalid(users: seq<string>)
      modifies this, ego
      ensures State() == L.RevokeInvalid(old(State()), users)
    {
      var i := 0;
      while i < |users|
        invariant 0 <= i <= |users|
        invariant State() == L.RevokeInvalid(old(State()), users[..i])
      {
        HandleInvalidUser(users[i]);
        assert users[..i + 1][..i] == users[..i];
        i := i + 1;
      }
      assert users[..i] == users;
    }

    /** The loop of `update_ego` over the valid DACO users. */
    method AllowAll(users: seq<string>)
      modifies this, ego
      ensures State() == L.AllowAll(Cfg(), old(State()), users)
    {
      var i := 0;
      while i < |users|
        invariant 0 <= i <= |users|
        invariant State() == L.AllowAll(Cfg(), old(State()), users[..i])
      {
        HandleAccessAllowed(users[i]);
        assert users[..i + 1][..i] == users[..i];
        i := i + 1;
      }
      assert users[..i] == users;
    }

    /** The loop of `update_ego` over the service's users. */
    method DenyAll(users: seq<string>)
      modifies this, ego
      ensures State() == L.DenyAll(Cfg(), old(State()), users)
    {
      var i := 0;
      while i < |users|
        invariant 0 <= i <= |users|
        invariant State() == L.DenyAll(Cfg(), old(State()), users[..i])
      {
        HandleAccessDenied(users[i]);
        assert users[..i + 1][..i] == users[..i];
        i := i + 1;
      }
      assert users[..i] == users;
    }

    /** `update_ego()`: the three loops, then `report_issues()`. */
    method UpdateEgo() returns (issues: seq<string>)
      modifies this, ego
      ensures (State(), issues) == L.UpdateEgo(Cfg(), old(State()))
    {
      RevokeInvalid(L.InvalidUsers(Cfg()));
      var egoUsers := GetEgoUsers();
      AllowAll(L.ValidDacoUsers(Cfg()));
      DenyAll(egoUsers);
      issues := issuesLog;
    }
  }
}
