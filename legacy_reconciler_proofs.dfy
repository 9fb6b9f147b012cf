/**
 * What the earlier reconciler (daco_client.py at the repository root)
 * guarantees: every wrapped call adds exactly one issue line, which is an
 * error line exactly when the call raised; the calls each scenario makes;
 * and, when no call fails, that one `update_ego` leaves DACO access with
 * exactly the DACO users and cloud access with exactly the users in both
 * maps.
 */
module LegacyReconcilerProofs {
  import opened Wrappers
  import opened Text
  import opened PyValues
  import S = LegacyService
  import opened LegacyReconciler

  /** An issue line written by `err`. */
  predicate IsError(line: string)
  {
    StartsWith(line, "Error: ")
  }

  /** `log1` is `log0` followed by lines none of which is an error. */
  ghost predicate CleanExtension(log0: seq<string>, log1: seq<string>)
  {
    |log0| <= |log1| && log1[..|log0|] == log0 &&
    forall i :: |log0| <= i < |log1| ==> !IsError(log1[i])
  }

  lemma CleanExtensionTransitive(a: seq<string>, b: seq<string>, c: seq<string>)
    requires CleanExtension(a, b) && CleanExtension(b, c)
    ensures CleanExtension(a, c)
  {
    assert c[..|b|][..|a|] == c[..|a|];
    forall i | |a| <= i < |c| ensures !IsError(c[i]) {
      if i < |b| {
        assert c[i] == c[..|b|][i];
      }
    }
  }

  /** A line whose first character is not 'E' is not an error line. */
  lemma NotErrorByFirst(line: string)
    requires line != [] && line[0] != 'E'
    ensures !IsError(line)
  {
    if |line| >= 7 {
      assert line[..7][0] == line[0];
    }
  }

  lemma HeadOf(a: string, b: string)
    requires a != []
    ensures (a + b)[0] == a[0]
  {
  }

  lemma CreatedIsNotError(user: string, name: Option<string>)
    ensures !IsError(CreatedMessage(user, name))
  {
    var a := "Created account for user ";
    HeadOf(a, user);
    HeadOf(a + user, " with name ");
    HeadOf(a + user + " with name ", NameStr(name));
    NotErrorByFirst(CreatedMessage(user, name));
  }

  lemma RevokedIsNotError(user: string, reason: string)
    ensures !IsError(RevokedMessage(user, reason))
  {
    var a := "Revoked all daco access for user '";
    HeadOf(a, user);
    HeadOf(a + user, "':(");
    HeadOf(a + user + "':(", reason);
    HeadOf(a + user + "':(" + reason, ")");
    NotErrorByFirst(RevokedMessage(user, reason));
  }

  lemma RevokedCloudIsNotError(user: string)
    ensures !IsError(RevokedCloudMessage(user))
  {
    var a := "Revoked cloud access for user '";
    HeadOf(a, user);
    HeadOf(a + user, "'");
    NotErrorByFirst(RevokedCloudMessage(user));
  }

  lemma EnsuredIsNotError(user: string, cloud: bool)
    ensures !IsError(EnsuredMessage(user, cloud))
  {
    var a := "Ensured user '";
    HeadOf(a, user);
    HeadOf(a + user, "' has daco access (cloud=");
    HeadOf(a + user + "' has daco access (cloud=", BoolStr(cloud));
    HeadOf(a + user + "' has daco access (cloud=" + BoolStr(cloud), ")");
    assert EnsuredMessage(user, cloud)[0] == 'E';
    assert EnsuredMessage(user, cloud)[1] == 'n' by {
      var m := EnsuredMessage(user, cloud);
      assert m == a + user + "' has daco access (cloud=" + BoolStr(cloud) + ")";
    }
  }

  lemma ErrorLineIsError(msg: string, e: Exn)
    ensures IsError(ErrorLine(msg, e))
  {
    assert ErrorLine(msg, e)[..7] == "Error: ";
  }

  /** Only `err` writes error lines: no success message starts like one. */
  lemma SuccessMessagesAreNotErrors(user: string, name: Option<string>, reason: string, cloud: bool)
    ensures !IsError(CreatedMessage(user, name))
    ensures !IsError(RevokedMessage(user, reason))
    ensures !IsError(RevokedCloudMessage(user))
    ensures !IsError(EnsuredMessage(user, cloud))
    ensures forall msg, e :: IsError(ErrorLine(msg, e))
  {
    CreatedIsNotError(user, name);
    RevokedIsNotError(user, reason);
    RevokedCloudIsNotError(user);
    EnsuredIsNotError(user, cloud);
    forall msg, e ensures IsError(ErrorLine(msg, e)) {
      ErrorLineIsError(msg, e);
    }
  }

  /** Each wrapper around a service call makes that one call and adds one
      issue line, an error line exactly when the call raised. */
  lemma WrappersLogOnce(st: State, user: string, name: Option<string>, reason: string, cloud: bool)
    ensures var st1 := CreateUser(st, user, name); var op := S.Op.CreateUser(user, name);
      st1.ego == S.CallCreateUser(st.ego, user, name).0 &&
      |st1.log| == |st.log| + 1 && st1.log[..|st.log|] == st.log &&
      (IsError(st1.log[|st.log|]) <==> op in st.ego.faults)
    ensures var st1 := RevokeAccess(st, user, reason); var op := S.Op.RevokeAccess(user);
      st1.ego == S.CallRevokeAccess(st.ego, user).0 &&
      |st1.log| == |st.log| + 1 && st1.log[..|st.log|] == st.log &&
      (IsError(st1.log[|st.log|]) <==> op in st.ego.faults)
    ensures var st1 := RevokeCloud(st, user); var op := S.Op.RevokeCloud(user);
      st1.ego == S.CallRevokeCloud(st.ego, user).0 &&
      |st1.log| == |st.log| + 1 && st1.log[..|st.log|] == st.log &&
      (IsError(st1.log[|st.log|]) <==> op in st.ego.faults)
    ensures var st1 := EnsureAccess(st, user, cloud); var op := S.Op.EnsureAccess(user, cloud);
      st1.ego == S.CallEnsureAccess(st.ego, user, cloud).0 &&
      |st1.log| == |st.log| + 1 && st1.log[..|st.log|] == st.log &&
      (IsError(st1.log[|st.log|]) <==> op in st.ego.faults)
  {
    CreateUserLogsOnce(st, user, name);
    RevokeAccessLogsOnce(st, user, reason);
    RevokeCloudLogsOnce(st, user);
    EnsureAccessLogsOnce(st, user, cloud);
  }

  lemma CreateUserLogsOnce(st: State, user: string, name: Option<string>)
    ensures var st1 := CreateUser(st, user, name);
      st1.ego == S.CallCreateUser(st.ego, user, name).0 &&
      st1.log == st.log + [st1.log[|st.log|]] &&
      (IsError(st1.log[|st.log|]) <==> S.Op.CreateUser(user, name) in st.ego.faults)
  {
    CreatedIsNotError(user, name);
    if S.Op.CreateUser(user, name) in st.ego.faults {
      ErrorLineIsError(CreateError(user), st.ego.faults[S.Op.CreateUser(user, name)]);
    }
  }

  lemma RevokeAccessLogsOnce(st: State, user: string, reason: string)
    ensures var st1 := RevokeAccess(st, user, reason);
      st1.ego == S.CallRevokeAccess(st.ego, user).0 &&
      st1.log == st.log + [st1.log[|st.log|]] &&
      (IsError(st1.log[|st.log|]) <==> S.Op.RevokeAccess(user) in st.ego.faults)
  {
    RevokedIsNotError(user, reason);
    if S.Op.RevokeAccess(user) in st.ego.faults {
      ErrorLineIsError(RevokeError(user), st.ego.faults[S.Op.RevokeAccess(user)]);
    }
  }

  lemma RevokeCloudLogsOnce(st: State, user: string)
    ensures var st1 := RevokeCloud(st, user);
      st1.ego == S.CallRevokeCloud(st.ego, user).0 &&
      st1.log == st.log + [st1.log[|st.log|]] &&
      (IsError(st1.log[|st.log|]) <==> S.Op.RevokeCloud(user) in st.ego.faults)
  {
    RevokedCloudIsNotError(user);
    if S.Op.RevokeCloud(user) in st.ego.faults {
      ErrorLineIsError(RevokeCloudError(user), st.ego.faults[S.Op.RevokeCloud(user)]);
    }
  }

  lemma EnsureAccessLogsOnce(st: State, user: string, cloud: bool)
    ensures var st1 := EnsureAccess(st, user, cloud);
      st1.ego == S.CallEnsureAccess(st.ego, user, cloud).0 &&
      st1.log == st.log + [st1.log[|st.log|]] &&
      (IsError(st1.log[|st.log|]) <==> S.Op.EnsureAccess(user, cloud) in st.ego.faults)
  {
    EnsuredIsNotError(user, cloud);
    if S.Op.EnsureAccess(user, cloud) in st.ego.faults {
      ErrorLineIsError(EnsureError(user, cloud), st.ego.faults[S.Op.EnsureAccess(user, cloud)]);
    }
  }

  /** `get_user_name` yields the DACO map's name, or None together with one
      error line for a user the map does not hold. */
  lemma GetUserNameMeaning(cfg: Config, st: State, user: string)
    ensures GetUserName(cfg, st, user).1 == (if user in cfg.names then Some(cfg.names[user]) else None)
    ensures GetUserName(cfg, st, user).0.ego == st.ego
    ensures user in cfg.names ==> GetUserName(cfg, st, user).0.log == st.log
    ensures user !in cfg.names ==>
      GetUserName(cfg, st, user).0.log == st.log + [ErrorLine(NameError(user), KeyError(user))] &&
      IsError(ErrorLine(NameError(user), KeyError(user)))
  {
    SuccessMessagesAreNotErrors(user, None, "", false);
  }

  /** `get_ego_users` yields the service's users, or `[]` together with one
      error line when the service raises; either way it makes one call and
      changes nothing else on the service. */
  lemma GetEgoUsersMeaning(st: State)
    ensures GetEgoUsers(st).0.ego == S.Logged(st.ego, S.GetDacoUsers)
    ensures S.GetDacoUsers !in st.ego.faults ==>
      GetEgoUsers(st).1 == st.ego.holders && GetEgoUsers(st).0.log == st.log
    ensures S.GetDacoUsers in st.ego.faults ==>
      GetEgoUsers(st).1 == [] &&
      GetEgoUsers(st).0.log == st.log + [ErrorLine(FetchError, st.ego.faults[S.GetDacoUsers])]
  {
  }

  /** Scenarios 1 and 2: the users are fetched, the account is created
      (with the DACO map's name) exactly when the user was not among them,
      including when fetching them failed, and access is ensured, with
      cloud exactly when the user is in both maps. */
  lemma HandleAccessAllowedCalls(cfg: Config, st: State, user: string)
    ensures var created := S.GetDacoUsers in st.ego.faults || user !in st.ego.holders;
      var name := if user in cfg.names then Some(cfg.names[user]) else None;
      var cloud := user in cfg.cloudUsers && user in cfg.dacoUsers;
      HandleAccessAllowed(cfg, st, user).ego.calls ==
        st.ego.calls + [S.GetDacoUsers] + (if created then [S.Op.CreateUser(user, name)] else []) +
        [S.Op.EnsureAccess(user, cloud)]
  {
    GrantCloudIff(cfg, user);
    var cloud := GrantCloud(cfg, user);
    var name := if user in cfg.names then Some(cfg.names[user]) else None;
    GetEgoUsersMeaning(st);
    var (st1, egoUsers) := GetEgoUsers(st);
    var st2 := if user !in egoUsers then CreateUser(GetUserName(cfg, st1, user).0, user, name) else st1;
    if user !in egoUsers {
      GetUserNameMeaning(cfg, st1, user);
      CreateUserCalls(GetUserName(cfg, st1, user).0, user, name);
    }
    EnsureAccessCalls(st2, user, cloud);
    assert HandleAccessAllowed(cfg, st, user) == EnsureAccess(st2, user, cloud);
  }

  lemma CreateUserCalls(st: State, user: string, name: Option<string>)
    ensures CreateUser(st, user, name).ego.calls == st.ego.calls + [S.Op.CreateUser(user, name)]
  {
  }

  lemma EnsureAccessCalls(st: State, user: string, cloud: bool)
    ensures EnsureAccess(st, user, cloud).ego.calls == st.ego.calls + [S.Op.EnsureAccess(user, cloud)]
  {
  }

  /** `grant_cloud(user)` holds exactly for the users in both maps. */
  lemma GrantCloudIff(cfg: Config, user: string)
    ensures GrantCloud(cfg, user) <==> user in cfg.cloudUsers && user in cfg.dacoUsers
  {
    assert user in S.Elems(ValidCloudUsers(cfg)) <==> user in ValidCloudUsers(cfg);
    assert user in S.Elems(cfg.cloudUsers) <==> user in cfg.cloudUsers;
    assert user in S.Elems(cfg.dacoUsers) <==> user in cfg.dacoUsers;
  }

  /** Scenario 3: a user outside the DACO map loses all access, a DACO user
      outside the cloud map loses cloud access, anyone else is left alone. */
  lemma HandleAccessDeniedCalls(cfg: Config, st: State, user: string)
    ensures HandleAccessDenied(cfg, st, user).ego.calls ==
      st.ego.calls +
      (if user !in cfg.dacoUsers then [S.Op.RevokeAccess(user)]
       else if user !in cfg.cloudUsers then [S.Op.RevokeCloud(user)]
       else [])
    ensures user in cfg.dacoUsers && user in cfg.cloudUsers ==> HandleAccessDenied(cfg, st, user) == st
  {
    assert user in S.Elems(ValidCloudUsers(cfg)) <==> user in ValidCloudUsers(cfg);
  }

  // The three phases of `update_ego` when no call fails.

  ghost predicate NoFaults(st: State)
  {
    st.ego.faults == map[]
  }

  /** One invalid user loses both policies, with one success line. */
  lemma InvalidUserEffect(st: State, u: string)
    requires NoFaults(st)
    ensures var st1 := HandleInvalidUser(st, u);
      st1.ego.faults == st.ego.faults && st1.ego.accounts == st.ego.accounts &&
      S.Elems(st1.ego.holders) == S.Elems(st.ego.holders) - {u} &&
      st1.ego.cloud == st.ego.cloud - {u} &&
      CleanExtension(st.log, st1.log)
  {
    RevokedIsNotError(u, InCsaNotInDaco);
    assert HandleInvalidUser(st, u).log == st.log + [RevokedMessage(u, InCsaNotInDaco)];
  }

  /** Revoking the invalid users takes them out of both policies. */
  lemma {:induction false} RevokeInvalidEffect(st: State, users: seq<string>)
    requires NoFaults(st)
    ensures var st1 := RevokeInvalid(st, users);
      st1.ego.faults == st.ego.faults && st1.ego.accounts == st.ego.accounts &&
      S.Elems(st1.ego.holders) == S.Elems(st.ego.holders) - S.Elems(users) &&
      st1.ego.cloud == st.ego.cloud - S.Elems(users) &&
      CleanExtension(st.log, st1.log)
    decreases |users|
  {
    if users != [] {
      var init := users[..|users| - 1];
      var u := users[|users| - 1];
      RevokeInvalidEffect(st, init);
      var st0 := RevokeInvalid(st, init);
      InvalidUserEffect(st0, u);
      assert S.Elems(users) == S.Elems(init) + {u} by {
        assert users == init + [u];
      }
      CleanExtensionTransitive(st.log, st0.log, RevokeInvalid(st, users).log);
    }
  }

  /** Granting the DACO users gives each of them DACO access, and cloud
      access to those in both maps; every user given access has an
      account. */
  lemma {:induction false} AllowAllEffect(cfg: Config, st: State, users: seq<string>)
    requires NoFaults(st)
    requires S.Elems(users) <= cfg.names.Keys
    ensures var st1 := AllowAll(cfg, st, users);
      st1.ego.faults == st.ego.faults &&
      S.Elems(st1.ego.holders) == S.Elems(st.ego.holders) + S.Elems(users) &&
      st1.ego.cloud == st.ego.cloud + S.Elems(users) * S.Elems(ValidCloudUsers(cfg)) &&
      (S.Elems(st.ego.holders) <= st.ego.accounts ==> S.Elems(st1.ego.holders) <= st1.ego.accounts) &&
      CleanExtension(st.log, st1.log)
    decreases |users|
  {
    if users != [] {
      var init := users[..|users| - 1];
      var u := users[|users| - 1];
      assert users == init + [u];
      assert S.Elems(users) == S.Elems(init) + {u};
      AllowAllEffect(cfg, st, init);
      var st0 := AllowAll(cfg, st, init);
      AllowedUserEffect(cfg, st0, u);
      CleanExtensionTransitive(st.log, st0.log, AllowAll(cfg, st, users).log);
    }
  }

  /** One step of `AllowAllEffect`. */
  lemma AllowedUserEffect(cfg: Config, st: State, user: string)
    requires NoFaults(st)
    requires user in cfg.names
    ensures var st1 := HandleAccessAllowed(cfg, st, user);
      st1.ego.faults == st.ego.faults &&
      S.Elems(st1.ego.holders) == S.Elems(st.ego.holders) + {user} &&
      st1.ego.cloud == st.ego.cloud + ({user} * S.Elems(ValidCloudUsers(cfg))) &&
      (S.Elems(st.ego.holders) <= st.ego.accounts ==> S.Elems(st1.ego.holders) <= st1.ego.accounts) &&
      CleanExtension(st.log, st1.log)
  {
    GetEgoUsersMeaning(st);
    var (st1, egoUsers) := GetEgoUsers(st);
    var name := Some(cfg.names[user]);
    var st2 := if user !in egoUsers then CreateUser(st1, user, name) else st1;
    if user !in egoUsers {
      CreateUserOk(st1, user, name);
    }
    assert CleanExtension(st.log, st2.log);
    assert S.Elems(st2.ego.holders) == S.Elems(st.ego.holders);
    assert user !in egoUsers ==> user in st2.ego.accounts;
    var cloud := GrantCloud(cfg, user);
    EnsureAccessOk(st2, user, cloud);
    var st3 := EnsureAccess(st2, user, cloud);
    assert st3 == HandleAccessAllowed(cfg, st, user);
    assert cloud <==> user in S.Elems(ValidCloudUsers(cfg));
    CleanExtensionTransitive(st.log, st2.log, st3.log);
  }

  /** `create_user` on a service that does not fail: the account exists
      and one success line is logged. */
  lemma CreateUserOk(st: State, user: string, name: Option<string>)
    requires NoFaults(st)
    ensures var st1 := CreateUser(st, user, name);
      st1.ego == S.Logged(st.ego, S.Op.CreateUser(user, name)).(accounts := st.ego.accounts + {user}) &&
      CleanExtension(st.log, st1.log)
  {
    CreatedIsNotError(user, name);
    assert CreateUser(st, user, name).log == st.log + [CreatedMessage(user, name)];
  }

  /** `ensure_access` on a service that does not fail: the user holds DACO
      access (and cloud access when asked) and one success line is logged. */
  lemma EnsureAccessOk(st: State, user: string, cloud: bool)
    requires NoFaults(st)
    ensures var st1 := EnsureAccess(st, user, cloud);
      st1.ego.faults == st.ego.faults && st1.ego.accounts == st.ego.accounts &&
      S.Elems(st1.ego.holders) == S.Elems(st.ego.holders) + {user} &&
      st1.ego.cloud == (if cloud then st.ego.cloud + {user} else st.ego.cloud) &&
      CleanExtension(st.log, st1.log)
  {
    EnsuredIsNotError(user, cloud);
    var st1 := EnsureAccess(st, user, cloud);
    assert st1.log == st.log + [EnsuredMessage(user, cloud)];
    if user !in st.ego.holders {
      assert st1.ego.holders == st.ego.holders + [user];
    }
  }

  /** One fetched user loses all access when outside the DACO map, cloud
      access when not in both maps, and nothing otherwise. */
  lemma DeniedUserEffect(cfg: Config, st: State, u: string)
    requires NoFaults(st)
    ensures var st1 := HandleAccessDenied(cfg, st, u);
      st1.ego.faults == st.ego.faults && st1.ego.accounts == st.ego.accounts &&
      S.Elems(st1.ego.holders) == S.Elems(st.ego.holders) - ({u} - S.Elems(cfg.dacoUsers)) &&
      st1.ego.cloud == st.ego.cloud - ({u} - S.Elems(ValidCloudUsers(cfg))) &&
      CleanExtension(st.log, st1.log)
  {
    assert u in S.Elems(ValidCloudUsers(cfg)) <==> u in ValidCloudUsers(cfg);
    assert u in S.Elems(cfg.dacoUsers) <==> u in cfg.dacoUsers;
    if u !in cfg.dacoUsers {
      RevokedIsNotError(u, NotInDaco);
      assert HandleAccessDenied(cfg, st, u).log == st.log + [RevokedMessage(u, NotInDaco)];
      assert u !in ValidCloudUsers(cfg);
    } else if u !in ValidCloudUsers(cfg) {
      RevokedCloudIsNotError(u);
      assert HandleAccessDenied(cfg, st, u).log == st.log + [RevokedCloudMessage(u)];
    }
  }

  /** Withdrawing from the fetched users takes all access from those outside
      the DACO map and cloud access from those not in both maps. */
  lemma {:induction false} DenyAllEffect(cfg: Config, st: State, users: seq<string>)
    requires NoFaults(st)
    ensures var st1 := DenyAll(cfg, st, users);
      st1.ego.faults == st.ego.faults && st1.ego.accounts == st.ego.accounts &&
      S.Elems(st1.ego.holders) == S.Elems(st.ego.holders) - (S.Elems(users) - S.Elems(cfg.dacoUsers)) &&
      st1.ego.cloud == st.ego.cloud - (S.Elems(users) - S.Elems(ValidCloudUsers(cfg))) &&
      CleanExtension(st.log, st1.log)
    decreases |users|
  {
    if users != [] {
      var init := users[..|users| - 1];
      var u := users[|users| - 1];
      assert S.Elems(users) == S.Elems(init) + {u} by {
        assert users == init + [u];
      }
      DenyAllEffect(cfg, st, init);
      var st0 := DenyAll(cfg, st, init);
      DeniedUserEffect(cfg, st0, u);
      CleanExtensionTransitive(st.log, st0.log, DenyAll(cfg, st, users).log);
    }
  }

  /** When no service call fails, one `update_ego` converges: afterwards
      exactly the DACO users hold DACO access and all have accounts,
      exactly the users in both maps hold cloud access, and no error line
      was logged. This presumes, of the service, that cloud access comes
      with DACO access and that every holder has an account. */
  lemma UpdateEgoConverges(cfg: Config, st: State)
    requires Valid(cfg)
    requires NoFaults(st)
    requires st.ego.cloud <= S.Elems(st.ego.holders) <= st.ego.accounts
    ensures var (st1, issues) := UpdateEgo(cfg, st);
      issues == st1.log &&
      S.Elems(st1.ego.holders) == S.Elems(cfg.dacoUsers) &&
      st1.ego.cloud == S.Elems(cfg.dacoUsers) * S.Elems(cfg.cloudUsers) &&
      S.Elems(cfg.dacoUsers) <= st1.ego.accounts &&
      CleanExtension(st.log, st1.log)
  {
    var d := S.Elems(cfg.dacoUsers);
    var vc := S.Elems(ValidCloudUsers(cfg));
    var st1 := RevokeInvalid(st, InvalidUsers(cfg));
    RevokeInvalidEffect(st, InvalidUsers(cfg));
    GetEgoUsersMeaning(st1);
    var (st2, egoUsers) := GetEgoUsers(st1);
    var st3 := AllowAll(cfg, st2, ValidDacoUsers(cfg));
    AllowAllEffect(cfg, st2, ValidDacoUsers(cfg));
    var st4 := DenyAll(cfg, st3, egoUsers);
    DenyAllEffect(cfg, st3, egoUsers);
    assert UpdateEgo(cfg, st) == (st4, st4.log);
    var h1 := S.Elems(st1.ego.holders);
    ShrinkKeepsInclusion(st.ego.cloud, S.Elems(st.ego.holders), S.Elems(InvalidUsers(cfg)));
    HoldersConverge(h1, d);
    CloudConverges(st1.ego.cloud, h1, d, vc, S.Elems(cfg.cloudUsers));
    CleanExtensionTransitive(st.log, st1.log, st3.log);
    CleanExtensionTransitive(st.log, st3.log, st4.log);
  }

  lemma ShrinkKeepsInclusion(a: set<string>, b: set<string>, x: set<string>)
    requires a <= b
    ensures a - x <= b - x
  {
  }

  /** Granting `d` to the holders `h` and then withdrawing from the former
      holders outside `d` leaves exactly `d`. */
  lemma HoldersConverge(h: set<string>, d: set<string>)
    ensures (h + d) - (h - d) == d
  {
  }

  /** Cloud access `c` (held only by holders `h`), plus `vc` for the users
      of `d`, less the former holders outside `vc`, is exactly `vc`, the
      users in both maps. */
  lemma CloudConverges(c: set<string>, h: set<string>, d: set<string>, vc: set<string>, cl: set<string>)
    requires c <= h
    requires vc == cl * d
    ensures (c + d * vc) - (h - vc) == d * cl
  {
  }
}
