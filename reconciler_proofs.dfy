/**
 * What the reconciler of python/daco_client.py guarantees, proved about
 * the functions of module `Reconciler`.
 */
module ReconcilerProofs {
  import opened Wrappers
  import opened Text
  import opened PyValues
  import opened DacoUser
  import opened FormatErrors
  import opened GroupService
  import opened Reconciler

  // ------------------------------------------------------------------
  // Counters
  // ------------------------------------------------------------------

  /** `count` starts a category at [1, err] at the end of the insertion
      order, or adds one to it keeping the flag of its first count; no
      other counter changes, and the table stays in step with the order. */
  lemma CountSemantics(c: Counts, category: string, err: bool)
    requires CountsValid(c)
    ensures CountsValid(Count(c, category, err))
    ensures category !in c.table ==>
      Count(c, category, err).order == c.order + [category] &&
      Count(c, category, err).table[category] == Counter(1, err)
    ensures category in c.table ==>
      Count(c, category, err).order == c.order &&
      Count(c, category, err).table[category] == Counter(c.table[category].n + 1, c.table[category].isError)
    ensures forall k :: k != category ==>
      (k in Count(c, category, err).table <==> k in c.table) &&
      (k in c.table ==> Count(c, category, err).table[k] == c.table[k])
  {
    var d := Count(c, category, err);
    if category !in c.table {
      forall i, j | 0 <= i < j < |d.order| ensures d.order[i] != d.order[j] {
        if j == |c.order| {
          assert d.order[i] == c.order[i];
          assert d.order[i] in c.table;
        }
      }
    }
  }

  /** The error categories of `order`, kept in order. */
  function ErrorCategories(order: seq<string>, table: map<string, Counter>): (r: seq<string>)
    ensures forall k :: k in r <==> k in order && k in table && table[k].isError
  {
    if order == [] then []
    else (if order[0] in table && table[order[0]].isError then [order[0]] else [])
         + ErrorCategories(order[1..], table)
  }

  lemma {:induction false} ErrorLinesFollowCategories(order: seq<string>, table: map<string, Counter>)
    ensures |ErrorLines(order, table)| == |ErrorCategories(order, table)|
    ensures forall i :: 0 <= i < |ErrorLines(order, table)| ==>
      var k := ErrorCategories(order, table)[i];
      k in table && ErrorLines(order, table)[i] == ErrorLine(k, table[k].n)
  {
    if order != [] {
      ErrorLinesFollowCategories(order[1..], table);
    }
  }

  lemma {:induction false} ErrorCategoriesDistinct(order: seq<string>, table: map<string, Counter>)
    requires forall i, j :: 0 <= i < j < |order| ==> order[i] != order[j]
    ensures forall i, j :: 0 <= i < j < |ErrorCategories(order, table)| ==>
      ErrorCategories(order, table)[i] != ErrorCategories(order, table)[j]
  {
    if order != [] {
      ErrorCategoriesDistinct(order[1..], table);
      assert order[0] !in order[1..] by {
        forall i | 0 <= i < |order[1..]| ensures order[1..][i] != order[0] {
          assert order[1..][i] == order[i + 1];
        }
      }
    }
  }

  /** `get_summary`: the plain counters are reported by value, and there is
      exactly one error line per error counter, in the order the counters
      were first counted. */
  lemma SummaryMeaning(c: Counts)
    requires CountsValid(c)
    ensures forall k :: k in Summary(c).0 <==> k in c.table && !c.table[k].isError
    ensures forall k :: k in Summary(c).0 ==> Summary(c).0[k] == c.table[k].n
    ensures var cats := ErrorCategories(c.order, c.table);
      (forall k :: k in cats <==> k in c.table && c.table[k].isError) &&
      (forall i, j :: 0 <= i < j < |cats| ==> cats[i] != cats[j]) &&
      |Summary(c).1| == |cats| &&
      forall i :: 0 <= i < |cats| ==> Summary(c).1[i] == ErrorLine(cats[i], c.table[cats[i]].n)
  {
    ErrorLinesFollowCategories(c.order, c.table);
    ErrorCategoriesDistinct(c.order, c.table);
  }

  // ------------------------------------------------------------------
  // The user map and uniqueness
  // ------------------------------------------------------------------

  /** The map has a key for every user's lower-cased e-mail and no other. */
  lemma {:induction false} UserMapKeys(users: seq<User>)
    ensures forall k :: k in UserMap(users) <==> exists i :: 0 <= i < |users| && Lower(users[i].email) == k
  {
    if users != [] {
      var n := |users| - 1;
      var init := users[..n];
      UserMapKeys(init);
      assert UserMap(users) == UserMap(init)[Lower(users[n].email) := users[n]];
      forall k ensures k in UserMap(users) <==> exists i :: 0 <= i < |users| && Lower(users[i].email) == k {
        if k in UserMap(users) && k != Lower(users[n].email) {
          assert k in UserMap(init);
          var i :| 0 <= i < |init| && Lower(init[i].email) == k;
          assert users[i] == init[i];
        }
        if exists i :: 0 <= i < |users| && Lower(users[i].email) == k {
          var i :| 0 <= i < |users| && Lower(users[i].email) == k;
          if i < n {
            assert init[i] == users[i];
          }
        }
      }
    }
  }

  /** Each key holds the last user listed with it. */
  lemma {:induction false} UserMapLastWins(users: seq<User>, i: nat)
    requires i < |users|
    requires forall j :: i < j < |users| ==> Lower(users[j].email) != Lower(users[i].email)
    ensures Lower(users[i].email) in UserMap(users)
    ensures UserMap(users)[Lower(users[i].email)] == users[i]
  {
    var n := |users| - 1;
    if i < n {
      var init := users[..n];
      assert init[i] == users[i];
      forall j | i < j < |init| ensures Lower(init[j].email) != Lower(init[i].email) {
        assert init[j] == users[j];
      }
      UserMapLastWins(init, i);
    }
  }

  /** `is_unique_user` holds of a listed user exactly when the last user
      listed with the same lower-cased e-mail is equal to it; so the last
      one always passes, an earlier one with a different name or different
      flags is reported as a duplicate, and an identical repeated entry is
      not. */
  lemma UniqueIffLastEqual(cfg: Config, i: nat, j: nat)
    requires i <= j < |cfg.users|
    requires Lower(cfg.users[j].email) == Lower(cfg.users[i].email)
    requires forall l :: j < l < |cfg.users| ==> Lower(cfg.users[l].email) != Lower(cfg.users[i].email)
    ensures IsUniqueUser(cfg, cfg.users[i]) <==> cfg.users[j] == cfg.users[i]
    ensures IsUniqueUser(cfg, cfg.users[j])
  {
    UserMapLastWins(cfg.users, j);
  }

  // ------------------------------------------------------------------
  // The grant pass
  // ------------------------------------------------------------------

  /** The three local checks come first and in this order; each ends the
      user's processing with its warning and its counter, before any call
      on the service. Past them the first call is the account check. */
  lemma GrantChecksInOrder(cfg: Config, w: World, u: User)
    ensures !IsUniqueUser(cfg, u) ==>
      GrantUser(cfg, w, u) == (Counted(w, "multiple_entries"), Ok(Some(DuplicateWarning(u))))
    ensures IsUniqueUser(cfg, u) && InvalidEmail(u) ==>
      GrantUser(cfg, w, u) == (Counted(w, "invalid_email"), Ok(Some(InvalidEmailWarning(u))))
    ensures IsUniqueUser(cfg, u) && !InvalidEmail(u) && IsInvalid(u) ==>
      GrantUser(cfg, w, u) == (Counted(w, "invalid"), Ok(Some(InvalidUserWarning(u))))
    ensures IsUniqueUser(cfg, u) && !InvalidEmail(u) && !IsInvalid(u) ==>
      Extends(GrantUser(cfg, w, u).0.remote.calls, w.remote.calls + [UserExists(u.email)])
  {
    if !IsUniqueUser(cfg, u) {
    } else if InvalidEmail(u) {
    } else if IsInvalid(u) {
    } else {
      var w1 := World(Logged(w.remote, UserExists(u.email)), w.counts);
      CallsOnlyGrow(cfg, w1, u);
      assert Extends(Counted(w1, "ego_user_not_found").remote.calls, w1.remote.calls);
    }
  }

  /** `b` is `a` followed by more calls. */
  predicate Extends(b: seq<Op>, a: seq<Op>)
  {
    |a| <= |b| && b[..|a|] == a
  }

  lemma ExtendsTransitive(c: seq<Op>, b: seq<Op>, a: seq<Op>)
    requires Extends(c, b) && Extends(b, a)
    ensures Extends(c, a)
  {
    assert c[..|a|] == c[..|b|][..|a|];
  }

  lemma ExistingUserCloudCallsGrow(cfg: Config, w: World, u: User, grantedDaco: bool)
    ensures Extends(ExistingUserCloud(cfg, w, u, grantedDaco).0.remote.calls, w.remote.calls)
  {
    if u.hasCloud {
      var w1 := HasCloud(cfg, w, u).0;
      assert Extends(w1.remote.calls, w.remote.calls);
      var w2 := GrantCloud(cfg, w1, u).0;
      assert Extends(w2.remote.calls, w1.remote.calls);
      ExtendsTransitive(w2.remote.calls, w1.remote.calls, w.remote.calls);
    }
  }

  /** Every operation on a user only appends to the call log. */
  lemma CallsOnlyGrow(cfg: Config, w: World, u: User)
    ensures Extends(ExistingUser(cfg, w, u).0.remote.calls, w.remote.calls)
  {
    var w1 := HasDaco(cfg, w, u).0;
    assert Extends(w1.remote.calls, w.remote.calls);
    ExistingUserCloudCallsGrow(cfg, w1, u, false);
    ExtendsTransitive(ExistingUserCloud(cfg, w1, u, false).0.remote.calls, w1.remote.calls, w.remote.calls);
    var w2 := GrantDaco(cfg, w1, u).0;
    assert Extends(w2.remote.calls, w1.remote.calls);
    ExtendsTransitive(w2.remote.calls, w1.remote.calls, w.remote.calls);
    ExistingUserCloudCallsGrow(cfg, w2, u, true);
    ExtendsTransitive(ExistingUserCloud(cfg, w2, u, true).0.remote.calls, w2.remote.calls, w.remote.calls);
  }

  // ------------------------------------------------------------------
  // Effects of one user's processing on a service that does not fail
  // ------------------------------------------------------------------

  predicate InGroup(w: World, g: string, x: string)
  {
    x in Members(w.remote, g)
  }

  /** `w1` has the same memberships as `w` except possibly for `email` in
      the two reconciled groups, and the same accounts and faults. */
  ghost predicate SameElsewhere(cfg: Config, w1: World, w: World, email: string)
  {
    w1.remote.faults == w.remote.faults && w1.remote.accounts == w.remote.accounts &&
    forall g, x :: (x != email || (g != cfg.dacoGroup && g != cfg.cloudGroup)) ==>
      (InGroup(w1, g, x) <==> InGroup(w, g, x))
  }

  lemma SameElsewhereTransitive(cfg: Config, w2: World, w1: World, w: World, email: string)
    requires SameElsewhere(cfg, w2, w1, email) && SameElsewhere(cfg, w1, w, email)
    ensures SameElsewhere(cfg, w2, w, email)
  {
  }

  lemma IsMemberOk(r: Remote, group: string, email: string)
    requires r.faults == map[]
    ensures CallIsMember(r, group, email).1 == Ok(email in Members(r, group))
    ensures CallIsMember(r, group, email).0 == Logged(r, IsMember(group, email))
  {
  }

  lemma AddOk(cfg: Config, r: Remote, group: string, email: string)
    requires r.faults == map[]
    requires group == cfg.dacoGroup || group == cfg.cloudGroup
    ensures CallAdd(r, group, email).1.Ok?
    ensures email in Members(CallAdd(r, group, email).0, group)
    ensures SameElsewhere(cfg, World(CallAdd(r, group, email).0, NoCounts), World(r, NoCounts), email)
  {
    forall g, x {
      AddEffect(r, group, email, g, x);
    }
  }

  lemma RemoveOk(cfg: Config, r: Remote, group: string, email: string)
    requires r.faults == map[]
    requires group == cfg.dacoGroup || group == cfg.cloudGroup
    ensures CallRemove(r, group, email).1.Ok?
    ensures email !in Members(CallRemove(r, group, email).0, group)
    ensures SameElsewhere(cfg, World(CallRemove(r, group, email).0, NoCounts), World(r, NoCounts), email)
  {
    forall g, x {
      RemoveEffect(r, group, email, g, x);
    }
  }

  /** `w1` has the same memberships, accounts and faults as `w`. */
  predicate SameMembers(w1: World, w: World)
  {
    w1.remote.groups == w.remote.groups && w1.remote.accounts == w.remote.accounts &&
    w1.remote.faults == w.remote.faults
  }

  lemma SameMembersElsewhere(cfg: Config, w1: World, w: World, email: string)
    requires SameMembers(w1, w)
    ensures SameElsewhere(cfg, w1, w, email)
    ensures forall g :: InGroup(w1, g, email) <==> InGroup(w, g, email)
  {
  }

  /** A membership check on a service that does not fail answers whether
      the e-mail is in the group, and changes no membership. */
  lemma HasDacoOk(cfg: Config, w: World, u: User)
    requires w.remote.faults == map[]
    ensures HasDaco(cfg, w, u).1 == Ok(InGroup(w, cfg.dacoGroup, u.email))
    ensures SameMembers(HasDaco(cfg, w, u).0, w)
  {
  }

  lemma HasCloudOk(cfg: Config, w: World, u: User)
    requires w.remote.faults == map[]
    ensures HasCloud(cfg, w, u).1 == Ok(InGroup(w, cfg.cloudGroup, u.email))
    ensures SameMembers(HasCloud(cfg, w, u).0, w)
  {
  }

  /** Revoking a group on a service that does not fail takes the e-mail
      out of that group and out of nothing else. */
  lemma RevokeDacoOk(cfg: Config, w: World, u: User)
    requires w.remote.faults == map[]
    requires cfg.dacoGroup != cfg.cloudGroup
    ensures RevokeDaco(cfg, w, u).1.Ok?
    ensures SameElsewhere(cfg, RevokeDaco(cfg, w, u).0, w, u.email)
    ensures !InGroup(RevokeDaco(cfg, w, u).0, cfg.dacoGroup, u.email)
    ensures InGroup(RevokeDaco(cfg, w, u).0, cfg.cloudGroup, u.email) <==> InGroup(w, cfg.cloudGroup, u.email)
  {
    RemoveOk(cfg, w.remote, cfg.dacoGroup, u.email);
    RemoveEffect(w.remote, cfg.dacoGroup, u.email, cfg.cloudGroup, u.email);
  }

  lemma RevokeCloudOk(cfg: Config, w: World, u: User)
    requires w.remote.faults == map[]
    requires cfg.dacoGroup != cfg.cloudGroup
    ensures RevokeCloud(cfg, w, u).1.Ok?
    ensures SameElsewhere(cfg, RevokeCloud(cfg, w, u).0, w, u.email)
    ensures !InGroup(RevokeCloud(cfg, w, u).0, cfg.cloudGroup, u.email)
    ensures InGroup(RevokeCloud(cfg, w, u).0, cfg.dacoGroup, u.email) <==> InGroup(w, cfg.dacoGroup, u.email)
  {
    RemoveOk(cfg, w.remote, cfg.cloudGroup, u.email);
    RemoveEffect(w.remote, cfg.cloudGroup, u.email, cfg.dacoGroup, u.email);
  }

  /** Revoking both groups, one after the other. */
  lemma RevokeBothOk(cfg: Config, w: World, u: User)
    requires w.remote.faults == map[]
    requires cfg.dacoGroup != cfg.cloudGroup
    ensures var (w1, d) := RevokeDaco(cfg, w, u);
      d.Ok? && RevokeCloud(cfg, w1, u).1.Ok? &&
      SameElsewhere(cfg, RevokeCloud(cfg, w1, u).0, w, u.email) &&
      !InGroup(RevokeCloud(cfg, w1, u).0, cfg.dacoGroup, u.email) &&
      !InGroup(RevokeCloud(cfg, w1, u).0, cfg.cloudGroup, u.email)
  {
    RevokeDacoOk(cfg, w, u);
    var w1 := RevokeDaco(cfg, w, u).0;
    RevokeCloudOk(cfg, w1, u);
    SameElsewhereTransitive(cfg, RevokeCloud(cfg, w1, u).0, w1, w, u.email);
  }

  lemma RevokeAllOk(cfg: Config, w: World, u: User)
    requires w.remote.faults == map[]
    requires cfg.dacoGroup != cfg.cloudGroup
    ensures RevokeAll(cfg, w, u).1.Ok?
    ensures SameElsewhere(cfg, RevokeAll(cfg, w, u).0, w, u.email)
    ensures !InGroup(RevokeAll(cfg, w, u).0, cfg.dacoGroup, u.email)
    ensures !InGroup(RevokeAll(cfg, w, u).0, cfg.cloudGroup, u.email)
  {
    var w0 := Counted(w, "revoke_daco");
    RevokeBothOk(cfg, w0, u);
    SameMembersElsewhere(cfg, w0, w, u.email);
    var w2 := RevokeCloud(cfg, RevokeDaco(cfg, w0, u).0, u).0;
    SameElsewhereTransitive(cfg, w2, w0, w, u.email);
  }

  lemma RevokeCloudIfHeldOk(cfg: Config, w: World, u: User)
    requires w.remote.faults == map[]
    requires cfg.dacoGroup != cfg.cloudGroup
    ensures RevokeCloudIfHeld(cfg, w, u).1.Ok?
    ensures SameElsewhere(cfg, RevokeCloudIfHeld(cfg, w, u).0, w, u.email)
    ensures InGroup(RevokeCloudIfHeld(cfg, w, u).0, cfg.dacoGroup, u.email) <==> InGroup(w, cfg.dacoGroup, u.email)
    ensures InGroup(RevokeCloudIfHeld(cfg, w, u).0, cfg.cloudGroup, u.email) <==>
      InGroup(w, cfg.cloudGroup, u.email) && u.hasCloud
  {
    if !u.hasCloud {
      HasCloudOk(cfg, w, u);
      var w1 := HasCloud(cfg, w, u).0;
      SameMembersElsewhere(cfg, w1, w, u.email);
      if InGroup(w, cfg.cloudGroup, u.email) {
        var w2 := Counted(w1, "revoke_cloud");
        SameMembersElsewhere(cfg, w2, w, u.email);
        RevokeCloudOk(cfg, w2, u);
        SameElsewhereTransitive(cfg, RevokeCloud(cfg, w2, u).0, w2, w, u.email);
      }
    } else {
      SameMembersElsewhere(cfg, w, w, u.email);
    }
  }

  /** On a service that does not fail, revoking one user's access never
      raises, touches only that user's e-mail, and leaves it in the DACO
      group exactly when it was there and the user should have DACO
      access, and in the cloud group exactly when it was there and the
      user should have both. */
  lemma RevokeAccessEffect(cfg: Config, w: World, u: User)
    requires w.remote.faults == map[]
    requires cfg.dacoGroup != cfg.cloudGroup
    ensures RevokeAccess(cfg, w, u).1.Ok?
    ensures SameElsewhere(cfg, RevokeAccess(cfg, w, u).0, w, u.email)
    ensures InGroup(RevokeAccess(cfg, w, u).0, cfg.dacoGroup, u.email) <==>
      InGroup(w, cfg.dacoGroup, u.email) && u.hasDaco
    ensures InGroup(RevokeAccess(cfg, w, u).0, cfg.cloudGroup, u.email) <==>
      InGroup(w, cfg.cloudGroup, u.email) && u.hasDaco && u.hasCloud
  {
    var x := u.email;
    if IsInvalid(u) {
      RevokeBothOk(cfg, w, u);
      var w2 := RevokeCloud(cfg, RevokeDaco(cfg, w, u).0, u).0;
      SameMembersElsewhere(cfg, Counted(w2, "revoke_invalid"), w2, x);
      SameElsewhereTransitive(cfg, Counted(w2, "revoke_invalid"), w2, w, x);
    } else if !u.hasDaco {
      HasDacoOk(cfg, w, u);
      var w1 := HasDaco(cfg, w, u).0;
      SameMembersElsewhere(cfg, w1, w, x);
      if InGroup(w, cfg.dacoGroup, x) {
        RevokeAllOk(cfg, w1, u);
        SameElsewhereTransitive(cfg, RevokeAll(cfg, w1, u).0, w1, w, x);
      } else {
        HasCloudOk(cfg, w1, u);
        var w2 := HasCloud(cfg, w1, u).0;
        SameMembersElsewhere(cfg, w2, w, x);
        if InGroup(w, cfg.cloudGroup, x) {
          RevokeAllOk(cfg, w2, u);
          SameElsewhereTransitive(cfg, RevokeAll(cfg, w2, u).0, w2, w, x);
        } else {
          RevokeCloudIfHeldOk(cfg, w2, u);
          SameElsewhereTransitive(cfg, RevokeCloudIfHeld(cfg, w2, u).0, w2, w, x);
        }
      }
    } else {
      RevokeCloudIfHeldOk(cfg, w, u);
    }
  }

  /** A user the grant pass acts on: listed once (or last), with an '@' in
      the e-mail, consistent, and with an account. */
  predicate Eligible(cfg: Config, w: World, u: User)
  {
    IsUniqueUser(cfg, u) && !InvalidEmail(u) && !IsInvalid(u) && u.email in w.remote.accounts
  }

  /** Granting a group on a service that does not fail puts the e-mail in
      that group and changes nothing else. */
  lemma GrantDacoOk(cfg: Config, w: World, u: User)
    requires w.remote.faults == map[]
    requires cfg.dacoGroup != cfg.cloudGroup
    ensures GrantDaco(cfg, w, u).1.Ok?
    ensures SameElsewhere(cfg, GrantDaco(cfg, w, u).0, w, u.email)
    ensures InGroup(GrantDaco(cfg, w, u).0, cfg.dacoGroup, u.email)
    ensures InGroup(GrantDaco(cfg, w, u).0, cfg.cloudGroup, u.email) <==> InGroup(w, cfg.cloudGroup, u.email)
  {
    AddOk(cfg, w.remote, cfg.dacoGroup, u.email);
    AddEffect(w.remote, cfg.dacoGroup, u.email, cfg.cloudGroup, u.email);
  }

  lemma GrantCloudOk(cfg: Config, w: World, u: User)
    requires w.remote.faults == map[]
    requires cfg.dacoGroup != cfg.cloudGroup
    ensures GrantCloud(cfg, w, u).1.Ok?
    ensures SameElsewhere(cfg, GrantCloud(cfg, w, u).0, w, u.email)
    ensures InGroup(GrantCloud(cfg, w, u).0, cfg.cloudGroup, u.email)
    ensures InGroup(GrantCloud(cfg, w, u).0, cfg.dacoGroup, u.email) <==> InGroup(w, cfg.dacoGroup, u.email)
  {
    AddOk(cfg, w.remote, cfg.cloudGroup, u.email);
    AddEffect(w.remote, cfg.cloudGroup, u.email, cfg.dacoGroup, u.email);
  }

  lemma GrantOutcomeSame(cfg: Config, w: World, u: User, grantedDaco: bool, grantedCloud: bool)
    ensures GrantOutcome(w, u, grantedDaco, grantedCloud).1.Ok?
    ensures SameMembers(GrantOutcome(w, u, grantedDaco, grantedCloud).0, w)
  {
  }

  lemma ExistingUserCloudEffect(cfg: Config, w: World, u: User, grantedDaco: bool)
    requires w.remote.faults == map[]
    requires cfg.dacoGroup != cfg.cloudGroup
    ensures ExistingUserCloud(cfg, w, u, grantedDaco).1.Ok?
    ensures SameElsewhere(cfg, ExistingUserCloud(cfg, w, u, grantedDaco).0, w, u.email)
    ensures InGroup(ExistingUserCloud(cfg, w, u, grantedDaco).0, cfg.dacoGroup, u.email) <==> InGroup(w, cfg.dacoGroup, u.email)
    ensures InGroup(ExistingUserCloud(cfg, w, u, grantedDaco).0, cfg.cloudGroup, u.email) <==>
      InGroup(w, cfg.cloudGroup, u.email) || u.hasCloud
  {
    var x := u.email;
    if !u.hasCloud {
      GrantOutcomeSame(cfg, w, u, grantedDaco, false);
      SameMembersElsewhere(cfg, GrantOutcome(w, u, grantedDaco, false).0, w, x);
    } else {
      HasCloudOk(cfg, w, u);
      var w1 := HasCloud(cfg, w, u).0;
      SameMembersElsewhere(cfg, w1, w, x);
      if InGroup(w, cfg.cloudGroup, x) {
        GrantOutcomeSame(cfg, w1, u, grantedDaco, false);
        SameMembersElsewhere(cfg, GrantOutcome(w1, u, grantedDaco, false).0, w, x);
      } else {
        GrantCloudOk(cfg, w1, u);
        var w2 := GrantCloud(cfg, w1, u).0;
        GrantOutcomeSame(cfg, w2, u, grantedDaco, true);
        var w3 := GrantOutcome(w2, u, grantedDaco, true).0;
        SameMembersElsewhere(cfg, w3, w2, x);
        SameElsewhereTransitive(cfg, w2, w1, w, x);
        SameElsewhereTransitive(cfg, w3, w2, w, x);
      }
    }
  }

  /** `existing_user` on a service that does not fail: the user ends up
      in the DACO group, and in the cloud group when it was there or
      should have cloud access. */
  lemma ExistingUserEffect(cfg: Config, w: World, u: User)
    requires w.remote.faults == map[]
    requires cfg.dacoGroup != cfg.cloudGroup
    ensures ExistingUser(cfg, w, u).1.Ok?
    ensures SameElsewhere(cfg, ExistingUser(cfg, w, u).0, w, u.email)
    ensures InGroup(ExistingUser(cfg, w, u).0, cfg.dacoGroup, u.email)
    ensures InGroup(ExistingUser(cfg, w, u).0, cfg.cloudGroup, u.email) <==> InGroup(w, cfg.cloudGroup, u.email) || u.hasCloud
  {
    var x := u.email;
    HasDacoOk(cfg, w, u);
    var w1 := HasDaco(cfg, w, u).0;
    SameMembersElsewhere(cfg, w1, w, x);
    if InGroup(w, cfg.dacoGroup, x) {
      ExistingUserCloudEffect(cfg, w1, u, false);
      SameElsewhereTransitive(cfg, ExistingUserCloud(cfg, w1, u, false).0, w1, w, x);
    } else {
      GrantDacoOk(cfg, w1, u);
      var w2 := GrantDaco(cfg, w1, u).0;
      ExistingUserCloudEffect(cfg, w2, u, true);
      SameElsewhereTransitive(cfg, w2, w1, w, x);
      SameElsewhereTransitive(cfg, ExistingUserCloud(cfg, w2, u, true).0, w2, w, x);
    }
  }

  /** A user that fails one of the three local checks gets only a warning. */
  lemma GrantAccessWarned(cfg: Config, w: World, u: User)
    requires !(IsUniqueUser(cfg, u) && !InvalidEmail(u) && !IsInvalid(u))
    ensures GrantAccess(cfg, w, u).1.Ok?
    ensures SameMembers(GrantAccess(cfg, w, u).0, w)
  {
  }

  /** A user that passes the local checks: the account check, then
      `existing_user` when there is an account. */
  lemma GrantAccessChecked(cfg: Config, w: World, u: User)
    requires w.remote.faults == map[]
    requires IsUniqueUser(cfg, u) && !InvalidEmail(u) && !IsInvalid(u)
    ensures var w1 := World(Logged(w.remote, UserExists(u.email)), w.counts);
      GrantAccess(cfg, w, u) ==
        if u.email in w.remote.accounts then ExistingUser(cfg, w1, u)
        else (Counted(w1, "ego_user_not_found"), Ok(Some(NotInEgoMessage(u))))
  {
  }

  lemma GrantAccessEffect(cfg: Config, w: World, u: User)
    requires w.remote.faults == map[]
    requires cfg.dacoGroup != cfg.cloudGroup
    ensures GrantAccess(cfg, w, u).1.Ok?
    ensures SameElsewhere(cfg, GrantAccess(cfg, w, u).0, w, u.email)
    ensures Eligible(cfg, w, u) ==>
      InGroup(GrantAccess(cfg, w, u).0, cfg.dacoGroup, u.email) &&
      (InGroup(GrantAccess(cfg, w, u).0, cfg.cloudGroup, u.email) <==> InGroup(w, cfg.cloudGroup, u.email) || u.hasCloud)
    ensures !Eligible(cfg, w, u) ==> SameMembers(GrantAccess(cfg, w, u).0, w)
  {
    var x := u.email;
    var w' := GrantAccess(cfg, w, u).0;
    if IsUniqueUser(cfg, u) && !InvalidEmail(u) && !IsInvalid(u) {
      GrantAccessChecked(cfg, w, u);
      var w1 := World(Logged(w.remote, UserExists(x)), w.counts);
      SameMembersElsewhere(cfg, w1, w, x);
      if x in w.remote.accounts {
        ExistingUserEffect(cfg, w1, u);
        SameElsewhereTransitive(cfg, w', w1, w, x);
      } else {
        SameMembersElsewhere(cfg, w', w, x);
      }
    } else {
      GrantAccessWarned(cfg, w, u);
      SameMembersElsewhere(cfg, w', w, x);
    }
  }

  /** On a service that does not fail, granting never raises and touches
      only the user's own e-mail. An eligible user ends up in the DACO
      group, and in the cloud group when it should have cloud access or
      already had it; for any other user nothing changes. */
  lemma GrantUserEffect(cfg: Config, w: World, u: User)
    requires w.remote.faults == map[]
    requires cfg.dacoGroup != cfg.cloudGroup
    ensures GrantUser(cfg, w, u).1.Ok?
    ensures SameElsewhere(cfg, GrantUser(cfg, w, u).0, w, u.email)
    ensures Eligible(cfg, w, u) ==>
      InGroup(GrantUser(cfg, w, u).0, cfg.dacoGroup, u.email) &&
      (InGroup(GrantUser(cfg, w, u).0, cfg.cloudGroup, u.email) <==> InGroup(w, cfg.cloudGroup, u.email) || u.hasCloud)
    ensures !Eligible(cfg, w, u) ==>
      forall g :: InGroup(GrantUser(cfg, w, u).0, g, u.email) <==> InGroup(w, g, u.email)
  {
    GrantAccessEffect(cfg, w, u);
    var w' := GrantAccess(cfg, w, u).0;
    assert GrantUser(cfg, w, u).0 == w';
    if !Eligible(cfg, w, u) {
      SameMembersElsewhere(cfg, w', w, u.email);
    }
  }

  // ------------------------------------------------------------------
  // The two passes on a service that does not fail
  // ------------------------------------------------------------------

  /** What the grant pass guarantees, from `w` before it to `w1` after it
      has processed `users`. */
  ghost predicate GrantFacts(cfg: Config, w: World, w1: World, users: seq<User>)
  {
    w1.remote.faults == map[] && w1.remote.accounts == w.remote.accounts &&
    (forall g, x :: InGroup(w, g, x) ==> InGroup(w1, g, x)) &&
    (forall g, x :: InGroup(w1, g, x) && !InGroup(w, g, x) ==>
       exists i :: 0 <= i < |users| && users[i].email == x && Eligible(cfg, w, users[i])) &&
    (forall i :: 0 <= i < |users| && Eligible(cfg, w, users[i]) ==>
       InGroup(w1, cfg.dacoGroup, users[i].email) &&
       (users[i].hasCloud ==> InGroup(w1, cfg.cloudGroup, users[i].email))) &&
    (forall x :: InGroup(w1, cfg.cloudGroup, x) ==> InGroup(w, cfg.cloudGroup, x) || InGroup(w1, cfg.dacoGroup, x))
  }

  /** One more user keeps the grant pass's guarantees, given what
      `GrantUserEffect` says of that user's step. */
  lemma GrantStep(cfg: Config, w: World, w1: World, w2: World, init: seq<User>, u: User)
    requires GrantFacts(cfg, w, w1, init)
    requires SameElsewhere(cfg, w2, w1, u.email)
    requires Eligible(cfg, w1, u) ==>
      InGroup(w2, cfg.dacoGroup, u.email) &&
      (InGroup(w2, cfg.cloudGroup, u.email) <==> InGroup(w1, cfg.cloudGroup, u.email) || u.hasCloud)
    requires !Eligible(cfg, w1, u) ==> forall g :: InGroup(w2, g, u.email) <==> InGroup(w1, g, u.email)
    ensures GrantFacts(cfg, w, w2, init + [u])
  {
    var users := init + [u];
    var n := |init|;
    assert Eligible(cfg, w1, u) == Eligible(cfg, w, u);
    forall g, x | InGroup(w, g, x) ensures InGroup(w2, g, x) {
      assert InGroup(w1, g, x);
    }
    forall g, x | InGroup(w2, g, x) && !InGroup(w, g, x)
      ensures exists i :: 0 <= i < |users| && users[i].email == x && Eligible(cfg, w, users[i])
    {
      if InGroup(w1, g, x) {
        var i :| 0 <= i < |init| && init[i].email == x && Eligible(cfg, w, init[i]);
        assert users[i] == init[i];
      } else {
        assert users[n].email == x && Eligible(cfg, w, users[n]);
      }
    }
    forall i | 0 <= i < |users| && Eligible(cfg, w, users[i])
      ensures InGroup(w2, cfg.dacoGroup, users[i].email)
      ensures users[i].hasCloud ==> InGroup(w2, cfg.cloudGroup, users[i].email)
    {
      if i < n {
        assert users[i] == init[i];
      }
    }
    forall x | InGroup(w2, cfg.cloudGroup, x)
      ensures InGroup(w, cfg.cloudGroup, x) || InGroup(w2, cfg.dacoGroup, x)
    {
      if InGroup(w1, cfg.cloudGroup, x) {
        if !InGroup(w, cfg.cloudGroup, x) {
          assert InGroup(w1, cfg.dacoGroup, x);
        }
      } else {
        assert x == u.email;
      }
    }
  }

  /** The grant pass never raises on a service that does not fail and only
      adds: every eligible user ends up in the DACO group (and in the cloud
      group when it should have cloud access), every new member is the
      e-mail of an eligible user, and whoever is in the cloud group
      afterwards was there before or is now in the DACO group too. */
  lemma {:induction false} GrantUsersEffect(cfg: Config, w: World, users: seq<User>)
    requires w.remote.faults == map[]
    requires cfg.dacoGroup != cfg.cloudGroup
    ensures GrantUsers(cfg, w, users).1.Ok?
    ensures GrantFacts(cfg, w, GrantUsers(cfg, w, users).0, users)
  {
    if users != [] {
      var n := |users| - 1;
      var init := users[..n];
      var u := users[n];
      GrantUsersEffect(cfg, w, init);
      var w1 := GrantUsers(cfg, w, init).0;
      GrantUserEffect(cfg, w1, u);
      var w2 := GrantUser(cfg, w1, u).0;
      assert GrantUsers(cfg, w, users).0 == w2;
      GrantStep(cfg, w, w1, w2, init, u);
      assert init + [u] == users;
    }
  }

  /** The e-mails of a list of users. */
  function Emails(users: seq<User>): (r: seq<string>)
    ensures |r| == |users|
    ensures forall i :: 0 <= i < |users| ==> r[i] == users[i].email
  {
    seq(|users|, i requires 0 <= i < |users| => users[i].email)
  }

  /** What the revoke pass guarantees, from `w` before it to `w1` after
      it has processed `users`. */
  ghost predicate RevokeFacts(cfg: Config, w: World, w1: World, users: seq<User>)
  {
    w1.remote.faults == map[] && w1.remote.accounts == w.remote.accounts &&
    (forall g, x :: x !in Emails(users) ==> (InGroup(w1, g, x) <==> InGroup(w, g, x))) &&
    (forall i :: 0 <= i < |users| ==>
      (InGroup(w1, cfg.dacoGroup, users[i].email) <==> InGroup(w, cfg.dacoGroup, users[i].email) && users[i].hasDaco) &&
      (InGroup(w1, cfg.cloudGroup, users[i].email) <==>
         InGroup(w, cfg.cloudGroup, users[i].email) && users[i].hasDaco && users[i].hasCloud))
  }

  /** One more user, with an e-mail not seen before, keeps the revoke
      pass's guarantees, given what `RevokeAccessEffect` says of its step. */
  lemma RevokeStep(cfg: Config, w: World, w1: World, w2: World, init: seq<User>, u: User)
    requires RevokeFacts(cfg, w, w1, init)
    requires u.email !in Emails(init)
    requires SameElsewhere(cfg, w2, w1, u.email)
    requires InGroup(w2, cfg.dacoGroup, u.email) <==> InGroup(w1, cfg.dacoGroup, u.email) && u.hasDaco
    requires InGroup(w2, cfg.cloudGroup, u.email) <==> InGroup(w1, cfg.cloudGroup, u.email) && u.hasDaco && u.hasCloud
    ensures RevokeFacts(cfg, w, w2, init + [u])
  {
    var users := init + [u];
    var n := |init|;
    assert forall g :: InGroup(w1, g, u.email) <==> InGroup(w, g, u.email);
    assert Emails(users) == Emails(init) + [u.email];
    forall i | 0 <= i < n
      ensures (InGroup(w2, cfg.dacoGroup, users[i].email) <==> InGroup(w, cfg.dacoGroup, users[i].email) && users[i].hasDaco)
      ensures (InGroup(w2, cfg.cloudGroup, users[i].email) <==>
        InGroup(w, cfg.cloudGroup, users[i].email) && users[i].hasDaco && users[i].hasCloud)
    {
      assert users[i] == init[i];
      assert Emails(init)[i] == init[i].email;
    }
  }

  lemma {:induction false} RevokeUsersFacts(cfg: Config, w: World, users: seq<User>)
    requires w.remote.faults == map[]
    requires cfg.dacoGroup != cfg.cloudGroup
    requires forall i, j :: 0 <= i < j < |users| ==> users[i].email != users[j].email
    ensures RevokeUsers(cfg, w, users).1.Ok?
    ensures RevokeFacts(cfg, w, RevokeUsers(cfg, w, users).0, users)
  {
    if users != [] {
      var n := |users| - 1;
      var init := users[..n];
      var u := users[n];
      RevokeUsersFacts(cfg, w, init);
      var w1 := RevokeUsers(cfg, w, init).0;
      RevokeAccessEffect(cfg, w1, u);
      var w2 := RevokeUser(cfg, w1, u).0;
      assert RevokeUsers(cfg, w, users).0 == w2;
      assert u.email !in Emails(init) by {
        forall i | 0 <= i < |init| ensures Emails(init)[i] != u.email {
          assert init[i] == users[i];
        }
      }
      RevokeStep(cfg, w, w1, w2, init, u);
      assert init + [u] == users;
    }
  }

  /** The revoke pass over users with distinct e-mails touches only their
      e-mails, and each ends up in the DACO group exactly when it was there
      and its user should have DACO access, and in the cloud group exactly
      when it was there and its user should have both. */
  lemma RevokeUsersEffect(cfg: Config, w: World, users: seq<User>)
    requires w.remote.faults == map[]
    requires cfg.dacoGroup != cfg.cloudGroup
    requires forall i, j :: 0 <= i < j < |users| ==> users[i].email != users[j].email
    ensures RevokeUsers(cfg, w, users).1.Ok?
    ensures RevokeUsers(cfg, w, users).0.remote.faults == map[]
    ensures RevokeUsers(cfg, w, users).0.remote.accounts == w.remote.accounts
    ensures forall g, x :: x !in Emails(users) ==> (InGroup(RevokeUsers(cfg, w, users).0, g, x) <==> InGroup(w, g, x))
    ensures forall i :: 0 <= i < |users| ==>
      (InGroup(RevokeUsers(cfg, w, users).0, cfg.dacoGroup, users[i].email) <==>
         InGroup(w, cfg.dacoGroup, users[i].email) && users[i].hasDaco) &&
      (InGroup(RevokeUsers(cfg, w, users).0, cfg.cloudGroup, users[i].email) <==>
         InGroup(w, cfg.cloudGroup, users[i].email) && users[i].hasDaco && users[i].hasCloud)
  {
    RevokeUsersFacts(cfg, w, users);
  }

  /** `set(daco) | set(cloud)` as the revoke pass walks it: every member
      of either list, each exactly once. */
  lemma {:induction false} DedupMembers(s: seq<string>)
    ensures forall x :: x in Dedup(s) <==> x in s
    ensures forall i, j :: 0 <= i < j < |Dedup(s)| ==> Dedup(s)[i] != Dedup(s)[j]
  {
    if s != [] {
      var init := s[..|s| - 1];
      DedupMembers(init);
      assert s == init + [s[|s| - 1]];
    }
  }

  /** Every user the map holds is one of the listed users. */
  lemma {:induction false} UserMapValues(users: seq<User>, k: string)
    requires k in UserMap(users)
    ensures UserMap(users)[k] in users
    ensures Lower(UserMap(users)[k].email) == k
  {
    var n := |users| - 1;
    if k != Lower(users[n].email) {
      UserMapValues(users[..n], k);
    }
  }

  /** Whoever is in the DACO or cloud group and has a desired user carries
      the user's e-mail with the same case. */
  ghost predicate CaseConsistent(cfg: Config, w: World)
  {
    forall x :: (InGroup(w, cfg.dacoGroup, x) || InGroup(w, cfg.cloudGroup, x)) ==> GetUser(cfg, x).email == x
  }

  /** Whoever is in the cloud group at the start and should have both kinds
      of access either has DACO access already or can be granted it. */
  ghost predicate CloudMembersGrantable(cfg: Config, w: World)
  {
    forall x :: InGroup(w, cfg.cloudGroup, x) && GetUser(cfg, x).hasDaco && GetUser(cfg, x).hasCloud ==>
      InGroup(w, cfg.dacoGroup, x) || Eligible(cfg, w, GetUser(cfg, x))
  }

  /** An eligible listed user is the map's user for its own e-mail. */
  lemma EligibleIsMapped(cfg: Config, w: World, u: User)
    requires Eligible(cfg, w, u)
    ensures GetUser(cfg, u.email) == u
  {
  }

  /** The ids the revoke pass visits after the grant pass carry their
      users' e-mails: the members from before were case-consistent, and
      the new ones are e-mails of eligible users, who are their own map
      entries. */
  lemma VisitedKeepIds(cfg: Config, w: World, w1: World, members: seq<string>)
    requires GrantFacts(cfg, w, w1, cfg.users)
    requires CaseConsistent(cfg, w)
    requires forall x :: x in members ==> InGroup(w1, cfg.dacoGroup, x) || InGroup(w1, cfg.cloudGroup, x)
    ensures Emails(EgoUsers(cfg, members)) == members
  {
    var visited := EgoUsers(cfg, members);
    forall i | 0 <= i < |members| ensures visited[i].email == members[i] {
      var x := members[i];
      assert x in members;
      if !(InGroup(w, cfg.dacoGroup, x) || InGroup(w, cfg.cloudGroup, x)) {
        var g := if InGroup(w1, cfg.dacoGroup, x) then cfg.dacoGroup else cfg.cloudGroup;
        assert InGroup(w1, g, x) && !InGroup(w, g, x);
        var j :| 0 <= j < |cfg.users| && cfg.users[j].email == x && Eligible(cfg, w, cfg.users[j]);
        EligibleIsMapped(cfg, w, cfg.users[j]);
      }
    }
  }

  /** What the state after both passes looks like, from what each pass
      guarantees: `w1` after the grant pass, `w2` after the revoke pass
      over `members`, the members of both groups in `w1`. */
  lemma BothPasses(cfg: Config, w: World, w1: World, w2: World, members: seq<string>)
    requires GrantFacts(cfg, w, w1, cfg.users)
    requires CloudMembersGrantable(cfg, w)
    requires forall x :: x in members <==> InGroup(w1, cfg.dacoGroup, x) || InGroup(w1, cfg.cloudGroup, x)
    requires forall i :: 0 <= i < |members| ==> GetUser(cfg, members[i]).email == members[i]
    requires forall g, x :: x !in members ==> (InGroup(w2, g, x) <==> InGroup(w1, g, x))
    requires forall x :: x in members ==>
      (InGroup(w2, cfg.dacoGroup, x) <==> InGroup(w1, cfg.dacoGroup, x) && GetUser(cfg, x).hasDaco) &&
      (InGroup(w2, cfg.cloudGroup, x) <==>
         InGroup(w1, cfg.cloudGroup, x) && GetUser(cfg, x).hasDaco && GetUser(cfg, x).hasCloud)
    ensures forall x :: InGroup(w2, cfg.dacoGroup, x) ==> GetUser(cfg, x).hasDaco
    ensures forall x :: InGroup(w2, cfg.cloudGroup, x) ==>
      GetUser(cfg, x).hasDaco && GetUser(cfg, x).hasCloud && InGroup(w2, cfg.dacoGroup, x)
    ensures forall u :: u in cfg.users && Eligible(cfg, w, u) && u.hasDaco ==>
      InGroup(w2, cfg.dacoGroup, u.email) && (u.hasCloud ==> InGroup(w2, cfg.cloudGroup, u.email))
  {
    var daco, cloud := cfg.dacoGroup, cfg.cloudGroup;
    forall x | InGroup(w2, cloud, x)
      ensures GetUser(cfg, x).hasDaco && GetUser(cfg, x).hasCloud && InGroup(w2, daco, x)
    {
      var u := GetUser(cfg, x);
      if !InGroup(w, cloud, x) {
        assert InGroup(w1, daco, x);
      } else if !InGroup(w, daco, x) {
        assert Eligible(cfg, w, u);
        UserMapValues(cfg.users, Lower(x));
        var j :| 0 <= j < |cfg.users| && cfg.users[j] == u;
        var i :| 0 <= i < |members| && members[i] == x;
        assert InGroup(w1, daco, u.email);
      }
    }
    forall u | u in cfg.users && Eligible(cfg, w, u) && u.hasDaco
      ensures InGroup(w2, daco, u.email)
      ensures u.hasCloud ==> InGroup(w2, cloud, u.email)
    {
      var j :| 0 <= j < |cfg.users| && cfg.users[j] == u;
      EligibleIsMapped(cfg, w, u);
      assert InGroup(w1, daco, u.email);
    }
  }

  /** The revoke pass on a service that does not fail, when every member
      maps back to a user of the same e-mail: it visits each member once,
      touches no one else, and each member keeps a group only when its
      user should have it. */
  lemma RevokePassEffect(cfg: Config, w1: World, members: seq<string>)
    requires w1.remote.faults == map[]
    requires cfg.dacoGroup != cfg.cloudGroup
    requires members == Dedup(Members(w1.remote, cfg.dacoGroup) + Members(w1.remote, cfg.cloudGroup))
    requires Emails(EgoUsers(cfg, members)) == members
    ensures Revoke(cfg, w1).1.Ok?
    ensures forall g, x :: x !in members ==> (InGroup(Revoke(cfg, w1).0, g, x) <==> InGroup(w1, g, x))
    ensures forall x :: x in members ==>
      (InGroup(Revoke(cfg, w1).0, cfg.dacoGroup, x) <==> InGroup(w1, cfg.dacoGroup, x) && GetUser(cfg, x).hasDaco) &&
      (InGroup(Revoke(cfg, w1).0, cfg.cloudGroup, x) <==>
         InGroup(w1, cfg.cloudGroup, x) && GetUser(cfg, x).hasDaco && GetUser(cfg, x).hasCloud)
  {
    var daco, cloud := cfg.dacoGroup, cfg.cloudGroup;
    var wf := FetchEgoIds(cfg, w1).0;
    assert forall g, x :: InGroup(wf, g, x) <==> InGroup(w1, g, x);
    var all := Members(w1.remote, daco) + Members(w1.remote, cloud);
    assert FetchEgoIds(cfg, w1).1 == Ok(members);
    DedupMembers(all);
    var visited := EgoUsers(cfg, members);
    RevokeUsersEffect(cfg, wf, visited);
    var w2 := RevokeUsers(cfg, wf, visited).0;
    assert Revoke(cfg, w1).0 == w2;
    forall x | x in members
      ensures (InGroup(w2, daco, x) <==> InGroup(w1, daco, x) && GetUser(cfg, x).hasDaco)
      ensures (InGroup(w2, cloud, x) <==> InGroup(w1, cloud, x) && GetUser(cfg, x).hasDaco && GetUser(cfg, x).hasCloud)
    {
      var i :| 0 <= i < |members| && members[i] == x;
      assert visited[i] == GetUser(cfg, x) && visited[i].email == x;
    }
  }

  /** A full run on a service that does not fail, with distinct group
      names, succeeds and leaves the service in line with the desired
      users: every DACO member is a user who should have DACO access, every
      cloud member a user who should have both (so cloud access implies DACO
      access), and every eligible user who should have access has it. It
      needs the members' ids to carry their users' e-mails with the same
      case, and each cloud member who should keep cloud access to be in the
      DACO group already or grantable. */
  lemma UpdateEgoConverges(cfg: Config, w: World)
    requires w.remote.faults == map[]
    requires cfg.dacoGroup != cfg.cloudGroup
    requires CaseConsistent(cfg, w)
    requires CloudMembersGrantable(cfg, w)
    ensures UpdateEgo(cfg, w).1.Ok?
    ensures forall x :: InGroup(UpdateEgo(cfg, w).0, cfg.dacoGroup, x) ==> GetUser(cfg, x).hasDaco
    ensures forall x :: InGroup(UpdateEgo(cfg, w).0, cfg.cloudGroup, x) ==>
      GetUser(cfg, x).hasDaco && GetUser(cfg, x).hasCloud && InGroup(UpdateEgo(cfg, w).0, cfg.dacoGroup, x)
    ensures forall u :: u in cfg.users && Eligible(cfg, w, u) && u.hasDaco ==>
      InGroup(UpdateEgo(cfg, w).0, cfg.dacoGroup, u.email) &&
      (u.hasCloud ==> InGroup(UpdateEgo(cfg, w).0, cfg.cloudGroup, u.email))
  {
    var daco, cloud := cfg.dacoGroup, cfg.cloudGroup;
    GrantUsersEffect(cfg, w, cfg.users);
    var w1 := GrantUsers(cfg, w, cfg.users).0;
    var all := Members(w1.remote, daco) + Members(w1.remote, cloud);
    var members := Dedup(all);
    DedupMembers(all);
    VisitedKeepIds(cfg, w, w1, members);
    RevokePassEffect(cfg, w1, members);
    var w2 := Revoke(cfg, w1).0;
    assert UpdateEgo(cfg, w).0 == w2;
    BothPasses(cfg, w, w1, w2, members);
  }

  // ------------------------------------------------------------------
  // Reports, counters and failures of one user's processing
  // ------------------------------------------------------------------

  /** `existing_user` on a service that does not fail: DACO access is
      granted exactly when the user is not a DACO member, cloud access
      exactly when the user should have it and is not a cloud member, and
      exactly one of grant_both, grant_daco and grant_cloud is counted, with
      its message; a user already set up gets no message and no count. */
  lemma ExistingUserReports(cfg: Config, w: World, u: User)
    requires w.remote.faults == map[]
    requires cfg.dacoGroup != cfg.cloudGroup
    ensures var grantDaco := !InGroup(w, cfg.dacoGroup, u.email);
      var grantCloud := u.hasCloud && !InGroup(w, cfg.cloudGroup, u.email);
      ExistingUser(cfg, w, u).1 ==
        Ok(if grantDaco && grantCloud then Some(GrantedBothMessage(u))
           else if grantDaco then Some(GrantedDacoMessage(u))
           else if grantCloud then Some(GrantedCloudMessage(u))
           else None) &&
      ExistingUser(cfg, w, u).0.counts ==
        (if grantDaco && grantCloud then Count(w.counts, "grant_both", false)
         else if grantDaco then Count(w.counts, "grant_daco", false)
         else if grantCloud then Count(w.counts, "grant_cloud", false)
         else w.counts)
  {
    var x := u.email;
    var w1 := HasDaco(cfg, w, u).0;
    if !InGroup(w, cfg.dacoGroup, x) {
      AddOk(cfg, w1.remote, cfg.dacoGroup, x);
      var w2 := GrantDaco(cfg, w1, u).0;
      assert InGroup(w2, cfg.cloudGroup, x) <==> InGroup(w, cfg.cloudGroup, x);
    }
  }

  /** The grant counters are bumped only after all of a user's calls
      succeed: when the DACO grant goes through but the cloud grant fails,
      the user is left in the DACO group, only the cloud grant's error is
      counted, and the issue reported is that error. */
  lemma PartialGrantNotCounted(cfg: Config, w: World, u: User, e: Exn)
    requires cfg.dacoGroup != cfg.cloudGroup
    requires u.hasCloud
    requires !InGroup(w, cfg.dacoGroup, u.email) && !InGroup(w, cfg.cloudGroup, u.email)
    requires w.remote.faults == map[Add(cfg.cloudGroup, u.email) := e]
    ensures ExistingUser(cfg, w, u).1 == Err(LookupError(GrantCloudMessage(u), e))
    ensures ExistingUser(cfg, w, u).0.counts == Count(w.counts, GrantCloudCategory, true)
    ensures InGroup(ExistingUser(cfg, w, u).0, cfg.dacoGroup, u.email)
    ensures !InGroup(ExistingUser(cfg, w, u).0, cfg.cloudGroup, u.email)
    ensures CatchLookup(ExistingUser(cfg, w, u).1) ==
      if |e.args| == 1 then Err(TupleAssignmentError)
      else Ok(Some("Error: " + GrantCloudMessage(u) + " -- " + (e.cls + TupleRepr(Filtered(e.args)))))
  {
    var x := u.email;
    var w1 := HasDaco(cfg, w, u).0;
    assert HasDaco(cfg, w, u).1 == Ok(false);
    assert CallAdd(w1.remote, cfg.dacoGroup, x).1.Ok?;
    AddEffect(w1.remote, cfg.dacoGroup, x, cfg.cloudGroup, x);
    var w2 := GrantDaco(cfg, w1, u).0;
    assert InGroup(w2, cfg.dacoGroup, x) && !InGroup(w2, cfg.cloudGroup, x);
    var w3 := HasCloud(cfg, w2, u).0;
    assert HasCloud(cfg, w2, u).1 == Ok(false);
    assert w3.remote.groups == w2.remote.groups;
    assert GrantCloud(cfg, w3, u).1 == Err(LookupError(GrantCloudMessage(u), e));
    assert ExistingUser(cfg, w, u) == (GrantCloud(cfg, w3, u).0, Err(LookupError(GrantCloudMessage(u), e)));
    ErrMsgOutcome(GrantCloudMessage(u), e);
  }

  /** A wrapped failure becomes an issue line, so the next user still runs,
      unless the cause has exactly one argument: then rendering it raises
      TypeError, which ends the run. */
  lemma WrappedFailureReport(msg: string, e: Exn)
    ensures |e.args| == 1 ==> CatchLookup(Err(LookupError(msg, e))) == Err(TupleAssignmentError)
    ensures |e.args| != 1 ==>
      (CatchLookup(Err(LookupError(msg, e))) ==
       Ok(Some("Error: " + msg + " -- " + (e.cls + TupleRepr(Filtered(e.args))))))
  {
    ErrMsgOutcome(msg, e);
  }

  /** The account check is made on the service directly: when it raises
      anything but a LookupError for the first user, nothing is counted, no
      other call is made, and the whole run ends with that exception. */
  lemma AccountCheckFailureEndsRun(cfg: Config, w: World, e: Exn)
    requires |cfg.users| > 0
    requires IsUniqueUser(cfg, cfg.users[0]) && !InvalidEmail(cfg.users[0]) && !IsInvalid(cfg.users[0])
    requires UserExists(cfg.users[0].email) in w.remote.faults
    requires w.remote.faults[UserExists(cfg.users[0].email)] == e
    requires !IsLookupClass(e.cls)
    ensures UpdateEgo(cfg, w) == (World(Logged(w.remote, UserExists(cfg.users[0].email)), w.counts), Err(e))
  {
    var users := cfg.users;
    assert users[..1][..0] == [];
    assert GrantUsers(cfg, w, users[..1]).1.Err?;
    GrantUsersErrorStops(cfg, w, users, 1);
  }

  /** Revoking from a user who should not have DACO access counts
      revoke_daco before the removal is attempted: when the removal fails
      both revoke_daco and the failure are counted and the cloud group is
      not touched. An inconsistent user's revoke_invalid is counted only
      after both removals succeed. */
  lemma RevokeCountedBeforeRemoval(cfg: Config, w: World, u: User, e: Exn)
    requires cfg.dacoGroup != cfg.cloudGroup
    requires !u.hasDaco
    requires InGroup(w, cfg.dacoGroup, u.email)
    requires w.remote.faults == map[Remove(cfg.dacoGroup, u.email) := e]
    ensures RevokeAccess(cfg, w, u).1 == Err(LookupError(RevokeDacoMessage(u), e))
    ensures IsInvalid(u) ==> RevokeAccess(cfg, w, u).0.counts == Count(w.counts, RevokeDacoCategory, true)
    ensures !IsInvalid(u) ==>
      (RevokeAccess(cfg, w, u).0.counts ==
       Count(Count(w.counts, "revoke_daco", false), RevokeDacoCategory, true))
    ensures forall g :: InGroup(RevokeAccess(cfg, w, u).0, g, u.email) <==> InGroup(w, g, u.email)
  {
  }

  /** An inconsistent user: both removals, then the count. */
  lemma RevokeInvalidReports(cfg: Config, w: World, u: User)
    requires w.remote.faults == map[]
    requires IsInvalid(u)
    ensures var (w1, r) := RevokeAccess(cfg, w, u);
      r == Ok(Some(RevokedInvalidMessage(u))) && w1.counts == Count(w.counts, "revoke_invalid", false) &&
      w1.remote.calls == w.remote.calls + [Remove(cfg.dacoGroup, u.email), Remove(cfg.cloudGroup, u.email)]
  {
  }

  /** A user who should not have DACO access: one, two or three checks. */
  lemma RevokeNoDacoReports(cfg: Config, w: World, u: User)
    requires w.remote.faults == map[]
    requires !u.hasDaco && !u.hasCloud
    ensures var x := u.email;
      var (w1, r) := RevokeAccess(cfg, w, u);
      var d := InGroup(w, cfg.dacoGroup, x);
      var c := InGroup(w, cfg.cloudGroup, x);
      (d ==>
         r == Ok(Some(RevokedAllMessage(u))) && w1.counts == Count(w.counts, "revoke_daco", false) &&
         w1.remote.calls == w.remote.calls +
           [IsMember(cfg.dacoGroup, x), Remove(cfg.dacoGroup, x), Remove(cfg.cloudGroup, x)]) &&
      (!d && c ==>
         r == Ok(Some(RevokedAllMessage(u))) && w1.counts == Count(w.counts, "revoke_daco", false) &&
         w1.remote.calls == w.remote.calls +
           [IsMember(cfg.dacoGroup, x), IsMember(cfg.cloudGroup, x), Remove(cfg.dacoGroup, x), Remove(cfg.cloudGroup, x)]) &&
      (!d && !c ==>
         r == Ok(None) && w1.counts == w.counts &&
         w1.remote.calls == w.remote.calls +
           [IsMember(cfg.dacoGroup, x), IsMember(cfg.cloudGroup, x), IsMember(cfg.cloudGroup, x)])
  {
    var x := u.email;
    HasDacoOk(cfg, w, u);
    var w1 := HasDaco(cfg, w, u).0;
    if !InGroup(w, cfg.dacoGroup, x) {
      HasCloudOk(cfg, w1, u);
      var w2 := HasCloud(cfg, w1, u).0;
      if !InGroup(w, cfg.cloudGroup, x) {
        HasCloudOk(cfg, w2, u);
      }
    }
  }

  /** A user who should have DACO but not cloud access: one check. */
  lemma RevokeNoCloudReports(cfg: Config, w: World, u: User)
    requires w.remote.faults == map[]
    requires u.hasDaco && !u.hasCloud
    ensures var x := u.email;
      var (w1, r) := RevokeAccess(cfg, w, u);
      var c := InGroup(w, cfg.cloudGroup, x);
      (c ==>
         r == Ok(Some(RevokedCloudMessage(u))) && w1.counts == Count(w.counts, "revoke_cloud", false) &&
         w1.remote.calls == w.remote.calls + [IsMember(cfg.cloudGroup, x), Remove(cfg.cloudGroup, x)]) &&
      (!c ==>
         r == Ok(None) && w1.counts == w.counts && w1.remote.calls == w.remote.calls + [IsMember(cfg.cloudGroup, x)])
  {
    HasCloudOk(cfg, w, u);
  }

  /** `revoke_access_if_necessary` on a service that does not fail: the
      message and the counter of each case, and the calls made. */
  lemma RevokeAccessReports(cfg: Config, w: World, u: User)
    requires w.remote.faults == map[]
    requires cfg.dacoGroup != cfg.cloudGroup
    ensures var x := u.email;
      var (w1, r) := RevokeAccess(cfg, w, u);
      var d := InGroup(w, cfg.dacoGroup, x);
      var c := InGroup(w, cfg.cloudGroup, x);
      (IsInvalid(u) ==>
         r == Ok(Some(RevokedInvalidMessage(u))) && w1.counts == Count(w.counts, "revoke_invalid", false) &&
         w1.remote.calls == w.remote.calls + [Remove(cfg.dacoGroup, x), Remove(cfg.cloudGroup, x)]) &&
      (!IsInvalid(u) && !u.hasDaco && d ==>
         r == Ok(Some(RevokedAllMessage(u))) && w1.counts == Count(w.counts, "revoke_daco", false) &&
         w1.remote.calls == w.remote.calls +
           [IsMember(cfg.dacoGroup, x), Remove(cfg.dacoGroup, x), Remove(cfg.cloudGroup, x)]) &&
      (!IsInvalid(u) && !u.hasDaco && !d && c ==>
         r == Ok(Some(RevokedAllMessage(u))) && w1.counts == Count(w.counts, "revoke_daco", false) &&
         w1.remote.calls == w.remote.calls +
           [IsMember(cfg.dacoGroup, x), IsMember(cfg.cloudGroup, x), Remove(cfg.dacoGroup, x), Remove(cfg.cloudGroup, x)]) &&
      (!IsInvalid(u) && !u.hasDaco && !d && !c ==>
         r == Ok(None) && w1.counts == w.counts &&
         w1.remote.calls == w.remote.calls +
           [IsMember(cfg.dacoGroup, x), IsMember(cfg.cloudGroup, x), IsMember(cfg.cloudGroup, x)]) &&
      (u.hasDaco && !u.hasCloud && c ==>
         r == Ok(Some(RevokedCloudMessage(u))) && w1.counts == Count(w.counts, "revoke_cloud", false) &&
         w1.remote.calls == w.remote.calls + [IsMember(cfg.cloudGroup, x), Remove(cfg.cloudGroup, x)]) &&
      (u.hasDaco && !u.hasCloud && !c ==>
         r == Ok(None) && w1.counts == w.counts && w1.remote.calls == w.remote.calls + [IsMember(cfg.cloudGroup, x)]) &&
      (u.hasDaco && u.hasCloud ==> (w1, r) == (w, Ok(None)))
  {
    if IsInvalid(u) {
      RevokeInvalidReports(cfg, w, u);
    } else if !u.hasDaco {
      RevokeNoDacoReports(cfg, w, u);
    } else if !u.hasCloud {
      RevokeNoCloudReports(cfg, w, u);
    }
  }

  /** When the members cannot be fetched the revoke pass reports exactly
      one issue, the rendered LookupError, visits no user, counts nothing
      and changes no membership. */
  lemma RevokeFetchFailure(cfg: Config, w: World)
    requires GetUsers(cfg.dacoGroup) in w.remote.faults || GetUsers(cfg.cloudGroup) in w.remote.faults
    ensures var e := if GetUsers(cfg.dacoGroup) in w.remote.faults then w.remote.faults[GetUsers(cfg.dacoGroup)]
                     else w.remote.faults[GetUsers(cfg.cloudGroup)];
      Revoke(cfg, w).1 == Ok(["Error: " + RevokeFetchMessage + " -- " +
        ("LookupError" + TupleRepr(Filtered([PyStr(FetchMessage), PyExn(e)])))])
    ensures Revoke(cfg, w).0.counts == w.counts
    ensures Revoke(cfg, w).0.remote.groups == w.remote.groups
    ensures GetUsers(cfg.dacoGroup) in w.remote.faults ==>
      Revoke(cfg, w).0.remote.calls == w.remote.calls + [GetUsers(cfg.dacoGroup)]
  {
    var e := if GetUsers(cfg.dacoGroup) in w.remote.faults then w.remote.faults[GetUsers(cfg.dacoGroup)]
             else w.remote.faults[GetUsers(cfg.cloudGroup)];
    ErrMsgOutcome(RevokeFetchMessage, LookupError(FetchMessage, e));
  }
}
