/**
 * The reconciler of python/daco_client.py: it brings the group service in
 * line with the desired `User` records. The grant pass walks the desired
 * users, the revoke pass walks the members the service reports; every call
 * is made through a wrapper that counts its failure and raises a
 * LookupError carrying a readable message; the counters feed the report.
 *
 * Each operation is first defined as a function from a `World` (the
 * service's state and the counters) to the new `World` and the outcome,
 * where `Err(e)` means the exception `e` was raised. The `DacoClient`
 * class at the end performs the same steps on objects and is proved to
 * follow these functions; the properties are proved about the functions
 * in module `ReconcilerProofs`.
 */
module Reconciler {
  import opened Wrappers
  import opened Text
  import opened PyValues
  import opened DacoUser
  import opened FormatErrors
  import opened GroupService

  // ------------------------------------------------------------------
  // Counters (`count`, `get_summary`)
  // ------------------------------------------------------------------

  /** `[n, err]`: how often a category was counted and whether it is an
      error category (fixed by the first count). */
  datatype Counter = Counter(n: nat, isError: bool)

  /** `self._counts`: a dict, so its categories keep insertion order. */
  datatype Counts = Counts(order: seq<string>, table: map<string, Counter>)

  const NoCounts: Counts := Counts([], map[])

  /** The table's keys are exactly the categories in `order`, each listed once. */
  ghost predicate CountsValid(c: Counts)
  {
    (forall k :: k in c.table <==> k in c.order) &&
    (forall i, j :: 0 <= i < j < |c.order| ==> c.order[i] != c.order[j])
  }

  /** `count(category, err)`: increment an existing counter (its flag is
      left as it was), or start a new one at `[1, err]`. */
  function Count(c: Counts, category: string, err: bool): Counts
  {
    if category in c.table then
      c.(table := c.table[category := c.table[category].(n := c.table[category].n + 1)])
    else
      Counts(c.order + [category], c.table[category := Counter(1, err)])
  }

  /** The line `get_summary` reports for an error category. */
  function ErrorLine(category: string, n: nat): string
  {
    "*Error:* Ego operation *" + category + "* failed for " + NatToString(n) + " users"
  }

  /** The error lines for the categories of `order`, in that order. */
  function ErrorLines(order: seq<string>, table: map<string, Counter>): seq<string>
  {
    if order == [] then []
    else
      (if order[0] in table && table[order[0]].isError then [ErrorLine(order[0], table[order[0]].n)] else [])
      + ErrorLines(order[1..], table)
  }

  /** `get_summary()`: the plain counters as a map, and one line per error
      counter in insertion order. */
  function Summary(c: Counts): (map<string, nat>, seq<string>)
  {
    (map k | k in c.table && !c.table[k].isError :: c.table[k].n, ErrorLines(c.order, c.table))
  }

  // ------------------------------------------------------------------
  // The reconciler's state and configuration
  // ------------------------------------------------------------------

  /** Everything an operation can change: the service and the counters. */
  datatype World = World(remote: Remote, counts: Counts)

  /** What `__init__` receives: the two group names and the desired users. */
  datatype Config = Config(dacoGroup: string, cloudGroup: string, users: seq<User>)

  function Counted(w: World, category: string): World
  {
    w.(counts := Count(w.counts, category, false))
  }

  /** `{u.email.lower(): u for u in users}`: a later user with the same
      lower-cased e-mail replaces an earlier one. */
  function UserMap(users: seq<User>): map<string, User>
  {
    if users == [] then map[]
    else UserMap(users[..|users| - 1])[Lower(users[|users| - 1].email) := users[|users| - 1]]
  }

  /** `get_user(ego_id)`: the desired user for an id, matched without
      regard to case, or a placeholder that should hold nothing. */
  function GetUser(cfg: Config, egoId: string): User
  {
    var m := UserMap(cfg.users);
    if Lower(egoId) in m then m[Lower(egoId)] else User(egoId, None, false, false)
  }

  /** `is_unique_user(user)`: the user is the one the map keeps for its
      e-mail (`__eq__` is value equality, see `SameUserIsValueEquality`). */
  predicate IsUniqueUser(cfg: Config, u: User)
  {
    GetUser(cfg, u.email) == u
  }

  // ------------------------------------------------------------------
  // The wrappers around the service
  // ------------------------------------------------------------------

  /** A wrapped call: on failure the error category is counted and
      `LookupError(msg, e)` is raised instead. */
  function Guard<T>(w: World, step: (Remote, Result<T, Exn>), category: string, msg: string): (World, Result<T, Exn>)
  {
    match step.1
    case Ok(v) => (World(step.0, w.counts), Ok(v))
    case Err(e) => (World(step.0, Count(w.counts, category, true)), Err(LookupError(msg, e)))
  }

  /** The error categories and messages of the six wrappers. */
  const HasDacoCategory := "has DACO permission check"
  const HasCloudCategory := "has cloud access check"
  const GrantDacoCategory := "grant DACO access"
  const GrantCloudCategory := "grant cloud access"
  const RevokeDacoCategory := "revoke DACO access"
  const RevokeCloudCategory := "revoke cloud access"

  function HasDacoMessage(u: User): string { "Can't determine if user '" + ToStr(u) + "' has daco access" }
  function HasCloudMessage(u: User): string { "Can't determine if user '" + ToStr(u) + "' has cloud access" }
  function GrantDacoMessage(u: User): string { "Can't grant daco access to user '" + ToStr(u) + "'" }
  function GrantCloudMessage(u: User): string { "Can't grant cloud access to user '" + ToStr(u) + "'" }
  function RevokeDacoMessage(u: User): string { "Can't revoke daco access for user '" + ToStr(u) + "'" }
  function RevokeCloudMessage(u: User): string { "Can't revoke cloud access for user '" + ToStr(u) + "'" }

  /** `has_daco(user)`. */
  function HasDaco(cfg: Config, w: World, u: User): (World, Result<bool, Exn>)
  {
    Guard(w, CallIsMember(w.remote, cfg.dacoGroup, u.email), HasDacoCategory, HasDacoMessage(u))
  }

  /** `has_cloud(user)`. */
  function HasCloud(cfg: Config, w: World, u: User): (World, Result<bool, Exn>)
  {
    Guard(w, CallIsMember(w.remote, cfg.cloudGroup, u.email), HasCloudCategory, HasCloudMessage(u))
  }

  /** `grant_daco(user)`. */
  function GrantDaco(cfg: Config, w: World, u: User): (World, Result<(), Exn>)
  {
    Guard(w, CallAdd(w.remote, cfg.dacoGroup, u.email), GrantDacoCategory, GrantDacoMessage(u))
  }

  /** `grant_cloud(user)`. */
  function GrantCloud(cfg: Config, w: World, u: User): (World, Result<(), Exn>)
  {
    Guard(w, CallAdd(w.remote, cfg.cloudGroup, u.email), GrantCloudCategory, GrantCloudMessage(u))
  }

  /** `revoke_daco(user)`. */
  function RevokeDaco(cfg: Config, w: World, u: User): (World, Result<(), Exn>)
  {
    Guard(w, CallRemove(w.remote, cfg.dacoGroup, u.email), RevokeDacoCategory, RevokeDacoMessage(u))
  }

  /** `revoke_cloud(user)`. */
  function RevokeCloud(cfg: Config, w: World, u: User): (World, Result<(), Exn>)
  {
    Guard(w, CallRemove(w.remote, cfg.cloudGroup, u.email), RevokeCloudCategory, RevokeCloudMessage(u))
  }

  const UserExistsCategory := "user exists check"
  function UserNotFoundCategory(u: User): string { "Ego user not found for user `" + ToStr(u) + "'" }
  function UserExistsMessage(u: User): string { "Can't tell if user '" + ToStr(u) + " is already in ego" }

  /** `user_exists(user)`: the one wrapper that counts two categories on
      failure (and whose message lacks the closing quote). The grant pass
      does not use it: it calls the service directly. */
  function UserExists(w: World, u: User): (World, Result<bool, Exn>)
  {
    var step := CallUserExists(w.remote, u.email);
    match step.1
    case Ok(b) => (World(step.0, w.counts), Ok(b))
    case Err(e) =>
      var c := Count(Count(w.counts, UserExistsCategory, true), UserNotFoundCategory(u), true);
      (World(step.0, c), Err(LookupError(UserExistsMessage(u), e)))
  }

  /** `s` without repeated elements, each kept at its first position. */
  function Dedup(s: seq<string>): seq<string>
  {
    if s == [] then []
    else
      var d := Dedup(s[..|s| - 1]);
      if s[|s| - 1] in d then d else d + [s[|s| - 1]]
  }

  const FetchMessage := "Can't get list of daco users from ego"

  /** `fetch_ego_ids()`: the members of the DACO group together with those
      of the cloud group; either failing call is raised as a LookupError,
      and nothing is counted. */
  function FetchEgoIds(cfg: Config, w: World): (World, Result<seq<string>, Exn>)
  {
    var (r1, daco) := CallGetUsers(w.remote, cfg.dacoGroup);
    if daco.Err? then (World(r1, w.counts), Err(LookupError(FetchMessage, daco.error)))
    else
      var (r2, cloud) := CallGetUsers(r1, cfg.cloudGroup);
      if cloud.Err? then (World(r2, w.counts), Err(LookupError(FetchMessage, cloud.error)))
      else (World(r2, w.counts), Ok(Dedup(daco.value + cloud.value)))
  }

  // ------------------------------------------------------------------
  // Grant pass
  // ------------------------------------------------------------------

  function GrantedBothMessage(u: User): string { "Granted daco and cloud to existing user '" + ToStr(u) + "'" }
  function GrantedDacoMessage(u: User): string { "Granted daco to existing user '" + ToStr(u) + "'" }
  /** Lacks the closing quote the other messages have. */
  function GrantedCloudMessage(u: User): string { "Granted cloud to existing user '" + ToStr(u) }

  /** The end of `existing_user`: one counter and one message according to
      what was granted, or nothing when the user was already set up. */
  function GrantOutcome(w: World, u: User, grantedDaco: bool, grantedCloud: bool): (World, Result<Option<string>, Exn>)
  {
    if grantedDaco && grantedCloud then
      (Counted(w, "grant_both"), Ok(Some(GrantedBothMessage(u))))
    else if grantedDaco then
      (Counted(w, "grant_daco"), Ok(Some(GrantedDacoMessage(u))))
    else if grantedCloud then
      (Counted(w, "grant_cloud"), Ok(Some(GrantedCloudMessage(u))))
    else
      (w, Ok(None))
  }

  /** The cloud half of `existing_user`, after the DACO half. */
  function ExistingUserCloud(cfg: Config, w: World, u: User, grantedDaco: bool): (World, Result<Option<string>, Exn>)
  {
    if !u.hasCloud then GrantOutcome(w, u, grantedDaco, false)
    else
      var (w1, held) := HasCloud(cfg, w, u);
      if held.Err? then (w1, Err(held.error))
      else if held.value then GrantOutcome(w1, u, grantedDaco, false)
      else
        var (w2, granted) := GrantCloud(cfg, w1, u);
        if granted.Err? then (w2, Err(granted.error))
        else GrantOutcome(w2, u, grantedDaco, true)
  }

  /** `existing_user(user)`: grant DACO access if it is missing, then cloud
      access if the user should have it and it is missing. */
  function ExistingUser(cfg: Config, w: World, u: User): (World, Result<Option<string>, Exn>)
  {
    var (w1, held) := HasDaco(cfg, w, u);
    if held.Err? then (w1, Err(held.error))
    else if held.value then ExistingUserCloud(cfg, w1, u, false)
    else
      var (w2, granted) := GrantDaco(cfg, w1, u);
      if granted.Err? then (w2, Err(granted.error))
      else ExistingUserCloud(cfg, w2, u, true)
  }

  function DuplicateWarning(u: User): string
  {
    "Warning: User '" + ToStr(u) + "' has multiple entries in the daco file!"
  }

  function InvalidEmailWarning(u: User): string
  {
    "Warning: User '" + ToStr(u) + "' does not have a valid email address"
  }

  function InvalidUserWarning(u: User): string
  {
    "Warning: User '" + ToStr(u) + "' is invalid (in cloud file, but not in DACO)"
  }

  function NotInEgoMessage(u: User): string
  {
    "User is not in ego, no access granted to '" + ToStr(u) + "'"
  }

  /** `grant_access_if_necessary(user)`: three local checks in order, each
      ending with a warning, then the account check, made directly on the
      service (unwrapped), then `existing_user`. */
  function GrantAccess(cfg: Config, w: World, u: User): (World, Result<Option<string>, Exn>)
  {
    if !IsUniqueUser(cfg, u) then (Counted(w, "multiple_entries"), Ok(Some(DuplicateWarning(u))))
    else if InvalidEmail(u) then (Counted(w, "invalid_email"), Ok(Some(InvalidEmailWarning(u))))
    else if IsInvalid(u) then (Counted(w, "invalid"), Ok(Some(InvalidUserWarning(u))))
    else
      var (r1, exists_) := CallUserExists(w.remote, u.email);
      var w1 := World(r1, w.counts);
      if exists_.Err? then (w1, Err(exists_.error))
      else if exists_.value then ExistingUser(cfg, w1, u)
      else (Counted(w1, "ego_user_not_found"), Ok(Some(NotInEgoMessage(u))))
  }

  /** Python classes caught by `except LookupError`. */
  predicate IsLookupClass(cls: string)
  {
    cls == "LookupError" || cls == "KeyError" || cls == "IndexError"
  }

  const TupleIndexError: Exn := Exn("IndexError", [PyStr("tuple index out of range")])

  /** `format_exception` reads `.args` of what it is given; a value that is
      not an exception has none. */
  function NoArgsError(v: PyValue): Exn
  {
    var kind := match v
      case PyStr(_) => "str"
      case PyExn(e) => e.cls
      case PyObject(_, _) => "object";
    Exn("AttributeError", [PyStr("'" + kind + "' object has no attribute 'args'")])
  }

  /** `except LookupError as e: return err_msg(e.args[0], e.args[1])`:
      a LookupError becomes an issue line; any other exception, and any
      exception raised by the handler itself, propagates. */
  function CatchLookup(r: Result<Option<string>, Exn>): Result<Option<string>, Exn>
  {
    match r
    case Ok(m) => Ok(m)
    case Err(x) =>
      if !IsLookupClass(x.cls) then Err(x)
      else if |x.args| < 2 then Err(TupleIndexError)
      else match x.args[1]
        case PyExn(cause) =>
          (match ErrMsg(Str(x.args[0]), cause)
           case Ok(text) => Ok(Some(text))
           case Err(y) => Err(y))
        case _ => Err(NoArgsError(x.args[1]))
  }

  /** `grant_user(user)`. */
  function GrantUser(cfg: Config, w: World, u: User): (World, Result<Option<string>, Exn>)
  {
    var (w1, r) := GrantAccess(cfg, w, u);
    (w1, CatchLookup(r))
  }

  /** `filter(None, ...)` keeps the messages and drops the `None`s. */
  function Issues(m: Option<string>): seq<string>
  {
    if m.Some? then [m.value] else []
  }

  /** `list(grant_users(users))`: the users in order; the first exception
      that escapes `grant_user` ends the pass. */
  function GrantUsers(cfg: Config, w: World, users: seq<User>): (World, Result<seq<string>, Exn>)
  {
    if users == [] then (w, Ok([]))
    else
      var (w1, done) := GrantUsers(cfg, w, users[..|users| - 1]);
      if done.Err? then (w1, done)
      else
        var (w2, r) := GrantUser(cfg, w1, users[|users| - 1]);
        if r.Err? then (w2, Err(r.error))
        else (w2, Ok(done.value + Issues(r.value)))
  }

  // ------------------------------------------------------------------
  // Revoke pass
  // ------------------------------------------------------------------

  function RevokedInvalidMessage(u: User): string
  {
    "Revoked all access for invalid user '" + ToStr(u) + "':(on cloud access list, but not DACO)"
  }
  function RevokedAllMessage(u: User): string { "Revoked all access for user '" + ToStr(u) + "'" }
  function RevokedCloudMessage(u: User): string { "Revoked cloud access for user '" + ToStr(u) + "'" }

  /** Second branch of `revoke_access_if_necessary`: counted before the
      two revocations are attempted. */
  function RevokeAll(cfg: Config, w: World, u: User): (World, Result<Option<string>, Exn>)
  {
    var w0 := Counted(w, "revoke_daco");
    var (w1, d) := RevokeDaco(cfg, w0, u);
    if d.Err? then (w1, Err(d.error))
    else
      var (w2, c) := RevokeCloud(cfg, w1, u);
      if c.Err? then (w2, Err(c.error))
      else (w2, Ok(Some(RevokedAllMessage(u))))
  }

  /** Third branch of `revoke_access_if_necessary`. */
  function RevokeCloudIfHeld(cfg: Config, w: World, u: User): (World, Result<Option<string>, Exn>)
  {
    if u.hasCloud then (w, Ok(None))
    else
      var (w1, held) := HasCloud(cfg, w, u);
      if held.Err? then (w1, Err(held.error))
      else if !held.value then (w1, Ok(None))
      else
        var w2 := Counted(w1, "revoke_cloud");
        var (w3, c) := RevokeCloud(cfg, w2, u);
        if c.Err? then (w3, Err(c.error))
        else (w3, Ok(Some(RevokedCloudMessage(u))))
  }

  /** `revoke_access_if_necessary(user)`. An inconsistent user loses both
      groups (counted after the revocations); a user who should not have
      DACO access and holds either group loses both; a user who should not
      have cloud access and holds it loses it. When the second check finds
      nothing held, the third check asks for cloud membership again. */
  function RevokeAccess(cfg: Config, w: World, u: User): (World, Result<Option<string>, Exn>)
  {
    if IsInvalid(u) then
      var (w1, d) := RevokeDaco(cfg, w, u);
      if d.Err? then (w1, Err(d.error))
      else
        var (w2, c) := RevokeCloud(cfg, w1, u);
        if c.Err? then (w2, Err(c.error))
        else (Counted(w2, "revoke_invalid"),
              Ok(Some(RevokedInvalidMessage(u))))
    else if !u.hasDaco then
      var (w1, daco) := HasDaco(cfg, w, u);
      if daco.Err? then (w1, Err(daco.error))
      else if daco.value then RevokeAll(cfg, w1, u)
      else
        var (w2, cloud) := HasCloud(cfg, w1, u);
        if cloud.Err? then (w2, Err(cloud.error))
        else if cloud.value then RevokeAll(cfg, w2, u)
        else RevokeCloudIfHeld(cfg, w2, u)
    else RevokeCloudIfHeld(cfg, w, u)
  }

  /** `revoke_user(user)`. */
  function RevokeUser(cfg: Config, w: World, u: User): (World, Result<Option<string>, Exn>)
  {
    var (w1, r) := RevokeAccess(cfg, w, u);
    (w1, CatchLookup(r))
  }

  /** `list(revoke_users(users))`. */
  function RevokeUsers(cfg: Config, w: World, users: seq<User>): (World, Result<seq<string>, Exn>)
  {
    if users == [] then (w, Ok([]))
    else
      var (w1, done) := RevokeUsers(cfg, w, users[..|users| - 1]);
      if done.Err? then (w1, done)
      else
        var (w2, r) := RevokeUser(cfg, w1, users[|users| - 1]);
        if r.Err? then (w2, Err(r.error))
        else (w2, Ok(done.value + Issues(r.value)))
  }

  /** The users the revoke pass visits: `get_user` of every id. */
  function EgoUsers(cfg: Config, ids: seq<string>): (r: seq<User>)
    ensures |r| == |ids|
    ensures forall i :: 0 <= i < |ids| ==> r[i] == GetUser(cfg, ids[i])
  {
    seq(|ids|, i requires 0 <= i < |ids| => GetUser(cfg, ids[i]))
  }

  const RevokeFetchMessage := "Can't get list of daco_users from ego"

  /** `list(revoke())`: if the members cannot be fetched the pass reports
      that as its one issue; otherwise every member is visited. */
  function Revoke(cfg: Config, w: World): (World, Result<seq<string>, Exn>)
  {
    var (w1, ids) := FetchEgoIds(cfg, w);
    match ids
    case Err(e) =>
      (match ErrMsg(RevokeFetchMessage, e)
       case Ok(text) => (w1, Ok([text]))
       case Err(x) => (w1, Err(x)))
    case Ok(members) => RevokeUsers(cfg, w1, EgoUsers(cfg, members))
  }

  /** `update_ego()`: the grant pass, then the revoke pass; the issues of
      both, or the exception that ended the run. */
  function UpdateEgo(cfg: Config, w: World): (World, Result<seq<string>, Exn>)
  {
    var (w1, granted) := GrantUsers(cfg, w, cfg.users);
    if granted.Err? then (w1, granted)
    else
      var (w2, revoked) := Revoke(cfg, w1);
      if revoked.Err? then (w2, revoked)
      else (w2, Ok(granted.value + revoked.value))
  }

  /** Once an exception ends the grant pass, later users change nothing. */
  lemma {:induction false} GrantUsersErrorStops(cfg: Config, w: World, users: seq<User>, n: nat)
    requires n <= |users|
    requires GrantUsers(cfg, w, users[..n]).1.Err?
    ensures GrantUsers(cfg, w, users) == GrantUsers(cfg, w, users[..n])
    decreases |users| - n
  {
    if n < |users| {
      assert users[..n + 1][..n] == users[..n];
      GrantUsersErrorStops(cfg, w, users, n + 1);
    } else {
      assert users[..n] == users;
    }
  }

  /** Once an exception ends the revoke pass, later users change nothing. */
  lemma {:induction false} RevokeUsersErrorStops(cfg: Config, w: World, users: seq<User>, n: nat)
    requires n <= |users|
    requires RevokeUsers(cfg, w, users[..n]).1.Err?
    ensures RevokeUsers(cfg, w, users) == RevokeUsers(cfg, w, users[..n])
    decreases |users| - n
  {
    if n < |users| {
      assert users[..n + 1][..n] == users[..n];
      RevokeUsersErrorStops(cfg, w, users, n + 1);
    } else {
      assert users[..n] == users;
    }
  }
}
