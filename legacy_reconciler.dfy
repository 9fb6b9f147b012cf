/**
 * The earlier, set-based reconciler (`DacoClient` in daco_client.py at the
 * repository root), as functions from the issue log and the service's
 * state to their new values. The desired state is the DACO map (user to
 * name) and the keys of the cloud map; every service call is wrapped so
 * that it appends exactly one line to the issue log, a success message or
 * an "Error: ..." line, and never raises.
 *
 * Python iterates the sets `cloud_users - daco_users` and
 * `daco_users - invalid` in an order of its own; here each is visited in
 * the order of its left operand's keys.
 */
module LegacyReconciler {
  import opened Wrappers
  import opened Text
  import opened PyValues
  import opened LegacyService

  /** The two desired-state maps: the DACO map's keys in insertion order
      with their names, and the cloud map's keys in insertion order. */
  datatype Config = Config(dacoUsers: seq<string>, names: map<string, string>, cloudUsers: seq<string>)

  /** Dictionary keys are distinct, and the DACO names are keyed by the
      DACO users. */
  ghost predicate Valid(cfg: Config)
  {
    (forall i, j :: 0 <= i < j < |cfg.dacoUsers| ==> cfg.dacoUsers[i] != cfg.dacoUsers[j]) &&
    (forall i, j :: 0 <= i < j < |cfg.cloudUsers| ==> cfg.cloudUsers[i] != cfg.cloudUsers[j]) &&
    cfg.names.Keys == Elems(cfg.dacoUsers)
  }

  /** The issue log and the service, which every operation threads. */
  datatype State = State(log: seq<string>, ego: Remote)

  /** `xs - s` for a key sequence, keeping the order of `xs`. */
  function Minus(xs: seq<string>, s: set<string>): (r: seq<string>)
    ensures forall y :: y in r <==> y in xs && y !in s
    ensures Elems(r) == Elems(xs) - s
    ensures |r| <= |xs|
    ensures (forall i, j :: 0 <= i < j < |xs| ==> xs[i] != xs[j]) ==>
      (forall i, j :: 0 <= i < j < |r| ==> r[i] != r[j])
  {
    if xs == [] then []
    else
      var rest := Minus(xs[1..], s);
      assert forall y :: y in xs <==> y == xs[0] || y in xs[1..];
      assert forall i :: 0 <= i < |rest| ==> rest[i] in xs[1..];
      (if xs[0] in s then [] else [xs[0]]) + rest
  }

  /** `invalid_users()`: cloud users that are not DACO users. */
  function InvalidUsers(cfg: Config): (r: seq<string>)
    ensures Elems(r) == Elems(cfg.cloudUsers) - Elems(cfg.dacoUsers)
  {
    Minus(cfg.cloudUsers, Elems(cfg.dacoUsers))
  }

  /** `valid_daco_users()`: the invalid users are never DACO users, so
      every DACO user is valid. */
  function ValidDacoUsers(cfg: Config): (r: seq<string>)
    ensures r == cfg.dacoUsers
  {
    var r := Minus(cfg.dacoUsers, Elems(InvalidUsers(cfg)));
    MinusNothing(cfg.dacoUsers, Elems(InvalidUsers(cfg)));
    r
  }

  /** Removing a set disjoint from the sequence changes nothing. */
  lemma {:induction false} MinusNothing(xs: seq<string>, s: set<string>)
    requires Elems(xs) !! s
    ensures Minus(xs, s) == xs
  {
    if xs != [] {
      assert Elems(xs[1..]) <= Elems(xs);
      MinusNothing(xs[1..], s);
      assert xs == [xs[0]] + xs[1..];
    }
  }

  /** `valid_cloud_users()`: the cloud users that are also DACO users. */
  function ValidCloudUsers(cfg: Config): (r: seq<string>)
    ensures Elems(r) == Elems(cfg.cloudUsers) * Elems(cfg.dacoUsers)
  {
    Minus(cfg.cloudUsers, Elems(InvalidUsers(cfg)))
  }

  /** `grant_cloud(user)`. */
  predicate GrantCloud(cfg: Config, user: string)
  {
    user in ValidCloudUsers(cfg)
  }

  /** How an f-string renders a name that may be None. */
  function NameStr(name: Option<string>): string
  {
    match name
    case None => "None"
    case Some(n) => n
  }

  /** How an f-string renders a bool. */
  function BoolStr(b: bool): string
  {
    if b then "True" else "False"
  }

  /** `log(msg)`. */
  function Log(st: State, msg: string): State
  {
    st.(log := st.log + [msg])
  }

  /** The issue line `err(msg, e)` writes. */
  function ErrorLine(msg: string, e: Exn): string
  {
    "Error: " + msg + " -- " + ExnRepr(e)
  }

  /** `err(msg, e)`. */
  function Error(st: State, msg: string, e: Exn): State
  {
    Log(st, ErrorLine(msg, e))
  }

  function NameError(user: string): string
  {
    "Can't get name for user " + user
  }

  const FetchError := "Can't get list of daco users from ego:"

  function CreatedMessage(user: string, name: Option<string>): string
  {
    "Created account for user " + user + " with name " + NameStr(name)
  }

  function CreateError(user: string): string
  {
    "Can't create user '" + user + "'"
  }

  function RevokedMessage(user: string, reason: string): string
  {
    "Revoked all daco access for user '" + user + "':(" + reason + ")"
  }

  function RevokeError(user: string): string
  {
    "Can't revoke daco access for user '" + user + "'"
  }

  function RevokedCloudMessage(user: string): string
  {
    "Revoked cloud access for user '" + user + "'"
  }

  function RevokeCloudError(user: string): string
  {
    "Can't revoke cloud access for user '" + user + "'"
  }

  function EnsuredMessage(user: string, cloud: bool): string
  {
    "Ensured user '" + user + "' has daco access (cloud=" + BoolStr(cloud) + ")"
  }

  function EnsureError(user: string, cloud: bool): string
  {
    "Can't ensure access for user '" + user + "'(cloud=" + BoolStr(cloud) + ")"
  }

  const NotInDaco := "user not in daco list"
  const InCsaNotInDaco := "user in csa file but not in DACO file"

  /** `get_user_name(user)`: the DACO map's entry, or None after logging
      the KeyError. */
  function GetUserName(cfg: Config, st: State, user: string): (State, Option<string>)
  {
    if user in cfg.names then (st, Some(cfg.names[user]))
    else (Error(st, NameError(user), KeyError(user)), None)
  }

  /** `get_ego_users()`: the service's list, or `[]` after logging the
      failure. */
  function GetEgoUsers(st: State): (State, seq<string>)
  {
    var (ego, r) := CallGetDacoUsers(st.ego);
    match r
    case Ok(users) => (st.(ego := ego), users)
    case Err(e) => (Error(st.(ego := ego), FetchError, e), [])
  }

  /** `create_user(user, name)`. */
  function CreateUser(st: State, user: string, name: Option<string>): State
  {
    var (ego, r) := CallCreateUser(st.ego, user, name);
    if r.Ok? then Log(st.(ego := ego), CreatedMessage(user, name))
    else Error(st.(ego := ego), CreateError(user), r.error)
  }

  /** `revoke_access(user, reason)`. */
  function RevokeAccess(st: State, user: string, reason: string): State
  {
    var (ego, r) := CallRevokeAccess(st.ego, user);
    if r.Ok? then Log(st.(ego := ego), RevokedMessage(user, reason))
    else Error(st.(ego := ego), RevokeError(user), r.error)
  }

  /** `revoke_cloud(user)`. */
  function RevokeCloud(st: State, user: string): State
  {
    var (ego, r) := CallRevokeCloud(st.ego, user);
    if r.Ok? then Log(st.(ego := ego), RevokedCloudMessage(user))
    else Error(st.(ego := ego), RevokeCloudError(user), r.error)
  }

  /** `ensure_access(user, grant_cloud)`. */
  function EnsureAccess(st: State, user: string, grantCloud: bool): State
  {
    var (ego, r) := CallEnsureAccess(st.ego, user, grantCloud);
    if r.Ok? then Log(st.(ego := ego), EnsuredMessage(user, grantCloud))
    else Error(st.(ego := ego), EnsureError(user, grantCloud), r.error)
  }

  /** `handle_access_allowed(user)` (scenarios 1 and 2): create the account
      when the user is not among the service's users, then ensure access,
      with cloud when the user is a valid cloud user. */
  function HandleAccessAllowed(cfg: Config, st: State, user: string): State
  {
    var (st1, egoUsers) := GetEgoUsers(st);
    var st2 :=
      if user !in egoUsers then
        var (st3, name) := GetUserName(cfg, st1, user);
        CreateUser(st3, user, name)
      else st1;
    EnsureAccess(st2, user, GrantCloud(cfg, user))
  }

  /** `handle_access_denied(user)` (scenario 3). */
  function HandleAccessDenied(cfg: Config, st: State, user: string): State
  {
    if user !in ValidDacoUsers(cfg) then RevokeAccess(st, user, NotInDaco)
    else if user !in ValidCloudUsers(cfg) then RevokeCloud(st, user)
    else st
  }

  /** `handle_invalid_user(user)` (scenario 4). */
  function HandleInvalidUser(st: State, user: string): State
  {
    RevokeAccess(st, user, InCsaNotInDaco)
  }

  /** The loop of `update_ego` over the invalid users. */
  function RevokeInvalid(st: State, users: seq<string>): State
    decreases |users|
  {
    if users == [] then st
    else HandleInvalidUser(RevokeInvalid(st, users[..|users| - 1]), users[|users| - 1])
  }

  /** The loop of `update_ego` over the valid DACO users. */
  function AllowAll(cfg: Config, st: State, users: seq<string>): State
    decreases |users|
  {
    if users == [] then st
    else HandleAccessAllowed(cfg, AllowAll(cfg, st, users[..|users| - 1]), users[|users| - 1])
  }

  /** The loop of `update_ego` over the service's users. */
  function DenyAll(cfg: Config, st: State, users: seq<string>): State
    decreases |users|
  {
    if users == [] then st
    else HandleAccessDenied(cfg, DenyAll(cfg, st, users[..|users| - 1]), users[|users| - 1])
  }

  /** `update_ego()`: revoke the invalid users, fetch the service's users,
      grant every valid DACO user, then withdraw what the fetched users
      should not hold; the result is the whole issue log. */
  function UpdateEgo(cfg: Config, st: State): (State, seq<string>)
  {
    var st1 := RevokeInvalid(st, InvalidUsers(cfg));
    var (st2, egoUsers) := GetEgoUsers(st1);
    var st3 := AllowAll(cfg, st2, ValidDacoUsers(cfg));
    var st4 := DenyAll(cfg, st3, egoUsers);
    (st4, st4.log)
  }
}
