/**
 * The access service that the earlier reconciler (daco_client.py at the
 * repository root) drives through five calls: `get_daco_users`,
 * `create_user(user, name)`, `ensure_access(user, grant_cloud)`,
 * `revoke_access(user)` and `revoke_cloud(user)`. It is an in-memory
 * double: the users holding DACO-related access, in the service's order,
 * those of them holding cloud access, the accounts, a fixed table of calls
 * that raise, and the log of every call made. A call that raises changes
 * nothing but the call log.
 */
module LegacyService {
  import opened Wrappers
  import opened PyValues

  datatype Op =
    | GetDacoUsers
    | CreateUser(user: string, name: Option<string>)
    | EnsureAccess(user: string, cloud: bool)
    | RevokeAccess(user: string)
    | RevokeCloud(user: string)

  datatype Remote = Remote(
    holders: seq<string>,
    cloud: set<string>,
    accounts: set<string>,
    faults: map<Op, Exn>,
    calls: seq<Op>)

  /** The elements of a sequence, as a set. */
  function Elems(s: seq<string>): set<string>
  {
    set x | x in s
  }

  /** `s` with every occurrence of `x` removed, order kept. */
  function Without(s: seq<string>, x: string): (r: seq<string>)
    ensures x !in r
    ensures forall y :: y != x ==> (y in r <==> y in s)
    ensures Elems(r) == Elems(s) - {x}
  {
    if s == [] then []
    else
      var r := (if s[0] == x then [] else [s[0]]) + Without(s[1..], x);
      assert forall y :: y in s <==> y == s[0] || y in s[1..];
      r
  }

  function Logged(r: Remote, op: Op): Remote
  {
    r.(calls := r.calls + [op])
  }

  /** `get_daco_users()`: everyone holding a DACO-related policy. */
  function CallGetDacoUsers(r: Remote): (Remote, Result<seq<string>, Exn>)
  {
    if GetDacoUsers in r.faults then (Logged(r, GetDacoUsers), Err(r.faults[GetDacoUsers]))
    else (Logged(r, GetDacoUsers), Ok(r.holders))
  }

  /** `create_user(user, name)`: the account exists afterwards. */
  function CallCreateUser(r: Remote, user: string, name: Option<string>): (Remote, Result<(), Exn>)
  {
    var op := CreateUser(user, name);
    if op in r.faults then (Logged(r, op), Err(r.faults[op]))
    else (Logged(r, op).(accounts := r.accounts + {user}), Ok(()))
  }

  /** `ensure_access(user, grant_cloud)`: the user holds DACO access, and
      cloud access too when asked; cloud access already held is kept. */
  function CallEnsureAccess(r: Remote, user: string, grantCloud: bool): (Remote, Result<(), Exn>)
  {
    var op := EnsureAccess(user, grantCloud);
    if op in r.faults then (Logged(r, op), Err(r.faults[op]))
    else
      var h := if user in r.holders then r.holders else r.holders + [user];
      (Logged(r, op).(holders := h, cloud := if grantCloud then r.cloud + {user} else r.cloud), Ok(()))
  }

  /** `revoke_access(user)`: every DACO-related policy is taken away. */
  function CallRevokeAccess(r: Remote, user: string): (Remote, Result<(), Exn>)
  {
    var op := RevokeAccess(user);
    if op in r.faults then (Logged(r, op), Err(r.faults[op]))
    else (Logged(r, op).(holders := Without(r.holders, user), cloud := r.cloud - {user}), Ok(()))
  }

  /** `revoke_cloud(user)`: the cloud policies are taken away. */
  function CallRevokeCloud(r: Remote, user: string): (Remote, Result<(), Exn>)
  {
    var op := RevokeCloud(user);
    if op in r.faults then (Logged(r, op), Err(r.faults[op]))
    else (Logged(r, op).(cloud := r.cloud - {user}), Ok(()))
  }

  /** The double as an object: the reconciler's `ego_client`. */
  class Client {
    var holders: seq<string>
    var cloud: set<string>
    var accounts: set<string>
    const faults: map<Op, Exn>
    var calls: seq<Op>

    function State(): Remote
      reads this
    {
      Remote(holders, cloud, accounts, faults, calls)
    }

    constructor (holders: seq<string>, cloud: set<string>, accounts: set<string>, faults: map<Op, Exn>)
      ensures State() == Remote(holders, cloud, accounts, faults, [])
    {
      this.holders := holders;
      this.cloud := cloud;
      this.accounts := accounts;
      this.faults := faults;
      this.calls := [];
    }

    method GetDacoUsers() returns (r: Result<seq<string>, Exn>)
      modifies this
      ensures (State(), r) == CallGetDacoUsers(old(State()))
    {
      calls := calls + [Op.GetDacoUsers];
      if Op.GetDacoUsers in faults {
        r := Err(faults[Op.GetDacoUsers]);
      } else {
        r := Ok(holders);
      }
    }

    method CreateUser(user: string, name: Option<string>) returns (r: Result<(), Exn>)
      modifies this
      ensures (State(), r) == CallCreateUser(old(State()), user, name)
    {
      var op := Op.CreateUser(user, name);
      calls := calls + [op];
      if op in faults {
        r := Err(faults[op]);
      } else {
        accounts := accounts + {user};
        r := Ok(());
      }
    }

    method EnsureAccess(user: string, grantCloud: bool) returns (r: Result<(), Exn>)
      modifies this
      ensures (State(), r) == CallEnsureAccess(old(State()), user, grantCloud)
    {
      var op := Op.EnsureAccess(user, grantCloud);
      calls := calls + [op];
      if op in faults {
        r := Err(faults[op]);
      } else {
        if user !in holders {
          holders := holders + [user];
        }
        if grantCloud {
          cloud := cloud + {user};
        }
        r := Ok(());
      }
    }

    method RevokeAccess(user: string) returns (r: Result<(), Exn>)
      modifies this
      ensures (State(), r) == CallRevokeAccess(old(State()), user)
    {
      var op := Op.RevokeAccess(user);
      calls := calls + [op];
      if op in faults {
        r := Err(faults[op]);
      } else {
        holders := Without(holders, user);
        cloud := cloud - {user};
        r := Ok(());
      }
    }

    method RevokeCloud(user: string) returns (r: Result<(), Exn>)
      modifies this
      ensures (State(), r) == CallRevokeCloud(old(State()), user)
    {
      var op := Op.RevokeCloud(user);
      calls := calls + [op];
      if op in faults {
        r := Err(faults[op]);
      } else {
        cloud := cloud - {user};
        r := Ok(());
      }
    }
  }
}
