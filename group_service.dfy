/**
 * The group-membership service the reconciler in python/daco_client.py
 * talks to (`get_users`, `is_member`, `user_exists`, `add`, `remove`),
 * as an in-memory double: the members of each group, the accounts that
 * exist, a fixed table of calls that raise, and the log of every call
 * made, in order. A call that raises changes no membership.
 */
module GroupService {
  import opened Wrappers
  import opened PyValues

  /** One call on the service. */
  datatype Op =
    | GetUsers(group: string)
    | IsMember(group: string, email: string)
    | UserExists(email: string)
    | Add(group: string, email: string)
    | Remove(group: string, email: string)

  /** The service's state as the reconciler sees it. */
  datatype Remote = Remote(
    groups: map<string, seq<string>>,
    accounts: set<string>,
    faults: map<Op, Exn>,
    calls: seq<Op>)

  /** The members of a group; a group the service does not know is empty. */
  function Members(r: Remote, group: string): seq<string>
  {
    if group in r.groups then r.groups[group] else []
  }

  /** `s` with every occurrence of `x` removed. */
  function Without(s: seq<string>, x: string): (r: seq<string>)
    ensures x !in r
    ensures forall y :: y != x ==> (y in r <==> y in s)
    ensures |r| <= |s|
  {
    if s == [] then []
    else (if s[0] == x then [] else [s[0]]) + Without(s[1..], x)
  }

  function Logged(r: Remote, op: Op): Remote
  {
    r.(calls := r.calls + [op])
  }

  /** `get_users(group)`: the group's members, in the service's order. */
  function CallGetUsers(r: Remote, group: string): (Remote, Result<seq<string>, Exn>)
  {
    var op := GetUsers(group);
    if op in r.faults then (Logged(r, op), Err(r.faults[op]))
    else (Logged(r, op), Ok(Members(r, group)))
  }

  /** `is_member(group, email)`. */
  function CallIsMember(r: Remote, group: string, email: string): (Remote, Result<bool, Exn>)
  {
    var op := IsMember(group, email);
    if op in r.faults then (Logged(r, op), Err(r.faults[op]))
    else (Logged(r, op), Ok(email in Members(r, group)))
  }

  /** `user_exists(email)`. */
  function CallUserExists(r: Remote, email: string): (Remote, Result<bool, Exn>)
  {
    var op := UserExists(email);
    if op in r.faults then (Logged(r, op), Err(r.faults[op]))
    else (Logged(r, op), Ok(email in r.accounts))
  }

  /** `add(group, [email])`: afterwards `email` is a member (once). */
  function CallAdd(r: Remote, group: string, email: string): (Remote, Result<(), Exn>)
  {
    var op := Add(group, email);
    if op in r.faults then (Logged(r, op), Err(r.faults[op]))
    else
      var m := Members(r, group);
      var m' := if email in m then m else m + [email];
      (Logged(r, op).(groups := r.groups[group := m']), Ok(()))
  }

  /** `remove(group, [email])`: afterwards `email` is not a member. */
  function CallRemove(r: Remote, group: string, email: string): (Remote, Result<(), Exn>)
  {
    var op := Remove(group, email);
    if op in r.faults then (Logged(r, op), Err(r.faults[op]))
    else (Logged(r, op).(groups := r.groups[group := Without(Members(r, group), email)]), Ok(()))
  }

  /** A successful add makes the e-mail a member and changes no other
      membership; a failed one changes nothing but the call log. */
  lemma AddEffect(r: Remote, group: string, email: string, g: string, x: string)
    ensures CallAdd(r, group, email).0.calls == r.calls + [Add(group, email)]
    ensures CallAdd(r, group, email).0.accounts == r.accounts
    ensures CallAdd(r, group, email).1.Ok? <==> Add(group, email) !in r.faults
    ensures CallAdd(r, group, email).1.Ok? && g == group && x == email ==>
      x in Members(CallAdd(r, group, email).0, g)
    ensures !(CallAdd(r, group, email).1.Ok? && g == group && x == email) ==>
      (x in Members(CallAdd(r, group, email).0, g) <==> x in Members(r, g))
  {
  }

  /** A successful remove takes the e-mail out of the group and changes no
      other membership; a failed one changes nothing but the call log. */
  lemma RemoveEffect(r: Remote, group: string, email: string, g: string, x: string)
    ensures CallRemove(r, group, email).0.calls == r.calls + [Remove(group, email)]
    ensures CallRemove(r, group, email).0.accounts == r.accounts
    ensures CallRemove(r, group, email).1.Ok? <==> Remove(group, email) !in r.faults
    ensures CallRemove(r, group, email).1.Ok? && g == group && x == email ==>
      x !in Members(CallRemove(r, group, email).0, g)
    ensures !(CallRemove(r, group, email).1.Ok? && g == group && x == email) ==>
      (x in Members(CallRemove(r, group, email).0, g) <==> x in Members(r, g))
  {
  }

  /** The service double as an object: the reconciler's `ego_client`. */
  class Client {
    var groups: map<string, seq<string>>
    var accounts: set<string>
    const faults: map<Op, Exn>
    var calls: seq<Op>

    function State(): Remote
      reads this
    {
      Remote(groups, accounts, faults, calls)
    }

    constructor (groups: map<string, seq<string>>, accounts: set<string>, faults: map<Op, Exn>)
      ensures State() == Remote(groups, accounts, faults, [])
    {
      this.groups := groups;
      this.accounts := accounts;
      this.faults := faults;
      this.calls := [];
    }

    method GetUsers(group: string) returns (r: Result<seq<string>, Exn>)
      modifies this
      ensures (State(), r) == CallGetUsers(old(State()), group)
    {
      var op := Op.GetUsers(group);
      calls := calls + [op];
      if op in faults {
        r := Err(faults[op]);
      } else {
        r := Ok(if group in groups then groups[group] else []);
      }
    }

    method IsMember(group: string, email: string) returns (r: Result<bool, Exn>)
      modifies this
      ensures (State(), r) == CallIsMember(old(State()), group, email)
    {
      var op := Op.IsMember(group, email);
      calls := calls + [op];
      if op in faults {
        r := Err(faults[op]);
      } else {
        r := Ok(group in groups && email in groups[group]);
      }
    }

    method UserExists(email: string) returns (r: Result<bool, Exn>)
      modifies this
      ensures (State(), r) == CallUserExists(old(State()), email)
    {
      var op := Op.UserExists(email);
      calls := calls + [op];
      if op in faults {
        r := Err(faults[op]);
      } else {
        r := Ok(email in accounts);
      }
    }

    method Add(group: string, email: string) returns (r: Result<(), Exn>)
      modifies this
      ensures (State(), r) == CallAdd(old(State()), group, email)
    {
      var op := Op.Add(group, email);
      calls := calls + [op];
      if op in faults {
        r := Err(faults[op]);
      } else {
        var m := if group in groups then groups[group] else [];
        groups := groups[group := if email in m then m else m + [email]];
        r := Ok(());
      }
    }

    method Remove(group: string, email: string) returns (r: Result<(), Exn>)
      modifies this
      ensures (State(), r) == CallRemove(old(State()), group, email)
    {
      var op := Op.Remove(group, email);
      calls := calls + [op];
      if op in faults {
        r := Err(faults[op]);
      } else {
        var m := if group in groups then groups[group] else [];
        groups := groups[group := Without(m, email)];
        r := Ok(());
      }
    }
  }
}
