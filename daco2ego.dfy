/**
 * Construction of the desired state (python/daco2ego.py): the DACO list and
 * the cloud list, each a sequence of (openid, user name) entries, are merged
 * into `User` records. Every DACO entry yields a user with DACO access (and
 * cloud access when its openid is also on the cloud list); every cloud entry
 * whose openid is not on the DACO list yields an inconsistent user.
 */
module DesiredState {
  import opened Wrappers
  import opened Text
  import opened PyValues
  import opened DacoUser

  /** One `csv.DictReader` row: header name to field; a field missing
      from a short row is `None`. */
  type Row = map<string, Option<string>>

  /** `(openid, user name)` as `csv_to_dict` returns it. */
  type Entry = (string, Option<string>)

  /** The error `None.lower()` raises. */
  const NoneLowerError: Exn :=
    Exn("AttributeError", [PyStr("'NoneType' object has no attribute 'lower'")])

  /** The openid of a row: the 'openid' column lower-cased; if that column
      is absent (or empty on a short row) the bare `except` falls back to
      'OPENID', whose failure propagates. */
  function RowOpenId(row: Row): Result<string, Exn>
  {
    if "openid" in row && row["openid"].Some? then Ok(Lower(row["openid"].value))
    else if "OPENID" !in row then Err(KeyError("OPENID"))
    else if row["OPENID"].None? then Err(NoneLowerError)
    else Ok(Lower(row["OPENID"].value))
  }

  /** The user name of a row: 'user name', else 'USER NAME'. */
  function RowUserName(row: Row): Result<Option<string>, Exn>
  {
    if "user name" in row then Ok(row["user name"])
    else if "USER NAME" in row then Ok(row["USER NAME"])
    else Err(KeyError("USER NAME"))
  }

  /** The entry for one row; the openid is read first. */
  function RowEntry(row: Row): Result<Entry, Exn>
  {
    match RowOpenId(row)
    case Err(e) => Err(e)
    case Ok(openid) =>
      match RowUserName(row)
      case Err(e) => Err(e)
      case Ok(name) => Ok((openid, name))
  }

  /** The entries of all rows in order, or the error of the first
      failing row (rows after it are not looked at). */
  function Entries(rows: seq<Row>): Result<seq<Entry>, Exn>
  {
    if rows == [] then Ok([])
    else match Entries(rows[..|rows| - 1])
      case Err(e) => Err(e)
      case Ok(done) =>
        match RowEntry(rows[|rows| - 1])
        case Err(e) => Err(e)
        case Ok(entry) => Ok(done + [entry])
  }

  lemma {:induction false} EntriesErrorStops(rows: seq<Row>, n: nat, e: Exn)
    requires n <= |rows|
    requires Entries(rows[..n]) == Err(e)
    ensures Entries(rows) == Err(e)
    decreases |rows| - n
  {
    if n < |rows| {
      assert rows[..n + 1][..n] == rows[..n];
      EntriesErrorStops(rows, n + 1, e);
    } else {
      assert rows[..n] == rows;
    }
  }

  /** `csv_to_dict` after parsing: the loop that post-processes each row
      and appends `(openid, user_name)`. */
  method CsvToDict(rows: seq<Row>) returns (r: Result<seq<Entry>, Exn>)
    ensures r == Entries(rows)
  {
    var retList: seq<Entry> := [];
    var i := 0;
    while i < |rows|
      invariant 0 <= i <= |rows|
      invariant Entries(rows[..i]) == Ok(retList)
    {
      assert rows[..i + 1][..i] == rows[..i];
      match RowEntry(rows[i])
      case Err(e) =>
        EntriesErrorStops(rows, i + 1, e);
        return Err(e);
      case Ok(entry) =>
        retList := retList + [entry];
      i := i + 1;
    }
    assert rows[..i] == rows;
    r := Ok(retList);
  }

  /** On success there is one entry per row, in row order, with a
      lower-cased openid taken from 'openid' when present and from
      'OPENID' otherwise, and the name from 'user name' or 'USER NAME'. */
  lemma {:induction false} EntriesPerRow(rows: seq<Row>)
    requires Entries(rows).Ok?
    ensures |Entries(rows).value| == |rows|
    ensures forall i :: 0 <= i < |rows| ==> RowEntry(rows[i]) == Ok(Entries(rows).value[i])
    ensures forall i :: 0 <= i < |rows| ==> Lower(Entries(rows).value[i].0) == Entries(rows).value[i].0
    ensures forall i :: 0 <= i < |rows| && "openid" in rows[i] && rows[i]["openid"].Some? ==>
              Entries(rows).value[i].0 == Lower(rows[i]["openid"].value)
    ensures forall i :: 0 <= i < |rows| && "openid" !in rows[i] ==>
              "OPENID" in rows[i] && rows[i]["OPENID"].Some? &&
              Entries(rows).value[i].0 == Lower(rows[i]["OPENID"].value)
    ensures forall i :: 0 <= i < |rows| && "user name" !in rows[i] ==>
              "USER NAME" in rows[i] && Entries(rows).value[i].1 == rows[i]["USER NAME"]
  {
    if rows != [] {
      var init := rows[..|rows| - 1];
      EntriesPerRow(init);
      var all := Entries(rows).value;
      assert all == Entries(init).value + [RowEntry(rows[|rows| - 1]).value];
      forall i | 0 <= i < |rows| ensures RowEntry(rows[i]) == Ok(all[i]) {
        if i < |rows| - 1 {
          assert rows[i] == init[i];
        }
      }
      forall i | 0 <= i < |rows| ensures Lower(all[i].0) == all[i].0 {
        var row := rows[i];
        assert RowEntry(row) == Ok(all[i]);
        if "openid" in row && row["openid"].Some? {
          LowerIdempotent(row["openid"].value);
        } else if "OPENID" in row && row["OPENID"].Some? {
          LowerIdempotent(row["OPENID"].value);
        }
      }
    }
  }

  /** `users_with_access_to(data)`: the set of first components. */
  function UsersWithAccessTo(data: seq<Entry>): (r: set<string>)
    ensures forall x :: x in r <==> exists i :: 0 <= i < |data| && data[i].0 == x
  {
    set i | 0 <= i < |data| :: data[i].0
  }

  /** `is_member(members, candidate)`. */
  predicate IsMember(members: set<string>, candidate: string)
  {
    candidate in members
  }

  /** `daco_users(daco, cloud_members)`. */
  function DacoUsers(daco: seq<Entry>, cloudMembers: set<string>): seq<User>
  {
    seq(|daco|, i requires 0 <= i < |daco| => User(daco[i].0, daco[i].1, true, IsMember(cloudMembers, daco[i].0)))
  }

  /** `invalid_users(cloud, daco_members)`. */
  function InvalidUsers(cloud: seq<Entry>, dacoMembers: set<string>): seq<User>
  {
    if cloud == [] then []
    else (if IsMember(dacoMembers, cloud[0].0) then [] else [User(cloud[0].0, cloud[0].1, false, true)])
         + InvalidUsers(cloud[1..], dacoMembers)
  }

  /** Number of cloud entries whose openid is not a DACO member. */
  function CountOutside(cloud: seq<Entry>, dacoMembers: set<string>): nat
  {
    if cloud == [] then 0
    else (if cloud[0].0 in dacoMembers then 0 else 1) + CountOutside(cloud[1..], dacoMembers)
  }

  /** `get_users(daco, cloud)`. */
  function GetUsers(daco: seq<Entry>, cloud: seq<Entry>): seq<User>
  {
    DacoUsers(daco, UsersWithAccessTo(cloud)) + InvalidUsers(cloud, UsersWithAccessTo(daco))
  }

  /** One DACO user per DACO entry, in order: DACO access, and cloud access
      exactly when the openid also appears on the cloud list. */
  lemma DacoUsersPerEntry(daco: seq<Entry>, cloud: seq<Entry>)
    ensures |DacoUsers(daco, UsersWithAccessTo(cloud))| == |daco|
    ensures forall i :: 0 <= i < |daco| ==>
      var u := DacoUsers(daco, UsersWithAccessTo(cloud))[i];
      u.email == daco[i].0 && u.name == daco[i].1 && u.hasDaco && !IsInvalid(u) &&
      (u.hasCloud <==> exists j :: 0 <= j < |cloud| && cloud[j].0 == daco[i].0)
  {
  }

  /** Filtering the cloud list distributes over concatenation, so the
      inconsistent users keep the cloud list's order. */
  lemma {:induction false} InvalidUsersAppend(a: seq<Entry>, b: seq<Entry>, m: set<string>)
    ensures InvalidUsers(a + b, m) == InvalidUsers(a, m) + InvalidUsers(b, m)
  {
    if a == [] {
      assert a + b == b;
    } else {
      assert (a + b)[0] == a[0] && (a + b)[1..] == a[1..] + b;
      InvalidUsersAppend(a[1..], b, m);
    }
  }

  /** Exactly one inconsistent user per cloud entry outside the DACO list,
      each with flags (False, True); no others. */
  lemma {:induction false} InvalidUsersContents(cloud: seq<Entry>, m: set<string>)
    ensures |InvalidUsers(cloud, m)| == CountOutside(cloud, m)
    ensures forall u :: u in InvalidUsers(cloud, m) ==>
      IsInvalid(u) && !u.hasDaco && u.hasCloud && u.email !in m &&
      exists j :: 0 <= j < |cloud| && cloud[j] == (u.email, u.name)
    ensures forall j :: 0 <= j < |cloud| && cloud[j].0 !in m ==>
      User(cloud[j].0, cloud[j].1, false, true) in InvalidUsers(cloud, m)
  {
    if cloud != [] {
      InvalidUsersContents(cloud[1..], m);
      var r := InvalidUsers(cloud, m);
      var head := if cloud[0].0 in m then [] else [User(cloud[0].0, cloud[0].1, false, true)];
      assert r == head + InvalidUsers(cloud[1..], m);
      forall u | u in r
        ensures exists j :: 0 <= j < |cloud| && cloud[j] == (u.email, u.name)
      {
        if u in InvalidUsers(cloud[1..], m) {
          var j :| 0 <= j < |cloud[1..]| && cloud[1..][j] == (u.email, u.name);
          assert cloud[j + 1] == (u.email, u.name);
        } else {
          assert cloud[0] == (u.email, u.name);
        }
      }
      forall j | 0 <= j < |cloud| && cloud[j].0 !in m
        ensures User(cloud[j].0, cloud[j].1, false, true) in r
      {
        if j > 0 {
          assert cloud[1..][j - 1] == cloud[j];
        }
      }
    }
  }

  /** `get_users`: the DACO users followed by the inconsistent users; its
      length is |daco| plus the cloud entries outside the DACO list, so
      duplicate rows are kept; a user is inconsistent exactly when it comes
      from the cloud part. */
  lemma GetUsersLayout(daco: seq<Entry>, cloud: seq<Entry>)
    ensures |GetUsers(daco, cloud)| == |daco| + CountOutside(cloud, UsersWithAccessTo(daco))
    ensures GetUsers(daco, cloud)[..|daco|] == DacoUsers(daco, UsersWithAccessTo(cloud))
    ensures forall i :: 0 <= i < |GetUsers(daco, cloud)| ==>
      (IsInvalid(GetUsers(daco, cloud)[i]) <==> i >= |daco|)
  {
    var d := DacoUsers(daco, UsersWithAccessTo(cloud));
    var inv := InvalidUsers(cloud, UsersWithAccessTo(daco));
    InvalidUsersContents(cloud, UsersWithAccessTo(daco));
    var all := GetUsers(daco, cloud);
    assert all == d + inv;
    forall i | |daco| <= i < |all| ensures IsInvalid(all[i]) {
      assert all[i] == inv[i - |daco|];
      assert all[i] in inv;
    }
  }
}
