/**
 * The earlier desired-state construction (daco2ego.py at the repository
 * root). Its `users_with_access_to`, `is_member`, `daco_users`,
 * `invalid_users` and `get_users` are the same code as in
 * python/daco2ego.py and are modelled once, in `DesiredState`; what
 * differs is `csv_to_dict`, which neither lower-cases nor falls back to
 * upper-case headers.
 */
module LegacyDesiredState {
  import opened Wrappers
  import opened Text
  import opened PyValues
  import opened DacoUser
  import DS = DesiredState

  /** A `csv.DictReader` row with every field present. */
  type FullRow = map<string, string>

  /** `[(u['openid'], u['user name']) for u in csv_reader]`: the first row
      lacking a column raises KeyError for it. */
  function CsvToDict(rows: seq<FullRow>): Result<seq<DS.Entry>, Exn>
  {
    if rows == [] then Ok([])
    else if "openid" !in rows[0] then Err(KeyError("openid"))
    else if "user name" !in rows[0] then Err(KeyError("user name"))
    else match CsvToDict(rows[1..])
      case Err(e) => Err(e)
      case Ok(rest) => Ok([(rows[0]["openid"], Some(rows[0]["user name"]))] + rest)
  }

  /** When every row has both columns the entries are the raw fields, in
      row order and with their case kept; otherwise the result is a
      KeyError. */
  lemma {:induction false} CsvToDictKeepsFields(rows: seq<FullRow>)
    ensures CsvToDict(rows).Ok? <==> forall i :: 0 <= i < |rows| ==> "openid" in rows[i] && "user name" in rows[i]
    ensures CsvToDict(rows).Ok? ==>
      |CsvToDict(rows).value| == |rows| &&
      forall i :: 0 <= i < |rows| ==> CsvToDict(rows).value[i] == (rows[i]["openid"], Some(rows[i]["user name"]))
    ensures CsvToDict(rows).Err? ==> CsvToDict(rows).error.cls == "KeyError"
  {
    if rows != [] {
      CsvToDictKeepsFields(rows[1..]);
      if CsvToDict(rows).Ok? {
        forall i | 1 <= i < |rows| ensures "openid" in rows[i] && "user name" in rows[i] {
          assert rows[i] == rows[1..][i - 1];
        }
      } else if "openid" in rows[0] && "user name" in rows[0] {
        var i :| 0 <= i < |rows[1..]| && !("openid" in rows[1..][i] && "user name" in rows[1..][i]);
        assert rows[1..][i] == rows[i + 1];
      }
    }
  }

  /** Without lower-casing, an openid that differs from a DACO entry only
      in case is a different member: the cloud entry becomes an
      inconsistent user of its own, while the lower-casing pipeline merges
      the two into one DACO user with cloud access. */
  lemma CaseIsSignificant(email: string, dacoName: Option<string>, cloudName: Option<string>)
    requires Lower(email) != email
    ensures DS.GetUsers([(email, dacoName)], [(Lower(email), cloudName)]) ==
      [User(email, dacoName, true, false), User(Lower(email), cloudName, false, true)]
    ensures DS.GetUsers([(Lower(email), dacoName)], [(Lower(email), cloudName)]) ==
      [User(Lower(email), dacoName, true, true)]
  {
    var lower := Lower(email);
    var daco1: seq<DS.Entry> := [(email, dacoName)];
    var daco2: seq<DS.Entry> := [(lower, dacoName)];
    var cloud: seq<DS.Entry> := [(lower, cloudName)];
    assert daco1[0].0 == email && daco2[0].0 == lower && cloud[0].0 == lower;
    assert DS.UsersWithAccessTo(cloud) == {lower};
    assert DS.UsersWithAccessTo(daco1) == {email};
    assert DS.UsersWithAccessTo(daco2) == {lower};
    assert cloud[1..] == [];
    assert DS.InvalidUsers(cloud, {email}) == [User(lower, cloudName, false, true)];
    assert DS.InvalidUsers(cloud, {lower}) == [];
    assert DS.DacoUsers(daco1, {lower}) == [User(email, dacoName, true, false)];
    assert DS.DacoUsers(daco2, {lower}) == [User(lower, dacoName, true, true)];
  }
}
