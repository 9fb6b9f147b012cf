/**
 * The earlier run report (report.py at the repository root): `count` sorts
 * the reconciler's log lines into counters and errors by their prefixes and
 * suffixes, and `create` renders a summary from the counters, the warnings
 * and the errors. Unlike python/report.py, the warnings read their keys
 * without defaults, so counts that lack one of the three warning keys make
 * `create` raise KeyError.
 */
module LegacyReport {
  import opened Wrappers
  import opened Text
  import opened PyValues
  import R = Report

  type Counts = map<string, int>

  // ---- summarize ----

  const SummaryFields: seq<string> := ["new_daco", "new_cloud", "grant_daco", "grant_cloud", "grant_both",
    "revoke_daco", "revoke_cloud", "revoke_invalid"]

  /** The counts `summarize` formats from: the defaulted fields with the
      three totals added. Here `revoke` adds the cloud revocations to the
      invalid ones. */
  function SummaryCounts(c: Counts): Counts
  {
    var z := R.ZeroDefaults(SummaryFields, c);
    z["new" := z["new_daco"] + z["new_cloud"]]
     ["grant" := z["grant_cloud"] + z["grant_both"]]
     ["revoke" := z["revoke_cloud"] + z["revoke_invalid"]]
  }

  const SummaryHead := "  \n*Updates*\n"

  /** What `summarize(c)` returns: the fixed template with every
      placeholder filled from `SummaryCounts(c)`, all of which it holds. */
  function Summary(c: Counts): string
  {
    var counts := SummaryCounts(c);
    var n := (k: string) => IntToString(R.Get(counts, k));
    SummaryHead +
    "    Added " + n("new") + " new users(" + n("new_daco") + " with DACO access, " + n("new_cloud") + " with DACO & Cloud)\n" +
    "\n" +
    "    Granted DACO access to " + n("grant_daco") + " existing users.\n" +
    "    Granted DACO and Cloud access to " + n("grant") + " existing users (" + n("grant_cloud") + " of them already had DACO).\n" +
    "\n" +
    "    Revoked DACO access from " + n("revoke_daco") + " existing users.\n" +
    "    Revoked DACO and Cloud access from " + n("revoke") + " existing users (" + n("revoke_invalid") + " of them were invalid users).\n" +
    "    "
  }

  // ---- report_warnings ----

  /** The categories of the warning lines, in the order they are reported. */
  const WarningCategories: seq<string> := ["multiple_entries", "invalid_email", "revoke_invalid"]

  const WarningsHeader := "\n_Warnings_:\n"

  /** The guard of `report_warnings`: `or` reads the three counts left to
      right and stops at the first that is not zero, so a key is read, and
      a missing one raises KeyError, only when every key before it is zero. */
  function WarningsGuard(counts: Counts): Result<bool, Exn>
  {
    if "multiple_entries" !in counts then Err(KeyError("multiple_entries"))
    else if counts["multiple_entries"] != 0 then Ok(true)
    else if "revoke_invalid" !in counts then Err(KeyError("revoke_invalid"))
    else if counts["revoke_invalid"] != 0 then Ok(true)
    else if "invalid_email" !in counts then Err(KeyError("invalid_email"))
    else Ok(counts["invalid_email"] != 0)
  }

  function WarningMessage(category: string, n: int): string
  {
    if category == "multiple_entries" then IntToString(n) + " multiple entries found in configuration file"
    else if category == "invalid_email" then IntToString(n) + " invalid OpenId email addresses found in configuration file"
    else IntToString(n) + " invalid users found with Cloud access but not DACO access"
  }

  /** The line the loop of `report_warnings` appends for one category:
      nothing when the count is zero or, the KeyError being caught, when
      the key is missing. */
  function WarningLine(counts: Counts, category: string): string
  {
    if category in counts && counts[category] != 0 then "\t_" + WarningMessage(category, counts[category]) + "_\n"
    else ""
  }

  function WarningLines(counts: Counts, categories: seq<string>): string
    decreases |categories|
  {
    if categories == [] then ""
    else WarningLines(counts, categories[..|categories| - 1]) + WarningLine(counts, categories[|categories| - 1])
  }

  /** What `report_warnings(counts)` returns or raises. */
  function Warnings(counts: Counts): Result<string, Exn>
  {
    match WarningsGuard(counts)
    case Err(e) => Err(e)
    case Ok(any) => if any then Ok(WarningsHeader + WarningLines(counts, WarningCategories)) else Ok("")
  }

  /** `report_warnings(counts)`. */
  method ReportWarnings(counts: Counts) returns (r: Result<string, Exn>)
    ensures r == Warnings(counts)
  {
    var guard := WarningsGuard(counts);
    if guard.Err? {
      return Err(guard.error);
    }
    if !guard.value {
      return Ok("");
    }
    var report := WarningsHeader;
    ghost var lines := "";
    for i := 0 to |WarningCategories|
      invariant lines == WarningLines(counts, WarningCategories[..i])
      invariant report == WarningsHeader + lines
    {
      var category := WarningCategories[i];
      assert WarningCategories[..i + 1][..i] == WarningCategories[..i];
      var line := "";
      if category in counts && counts[category] != 0 {
        line := "\t_" + WarningMessage(category, counts[category]) + "_\n";
      }
      R.ConcatAssoc(WarningsHeader, lines, line);
      report := report + line;
      lines := lines + line;
    }
    assert WarningCategories[..|WarningCategories|] == WarningCategories;
    r := Ok(report);
  }

  // ---- report_errors ----

  const ErrorsHeader := "*Errors*:"

  /** Each error on a line of its own, in bold. */
  function ErrorItems(errors: seq<string>): string
    decreases |errors|
  {
    if errors == [] then ""
    else ErrorItems(errors[..|errors| - 1]) + "\n*" + errors[|errors| - 1] + "*"
  }

  /** What `report_errors(errors)` returns. */
  function ErrorsText(errors: seq<string>): string
  {
    if errors == [] then "" else ErrorsHeader + ErrorItems(errors) + "\n"
  }

  /** `report_errors(errors)`. */
  method ReportErrors(errors: seq<string>) returns (report: string)
    ensures report == ErrorsText(errors)
  {
    report := ErrorsHeader;
    if errors == [] {
      return "";
    }
    ghost var items := "";
    for i := 0 to |errors|
      invariant items == ErrorItems(errors[..i])
      invariant report == ErrorsHeader + items
    {
      assert errors[..i + 1][..i] == errors[..i];
      var item := "\n*" + errors[i] + "*";
      R.ConcatAssoc(ErrorsHeader, items, item);
      assert items + "\n*" + errors[i] + "*" == items + item;
      report := report + item;
      items := items + item;
    }
    assert errors[..|errors|] == errors;
    report := report + "\n";
  }

  // ---- create ----

  const ReportHeader := "*Daco2Ego Report Summary*\n\n"

  /** What `create(counts, errors)` returns or raises. */
  function ReportText(counts: Counts, errors: seq<string>): Result<string, Exn>
  {
    match Warnings(counts)
    case Err(e) => Err(e)
    case Ok(w) => Ok(ReportHeader + ErrorsText(errors) + w + Summary(counts))
  }

  /** `create(counts, errors)`. */
  method Create(counts: Counts, errors: seq<string>) returns (r: Result<string, Exn>)
    ensures r == ReportText(counts, errors)
  {
    var report := ReportHeader;
    var errs := ReportErrors(errors);
    report := report + errs;
    var w := ReportWarnings(counts);
    if w.Err? {
      return Err(w.error);
    }
    report := report + w.value;
    report := report + Summary(counts);
    r := Ok(report);
  }

  // ---- count ----

  /** The ten counters `count` starts from, all zero. */
  const CountFields: seq<string> := ["new_daco", "new_cloud", "grant_daco", "grant_cloud", "grant_both",
    "revoke_daco", "revoke_cloud", "revoke_invalid", "multiple_entries", "invalid_email"]

  function InitialCounts(): (r: Counts)
    ensures r.Keys == R.Elems(CountFields)
    ensures forall k :: k in r ==> r[k] == 0
  {
    map k | k in R.Elems(CountFields) :: 0
  }

  /** Where `count` sends a stripped log line: one counter, nowhere (a
      created user whose line ends in neither kind of access), or the
      errors. */
  datatype Route = Counter(key: string) | Dropped | ErrorRoute

  /** A test `count` applies to a stripped line. */
  datatype Test = Prefix(text: string) | Suffix(text: string)

  predicate Passes(line: string, t: Test)
  {
    match t
    case Prefix(p) => StartsWith(line, p)
    case Suffix(p) => EndsWith(line, p)
  }

  /** One branch of `count`: the tests a line must pass to take it, and
      where the line goes. */
  datatype Rule = Rule(tests: seq<Test>, route: Route)

  predicate PassesAll(line: string, tests: seq<Test>)
  {
    forall i :: 0 <= i < |tests| ==> Passes(line, tests[i])
  }

  /** The branches of `count` in the order they are tested. The first
      three are the `if` on "Created user" with its nested `if`, `elif` and
      `else`; a created-user line always takes one of them, so the later
      branches see only lines that do not start with "Created user". */
  const Rules: seq<Rule> := [
    Rule([Prefix("Created user"), Suffix("cloud access")], Counter("new_cloud")),
    Rule([Prefix("Created user"), Suffix("daco access")], Counter("new_daco")),
    Rule([Prefix("Created user")], Dropped),
    Rule([Prefix("Granted daco and cloud")], Counter("grant_both")),
    Rule([Prefix("Granted daco")], Counter("grant_daco")),
    Rule([Prefix("Granted cloud")], Counter("grant_cloud")),
    Rule([Prefix("Revoked daco")], Counter("revoke_daco")),
    Rule([Prefix("Revoked cloud")], Counter("revoke_cloud")),
    Rule([Suffix("multiple entries in the daco file!")], Counter("multiple_entries")),
    Rule([Suffix("does not have a valid email address")], Counter("invalid_email"))]

  /** Where the first rule the line passes sends it; the final `else` of
      `count` sends a line that passes none to the errors. */
  function FirstRule(line: string, rules: seq<Rule>): Route
    decreases |rules|
  {
    if rules == [] then ErrorRoute
    else if PassesAll(line, rules[0].tests) then rules[0].route
    else FirstRule(line, rules[1..])
  }

  /** Where `count` sends a stripped line. */
  function Classify(line: string): Route
  {
    FirstRule(line, Rules)
  }

  /** The counters and errors after sending a stripped line along a route. */
  function Apply(counts: Counts, errors: seq<string>, line: string, route: Route): (Counts, seq<string>)
  {
    match route
    case Counter(k) => (counts[k := R.Get(counts, k) + 1], errors)
    case Dropped => (counts, errors)
    case ErrorRoute => (counts, errors + [line])
  }

  /** The counters and errors after one more log line. */
  function CountLine(counts: Counts, errors: seq<string>, raw: string): (Counts, seq<string>)
  {
    var line := Strip(raw);
    Apply(counts, errors, line, Classify(line))
  }

  /** What `count(log)` returns. */
  function CountLog(log: seq<string>): (Counts, seq<string>)
    decreases |log|
  {
    if log == [] then (InitialCounts(), [])
    else
      var (counts, errors) := CountLog(log[..|log| - 1]);
      CountLine(counts, errors, log[|log| - 1])
  }

  /** One pass of the loop of `count`: strip the line, then bump its
      counter or keep it as an error. The `print` of a dropped line is
      output and is not modelled. */
  method CountStep(counts: Counts, errors: seq<string>, raw: string) returns (counts': Counts, errors': seq<string>)
    ensures (counts', errors') == CountLine(counts, errors, raw)
  {
    var line := Strip(raw);
    counts', errors' := ApplyStep(counts, errors, line, Classify(line));
  }

  /** Bump the counter of a routed line, or keep it as an error. */
  method ApplyStep(counts: Counts, errors: seq<string>, line: string, route: Route) returns (counts': Counts, errors': seq<string>)
    ensures (counts', errors') == Apply(counts, errors, line, route)
  {
    counts', errors' := counts, errors;
    match route {
      case Counter(k) => counts' := counts[k := R.Get(counts, k) + 1];
      case Dropped =>
      case ErrorRoute => errors' := errors + [line];
    }
  }

  /** `count(log)`. */
  method Count(log: seq<string>) returns (counts: Counts, errors: seq<string>)
    ensures (counts, errors) == CountLog(log)
  {
    counts := map["new_daco" := 0, "new_cloud" := 0, "grant_daco" := 0, "grant_cloud" := 0, "grant_both" := 0,
      "revoke_daco" := 0, "revoke_cloud" := 0, "revoke_invalid" := 0, "multiple_entries" := 0, "invalid_email" := 0];
    InitialCountsLiteral();
    errors := [];
    for i := 0 to |log|
      invariant (counts, errors) == CountLog(log[..i])
    {
      assert log[..i + 1][..i] == log[..i];
      counts, errors := CountStep(counts, errors, log[i]);
    }
    assert log[..|log|] == log;
  }

  lemma InitialCountsLiteral()
    ensures InitialCounts() == map["new_daco" := 0, "new_cloud" := 0, "grant_daco" := 0, "grant_cloud" := 0, "grant_both" := 0,
      "revoke_daco" := 0, "revoke_cloud" := 0, "revoke_invalid" := 0, "multiple_entries" := 0, "invalid_email" := 0]
  {
  }
}
