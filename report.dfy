/**
 * The run report (python/report.py): a summary of the updates counted by
 * the reconciler, the input warnings and the errors, each built by
 * appending lines to a string. Counts are a dictionary from category to
 * integer, and a category the dictionary lacks counts as zero once
 * `zero_defaults` has filled it in.
 */
module Report {
  import opened Wrappers
  import opened Text
  import opened PyValues

  type Counts = map<string, int>

  /** The elements of a sequence, as a set. */
  function Elems(s: seq<string>): set<string>
  {
    set x | x in s
  }

  /** The value `dictionary` gives `key` after `zero_defaults`, for a key
      among the defaulted fields. */
  function Get(d: Counts, key: string): int
  {
    if key in d then d[key] else 0
  }

  /** `zero_defaults(fields, dictionary)`: every field is present, the
      fields the dictionary lacks are 0, and the dictionary's own entries,
      fields or not, are kept. */
  function ZeroDefaults(fields: seq<string>, d: Counts): (r: Counts)
    ensures r.Keys == Elems(fields) + d.Keys
    ensures forall k :: k in d ==> r[k] == d[k]
    ensures forall k :: k in fields && k !in d ==> r[k] == 0
    ensures forall k :: k in fields ==> r[k] == Get(d, k)
  {
    map k | k in Elems(fields) + d.Keys :: if k in d then d[k] else 0
  }

  // ---- summarize ----

  const SummaryFields: seq<string> := ["new_daco", "new_cloud", "grant_daco", "grant_cloud", "grant_both",
    "revoke_daco", "revoke_cloud", "revoke_invalid", "ego_user_not_found"]

  /** The categories of the update lines, in the order they are reported. */
  const UpdateCategories: seq<string> := ["new", "grant_daco", "grant", "revoke_cloud", "revoke", "ego_user_not_found"]

  const NoUpdates := "*Updates*: No updates\n"
  const UpdatesHeader := "*Updates*:\n"

  /** The counts `summarize` formats from: the defaulted fields with the
      three totals added. */
  function SummaryCounts(c: Counts): Counts
  {
    var z := ZeroDefaults(SummaryFields, c);
    z["new" := Get(z, "new_daco") + Get(z, "new_cloud")]
     ["grant" := Get(z, "grant_cloud") + Get(z, "grant_both")]
     ["revoke" := Get(z, "revoke_daco") + Get(z, "revoke_invalid")]
  }

  /** The message of one update category, formatted from the counts. */
  function UpdateMessage(counts: Counts, category: string): string
  {
    var n := (k: string) => IntToString(Get(counts, k));
    if category == "new" then
      "Added " + n("new") + " users(" + n("new_daco") + " with DACO access, " + n("new_cloud") + " with DACO & Cloud)."
    else if category == "grant_daco" then
      "Granted DACO access to " + n("grant_daco") + " existing users."
    else if category == "grant" then
      "Granted DACO and Cloud access to " + n("grant") + " existing users (" + n("grant_cloud") + " of them already had DACO)."
    else if category == "revoke_cloud" then
      "Revoked Cloud access from " + n("revoke_cloud") + " existing users."
    else if category == "revoke" then
      "Revoked DACO and Cloud access from " + n("revoke") + " existing users (" + n("revoke_invalid") + " of them were invalid users)."
    else
      n("ego_user_not_found") + " users were not registered in Ego."
  }

  /** The line the loop of `summarize` appends for one category: empty
      when its count is zero. */
  function UpdateLine(counts: Counts, category: string): string
  {
    if Get(counts, category) != 0 then "\t" + UpdateMessage(counts, category) + "\n" else ""
  }

  /** The lines the loop of `summarize` appends for `categories`. */
  function UpdateLines(counts: Counts, categories: seq<string>): string
    decreases |categories|
  {
    if categories == [] then ""
    else UpdateLines(counts, categories[..|categories| - 1]) + UpdateLine(counts, categories[|categories| - 1])
  }

  lemma ConcatAssoc(a: string, b: string, c: string)
    ensures (a + b) + c == a + (b + c)
  {
  }

  /** What `summarize(c)` returns. */
  function Summary(c: Counts): string
  {
    var counts := SummaryCounts(c);
    if forall k :: k in UpdateCategories ==> Get(counts, k) == 0 then NoUpdates
    else UpdatesHeader + UpdateLines(counts, UpdateCategories)
  }

  /** `summarize(c)`. Every placeholder of every message is among the
      defaulted fields and the totals, so the `except KeyError` of the
      source never fires and is not modelled. */
  method Summarize(c: Counts) returns (report: string)
    ensures report == Summary(c)
  {
    var counts := SummaryCounts(c);
    if forall k :: k in UpdateCategories ==> Get(counts, k) == 0 {
      return NoUpdates;
    }
    report := AppendUpdateLines(counts);
  }

  /** The loop of `summarize`: the header, then the line of each category. */
  method AppendUpdateLines(counts: Counts) returns (report: string)
    ensures report == UpdatesHeader + UpdateLines(counts, UpdateCategories)
  {
    report := UpdatesHeader;
    ghost var lines := "";
    for i := 0 to |UpdateCategories|
      invariant lines == UpdateLines(counts, UpdateCategories[..i])
      invariant report == UpdatesHeader + lines
    {
      assert UpdateCategories[..i + 1][..i] == UpdateCategories[..i];
      var line := UpdateLine(counts, UpdateCategories[i]);
      ConcatAssoc(UpdatesHeader, lines, line);
      report := report + line;
      lines := lines + line;
    }
    assert UpdateCategories[..|UpdateCategories|] == UpdateCategories;
  }

  // ---- report_warnings ----

  const WarningFields: seq<string> := ["multiple_entries", "invalid", "invalid_email", "revoke_invalid", "ego_user_not_found"]

  /** The categories of the warning lines, in the order they are reported. */
  const WarningCategories: seq<string> := ["multiple_entries", "invalid_email", "invalid", "ego_user_not_found"]

  const WarningsHeader := "\n*Warnings*:\n"

  /** The key line 47 of python/report.py reads, one underscore short of
      the `ego_user_not_found` that every other line uses. */
  const MisspelledKey := "ego_user_notfound"

  function WarningMessage(counts: Counts, category: string): string
  {
    var n := IntToString(Get(counts, category));
    if category == "multiple_entries" then
      n + " multiple entries found in configuration file"
    else if category == "invalid_email" then
      n + " invalid OpenId email addresses found in configuration file"
    else if category == "invalid" then
      n + " invalid users found with Cloud access but not DACO access (" +
      IntToString(Get(counts, "revoke_invalid")) + " had access to revoke)"
    else
      n + " users from configuration file not found in Ego."
  }

  /** The line the loop of `report_warnings` appends for one category:
      empty when its count is zero. */
  function WarningLine(counts: Counts, category: string): string
  {
    if Get(counts, category) != 0 then "\t" + WarningMessage(counts, category) + "\n" else ""
  }

  /** The lines the loop of `report_warnings` appends for `categories`. */
  function WarningLines(counts: Counts, categories: seq<string>): string
    decreases |categories|
  {
    if categories == [] then ""
    else WarningLines(counts, categories[..|categories| - 1]) + WarningLine(counts, categories[|categories| - 1])
  }

  /** `report_warnings(c)` as written: when none of the first three
      warning counts is set, the misspelled key is read, and it is present
      only if the caller's dictionary happens to hold it. */
  function WarningsAsWritten(c: Counts): Result<string, Exn>
  {
    var counts := ZeroDefaults(WarningFields, c);
    var body := WarningsHeader + WarningLines(counts, WarningCategories);
    if Get(counts, "multiple_entries") != 0 || Get(counts, "invalid") != 0 || Get(counts, "invalid_email") != 0 then Ok(body)
    else if MisspelledKey !in counts then Err(KeyError(MisspelledKey))
    else if counts[MisspelledKey] != 0 then Ok(body)
    else Ok("")
  }

  /** `report_warnings(c)` as evidently intended: the guard reads
      `ego_user_not_found`, the fourth warning category. */
  function Warnings(c: Counts): string
  {
    var counts := ZeroDefaults(WarningFields, c);
    if Get(counts, "multiple_entries") != 0 || Get(counts, "invalid") != 0 || Get(counts, "invalid_email") != 0 ||
       Get(counts, "ego_user_not_found") != 0
    then WarningsHeader + WarningLines(counts, WarningCategories)
    else ""
  }

  /** `report_warnings(c)`, as written. */
  method ReportWarnings(c: Counts) returns (r: Result<string, Exn>)
    ensures r == WarningsAsWritten(c)
  {
    var counts := ZeroDefaults(WarningFields, c);
    if !(Get(counts, "multiple_entries") != 0 || Get(counts, "invalid") != 0 || Get(counts, "invalid_email") != 0) {
      if MisspelledKey !in counts {
        return Err(KeyError(MisspelledKey));
      }
      if counts[MisspelledKey] == 0 {
        return Ok("");
      }
    }
    var report := AppendWarningLines(counts);
    r := Ok(report);
  }

  /** The loop of `report_warnings`: the header, then the line of each
      category. */
  method AppendWarningLines(counts: Counts) returns (report: string)
    ensures report == WarningsHeader + WarningLines(counts, WarningCategories)
  {
    report := WarningsHeader;
    ghost var lines := "";
    for i := 0 to |WarningCategories|
      invariant lines == WarningLines(counts, WarningCategories[..i])
      invariant report == WarningsHeader + lines
    {
      assert WarningCategories[..i + 1][..i] == WarningCategories[..i];
      var line := WarningLine(counts, WarningCategories[i]);
      ConcatAssoc(WarningsHeader, lines, line);
      report := report + line;
      lines := lines + line;
    }
    assert WarningCategories[..|WarningCategories|] == WarningCategories;
  }

  // ---- report_errors and create ----

  /** What `report_errors(errors)` returns: each error followed by a line
      break, in order. */
  function ErrorLines(errors: seq<string>): string
    decreases |errors|
  {
    if errors == [] then ""
    else ErrorLines(errors[..|errors| - 1]) + errors[|errors| - 1] + "\n"
  }

  /** `report_errors(errors)`. */
  method ReportErrors(errors: seq<string>) returns (report: string)
    ensures report == ErrorLines(errors)
  {
    if errors == [] {
      return "";
    }
    report := "";
    for i := 0 to |errors|
      invariant report == ErrorLines(errors[..i])
    {
      assert errors[..i + 1][..i] == errors[..i];
      report := report + errors[i] + "\n";
    }
    assert errors[..|errors|] == errors;
  }

  const ReportHeader := "*Daco2Ego Report Summary*\n\n"

  /** What `create(counts, errors, ran)` returns, as written. */
  function ReportAsWritten(counts: Counts, errors: seq<string>, ran: bool): Result<string, Exn>
  {
    var head := ReportHeader + ErrorLines(errors);
    if !ran then Ok(head)
    else match WarningsAsWritten(counts)
      case Err(e) => Err(e)
      case Ok(w) => Ok(head + w + Summary(counts))
  }

  /** `create(counts, errors, ran)` with the corrected warnings. */
  function ReportText(counts: Counts, errors: seq<string>, ran: bool): string
  {
    ReportHeader + ErrorLines(errors) + (if ran then Warnings(counts) + Summary(counts) else "")
  }

  /** `create(counts, errors, ran)`, as written. */
  method Create(counts: Counts, errors: seq<string>, ran: bool) returns (r: Result<string, Exn>)
    ensures r == ReportAsWritten(counts, errors, ran)
  {
    var report := ReportHeader;
    var errs := ReportErrors(errors);
    report := report + errs;
    if ran {
      var w := ReportWarnings(counts);
      if w.Err? {
        return Err(w.error);
      }
      report := report + w.value;
      var s := Summarize(counts);
      report := report + s;
    }
    r := Ok(report);
  }
}
