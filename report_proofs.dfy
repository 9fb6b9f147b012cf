/**
 * What the run report of python/report.py promises: the totals it derives,
 * when it says there were no updates, one tab-indented line per reported
 * category, the warning guard (as written and as intended), the error
 * lines, and the layout of the whole report.
 */
module ReportProofs {
  import opened Wrappers
  import opened Text
  import opened PyValues
  import opened Report

  /** `summarize` reads each field from the caller's counts, zero when
      missing, and derives the three totals from them. */
  lemma SummaryDerivesTotals(c: Counts)
    ensures forall f :: f in SummaryFields ==> Get(SummaryCounts(c), f) == Get(c, f)
    ensures Get(SummaryCounts(c), "new") == Get(c, "new_daco") + Get(c, "new_cloud")
    ensures Get(SummaryCounts(c), "grant") == Get(c, "grant_cloud") + Get(c, "grant_both")
    ensures Get(SummaryCounts(c), "revoke") == Get(c, "revoke_daco") + Get(c, "revoke_invalid")
  {
    SummaryKeepsFields(c);
    SummaryTotals(c);
  }

  /** The fields keep the caller's values, zero when missing. */
  lemma SummaryKeepsFields(c: Counts)
    ensures forall f :: f in SummaryFields ==> Get(SummaryCounts(c), f) == Get(c, f)
  {
    TotalsAreNotFields();
  }

  /** The three totals are not among the fields they are added from. */
  lemma TotalsAreNotFields()
    ensures forall f :: f in SummaryFields ==> f != "new" && f != "grant" && f != "revoke"
  {
  }

  /** The three totals are the stated sums. */
  lemma SummaryTotals(c: Counts)
    ensures Get(SummaryCounts(c), "new") == Get(c, "new_daco") + Get(c, "new_cloud")
    ensures Get(SummaryCounts(c), "grant") == Get(c, "grant_cloud") + Get(c, "grant_both")
    ensures Get(SummaryCounts(c), "revoke") == Get(c, "revoke_daco") + Get(c, "revoke_invalid")
  {
    var z := ZeroDefaults(SummaryFields, c);
    assert z["new_daco"] == Get(c, "new_daco") by { assert SummaryFields[0] == "new_daco"; }
    assert z["new_cloud"] == Get(c, "new_cloud") by { assert SummaryFields[1] == "new_cloud"; }
    assert z["grant_cloud"] == Get(c, "grant_cloud") by { assert SummaryFields[3] == "grant_cloud"; }
    assert z["grant_both"] == Get(c, "grant_both") by { assert SummaryFields[4] == "grant_both"; }
    assert z["revoke_daco"] == Get(c, "revoke_daco") by { assert SummaryFields[5] == "revoke_daco"; }
    assert z["revoke_invalid"] == Get(c, "revoke_invalid") by { assert SummaryFields[7] == "revoke_invalid"; }
  }

  /** The summary header followed by any lines is never the no-updates
      line: the two differ at their eleventh character. */
  lemma HeaderNotNoUpdates(x: string)
    ensures UpdatesHeader + x != NoUpdates
  {
    var s := UpdatesHeader + x;
    if |s| == |NoUpdates| {
      assert s[10] == UpdatesHeader[10];
    }
  }

  /** The no-updates line is reported exactly when all six reported
      categories are zero. */
  lemma NoUpdatesIff(c: Counts)
    ensures Summary(c) == NoUpdates <==> forall k :: k in UpdateCategories ==> Get(SummaryCounts(c), k) == 0
  {
    var counts := SummaryCounts(c);
    if !(forall k :: k in UpdateCategories ==> Get(counts, k) == 0) {
      HeaderNotNoUpdates(UpdateLines(counts, UpdateCategories));
    }
  }

  /** With counts that are never negative, there were no updates exactly
      when every counted field is zero. */
  lemma NoUpdatesIffNoCounts(c: Counts)
    requires forall k :: k in c ==> c[k] >= 0
    ensures Summary(c) == NoUpdates <==> forall f :: f in SummaryFields ==> Get(c, f) == 0
  {
    NoUpdatesIff(c);
    SummaryDerivesTotals(c);
    UpdateCategoriesZero(SummaryCounts(c));
    SummaryFieldsZero(c);
  }

  lemma UpdateCategoriesZero(counts: Counts)
    ensures (forall k :: k in UpdateCategories ==> Get(counts, k) == 0) <==>
      Get(counts, "new") == 0 && Get(counts, "grant_daco") == 0 && Get(counts, "grant") == 0 &&
      Get(counts, "revoke_cloud") == 0 && Get(counts, "revoke") == 0 && Get(counts, "ego_user_not_found") == 0
  {
  }

  lemma SummaryFieldsZero(c: Counts)
    ensures (forall f :: f in SummaryFields ==> Get(c, f) == 0) <==>
      Get(c, "new_daco") == 0 && Get(c, "new_cloud") == 0 && Get(c, "grant_daco") == 0 &&
      Get(c, "grant_cloud") == 0 && Get(c, "grant_both") == 0 && Get(c, "revoke_daco") == 0 &&
      Get(c, "revoke_cloud") == 0 && Get(c, "revoke_invalid") == 0 && Get(c, "ego_user_not_found") == 0
  {
  }

  /** A category contributes a line exactly when its count is not zero,
      and the line is tab-indented and ends with a line break. */
  lemma UpdateLineShape(counts: Counts, k: string)
    ensures UpdateLine(counts, k) == "" <==> Get(counts, k) == 0
    ensures Get(counts, k) != 0 ==>
      StartsWith(UpdateLine(counts, k), "\t" + UpdateMessage(counts, k)) && EndsWith(UpdateLine(counts, k), "\n")
  {
    if Get(counts, k) != 0 {
      var m := UpdateMessage(counts, k);
      ConcatParts("\t" + m, "\n");
    }
  }

  lemma ConcatParts(a: string, b: string)
    ensures StartsWith(a + b, a) && EndsWith(a + b, b)
  {
    assert (a + b)[..|a|] == a;
    assert (a + b)[|a|..] == b;
  }

  /** The update lines are empty exactly when every category is zero, and
      adding a category appends its line. */
  lemma {:induction false} UpdateLinesEmptyIff(counts: Counts, ks: seq<string>)
    ensures UpdateLines(counts, ks) == "" <==> forall k :: k in ks ==> Get(counts, k) == 0
    decreases |ks|
  {
    if ks != [] {
      var init := ks[..|ks| - 1];
      var last := ks[|ks| - 1];
      UpdateLinesEmptyIff(counts, init);
      UpdateLineShape(counts, last);
      EmptyConcat(UpdateLines(counts, init), UpdateLine(counts, last));
      SnocMembers(ks);
    }
  }

  lemma SnocMembers(ks: seq<string>)
    requires ks != []
    ensures forall k :: k in ks <==> k in ks[..|ks| - 1] || k == ks[|ks| - 1]
  {
    assert ks == ks[..|ks| - 1] + [ks[|ks| - 1]];
  }

  lemma EmptyConcat(a: string, b: string)
    ensures a + b == "" <==> a == "" && b == ""
  {
    if a + b == "" {
      assert |a + b| == |a| + |b|;
    }
  }

  /** Unless there were no updates, the summary is the header and at
      least one update line. */
  lemma SummaryHasUpdateLines(c: Counts)
    ensures Summary(c) != NoUpdates ==>
      Summary(c) == UpdatesHeader + UpdateLines(SummaryCounts(c), UpdateCategories) &&
      UpdateLines(SummaryCounts(c), UpdateCategories) != ""
  {
    UpdateLinesEmptyIff(SummaryCounts(c), UpdateCategories);
  }

  // ---- warnings ----

  /** The intended warnings are empty exactly when none of the four
      warning categories is counted. */
  lemma WarningsEmptyIff(c: Counts)
    ensures Warnings(c) == "" <==>
      Get(c, "multiple_entries") == 0 && Get(c, "invalid") == 0 &&
      Get(c, "invalid_email") == 0 && Get(c, "ego_user_not_found") == 0
  {
    assert "multiple_entries" in WarningFields && "invalid" in WarningFields;
    assert "invalid_email" in WarningFields && "ego_user_not_found" in WarningFields;
  }

  /** The guard as written agrees with the intended one whenever one of
      the first three warnings is counted; otherwise it fails with a
      KeyError exactly when the caller's counts lack the misspelled key. */
  lemma WarningsAsWrittenAgrees(c: Counts)
    ensures Get(c, "multiple_entries") != 0 || Get(c, "invalid") != 0 || Get(c, "invalid_email") != 0 ==>
      WarningsAsWritten(c) == Ok(Warnings(c))
    ensures WarningsAsWritten(c).Err? <==>
      Get(c, "multiple_entries") == 0 && Get(c, "invalid") == 0 && Get(c, "invalid_email") == 0 &&
      MisspelledKey !in c
    ensures WarningsAsWritten(c).Err? ==> WarningsAsWritten(c).error == KeyError(MisspelledKey)
  {
    assert "multiple_entries" in WarningFields && "invalid" in WarningFields;
    assert "invalid_email" in WarningFields && MisspelledKey !in WarningFields;
  }

  /** The misspelled key: with counts from a run that found no duplicate,
      invalid or malformed entries, `report_warnings` raises KeyError,
      both when nothing was counted and when users were missing from the
      service, where the intended report is empty and a warning
      respectively. */
  lemma WarningsMisspelledKey()
    ensures WarningsAsWritten(map[]) == Err(KeyError("ego_user_notfound"))
    ensures Warnings(map[]) == ""
    ensures WarningsAsWritten(map["ego_user_not_found" := 2]) == Err(KeyError("ego_user_notfound"))
    ensures Warnings(map["ego_user_not_found" := 2]) != ""
  {
    WarningsAsWrittenAgrees(map[]);
    WarningsEmptyIff(map[]);
    var c := map["ego_user_not_found" := 2];
    assert Get(c, "multiple_entries") == 0 && Get(c, "invalid") == 0 && Get(c, "invalid_email") == 0;
    WarningsAsWrittenAgrees(c);
    WarningsEmptyIff(c);
  }

  // ---- errors and the whole report ----

  lemma {:induction false} ErrorLinesAppend(xs: seq<string>, ys: seq<string>)
    ensures ErrorLines(xs + ys) == ErrorLines(xs) + ErrorLines(ys)
    decreases |ys|
  {
    if ys == [] {
      assert xs + ys == xs;
    } else {
      var init := ys[..|ys| - 1];
      assert (xs + ys)[..|xs + ys| - 1] == xs + init;
      ErrorLinesAppend(xs, init);
    }
  }

  /** Each error becomes one line, in order: the text is empty exactly when
      there are no errors, and has one line break per error when the errors
      hold none themselves. */
  lemma ErrorLinesMeaning(errors: seq<string>)
    ensures ErrorLines(errors) == "" <==> errors == []
    ensures (forall e :: e in errors ==> '\n' !in e) ==> Occurrences(ErrorLines(errors), '\n') == |errors|
    ensures errors != [] ==> ErrorLines(errors) == ErrorLines(errors[..1]) + ErrorLines(errors[1..])
  {
    ErrorLinesEmptyIff(errors);
    if forall e :: e in errors ==> '\n' !in e {
      ErrorLinesCount(errors);
    }
    if errors != [] {
      ErrorLinesAppend(errors[..1], errors[1..]);
      assert errors[..1] + errors[1..] == errors;
    }
  }

  /** Some errors give some text: the last of them ends it with a line break. */
  lemma ErrorLinesEmptyIff(errors: seq<string>)
    ensures ErrorLines(errors) == "" <==> errors == []
  {
    if errors != [] {
      var last := errors[|errors| - 1];
      assert ErrorLines(errors) == ErrorLines(errors[..|errors| - 1]) + (last + "\n");
    }
  }

  /** Errors without line breaks of their own give one line break each. */
  lemma {:induction false} ErrorLinesCount(errors: seq<string>)
    requires forall e :: e in errors ==> '\n' !in e
    ensures Occurrences(ErrorLines(errors), '\n') == |errors|
    decreases |errors|
  {
    if errors != [] {
      var init := errors[..|errors| - 1];
      var last := errors[|errors| - 1];
      assert forall e :: e in init ==> e in errors;
      ErrorLinesCount(init);
      OccurrencesAppend(ErrorLines(init), last + "\n", '\n');
      OccurrencesAppend(last, "\n", '\n');
      assert ErrorLines(errors) == ErrorLines(init) + (last + "\n");
    }
  }

  /** The report opens with the header and the errors, and is nothing
      more for a run that did not happen. */
  lemma ReportStartsWithErrors(counts: Counts, errors: seq<string>, ran: bool)
    ensures StartsWith(ReportText(counts, errors, ran), ReportHeader + ErrorLines(errors))
    ensures !ran ==> ReportText(counts, errors, ran) == ReportHeader + ErrorLines(errors)
  {
    var head := ReportHeader + ErrorLines(errors);
    var tail := if ran then Warnings(counts) + Summary(counts) else "";
    ConcatParts(head, tail);
    if !ran {
      assert head + tail == head;
    }
  }

  /** For a run that happened, the report closes with the summary, after
      the warnings. */
  lemma ReportEndsWithSummary(counts: Counts, errors: seq<string>)
    ensures EndsWith(ReportText(counts, errors, true), Summary(counts))
  {
    var head := ReportHeader + ErrorLines(errors);
    ConcatAssoc(head, Warnings(counts), Summary(counts));
    ConcatParts(head + Warnings(counts), Summary(counts));
  }

  /** As written, `create` fails exactly where `report_warnings` does, and
      otherwise, where the two warning guards agree, equals the corrected
      report. */
  lemma ReportAsWrittenAgrees(counts: Counts, errors: seq<string>, ran: bool)
    ensures ReportAsWritten(counts, errors, ran).Err? <==> ran && WarningsAsWritten(counts).Err?
    ensures !ran || WarningsAsWritten(counts) == Ok(Warnings(counts)) ==>
      ReportAsWritten(counts, errors, ran) == Ok(ReportText(counts, errors, ran))
  {
    var head := ReportHeader + ErrorLines(errors);
    if ran {
      ConcatAssoc(head, Warnings(counts), Summary(counts));
    } else {
      assert head + "" == head;
    }
  }
}
