/**
 * What the earlier report of report.py promises: every log line lands in at
 * most one counter or in the errors, the counters `count` produces always
 * let `create` succeed, the warning guard raises exactly for the keys it
 * reads, and how the lines of the earlier reconciler are classified.
 */
module LegacyReportProofs {
  import opened Wrappers
  import opened Text
  import opened PyValues
  import R = Report
  import opened LegacyReport
  import LR = LegacyReconciler

  // ---- count ----

  /** Every counter `count` bumps is one of its ten initial counters. */
  lemma ClassifyKeys(line: string)
    ensures Classify(line).Counter? ==> Classify(line).key in CountFields
  {
    RuleKeys();
    FirstRuleKeys(line, Rules);
  }

  /** Each counter a rule of `count` names is one of the ten. */
  lemma RuleKeys()
    ensures forall i :: 0 <= i < |Rules| && Rules[i].route.Counter? ==> Rules[i].route.key in CountFields
  {
  }

  /** A line's first rule names a counter of the ten when every rule does. */
  lemma {:induction false} FirstRuleKeys(line: string, rules: seq<Rule>)
    requires forall i :: 0 <= i < |rules| && rules[i].route.Counter? ==> rules[i].route.key in CountFields
    ensures FirstRule(line, rules).Counter? ==> FirstRule(line, rules).key in CountFields
    decreases |rules|
  {
    if rules != [] && !PassesAll(line, rules[0].tests) {
      FirstRuleKeys(line, rules[1..]);
    }
  }

  /** The first rule's route is the route of some rule, or the errors. */
  lemma {:induction false} FirstRuleRoutes(line: string, rules: seq<Rule>)
    ensures FirstRule(line, rules) == ErrorRoute ||
      exists i :: 0 <= i < |rules| && FirstRule(line, rules) == rules[i].route
    decreases |rules|
  {
    if rules != [] && !PassesAll(line, rules[0].tests) {
      FirstRuleRoutes(line, rules[1..]);
      if FirstRule(line, rules) != ErrorRoute {
        var i :| 0 <= i < |rules[1..]| && FirstRule(line, rules[1..]) == rules[1..][i].route;
        assert rules[1..][i] == rules[i + 1];
      }
    }
  }

  /** `count` returns exactly the ten counters, none negative, and its
      errors are stripped lines. */
  lemma {:induction false} CountKeys(log: seq<string>)
    ensures CountLog(log).0.Keys == R.Elems(CountFields)
    ensures forall k :: k in CountLog(log).0 ==> CountLog(log).0[k] >= 0
    ensures |CountLog(log).1| <= |log|
    decreases |log|
  {
    if log != [] {
      CountKeys(log[..|log| - 1]);
      var (counts, errors) := CountLog(log[..|log| - 1]);
      CountLineKeys(counts, errors, log[|log| - 1]);
    }
  }

  /** One line keeps the counters' keys and signs and adds at most one
      error. */
  lemma CountLineKeys(counts: Counts, errors: seq<string>, raw: string)
    requires counts.Keys == R.Elems(CountFields)
    requires forall k :: k in counts ==> counts[k] >= 0
    ensures CountLine(counts, errors, raw).0.Keys == R.Elems(CountFields)
    ensures forall k :: k in CountLine(counts, errors, raw).0 ==> CountLine(counts, errors, raw).0[k] >= 0
    ensures |CountLine(counts, errors, raw).1| <= |errors| + 1
  {
    var line := Strip(raw);
    ClassifyKeys(line);
    ApplyKeys(counts, errors, line, Classify(line));
  }

  /** Sending a line along a route that names one of the ten counters, if
      any, keeps the counters' keys and signs and adds at most one error. */
  lemma ApplyKeys(counts: Counts, errors: seq<string>, line: string, route: Route)
    requires counts.Keys == R.Elems(CountFields)
    requires forall k :: k in counts ==> counts[k] >= 0
    requires route.Counter? ==> route.key in CountFields
    ensures Apply(counts, errors, line, route).0.Keys == R.Elems(CountFields)
    ensures forall k :: k in Apply(counts, errors, line, route).0 ==> Apply(counts, errors, line, route).0[k] >= 0
    ensures |Apply(counts, errors, line, route).1| <= |errors| + 1
  {
    if route.Counter? {
      assert route.key in counts;
    }
  }

  /** The sum of the counters among `ks`. */
  function SumOver(counts: Counts, ks: seq<string>): int
    decreases |ks|
  {
    if ks == [] then 0 else SumOver(counts, ks[..|ks| - 1]) + R.Get(counts, ks[|ks| - 1])
  }

  /** Bumping one of a list of distinct counters raises their sum by one. */
  lemma {:induction false} SumOverBump(counts: Counts, ks: seq<string>, k: string)
    requires forall i, j :: 0 <= i < j < |ks| ==> ks[i] != ks[j]
    ensures SumOver(counts[k := R.Get(counts, k) + 1], ks) == SumOver(counts, ks) + (if k in ks then 1 else 0)
    decreases |ks|
  {
    if ks != [] {
      var init := ks[..|ks| - 1];
      var last := ks[|ks| - 1];
      SumOverBump(counts, init, k);
      assert k in ks <==> k in init || k == last by {
        assert ks == init + [last];
      }
      if k == last {
        assert k !in init;
      }
    }
  }

  /** The number of log lines `count` drops: created users whose line
      ends in neither kind of access. */
  function DroppedLines(log: seq<string>): nat
    decreases |log|
  {
    if log == [] then 0
    else DroppedLines(log[..|log| - 1]) + (if Classify(Strip(log[|log| - 1])) == Dropped then 1 else 0)
  }

  /** Every log line is counted once, kept as an error once, or dropped. */
  lemma {:induction false} CountConserves(log: seq<string>)
    ensures SumOver(CountLog(log).0, CountFields) + |CountLog(log).1| + DroppedLines(log) == |log|
    decreases |log|
  {
    if log == [] {
      SumOverZero(InitialCounts(), CountFields);
    } else {
      var init := log[..|log| - 1];
      CountConserves(init);
      CountKeys(init);
      var (counts, errors) := CountLog(init);
      CountLineConserves(counts, errors, log[|log| - 1]);
    }
  }

  lemma {:induction false} SumOverZero(counts: Counts, ks: seq<string>)
    requires forall k :: k in counts ==> counts[k] == 0
    ensures SumOver(counts, ks) == 0
    decreases |ks|
  {
    if ks != [] {
      SumOverZero(counts, ks[..|ks| - 1]);
    }
  }

  lemma CountFieldsDistinct()
    ensures forall i, j :: 0 <= i < j < |CountFields| ==> CountFields[i] != CountFields[j]
  {
  }

  /** One line raises the counters' sum or the errors by one, unless it is
      dropped. */
  lemma CountLineConserves(counts: Counts, errors: seq<string>, raw: string)
    requires counts.Keys == R.Elems(CountFields)
    ensures SumOver(CountLine(counts, errors, raw).0, CountFields) + |CountLine(counts, errors, raw).1| +
      (if Classify(Strip(raw)) == Dropped then 1 else 0) == SumOver(counts, CountFields) + |errors| + 1
  {
    var line := Strip(raw);
    ClassifyKeys(line);
    ApplyConserves(counts, errors, line, Classify(line));
  }

  /** Sending a line along a route that names one of the ten counters, if
      any, raises their sum or the errors by one, unless it drops the line. */
  lemma ApplyConserves(counts: Counts, errors: seq<string>, line: string, route: Route)
    requires route.Counter? ==> route.key in CountFields
    ensures SumOver(Apply(counts, errors, line, route).0, CountFields) + |Apply(counts, errors, line, route).1| +
      (if route == Dropped then 1 else 0) == SumOver(counts, CountFields) + |errors| + 1
  {
    if route.Counter? {
      CountFieldsDistinct();
      SumOverBump(counts, CountFields, route.key);
    }
  }

  /** Where `count` sends each line of the log, in order. */
  function Routes(log: seq<string>): (r: seq<Route>)
    ensures |r| == |log|
    decreases |log|
  {
    if log == [] then [] else Routes(log[..|log| - 1]) + [Classify(Strip(log[|log| - 1]))]
  }

  lemma {:induction false} NoDroppedIff(log: seq<string>)
    ensures DroppedLines(log) == 0 <==> Dropped !in Routes(log)
    decreases |log|
  {
    if log != [] {
      var init := log[..|log| - 1];
      NoDroppedIff(init);
      var r := Classify(Strip(log[|log| - 1]));
      assert Dropped in Routes(init) + [r] <==> Dropped in Routes(init) || r == Dropped;
    }
  }

  /** Hence the counters and the errors together never exceed the log,
      and match it exactly when no line was dropped. */
  lemma CountBound(log: seq<string>)
    ensures SumOver(CountLog(log).0, CountFields) + |CountLog(log).1| <= |log|
    ensures SumOver(CountLog(log).0, CountFields) + |CountLog(log).1| == |log| <==> Dropped !in Routes(log)
  {
    CountConserves(log);
    NoDroppedIff(log);
  }

  /** The counters `count` returns hold every key the warnings read, so
      `create` on them never raises. */
  lemma CountThenCreate(log: seq<string>, errors: seq<string>)
    ensures ReportText(CountLog(log).0, errors).Ok?
  {
    var counts := CountLog(log).0;
    CountKeys(log);
    HasWarningKeys(counts);
    WarningsGuardRaises(counts);
    ReportLayout(counts, errors);
  }

  lemma HasWarningKeys(counts: Counts)
    requires counts.Keys == R.Elems(CountFields)
    ensures "multiple_entries" in counts && "revoke_invalid" in counts && "invalid_email" in counts
  {
    var f := CountFields;
    assert f[8] in R.Elems(f) && f[7] in R.Elems(f) && f[9] in R.Elems(f);
  }

  /** Rules a line fails can be skipped. */
  lemma {:induction false} FirstRuleFrom(line: string, rules: seq<Rule>, n: int)
    requires 0 <= n <= |rules|
    requires forall i :: 0 <= i < n ==> !PassesAll(line, rules[i].tests)
    ensures FirstRule(line, rules) == FirstRule(line, rules[n..])
    decreases n
  {
    if n > 0 {
      FirstRuleFrom(line, rules[1..], n - 1);
      assert rules[1..][n - 1..] == rules[n..];
    }
  }

  /** A rule whose first test the line fails does not apply. */
  lemma FailsFirst(line: string, r: Rule)
    requires |r.tests| > 0 && !Passes(line, r.tests[0])
    ensures !PassesAll(line, r.tests)
  {
  }

  /** The rules a "Created user" line does not take, when it starts
      otherwise. */
  lemma NotCreated(line: string)
    requires |line| > 0 && line[0] != 'C'
    ensures forall i :: 0 <= i < 3 ==> !PassesAll(line, Rules[i].tests)
  {
    forall i | 0 <= i < 3
      ensures !PassesAll(line, Rules[i].tests)
    {
      assert Rules[i].tests[0] == Prefix("Created user");
      FailsFirst(line, Rules[i]);
    }
  }

  /** The rules for granted lines do not apply to a line that starts
      otherwise. */
  lemma NotGranted(line: string)
    requires |line| > 0 && line[0] != 'G'
    ensures forall i :: 3 <= i < 6 ==> !PassesAll(line, Rules[i].tests)
  {
    forall i | 3 <= i < 6
      ensures !PassesAll(line, Rules[i].tests)
    {
      FailsFirst(line, Rules[i]);
    }
  }

  /** The longer prefix is tested first: a "Granted daco and cloud" line
      counts as a grant of both. */
  lemma GrantBothFirst(line: string)
    requires StartsWith(line, "Granted daco and cloud")
    ensures Classify(line) == Counter("grant_both")
  {
    assert line[0] == 'G';
    NotCreated(line);
    FirstRuleFrom(line, Rules, 3);
    assert Rules[3..][0] == Rule([Prefix("Granted daco and cloud")], Counter("grant_both"));
  }

  /** Any other "Granted daco" line counts as a DACO grant. */
  lemma GrantDacoAfterBoth(line: string)
    requires StartsWith(line, "Granted daco") && !StartsWith(line, "Granted daco and cloud")
    ensures Classify(line) == Counter("grant_daco")
  {
    assert line[0] == 'G';
    NotCreated(line);
    assert Rules[3] == Rule([Prefix("Granted daco and cloud")], Counter("grant_both"));
    FailsFirst(line, Rules[3]);
    FirstRuleFrom(line, Rules, 4);
    assert Rules[4..][0] == Rule([Prefix("Granted daco")], Counter("grant_daco"));
  }

  /** A "Revoked cloud" line counts as a cloud revocation. */
  lemma RevokedCloudLine(line: string)
    requires StartsWith(line, "Revoked cloud")
    ensures Classify(line) == Counter("revoke_cloud")
  {
    assert line[0] == 'R' && line[8] == 'c';
    NotCreated(line);
    NotGranted(line);
    assert Rules[6].tests[0] == Prefix("Revoked daco");
    FailsFirst(line, Rules[6]);
    FirstRuleFrom(line, Rules, 7);
    assert Rules[7..][0] == Rule([Prefix("Revoked cloud")], Counter("revoke_cloud"));
  }

  /** A line that starts with none of the letters of the prefixes `count`
      tests and ends with neither suffix's last letter goes to the errors. */
  lemma UnmarkedIsError(line: string)
    requires |line| > 8 && line[0] != 'C' && line[0] != 'G'
    requires line[0] == 'R' ==> line[8] != 'd' && line[8] != 'c'
    requires line[|line| - 1] != '!' && line[|line| - 1] != 's'
    ensures Classify(line) == ErrorRoute
  {
    NotCreated(line);
    NotGranted(line);
    var k := if line[0] == 'R' then 8 else 0;
    NoPrefixAt(line, "Revoked daco", k);
    NoPrefixAt(line, "Revoked cloud", k);
    NotRevoked(line);
    NoSuffixByLast(line, MultipleSuffix);
    NoSuffixByLast(line, InvalidEmailSuffix);
    NoWarningSuffix(line);
    FirstRuleFrom(line, Rules, |Rules|);
  }

  /** A line that differs from a prefix at one of its positions does not
      start with it. */
  lemma NoPrefixAt(line: string, prefix: string, k: int)
    requires 0 <= k < |prefix| && k < |line| && line[k] != prefix[k]
    ensures !StartsWith(line, prefix)
  {
    if |prefix| <= |line| {
      assert line[..|prefix|][k] == line[k];
    }
  }

  /** A line whose last character differs from a suffix's does not end
      with it. */
  lemma NoSuffixByLast(line: string, suffix: string)
    requires suffix != [] && line != [] && line[|line| - 1] != suffix[|suffix| - 1]
    ensures !EndsWith(line, suffix)
  {
    if |suffix| <= |line| {
      assert line[|line| - |suffix|..][|suffix| - 1] == line[|line| - 1];
    }
  }

  /** A line with no whitespace at either end is its own `strip()`. */
  lemma StripTrimmed(s: string)
    requires s != [] && !IsSpace(s[0]) && !IsSpace(s[|s| - 1])
    ensures Strip(s) == s
  {
  }

  /** Of the success lines the earlier reconciler logs, creating an account
      (whose "Created account" fails the "Created user" test), revoking all
      access and ensuring access end up among the errors; only the cloud
      revocation is counted. A created-account line is counted instead only
      when the user's name makes it end in one of the two warning suffixes. */
  lemma ReconcilerLinesClassified(user: string, name: Option<string>, reason: string, cloud: bool)
    ensures var line := Strip(LR.CreatedMessage(user, name));
      !EndsWith(line, MultipleSuffix) && !EndsWith(line, InvalidEmailSuffix) ==> Classify(line) == ErrorRoute
    ensures Classify(Strip(LR.CreatedMessage(user, None))) == ErrorRoute
    ensures Classify(Strip(LR.RevokedMessage(user, reason))) == ErrorRoute
    ensures Classify(Strip(LR.EnsuredMessage(user, cloud))) == ErrorRoute
    ensures Classify(Strip(LR.RevokedCloudMessage(user))) == Counter("revoke_cloud")
  {
    CreatedIsError(user, name);
    CreatedWithoutNameIsError(user);
    RevokedIsError(user, reason);
    EnsuredIsError(user, cloud);
    RevokedCloudCounted(user);
  }

  const MultipleSuffix := "multiple entries in the daco file!"
  const InvalidEmailSuffix := "does not have a valid email address"

  /** A "Created account" line that ends in neither warning suffix goes to
      the errors: it fails "Created user" at its ninth character. */
  lemma CreatedAccountIsError(line: string)
    requires StartsWith(line, "Created account")
    requires !EndsWith(line, MultipleSuffix) && !EndsWith(line, InvalidEmailSuffix)
    ensures Classify(line) == ErrorRoute
  {
    NotCreatedUser(line);
    assert line[0] == 'C';
    NotGranted(line);
    NoPrefixAt(line, "Revoked daco", 0);
    NoPrefixAt(line, "Revoked cloud", 0);
    NotRevoked(line);
    NoWarningSuffix(line);
    FirstRuleFrom(line, Rules, |Rules|);
  }

  /** The rules of "Created user" lines do not apply to a "Created account"
      line: the two differ at the ninth character. */
  lemma NotCreatedUser(line: string)
    requires StartsWith(line, "Created account")
    ensures forall i :: 0 <= i < 3 ==> !PassesAll(line, Rules[i].tests)
  {
    assert line[8] == "Created account"[8] == 'a';
    NoPrefixAt(line, "Created user", 8);
    forall i | 0 <= i < 3
      ensures !PassesAll(line, Rules[i].tests)
    {
      assert Rules[i].tests[0] == Prefix("Created user");
      FailsFirst(line, Rules[i]);
    }
  }

  /** The rules for revoked lines do not apply to a line that starts
      otherwise. */
  lemma NotRevoked(line: string)
    requires !StartsWith(line, "Revoked daco") && !StartsWith(line, "Revoked cloud")
    ensures forall i :: 6 <= i < 8 ==> !PassesAll(line, Rules[i].tests)
  {
    assert Rules[6].tests[0] == Prefix("Revoked daco");
    FailsFirst(line, Rules[6]);
    assert Rules[7].tests[0] == Prefix("Revoked cloud");
    FailsFirst(line, Rules[7]);
  }

  /** The two warning rules do not apply to a line without their suffixes. */
  lemma NoWarningSuffix(line: string)
    requires !EndsWith(line, MultipleSuffix) && !EndsWith(line, InvalidEmailSuffix)
    ensures forall i :: 8 <= i < 10 ==> !PassesAll(line, Rules[i].tests)
  {
    assert Rules[8].tests[0] == Suffix(MultipleSuffix);
    FailsFirst(line, Rules[8]);
    assert Rules[9].tests[0] == Suffix(InvalidEmailSuffix);
    FailsFirst(line, Rules[9]);
  }

  /** A created-account line is classified by its stripped text. */
  lemma CreatedIsError(user: string, name: Option<string>)
    ensures var line := Strip(LR.CreatedMessage(user, name));
      !EndsWith(line, MultipleSuffix) && !EndsWith(line, InvalidEmailSuffix) ==> Classify(line) == ErrorRoute
  {
    var line := Strip(LR.CreatedMessage(user, name));
    CreatedStripped(user, name);
    if !EndsWith(line, MultipleSuffix) && !EndsWith(line, InvalidEmailSuffix) {
      CreatedAccountIsError(line);
    }
  }

  /** The stripped "Created account" line still starts so: its leading
      character and the word "for" are not whitespace. */
  lemma CreatedStripped(user: string, name: Option<string>)
    ensures StartsWith(Strip(LR.CreatedMessage(user, name)), "Created account")
  {
    var p := "Created account for user ";
    var a := p + user;
    var b := a + " with name ";
    var m := LR.CreatedMessage(user, name);
    assert m == b + LR.NameStr(name);
    Prefixed(p, user, |p|);
    Prefixed(a, " with name ", |p|);
    Prefixed(b, LR.NameStr(name), |p|);
    assert m[..|p|] == b[..|p|] == a[..|p|] == p;
    StartsCreatedAccount(m);
  }

  /** A line with the leading words of a created-account line still
      starts with "Created account" once stripped. */
  lemma StartsCreatedAccount(s: string)
    requires StartsWith(s, "Created account for user ")
    ensures StartsWith(Strip(s), "Created account")
  {
    var p := "Created account for user ";
    StripKeepsLiteralPrefix(s, p, 18, 15);
    assert p[..15] == "Created account";
  }

  /** `strip()` keeps the first `k` characters of a prefix that starts
      with a non-whitespace character and has one at `j`, at or after
      `k - 1`. */
  lemma StripKeepsLiteralPrefix(s: string, p: string, j: int, k: nat)
    requires |p| <= |s| && s[..|p|] == p
    requires 0 <= j < |p| && k <= j + 1
    requires !IsSpace(p[0]) && !IsSpace(p[j])
    ensures k <= |Strip(s)| && Strip(s)[..k] == p[..k]
  {
    assert s[0] == p[0] && s[j] == p[j];
    assert StripLeft(s) == s;
    StripRightKeeps(s, j);
  }

  /** Without a name the line ends in "None", so neither suffix applies. */
  lemma CreatedWithoutNameIsError(user: string)
    ensures Classify(Strip(LR.CreatedMessage(user, None))) == ErrorRoute
  {
    var m := LR.CreatedMessage(user, None);
    First("Created account for user ", user + " with name None");
    Last("Created account for user " + user + " with name ", "None");
    assert m[0] == 'C' && m[|m| - 1] == 'e';
    StripTrimmed(m);
    CreatedIsError(user, None);
  }

  /** `rstrip()` keeps every character up to the last non-whitespace one. */
  lemma {:induction false} StripRightKeeps(s: string, j: int)
    requires 0 <= j < |s| && !IsSpace(s[j])
    ensures j < |StripRight(s)|
    decreases |s|
  {
    if IsSpace(s[|s| - 1]) {
      StripRightKeeps(s[..|s| - 1], j);
    }
  }

  lemma RevokedIsError(user: string, reason: string)
    ensures Classify(Strip(LR.RevokedMessage(user, reason))) == ErrorRoute
  {
    var p := "Revoked all daco access for user '";
    var a := p + user + "':(" + reason;
    var m := LR.RevokedMessage(user, reason);
    First(p, user);
    First(p + user, "':(");
    First(p + user + "':(", reason);
    First(a, ")");
    Last(a, ")");
    assert m[0] == 'R' && m[8] == p[8] == 'a' && m[|m| - 1] == ')';
    StripTrimmed(m);
    UnmarkedIsError(m);
  }

  lemma EnsuredIsError(user: string, cloud: bool)
    ensures Classify(Strip(LR.EnsuredMessage(user, cloud))) == ErrorRoute
  {
    var p := "Ensured user '";
    var a := p + user + "' has daco access (cloud=" + LR.BoolStr(cloud);
    var m := LR.EnsuredMessage(user, cloud);
    First(p, user);
    First(p + user, "' has daco access (cloud=");
    First(p + user + "' has daco access (cloud=", LR.BoolStr(cloud));
    First(a, ")");
    Last(a, ")");
    assert m[0] == 'E' && m[|m| - 1] == ')';
    StripTrimmed(m);
    UnmarkedIsError(m);
  }

  lemma RevokedCloudCounted(user: string)
    ensures Classify(Strip(LR.RevokedCloudMessage(user))) == Counter("revoke_cloud")
  {
    var p := "Revoked cloud access for user '";
    var m := LR.RevokedCloudMessage(user);
    First(p, user);
    First(p + user, "'");
    Last(p + user, "'");
    assert m[0] == 'R' && m[|m| - 1] == '\'';
    StripTrimmed(m);
    Prefixed(p + user, "'", 13);
    Prefixed(p, user, 13);
    RevokedCloudLine(m);
  }

  /** The first character of a concatenation. */
  lemma First(a: string, b: string)
    requires a != []
    ensures (a + b)[0] == a[0]
  {
  }

  /** The last character of a concatenation. */
  lemma Last(a: string, b: string)
    requires b != []
    ensures (a + b)[|a + b| - 1] == b[|b| - 1]
  {
  }

  /** A concatenation starts with the first part's first `n` characters. */
  lemma Prefixed(a: string, b: string, n: nat)
    requires n <= |a|
    ensures (a + b)[..n] == a[..n]
  {
  }

  // ---- the report ----

  /** `summarize` reads each field from the caller's counts, zero when
      missing; here `revoke` is the cloud and the invalid revocations. */
  lemma SummaryDerivesTotals(c: Counts)
    ensures forall f :: f in SummaryFields ==> R.Get(SummaryCounts(c), f) == R.Get(c, f)
    ensures R.Get(SummaryCounts(c), "new") == R.Get(c, "new_daco") + R.Get(c, "new_cloud")
    ensures R.Get(SummaryCounts(c), "grant") == R.Get(c, "grant_cloud") + R.Get(c, "grant_both")
    ensures R.Get(SummaryCounts(c), "revoke") == R.Get(c, "revoke_cloud") + R.Get(c, "revoke_invalid")
  {
    SummaryKeepsFields(c);
    SummaryTotals(c);
  }

  /** The fields keep the caller's values, zero when missing. */
  lemma SummaryKeepsFields(c: Counts)
    ensures forall f :: f in SummaryFields ==> R.Get(SummaryCounts(c), f) == R.Get(c, f)
  {
    TotalsAreNotFields();
  }

  /** The three totals are the stated sums. */
  lemma SummaryTotals(c: Counts)
    ensures R.Get(SummaryCounts(c), "new") == R.Get(c, "new_daco") + R.Get(c, "new_cloud")
    ensures R.Get(SummaryCounts(c), "grant") == R.Get(c, "grant_cloud") + R.Get(c, "grant_both")
    ensures R.Get(SummaryCounts(c), "revoke") == R.Get(c, "revoke_cloud") + R.Get(c, "revoke_invalid")
  {
    var z := R.ZeroDefaults(SummaryFields, c);
    assert z["new_daco"] == R.Get(c, "new_daco") by { assert SummaryFields[0] == "new_daco"; }
    assert z["new_cloud"] == R.Get(c, "new_cloud") by { assert SummaryFields[1] == "new_cloud"; }
    assert z["grant_cloud"] == R.Get(c, "grant_cloud") by { assert SummaryFields[3] == "grant_cloud"; }
    assert z["grant_both"] == R.Get(c, "grant_both") by { assert SummaryFields[4] == "grant_both"; }
    assert z["revoke_cloud"] == R.Get(c, "revoke_cloud") by { assert SummaryFields[6] == "revoke_cloud"; }
    assert z["revoke_invalid"] == R.Get(c, "revoke_invalid") by { assert SummaryFields[7] == "revoke_invalid"; }
  }

  /** The three totals are not among the fields they are added from. */
  lemma TotalsAreNotFields()
    ensures forall f :: f in SummaryFields ==> f != "new" && f != "grant" && f != "revoke"
  {
  }

  /** The guard raises only for a key it reads that is missing, always
      succeeds when the three keys are present, and with none of them
      complains about the first. */
  lemma WarningsGuardRaises(c: Counts)
    ensures Warnings(c).Err? ==>
      Warnings(c).error in {KeyError("multiple_entries"), KeyError("revoke_invalid"), KeyError("invalid_email")}
    ensures Warnings(c).Err? ==>
      "multiple_entries" !in c || "revoke_invalid" !in c || "invalid_email" !in c
    ensures "multiple_entries" in c && "revoke_invalid" in c && "invalid_email" in c ==> Warnings(c).Ok?
    ensures "multiple_entries" !in c ==> Warnings(c) == Err(KeyError("multiple_entries"))
  {
  }

  /** The warnings are empty exactly when the three counts are present and
      zero. */
  lemma WarningsEmptyIff(c: Counts)
    ensures Warnings(c) == Ok("") <==>
      "multiple_entries" in c && "revoke_invalid" in c && "invalid_email" in c &&
      c["multiple_entries"] == 0 && c["revoke_invalid"] == 0 && c["invalid_email"] == 0
  {
    if WarningsGuard(c) == Ok(true) {
      var s := WarningsHeader + WarningLines(c, WarningCategories);
      assert |s| >= |WarningsHeader|;
    }
  }

  lemma {:induction false} ErrorItemsLines(errors: seq<string>)
    requires forall e :: e in errors ==> '\n' !in e
    ensures Occurrences(ErrorItems(errors), '\n') == |errors|
    decreases |errors|
  {
    if errors != [] {
      var init := errors[..|errors| - 1];
      var last := errors[|errors| - 1];
      assert forall e :: e in init ==> e in errors;
      ErrorItemsLines(init);
      var a := ErrorItems(init);
      OccurrencesAppend(a + "\n*" + last, "*", '\n');
      OccurrencesAppend(a + "\n*", last, '\n');
      OccurrencesAppend(a, "\n*", '\n');
    }
  }

  /** The errors section is empty exactly when there are no errors, and
      otherwise puts each error on a line of its own: one line break per
      error plus the closing one, when the errors hold none themselves. */
  lemma ErrorsTextMeaning(errors: seq<string>)
    ensures ErrorsText(errors) == "" <==> errors == []
    ensures errors != [] && (forall e :: e in errors ==> '\n' !in e) ==>
      Occurrences(ErrorsText(errors), '\n') == |errors| + 1
  {
    if errors != [] {
      var s := ErrorsHeader + ErrorItems(errors) + "\n";
      assert |s| > 0;
      if forall e :: e in errors ==> '\n' !in e {
        ErrorItemsLines(errors);
        OccurrencesAppend(ErrorsHeader + ErrorItems(errors), "\n", '\n');
        OccurrencesAppend(ErrorsHeader, ErrorItems(errors), '\n');
      }
    }
  }

  /** `create` fails exactly where `report_warnings` does; otherwise the
      report opens with the header and the errors and closes with the
      summary. */
  lemma ReportLayout(counts: Counts, errors: seq<string>)
    ensures ReportText(counts, errors).Err? <==> Warnings(counts).Err?
    ensures ReportText(counts, errors).Ok? ==>
      StartsWith(ReportText(counts, errors).value, ReportHeader + ErrorsText(errors)) &&
      EndsWith(ReportText(counts, errors).value, Summary(counts))
  {
    if Warnings(counts).Ok? {
      var head := ReportHeader + ErrorsText(errors);
      var w := Warnings(counts).value;
      var s := Summary(counts);
      R.ConcatAssoc(head, w, s);
      Concat(head, w + s);
      Concat(head + w, s);
    }
  }

  lemma Concat(a: string, b: string)
    ensures StartsWith(a + b, a) && EndsWith(a + b, b)
  {
    assert (a + b)[..|a|] == a;
    assert (a + b)[|a|..] == b;
  }
}
