# Daco2Ego, modelled in Dafny

Daco2Ego keeps the access-control service Ego in line with the DACO
(Data Access Compliance Office) approval lists. It reads two CSV files:
the users approved for DACO access, and the users approved for cloud
access. From them it builds the desired `User` records, then grants and
revokes the memberships that differ. It counts what it did and sends a
plain-text report to Slack.

The repository holds two generations of the program. The current one
lives under `python/`. The earlier one sits at the repository root. This
project models the core of both:

- **Users** (`user.dfy`, module `DacoUser`): a `User` value with the
  `invalid_email`, `is_invalid`, equality and `str` rules of `user.py`.
- **Desired state** (`daco2ego.dfy`, `legacy_daco2ego.dfy`): turning CSV
  rows into `(openid, name)` entries, and entries into `User` records
  (`get_users`), for both generations.
- **Reconciler** (`reconciler.dfy`, `daco_client.dfy`,
  `reconciler_proofs.dfy`): the `DacoClient` of `python/daco_client.py`.
  It is driven against an in-memory group service (`group_service.dfy`).
  Each operation is a function on a `World`: the service state plus the
  counters. The class `ReconcilerClass.DacoClient` performs the same steps
  on its fields and is proved to follow those functions. The lemmas prove
  the run's effect: every eligible desired user ends up in its groups;
  nobody stays in a group they should not be in; the counters and
  messages match.
- **Earlier reconciler** (`legacy_reconciler.dfy`,
  `legacy_daco_client.dfy`, `legacy_reconciler_proofs.dfy`,
  `legacy_service.dfy`): the root-level `daco_client.py` and its issues
  log.
- **Ego client cache** (`ego_cache.dfy`, `ego_client.dfy`,
  `ego_cache_proofs.dfy`): the lazily built policy map, permission map,
  user map and account set of `python/ego_client.py`. It is modelled
  against a fixed REST oracle that logs every request. The lemmas say
  which requests each operation makes and how the caches change.
- **Reports** (`report.dfy`, `report_proofs.dfy`, `legacy_report.dfy`,
  `legacy_report_proofs.dfy`): the summary, warnings, errors and whole
  report of both `report.py` files. They also cover the earlier `count`,
  which re-derives the counters from the log's lines.
- **Error messages** (`format_errors.dfy`, `legacy_format_errors.dfy`):
  `err_msg` and the query-string scrubbing of `filter_sensitive`.
- **Slack escaping** (`slack.dfy`): `slack_escape`.

Python exceptions are results: `Err(e)` means that `e` was raised.
`Exn(cls, args)` is an exception by class name and arguments. `None` is
`Option.None`. Python's `str.lower` is modelled on ASCII letters.

## Model

| member | source | states |
|---|---|---|
| DacoUser.InvalidEmailMeansNoAt | user.py:9-15 | `invalid_email()` holds exactly when the e-mail has no `@`, and fails exactly when some position holds one |
| DacoUser.SameUserIsValueEquality | user.py:22-26 | `__eq__` compares all four fields. It is value equality: reflexive, symmetric and transitive |
| DacoUser.ToStrParts | user.py:28-29 | `str(user)` is the e-mail, `(`, the name's text, `)`. A missing name prints as `None` |
| PyValues.Reprs | python/format_errors.py:8-9 | a tuple's repr has one element text per argument |
| FormatErrors.NonSpaceRun | python/format_errors.py:12 | the `[^\s]+` run after `?` is the longest prefix without whitespace |
| FormatErrors.ScrubLeavesNoQueryString | python/format_errors.py:11-12 | after `filter_sensitive`, no `?` is followed by a non-space character |
| FormatErrors.ScrubKeepsCleanText | python/format_errors.py:11-12 | text without a query-string match comes back unchanged |
| FormatErrors.ScrubIdempotent | python/format_errors.py:11-12 | scrubbing twice equals scrubbing once; text without `?` is unchanged |
| FormatErrors.Filtered | python/format_errors.py:8 | every argument is replaced by its scrubbed `str`, in order, with nothing added or dropped |
| FormatErrors.FormatTupleOneArgument | python/format_errors.py:3-6 | with one argument in a tuple, the item assignment raises TypeError; on a list the text is `name(` + the scrubbed argument + `)` |
| FormatErrors.ErrMsgOutcome | python/format_errors.py:14-19 | `err_msg` raises exactly when the exception has one argument; otherwise it returns `Error: msg -- Class(args…)` with every argument scrubbed |
| FormatErrors.ErrMsgOfLookupError | python/format_errors.py:14-19 | the two-argument LookupError that the reconciler raises always formats |
| LegacyFormatErrors.ErrMsgShape | format_errors.py:1-10 | the earlier message is `Error: msg -- ` + the class name. A one-argument exception prints as `Class(arg)` |
| LegacyFormatErrors.AgreesWithLaterFormatter | format_errors.py:1-10 | when no argument holds a `?` and there is not exactly one argument, both generations print the same message |
| Slack.EscapeEachAppend | python/slack.py:4-8 | escaping distributes over concatenation |
| Slack.NewlineReplaceIsIdentity | python/slack.py:8 | the final `replace("\n", '\n')` changes nothing |
| Slack.SlackEscapeAppend | python/slack.py:4-8 | `slack_escape(a + b) == slack_escape(a) + slack_escape(b)` |
| Slack.SlackEscapeOne | python/slack.py:4-8 | one character escapes to its own entity, or to itself |
| Slack.SlackEscapeIsPerCharacter | python/slack.py:4-8 | the three chained replaces equal one pass that escapes each character, so `&amp;` is never escaped twice |
| Slack.EscapeEachHasNoAngles | python/slack.py:4-8 | an escaped text holds no `<` or `>` |
| Slack.EscapeEachLength | python/slack.py:4-8 | the length grows by 4 per `&` and 3 per `<` or `>` |
| Slack.EscapeEachPlain | python/slack.py:4-8 | text without `&`, `<`, `>` is unchanged |
| Slack.SlackEscapeProperties | python/slack.py:4-8 | `slack_escape` leaves no angle brackets, has the length above, and leaves plain text unchanged |
| DesiredState.EntriesErrorStops | python/daco2ego.py:36-51 | once a row raises, the whole conversion raises that exception |
| DesiredState.CsvToDict | python/daco2ego.py:35-51 | the loop returns what the per-row specification gives for all rows |
| DesiredState.EntriesPerRow | python/daco2ego.py:39-49 | one entry per row, in order; the openid is lower-cased and taken from `openid`, or from `OPENID` when `openid` is absent; the name comes from `user name`, else `USER NAME` |
| DesiredState.UsersWithAccessTo | python/daco2ego.py:54-55 | the set holds exactly the entries' openids |
| DesiredState.DacoUsersPerEntry | python/daco2ego.py:62-64 | one valid DACO user per DACO entry. It has cloud access exactly when its openid is in the cloud list |
| DesiredState.InvalidUsersAppend | python/daco2ego.py:67-70 | the filter distributes over concatenation |
| DesiredState.InvalidUsersContents | python/daco2ego.py:67-70 | the invalid users are exactly the cloud entries missing from the DACO list, each cloud-only and invalid |
| DesiredState.GetUsersLayout | python/daco2ego.py:73-80 | `get_users` lists the DACO users first and then the invalid ones; a user is invalid exactly when it sits after the DACO part |
| LegacyDesiredState.CsvToDictKeepsFields | daco2ego.py:26-29 | the earlier reader succeeds exactly when every row has `openid` and `user name`. It keeps both unchanged, without lower-casing; otherwise it raises KeyError |
| LegacyDesiredState.CaseIsSignificant | daco2ego.py:32-58 | without lower-casing, one person written in two cases becomes a DACO-only user plus an invalid cloud user |
| GroupService.Without | python/tests/mock_ego_client.py:48-51 | removing a member deletes every occurrence and keeps the others |
| GroupService.AddEffect | python/tests/mock_ego_client.py:43-46 | `add` is logged. It adds the member unless the call raises, and no other membership changes |
| GroupService.RemoveEffect | python/tests/mock_ego_client.py:48-51 | `remove` is logged. It removes the member unless the call raises, and no other membership changes |
| GroupService.Client.constructor | python/tests/mock_ego_client.py:22-24 | the service starts with the given groups, accounts and failures, and an empty call log |
| GroupService.Client.GetUsers | python/tests/mock_ego_client.py:26-28 | the method follows the specification of `get_users` |
| GroupService.Client.IsMember | python/tests/mock_ego_client.py:30-32 | the method follows the specification of `is_member` |
| GroupService.Client.UserExists | python/tests/mock_ego_client.py:34-41 | the method follows the specification of `user_exists` |
| GroupService.Client.Add | python/tests/mock_ego_client.py:43-46 | the method follows the specification of `add` |
| GroupService.Client.Remove | python/tests/mock_ego_client.py:48-51 | the method follows the specification of `remove` |
| Reconciler.EgoUsers | python/daco_client.py:69-76 | the revoke pass visits `get_user(id)` for each id, in order |
| Reconciler.GrantUsersErrorStops | python/daco_client.py:50-57 | an exception that escapes `grant_user` ends the pass; later users change nothing |
| Reconciler.RevokeUsersErrorStops | python/daco_client.py:78-85 | an exception that escapes `revoke_user` ends the pass; later users change nothing |
| ReconcilerClass.DacoClient.constructor | python/daco_client.py:6-21 | the client holds the groups, the users and their lower-cased map, and starts with no counters |
| ReconcilerClass.DacoClient.Count | python/daco_client.py:36-40 | the counters become `count(category, err)` of the old counters |
| ReconcilerClass.DacoClient.GetUser | python/daco_client.py:72-76 | the method returns the mapped user, or a user with no access |
| ReconcilerClass.DacoClient.IsUniqueUser | python/daco_client.py:135-137 | the method follows the specification of `is_unique_user` |
| ReconcilerClass.DacoClient.Fail | python/daco_client.py:180-184 | a failure is counted as an error category and wrapped in `LookupError(msg, e)` |
| ReconcilerClass.DacoClient.HasDaco | python/daco_client.py:195-202 | the method follows the specification of `has_daco` |
| ReconcilerClass.DacoClient.HasCloud | python/daco_client.py:204-211 | the method follows the specification of `has_cloud` |
| ReconcilerClass.DacoClient.GrantDaco | python/daco_client.py:213-220 | the method follows the specification of `grant_daco` |
| ReconcilerClass.DacoClient.GrantCloud | python/daco_client.py:222-229 | the method follows the specification of `grant_cloud` |
| ReconcilerClass.DacoClient.RevokeDaco | python/daco_client.py:231-238 | the method follows the specification of `revoke_daco` |
| ReconcilerClass.DacoClient.RevokeCloud | python/daco_client.py:240-247 | the method follows the specification of `revoke_cloud` |
| ReconcilerClass.DacoClient.UserExists | python/daco_client.py:177-184 | the method follows the specification of `user_exists`, including both error counts |
| ReconcilerClass.DacoClient.FetchEgoIds | python/daco_client.py:164-175 | the method follows the specification of `fetch_ego_ids` |
| ReconcilerClass.DacoClient.ExistingUser | python/daco_client.py:111-133 | the method follows the specification of `existing_user` |
| ReconcilerClass.DacoClient.GrantAccessIfNecessary | python/daco_client.py:87-107 | the method follows the specification of `grant_access_if_necessary` |
| ReconcilerClass.DacoClient.CatchLookup | python/daco_client.py:56-57 | a LookupError becomes its `err_msg` text; other exceptions pass through |
| ReconcilerClass.DacoClient.GrantUser | python/daco_client.py:53-57 | the method follows the specification of `grant_user` |
| ReconcilerClass.DacoClient.GrantUsers | python/daco_client.py:47-51 | the loop keeps the non-empty messages, in order, as specified |
| ReconcilerClass.DacoClient.RevokeAll | python/daco_client.py:148-152 | the method follows the specification of the second branch of `revoke_access_if_necessary` |
| ReconcilerClass.DacoClient.RevokeCloudIfHeld | python/daco_client.py:154-158 | the method follows the specification of the third branch |
| ReconcilerClass.DacoClient.RevokeAccessIfNecessary | python/daco_client.py:140-158 | the method follows the specification of `revoke_access_if_necessary` |
| ReconcilerClass.DacoClient.RevokeUser | python/daco_client.py:81-85 | the method follows the specification of `revoke_user` |
| ReconcilerClass.DacoClient.RevokeUsers | python/daco_client.py:78-79 | the loop keeps the non-empty messages, in order, as specified |
| ReconcilerClass.DacoClient.GetEgoUsers | python/daco_client.py:69-70 | the loop maps every id to its desired user |
| ReconcilerClass.DacoClient.Revoke | python/daco_client.py:59-67 | a fetch failure gives a one-message list; otherwise the result is the revoke pass |
| ReconcilerClass.DacoClient.UpdateEgo | python/daco_client.py:23-34 | the grant pass, then the revoke pass, as specified |
| ReconcilerProofs.CountSemantics | python/daco_client.py:36-40 | a new category is appended with count 1 and the given error flag; a known one is incremented and keeps its flag; the others are untouched |
| ReconcilerProofs.ErrorCategories | python/daco_client.py:44 | the error categories are exactly the counted categories flagged as errors |
| ReconcilerProofs.ErrorLinesFollowCategories | python/daco_client.py:44 | there is one error line per error category, in first-count order |
| ReconcilerProofs.ErrorCategoriesDistinct | python/daco_client.py:44 | no error category is reported twice |
| ReconcilerProofs.SummaryMeaning | python/daco_client.py:42-45 | `get_summary` splits the counters: the non-error ones go into the dict, and every error one gets exactly one line |
| ReconcilerProofs.UserMapKeys | python/daco_client.py:20 | the map has a key for each user's lower-cased e-mail and no other key |
| ReconcilerProofs.UserMapLastWins | python/daco_client.py:20 | a later user with the same lower-cased e-mail replaces an earlier one |
| ReconcilerProofs.UniqueIffLastEqual | python/daco_client.py:135-137 | a user is unique exactly when it equals the last listed user with its e-mail, and that last user is always unique |
| ReconcilerProofs.GrantChecksInOrder | python/daco_client.py:87-107 | duplicate, then bad e-mail, then invalid are checked in that order, each counted with its warning; otherwise the account check is the next call |
| ReconcilerProofs.CallsOnlyGrow | python/daco_client.py:111-133 | `existing_user` only appends to the service's call log |
| ReconcilerProofs.IsMemberOk | python/tests/mock_ego_client.py:30-32 | without failures, `is_member` answers the membership and logs the call |
| ReconcilerProofs.AddOk | python/tests/mock_ego_client.py:43-46 | without failures, `add` puts the user in the group and changes nothing for anyone else |
| ReconcilerProofs.RemoveOk | python/tests/mock_ego_client.py:48-51 | without failures, `remove` takes the user out of the group and changes nothing for anyone else |
| ReconcilerProofs.RevokeAccessEffect | python/daco_client.py:140-158 | without failures, the user keeps DACO only if the list grants it, and keeps cloud only if the list grants both |
| ReconcilerProofs.ExistingUserCloudEffect | python/daco_client.py:118-120 | cloud is granted to a cloud-approved user and DACO membership is untouched |
| ReconcilerProofs.GrantUserEffect | python/daco_client.py:53-57 | without failures, an eligible user ends in the DACO group, and in the cloud group when approved; an ineligible one is untouched |
| ReconcilerProofs.GrantStep | python/daco_client.py:50-51 | the grant pass's facts extend over one more user |
| ReconcilerProofs.GrantUsersEffect | python/daco_client.py:47-51 | without failures, the grant pass succeeds and its facts hold for all users |
| ReconcilerProofs.RevokeUsersEffect | python/daco_client.py:78-85 | without failures, the revoke pass succeeds. Each visited user keeps exactly the access the list grants; unvisited e-mails are untouched |
| ReconcilerProofs.DedupMembers | python/daco_client.py:171-173 | the union of the two groups holds each member once |
| ReconcilerProofs.UserMapValues | python/daco_client.py:20 | every mapped user is a listed user, stored under its own lower-cased e-mail |
| ReconcilerProofs.EligibleIsMapped | python/daco_client.py:72-76 | an eligible user is what `get_user` returns for its e-mail |
| ReconcilerProofs.VisitedKeepIds | python/daco_client.py:66-70 | the revoke pass visits users whose e-mails are exactly the fetched ids |
| ReconcilerProofs.BothPasses | python/daco_client.py:33-34 | after both passes, group members are approved for their group; cloud members are also DACO members; every eligible approved user is in its groups |
| ReconcilerProofs.UpdateEgoConverges | python/daco_client.py:23-34 | with no failures, `update_ego` leaves the groups in line with the lists, as above |
| ReconcilerProofs.ExistingUserReports | python/daco_client.py:111-133 | the message and counter follow which of DACO and cloud were granted |
| ReconcilerProofs.PartialGrantNotCounted | python/daco_client.py:111-130 | if granting cloud fails after DACO was granted, the DACO grant stays but is not counted; the cloud failure is counted, wrapped and reported |
| ReconcilerProofs.WrappedFailureReport | python/daco_client.py:56-57 | a wrapped failure becomes one error line, unless its cause has one argument, in which case formatting raises |
| ReconcilerProofs.AccountCheckFailureEndsRun | python/daco_client.py:103 | a failing account check is not wrapped, so its exception ends the whole run |
| ReconcilerProofs.RevokeCountedBeforeRemoval | python/daco_client.py:148-152 | `revoke_daco` is counted before the removal, so a failed removal is counted both as a revocation and as an error |
| ReconcilerProofs.RevokeAccessReports | python/daco_client.py:140-158 | per branch: the exact service calls, the message and the counter of `revoke_access_if_necessary` |
| ReconcilerProofs.RevokeFetchFailure | python/daco_client.py:59-64 | a failed fetch gives one error message, counts nothing and changes no group |
| LegacyService.Without | daco_client.py:116 | removing a holder deletes every occurrence and keeps the others |
| LegacyService.Client.constructor | daco_client.py:19 | the service starts with the given holders, accounts and failures, and no calls |
| LegacyService.Client.GetDacoUsers | daco_client.py:95 | the method follows the specification of `get_daco_users` |
| LegacyService.Client.CreateUser | daco_client.py:109 | the method follows the specification of `create_user` |
| LegacyService.Client.EnsureAccess | daco_client.py:130 | the method follows the specification of `ensure_access` |
| LegacyService.Client.RevokeAccess | daco_client.py:116 | the method follows the specification of `revoke_access` |
| LegacyService.Client.RevokeCloud | daco_client.py:123 | the method follows the specification of `revoke_cloud` |
| LegacyReconciler.Minus | daco_client.py:51-58 | the key difference keeps the order, drops exactly the removed keys and keeps distinctness |
| LegacyReconciler.InvalidUsers | daco_client.py:51-52 | the invalid users are the cloud users that are not DACO users |
| LegacyReconciler.ValidDacoUsers | daco_client.py:54-55 | removing the invalid users from the DACO users removes nobody |
| LegacyReconciler.MinusNothing | daco_client.py:54-55 | removing a disjoint set changes nothing |
| LegacyReconciler.ValidCloudUsers | daco_client.py:57-58 | the valid cloud users are the cloud users that are also DACO users |
| LegacyReconcilerProofs.SuccessMessagesAreNotErrors | daco_client.py:100-136 | only `err` writes lines that start with `Error: ` |
| LegacyReconcilerProofs.WrappersLogOnce | daco_client.py:107-136 | each wrapper makes its call and logs exactly one line, which is an error exactly when the call raises |
| LegacyReconcilerProofs.GetUserNameMeaning | daco_client.py:60-66 | the name is looked up; a missing one gives `None` and one error line |
| LegacyReconcilerProofs.GetEgoUsersMeaning | daco_client.py:90-98 | the holders are returned; a failure gives `[]` and one error line |
| LegacyReconcilerProofs.HandleAccessAllowedCalls | daco_client.py:72-77 | the exact calls: fetch, create if absent (or if the fetch failed), then ensure access with the cloud flag |
| LegacyReconcilerProofs.HandleAccessDeniedCalls | daco_client.py:80-84 | a non-DACO user loses all access; a DACO user without cloud loses cloud; anyone else is untouched |
| LegacyReconcilerProofs.RevokeInvalidEffect | daco_client.py:35-36 | without failures, the invalid users lose all access and the log gains no error |
| LegacyReconcilerProofs.AllowAllEffect | daco_client.py:43-44 | without failures, every valid DACO user holds access and cloud follows the cloud list |
| LegacyReconcilerProofs.AllowedUserEffect | daco_client.py:72-77 | one step of the allow loop, as above |
| LegacyReconcilerProofs.DenyAllEffect | daco_client.py:47-48 | without failures, holders leave the DACO list or lose cloud as the lists say |
| LegacyReconcilerProofs.UpdateEgoConverges | daco_client.py:25-49 | with no failures, the holders are exactly the DACO users; cloud holders are exactly DACO ∩ cloud; the issues are the log |
| LegacyReconcilerClass.DacoClient.constructor | daco_client.py:2-23 | the client holds the two key lists, the names and the service, and starts with an empty log |
| LegacyReconcilerClass.DacoClient.Log | daco_client.py:100-101 | the message is appended to the issues log |
| LegacyReconcilerClass.DacoClient.Err | daco_client.py:103-104 | the error line is appended to the issues log |
| LegacyReconcilerClass.DacoClient.GetUserName | daco_client.py:60-66 | the method follows the specification of `get_user_name` |
| LegacyReconcilerClass.DacoClient.GetEgoUsers | daco_client.py:90-98 | the method follows the specification of `get_ego_users` |
| LegacyReconcilerClass.DacoClient.CreateUser | daco_client.py:107-112 | the method follows the specification of `create_user` |
| LegacyReconcilerClass.DacoClient.RevokeAccess | daco_client.py:114-119 | the method follows the specification of `revoke_access` |
| LegacyReconcilerClass.DacoClient.RevokeCloud | daco_client.py:121-126 | the method follows the specification of `revoke_cloud` |
| LegacyReconcilerClass.DacoClient.EnsureAccess | daco_client.py:128-136 | the method follows the specification of `ensure_access` |
| LegacyReconcilerClass.DacoClient.HandleAccessAllowed | daco_client.py:72-77 | the method follows the specification of `handle_access_allowed` |
| LegacyReconcilerClass.DacoClient.HandleAccessDenied | daco_client.py:80-84 | the method follows the specification of `handle_access_denied` |
| LegacyReconcilerClass.DacoClient.HandleInvalidUser | daco_client.py:87-88 | the method follows the specification of `handle_invalid_user` |
| LegacyReconcilerClass.DacoClient.RevokeInvalid | daco_client.py:35-36 | the loop follows the specification of the invalid-user loop |
| LegacyReconcilerClass.DacoClient.AllowAll | daco_client.py:43-44 | the loop follows the specification of the allow loop |
| LegacyReconcilerClass.DacoClient.DenyAll | daco_client.py:47-48 | the loop follows the specification of the deny loop |
| LegacyReconcilerClass.DacoClient.UpdateEgo | daco_client.py:25-49 | the method follows the specification of `update_ego` and returns the issues log |
| EgoCache.CloudOnly | python/ego_client.py:19 | the cloud policies that are not DACO policies, and only those |
| EgoCache.AllPolicies | python/ego_client.py:19 | `all_policies` is the union of the DACO and cloud policies |
| EgoCache.ExactMatches | python/ego_client.py:51-52 | exactly the items whose field equals the value; a missing field raises KeyError |
| EgoCache.FieldSearch | python/ego_client.py:43-56 | one GET is logged; success means the search answered, matched something, and some item matches exactly; the result is non-empty and all exact matches |
| EgoCache.LowerField | python/ego_client.py:77 | the set of lower-cased field values; a missing field raises |
| EgoCache.SplitName | python/ego_client.py:128 | `rpartition(" ")`: the last space splits the name; without a space, first is empty and last is the whole name |
| EgoCache.CreatePolicyMapErrorStops | python/ego_client.py:219-224 | a failed policy lookup ends the map's construction |
| EgoCache.CreatePermissionMapErrorStops | python/ego_client.py:92-96 | a failed users lookup ends the map's construction |
| EgoCache.UnionOverErrorStops | python/ego_client.py:113-116 | a missing policy ends the union |
| EgoCache.GrantEachErrorStops | python/ego_client.py:150-155 | a failed grant ends the grant loop |
| EgoCache.RevokeEachErrorStops | python/ego_client.py:181-185 | a failed revocation ends the revoke loop |
| EgoCache.CreatePermissionMapStep | python/ego_client.py:92-96 | one more policy stores its users, or raises |
| EgoCache.CreatePolicyMapStep | python/ego_client.py:219-224 | one more policy stores its id, or raises (also when `id` is missing) |
| EgoCacheProofs.GetPolicyLookups | python/ego_client.py:61-66 | looking a policy up grants and revokes nothing and keeps the caches |
| EgoCacheProofs.CreatePolicyMapLookups | python/ego_client.py:215-224 | building the policy map only looks things up |
| EgoCacheProofs.GetPolicyIdLookups | python/ego_client.py:204-211 | the id comes from the policy map, which is now cached |
| EgoCacheProofs.GetUserMapLookups | python/ego_client.py:195-202 | the user map, once built, is cached and reused |
| EgoCacheProofs.UserIdLookups | python/ego_client.py:187-189 | the id is the user map's entry for the lower-cased name |
| EgoCacheProofs.GetPolicyUsersLookups | python/ego_client.py:68-77 | reading a policy's users only looks things up |
| EgoCacheProofs.CreatePermissionMapEffect | python/ego_client.py:92-96 | the built map has exactly the listed policies as keys |
| EgoCacheProofs.GetPermissionMapEffect | python/ego_client.py:87-90 | the permission map covers exactly `all_policies` and is cached; nothing is granted or revoked |
| EgoCacheProofs.PolicyCovered | python/ego_client.py:87-90 | every policy has an entry in the cached map |
| EgoCacheProofs.PermissionMapReused | python/ego_client.py:88 | a cached map is returned with no request (an empty one is rebuilt: `not {}` holds) |
| EgoCacheProofs.AllHeldMeaning | python/ego_client.py:138-142 | `has_policies` holds exactly when the user is in every listed policy's set |
| EgoCacheProofs.HasPoliciesMeaning | python/ego_client.py:144-148 | `has_daco` and `has_cloud` test the lower-cased user against every DACO or cloud policy |
| EgoCacheProofs.UnionOverMeaning | python/ego_client.py:113-116 | the union holds exactly the users of some listed policy |
| EgoCacheProofs.GetDacoUsersMeaning | python/ego_client.py:110-116 | `get_daco_users` is every user holding some DACO or cloud policy |
| EgoCacheProofs.GrantPermissionsEffect | python/ego_client.py:164-167 | one READ grant is posted for the policy's id and the user's id; nothing else changes |
| EgoCacheProofs.GrantEachStep | python/ego_client.py:152-155 | one more policy: skipped if held, else granted and added to the cached set |
| EgoCacheProofs.GrantEachLast | python/ego_client.py:152-155 | the grant facts extend over the last policy |
| EgoCacheProofs.GrantEachEffect | python/ego_client.py:150-162 | on success, the user is added to each policy's set, with one grant posted per missing policy |
| EgoCacheProofs.GrantEachAlreadyHeld | python/ego_client.py:153 | a user holding every policy causes no request at all |
| EgoCacheProofs.RevokePolicyEffect | python/ego_client.py:175-179 | a DELETE is sent exactly when the user holds the policy |
| EgoCacheProofs.RevokeEachStep | python/ego_client.py:183-185 | one more policy: revoked, then discarded from the cached set |
| EgoCacheProofs.RevokeEachLast | python/ego_client.py:183-185 | the revoke facts extend over the last policy |
| EgoCacheProofs.RevokeEachEffect | python/ego_client.py:181-185 | on success, the user is removed from each policy's set, with one DELETE per held policy |
| EgoCacheProofs.GrantPoliciesEffect | python/ego_client.py:150-162 | the whole grant: nothing is sent if everything is held; otherwise the cache gains the user, one POST per missing policy, and `has_daco`/`has_cloud` answer accordingly |
| EgoCacheProofs.RevokePoliciesEffect | python/ego_client.py:169-185 | the whole revocation: the cache loses the user, one DELETE per held policy, and `has_daco`/`has_cloud` answer accordingly |
| EgoCacheProofs.GetPolicyUnique | python/ego_client.py:61-66 | the lookup succeeds exactly when one item matches the name exactly; several raise the "multiple policies" IOError |
| EgoCacheProofs.CachesBuiltOnce | python/ego_client.py:118-121 | each cache, once built, answers again without a request |
| EgoCacheProofs.CreateUserEffect | python/ego_client.py:127-136 | the new account's id is stored under its lower-cased name; an already lower-case user then exists |
| EgoCacheProofs.CreateUserRequest | python/ego_client.py:127-131 | the POST body carries the e-mail, the `rpartition` name parts, the type and `Approved` |
| EgoCacheProofs.CreateUserMixedCaseNotFound | python/ego_client.py:134-135 | as written: after creating `A@x`, `user_exists("A@x")` is still false |
| EgoCacheProofs.CreateUserLoweredFound | python/ego_client.py:134-135 | corrected: after `create_user`, `user_exists(user)` holds |
| EgoClientClass.EgoClient.constructor | python/ego_client.py:5-19 | the client holds the two policy lists and the service, with every cache empty |
| EgoClientClass.EgoClient.FieldSearch | python/ego_client.py:43-56 | the method follows the specification of `_field_search` |
| EgoClientClass.EgoClient.GetPolicy | python/ego_client.py:61-66 | the method follows the specification of `_get_policy` |
| EgoClientClass.EgoClient.CreatePolicyMap | python/ego_client.py:215-224 | the loop follows the specification of `_create_policy_map` |
| EgoClientClass.EgoClient.GetPolicyMap | python/ego_client.py:208-211 | the method follows the specification of `_get_policy_map` |
| EgoClientClass.EgoClient.GetPolicyId | python/ego_client.py:204-206 | the method follows the specification of `_get_policy_id` |
| EgoClientClass.EgoClient.GetPolicyUsers | python/ego_client.py:68-77 | the method follows the specification of `_get_policy_users` |
| EgoClientClass.EgoClient.CreatePermissionMap | python/ego_client.py:92-96 | the loop follows the specification of `_create_permission_map` |
| EgoClientClass.EgoClient.GetPermissionMap | python/ego_client.py:87-90 | the method follows the specification of `_get_permission_map` |
| EgoClientClass.EgoClient.HasPermission | python/ego_client.py:79-81 | the method follows the specification of `_has_permission` |
| EgoClientClass.EgoClient.HasPolicies | python/ego_client.py:138-142 | the loop follows the specification of `has_policies` |
| EgoClientClass.EgoClient.HasDaco | python/ego_client.py:144-145 | the method follows the specification of `has_daco` |
| EgoClientClass.EgoClient.HasCloud | python/ego_client.py:147-148 | the method follows the specification of `has_cloud` |
| EgoClientClass.EgoClient.GetDacoUsers | python/ego_client.py:110-116 | the loop follows the specification of `get_daco_users` |
| EgoClientClass.EgoClient.GetEgoUsers | python/ego_client.py:123-125 | the method follows the specification of `_get_ego_users` |
| EgoClientClass.EgoClient.UserExists | python/ego_client.py:118-121 | the method follows the specification of `user_exists` |
| EgoClientClass.EgoClient.GetUserMap | python/ego_client.py:195-202 | the method follows the specification of `_get_user_map` |
| EgoClientClass.EgoClient.UserId | python/ego_client.py:187-189 | the method follows the specification of `_user_id` |
| EgoClientClass.EgoClient.SetId | python/ego_client.py:191-193 | the method follows the specification of `_set_id` |
| EgoClientClass.EgoClient.CreateUser | python/ego_client.py:127-136 | the method follows the as-written specification of `create_user` |
| EgoClientClass.EgoClient.GrantPermissions | python/ego_client.py:164-167 | the method follows the specification of `_grant_permissions` |
| EgoClientClass.EgoClient.GrantPolicies | python/ego_client.py:150-162 | the loop shared by `grant_daco` and `grant_cloud` follows its specification |
| EgoClientClass.EgoClient.GrantDaco | python/ego_client.py:150-155 | the grant loop runs over the DACO policies |
| EgoClientClass.EgoClient.GrantCloud | python/ego_client.py:157-162 | the grant loop runs over the cloud policies |
| EgoClientClass.EgoClient.RevokePolicy | python/ego_client.py:175-179 | the method follows the specification of `revoke_policy` |
| EgoClientClass.EgoClient.RevokePolicies | python/ego_client.py:181-185 | the loop follows the specification of `revoke_policies` |
| EgoClientClass.EgoClient.RevokeDaco | python/ego_client.py:169-170 | the revoke loop runs over the DACO policies |
| EgoClientClass.EgoClient.RevokeCloud | python/ego_client.py:172-173 | the revoke loop runs over the cloud policies |
| Report.ZeroDefaults | python/report.py:1-4 | the keys are the fields plus the given keys; given values win, and missing fields are 0 |
| Report.Summarize | python/report.py:7-40 | the loop builds the specified summary |
| Report.ReportWarnings | python/report.py:43-65 | the loop builds the warnings as written, including the misspelled-key failure |
| Report.ReportErrors | python/report.py:68-75 | the loop builds one line per error |
| Report.Create | python/report.py:78-84 | the method builds the report as written |
| ReportProofs.SummaryDerivesTotals | python/report.py:8-14 | the nine fields default to 0; `new`, `grant` and `revoke` are the stated sums |
| ReportProofs.NoUpdatesIff | python/report.py:28-30 | "No updates" is printed exactly when every update category is 0 |
| ReportProofs.NoUpdatesIffNoCounts | python/report.py:8-30 | for non-negative counters, "No updates" is printed exactly when all nine fields are 0 |
| ReportProofs.UpdateLineShape | python/report.py:33-36 | a category prints a tab-indented line exactly when its count is non-zero |
| ReportProofs.UpdateLinesEmptyIff | python/report.py:33-36 | no update line is printed exactly when every listed count is 0 |
| ReportProofs.SummaryHasUpdateLines | python/report.py:29-40 | otherwise the summary is the header followed by at least one update line |
| ReportProofs.WarningsEmptyIff | python/report.py:47-48 | corrected: no warnings are printed exactly when the four warning counts are 0 |
| ReportProofs.WarningsAsWrittenAgrees | python/report.py:47 | as written: the text agrees with the corrected one when an earlier disjunct holds; otherwise it raises `KeyError('ego_user_notfound')`, unless that key is present |
| ReportProofs.WarningsMisspelledKey | python/report.py:47 | `{}` and `{"ego_user_not_found": 2}` both raise as written; the corrected version prints nothing for the first and a warning for the second |
| ReportProofs.ErrorLinesAppend | python/report.py:73-74 | error lines distribute over concatenation |
| ReportProofs.ErrorLinesMeaning | python/report.py:68-75 | the error text is empty exactly when there are no errors; it has one newline per one-line error |
| ReportProofs.ReportStartsWithErrors | python/report.py:78-84 | the report starts with the header and the errors; if the run did not happen, that is all |
| ReportProofs.ReportEndsWithSummary | python/report.py:78-84 | a run's report ends with the summary |
| ReportProofs.ReportAsWrittenAgrees | python/report.py:78-84 | as written, `create` raises exactly when the run happened and the warnings raise; otherwise it equals the corrected report |
| LegacyReport.ReportWarnings | report.py:24-41 | the loop builds the specified warnings, raising KeyError for a missing key |
| LegacyReport.ReportErrors | report.py:44-50 | the loop builds the specified error block |
| LegacyReport.Create | report.py:53-58 | the method builds the specified report |
| LegacyReport.InitialCounts | report.py:63-73 | ten counters, each 0 |
| LegacyReport.CountStep | report.py:75-98 | one stripped line is counted, dropped, or kept as an error |
| LegacyReport.Count | report.py:61-100 | the loop builds the specified counters and errors from the log |
| LegacyReportProofs.ClassifyKeys | report.py:76-96 | every counter a line can bump is one of the ten initial ones |
| LegacyReportProofs.FirstRuleRoutes | report.py:76-98 | the first matching test decides the route; unmatched lines are errors |
| LegacyReportProofs.CountKeys | report.py:61-100 | `count` never adds a key, never goes negative, and keeps at most one error per line |
| LegacyReportProofs.CountLineKeys | report.py:75-98 | one line keeps the ten keys and non-negative counts |
| LegacyReportProofs.SumOverBump | report.py:78-96 | bumping one of the counters raises their sum by one |
| LegacyReportProofs.CountConserves | report.py:74-98 | every log line is counted once, kept as an error once, or dropped |
| LegacyReportProofs.CountLineConserves | report.py:75-98 | the same, for one line |
| LegacyReportProofs.Routes | report.py:74-98 | one route per log line |
| LegacyReportProofs.NoDroppedIff | report.py:81-82 | a line is dropped exactly when its route is `Dropped` |
| LegacyReportProofs.CountBound | report.py:74-98 | counters plus errors never exceed the lines, and equal them exactly when no line is dropped |
| LegacyReportProofs.CountThenCreate | report.py:53-100 | counting a log and then creating the report never raises |
| LegacyReportProofs.GrantBothFirst | report.py:83-84 | "Granted daco and cloud" lines count as both, not as a DACO grant |
| LegacyReportProofs.GrantDacoAfterBoth | report.py:85-86 | other "Granted daco" lines count as DACO grants |
| LegacyReportProofs.RevokedCloudLine | report.py:91-92 | "Revoked cloud" lines count as cloud revocations |
| LegacyReportProofs.UnmarkedIsError | report.py:97-98 | a line matching no test is kept as an error |
| LegacyReportProofs.ReconcilerLinesClassified | report.py:74-98 | the earlier reconciler's "Created account" lines (unless the name ends in a warning suffix), "Revoked all daco access" and "Ensured" lines fall through to the errors; its "Revoked cloud" lines are counted |
| LegacyReportProofs.RevokedIsError | report.py:89-98 | a "Revoked all daco access" line is kept as an error |
| LegacyReportProofs.EnsuredIsError | report.py:74-98 | an "Ensured" line is kept as an error |
| LegacyReportProofs.RevokedCloudCounted | report.py:91-92 | a "Revoked cloud access" line counts as a cloud revocation |
| LegacyReportProofs.SummaryDerivesTotals | report.py:1-9 | the eight fields default to 0; `new`, `grant` and `revoke` are the stated sums (`revoke` adds cloud, not DACO, revocations) |
| LegacyReportProofs.WarningsGuardRaises | report.py:25 | the guard raises only the KeyError of the first missing key it reads, and never when all three keys are present |
| LegacyReportProofs.WarningsEmptyIff | report.py:25-26 | no warnings are printed exactly when the three keys are present and 0 |
| LegacyReportProofs.ErrorItemsLines | report.py:48-49 | one newline per one-line error |
| LegacyReportProofs.ErrorsTextMeaning | report.py:44-50 | the block is empty exactly when there are no errors; otherwise it has one more newline than errors |
| LegacyReportProofs.ReportLayout | report.py:53-58 | the report raises exactly when the warnings do; otherwise it starts with the header and errors and ends with the summary |

## Left out

- HTTP, JSON, OAuth, CSV decoding and AES decryption are not modelled. The group service, the Ego REST service and the earlier access service are in-memory doubles that take a fixed table of failing calls. The CSV rows arrive already split into fields.
- The `main`, `read_config`, `init` and `send_report` entry points of both `daco2ego.py` files, and `Reporter.send` in python/slack.py, are I/O wiring. The root `daco2ego.py` main calls `create` with three arguments, while the root `report.py` `create` takes two. It also passes `{}` as counts, which would raise `KeyError('multiple_entries')` in the guard (`LegacyReportProofs.WarningsGuardRaises` shows this).
- The root `ego_client.py` is not part of this model. Its calls are represented by the earlier access service double.
- In the group service double, a call that raises changes no membership. The test mock applies the change before it raises, and its `remove` appends instead of removing. The mock's `user_exists` (python/tests/mock_ego_client.py:34-41) answers from group membership, while the double's `user_exists` answers from a separate set of accounts, so a user with an account but no group is found by the double and not by the mock. The model follows the service's intended meaning instead.
- Python set iteration order is not reproducible. Where the source loops over a set (`fetch_ego_ids`, `all_policies`, the earlier reconciler's key views), the model uses a fixed order: the first operand's order, then the new elements of the second. Every property stated about these loops is independent of that choice.
- `str` and `repr` of Python values are approximated. A string's repr is single-quoted without escaping. Other objects (the `requests` response carried by an IOError, for instance) are opaque values with fixed `str` and `repr` texts. `User.__repr__` is not modelled.
- LegacyDesiredState.CsvToDict: rows are maps from column to text, so a short row, whose missing trailing fields `csv.DictReader` fills with `None`, cannot be represented. A missing column is modelled as a KeyError, as when the header lacks it.
- `IOError` is another name for `OSError` in Python 3, so the class name the model gives the Ego client's exceptions is "OSError".
- `str.lower` is modelled on ASCII letters only; there is no Unicode case folding.
- `ego_user_not_found` in python/daco_client.py (lines 186-193) is never called, and its `try` cannot raise, so it is not modelled.
- The `except KeyError` in python/report.py `summarize` (lines 37-38) cannot trigger, because every formatted key is defaulted. The model omits it.
- The `print` calls (python/daco2ego.py line 37, the root `report.py` line 82 "mrap", the mock's `user_exists`) write to the console only. The dropped "Created user" line of the earlier `count` is kept as the `Dropped` route.
- Counters are unbounded integers, as in Python. `format` prints them in decimal.
- Concurrency and retries (the `retry_oauth` decorator) are outside the core.

## Findings

| source | as written | input that shows it | evidently intended | confidence | as-written member | corrected member |
|---|---|---|---|---|---|---|
| python/ego_client.py:134-135 | `create_user` adds `user` to the account set without lower-casing it, while `user_exists` looks up `user.lower()` | create `"A@x"` with an empty account set; `user_exists("A@x")` is then false | add `user.lower()`, so that a created user exists | high, not executed | EgoCacheProofs.CreateUserMixedCaseNotFound | EgoCacheProofs.CreateUserLoweredFound |
| python/report.py:47 | the guard reads `counts['ego_user_notfound']`, a key that `zero_defaults` never sets | counts `{}` raise `KeyError('ego_user_notfound')`; counts `{"ego_user_not_found": 2}` raise too, though a warning is due | read `'ego_user_not_found'` | high, not executed | ReportProofs.WarningsMisspelledKey | ReportProofs.WarningsEmptyIff |
