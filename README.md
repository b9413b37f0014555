# Issue and quality-profile changelogs, modelled in Dafny

This project models two pieces of SonarQube's server that assemble change history:

- **The issue "show" web service** (`IssueShowWsHandler`). Given an issue key, it asks the issue finder for the issue. Exactly one issue must come back, otherwise the request fails with `NotFound` and nothing is written. It then writes the issue's fields, the workflow transitions open to the user, the actions the user may take, the comments, and the changelog. The changelog starts with a synthetic "created" entry, followed by one entry per recorded change.
- **The quality-profile changelog action** (`ChangelogAction`), as its test class fixes its behaviour. The profile is resolved first; an unknown profile fails with `NotFound`. The caller's day-granular `since`/`to` dates become the half-open storage range `[fromIncluded, toExcluded)`, which makes `to` inclusive. The loader's `Changelog(total, changes)` is returned as it is.

Modules:

- `Wrappers` (`wrappers.dfy`): `Option` (a Java `null`) and `Result` (an exception).
- `IssueTypes` (`issue_types.dfy`): the issue, comment, change and session values; the collaborators as function-valued fields; the records written to the response.
- `IssueShow` (`issue_show.dfy`): the handler. The null-guarded property computations are functions. The parts that build a list or append to the response in a loop are methods: `Actions`, `WriteTransitions`, `WriteComments` and `WriteChangelog`, whose inner loop appends the diffs. Each method is proved equal to a specification function, and the listed properties are proved about those functions.
- `ProfileChangelog` (`profile_changelog.dfy`): the `Change` value, the date-bound translation and the action.

Collaborators and ambient state are explicit inputs:

- The issue finder is a function from the key to an `IssueQueryResult`.
- The transitions, action and changelog services, `formatDiffs`, i18n, `DateUtils.formatDateTime`, the markdown converter, the debt formatter and the debt manager are function fields of `Services`.
- The user session is a `Session` value holding the login, the locale and the project permissions.
- For the profile changelog, the profile lookup, the loader and start-of-day are function parameters. Start-of-day is only assumed to be strictly increasing in the day number.
- The JSON stream is an `IssueView` record, one field per section, in the order they are written. An absent `Option` field stands for the `null` the handler hands to the JSON writer.

## Model

| member | source | states |
|---|---|---|
| `IssueShow.Handle` | sonar-server/src/main/java/org/sonar/server/issue/ws/IssueShowWsHandler.java:78-97 | fails with `NotFound("Issue not found: " + key)` exactly when the finder does not return exactly one issue, writing nothing; otherwise writes the issue's fields, transitions, actions, comments and changelog as their specification functions define them |
| `IssueShow.WriteIssue` | sonar-server/src/main/java/org/sonar/server/issue/ws/IssueShowWsHandler.java:99-138 | the message is the issue's own message when present, else the rule name; component, project, debt, action-plan name, update and close dates are present exactly when their source value is, and then hold the looked-up name, the formatted debt or the formatted date; the localised dates are `FormatDate`/`FormatAgeDate` of the issue's dates; assignee/reporter are `AddUserWithLabel` of the issue's values; characteristics are `AddCharacteristics` of the issue's rule; the other fields pass the issue's values through |
| `IssueShow.AddCharacteristics` | sonar-server/src/main/java/org/sonar/server/issue/ws/IssueShowWsHandler.java:140-149 | characteristic fields are written only when a requirement exists; `characteristic` holds the root characteristic's name and `subCharacteristic` the parent's, each present exactly when that characteristic is found |
| `IssueShow.AddUserWithLabel` | sonar-server/src/main/java/org/sonar/server/issue/ws/IssueShowWsHandler.java:242-249 | nothing is written for an absent value; otherwise the login and, exactly when the user is known, that user's name |
| `IssueShow.FormatDate` | sonar-server/src/main/java/org/sonar/server/issue/ws/IssueShowWsHandler.java:251-257 | null in, null out; a present date is formatted with the session locale |
| `IssueShow.FormatAgeDate` | sonar-server/src/main/java/org/sonar/server/issue/ws/IssueShowWsHandler.java:259-265 | null in, null out; a present date becomes its localised age |
| `IssueShow.WriteTransitions` | sonar-server/src/main/java/org/sonar/server/issue/ws/IssueShowWsHandler.java:151-160 | empty for an anonymous user; otherwise the keys of the service's transitions, one per transition, in the service's order |
| `IssueShow.Actions` | sonar-server/src/main/java/org/sonar/server/issue/ws/IssueShowWsHandler.java:170-192 | the list built step by step equals the offered built-in actions in fixed order followed, on an unresolved issue with a login, by the plugin action keys |
| `IssueShow.OfferedMembers` | sonar-server/src/main/java/org/sonar/server/issue/ws/IssueShowWsHandler.java:173-185 | a built-in action is in the list exactly when the rules offer it (login; resolution; assignee; ISSUE_ADMIN on a non-null project) |
| `IssueShow.OfferedBuiltIns` | sonar-server/src/main/java/org/sonar/server/issue/ws/IssueShowWsHandler.java:175-185 | the built-in part is comment, assign, assign_to_me, plan, set_severity, each kept only when offered, in that order |
| `IssueShow.AnonymousGetsNoActions` | sonar-server/src/main/java/org/sonar/server/issue/ws/IssueShowWsHandler.java:173-174 | with no login the action list is empty |
| `IssueShow.CommentComesFirst` | sonar-server/src/main/java/org/sonar/server/issue/ws/IssueShowWsHandler.java:174-175 | with a login the list is non-empty and starts with "comment" |
| `IssueShow.ResolvedIssueOnlyComment` | sonar-server/src/main/java/org/sonar/server/issue/ws/IssueShowWsHandler.java:175-176 | with a login on a resolved issue the list is exactly `["comment"]` |
| `IssueShow.UnresolvedIssueActions` | sonar-server/src/main/java/org/sonar/server/issue/ws/IssueShowWsHandler.java:176-189 | with a login on an unresolved issue: comment, assign, assign_to_me iff the login differs from the assignee, plan, set_severity iff the project key is set and the user is ISSUE_ADMIN on it, then the plugin keys in the service's order |
| `IssueShow.ActionKeys` | sonar-server/src/main/java/org/sonar/server/issue/ws/IssueShowWsHandler.java:186-188 | one key per plugin action, in the service's order |
| `IssueShow.WriteComment` | sonar-server/src/main/java/org/sonar/server/issue/ws/IssueShowWsHandler.java:197-208 | a comment is updatable exactly when a login exists and equals the comment's author login; the author name is present exactly when the author is set and known, and is then that user's name; html, creation date and age are the converted markdown and formatted dates |
| `IssueShow.WriteCommentAsWritten` | sonar-server/src/main/java/org/sonar/server/issue/ws/IssueShowWsHandler.java:202 | as written, the handler fails exactly on a comment whose author the query result does not know, and otherwise agrees with `WriteComment` |
| `IssueShow.UnknownCommentAuthor` | sonar-server/src/main/java/org/sonar/server/issue/ws/IssueShowWsHandler.java:202 | a comment by an unknown user makes the as-written code fail, while the null-guarded version writes it without a name |
| `IssueShow.WriteComments` | sonar-server/src/main/java/org/sonar/server/issue/ws/IssueShowWsHandler.java:194-211 | one comment object per comment of the issue, in order, each with its key and the updatable flag of its author |
| `IssueShow.CreatedEntry` | sonar-server/src/main/java/org/sonar/server/issue/ws/IssueShowWsHandler.java:214-221 | the synthetic entry carries the issue's creation date and exactly one diff, the localised "created" message, and no author |
| `IssueShow.ChangeEntry` | sonar-server/src/main/java/org/sonar/server/issue/ws/IssueShowWsHandler.java:224-237 | a change's entry carries that change's formatted diffs in order and its date; the author name is present exactly when the changelog knows the user, and is then that user's name; the localised date is the i18n format of the change date |
| `IssueShow.WriteChangelog` | sonar-server/src/main/java/org/sonar/server/issue/ws/IssueShowWsHandler.java:213-240 | the first entry is the synthetic one; it is followed by exactly one entry per recorded change in service order, and each entry's diffs equal `formatDiffs` of that change |
| `ProfileChangelog.NewChange` | server/sonar-server/src/test/java/org/sonar/server/qualityprofile/ws/ChangelogActionTest.java:82-83 | a change is built from id, action and date with the six other fields allowed to be absent, and starts with no params |
| `ProfileChangelog.PutParam` | server/sonar-server/src/test/java/org/sonar/server/qualityprofile/ws/ChangelogActionTest.java:95-96 | a parameter put after construction holds its value; the other parameters and fields are kept |
| `ProfileChangelog.TwoParamsAfterConstruction` | server/sonar-server/src/test/java/org/sonar/server/qualityprofile/ws/ChangelogActionTest.java:94-96 | after putting `foo` and `bar` the params are exactly those two entries |
| `ProfileChangelog.FromIncluded` | server/sonar-server/src/test/java/org/sonar/server/qualityprofile/ws/ChangelogActionTest.java:111-117 | `since = D` gives `fromIncluded` = start of D; no `since` gives no lower bound |
| `ProfileChangelog.ToExcluded` | server/sonar-server/src/test/java/org/sonar/server/qualityprofile/ws/ChangelogActionTest.java:112-118 | `to = D` gives `toExcluded` = start of D + 1; no `to` gives no upper bound |
| `ProfileChangelog.QueryFor` | server/sonar-server/src/test/java/org/sonar/server/qualityprofile/ws/ChangelogActionTest.java:109-118 | both bounds of the loader's query are derived from the request (the query's profile key is an inference, see below) |
| `ProfileChangelog.SinceIsInclusive` | server/sonar-server/src/test/java/org/sonar/server/qualityprofile/ws/ChangelogActionTest.java:111-117 | an event exactly at the start of the `since` day is in range; one just before it is not |
| `ProfileChangelog.ToIsInclusive` | server/sonar-server/src/test/java/org/sonar/server/qualityprofile/ws/ChangelogActionTest.java:112-118 | every instant of the `to` day is in range; the first instant of the next day is not |
| `ProfileChangelog.InRangeIffDayRequested` | server/sonar-server/src/test/java/org/sonar/server/qualityprofile/ws/ChangelogActionTest.java:109-118 | an instant of day d is in `[fromIncluded, toExcluded)` exactly when `since <= d <= to`, for any strictly increasing start-of-day |
| `ProfileChangelog.SameDayRange` | server/sonar-server/src/test/java/org/sonar/server/qualityprofile/ws/ChangelogActionTest.java:109-118 | with `since == to == D` the range is non-empty and covers exactly day D |
| `ProfileChangelog.Handle` | server/sonar-server/src/test/java/org/sonar/server/qualityprofile/ws/ChangelogActionTest.java:121-126 | succeeds exactly when the profile resolves; an unknown profile fails with the resolver's `NotFound`; on success the loader's changelog for the profile's query is returned unchanged |
| `ProfileChangelog.EmptyChangelogIsSuccess` | server/sonar-server/src/test/java/org/sonar/server/qualityprofile/ws/ChangelogActionTest.java:71-76 | a loader result of total 0 with no changes is a success, not an error |
| `ProfileChangelog.TotalIsPassedThrough` | server/sonar-server/src/test/java/org/sonar/server/qualityprofile/ws/ChangelogActionTest.java:80-88 | a total of 10 with two changes is a success carrying total 10 and both changes |

## Findings

| source | as written | input that shows it | evidently intended | confidence | as-written member | corrected member |
|---|---|---|---|---|---|---|
| sonar-server/src/main/java/org/sonar/server/issue/ws/IssueShowWsHandler.java:202 | the comment author's name is read as `queryResult.user(userLogin).name()` with no check that the user was found | a comment whose author login is `marcel` while the query result holds no user `marcel` | the comment is written without a `userName`, as is done for change authors (line 228) and for the assignee and reporter (line 247) | low: whether the finder can omit a comment author is not visible; not executed | `IssueShow.WriteCommentAsWritten` | `IssueShow.WriteComment` |

`IssueShow.UnknownCommentAuthor` exhibits the failing input. `IssueShow.Handle` and `IssueShow.WriteComments` use the corrected, null-guarded comment.

## Left out

- The JSON writer is not modelled. The response is a record whose fields are the sections in the order the handler writes them, and `writeActions` is the `actions` list placed in that record. Whether the writer omits a `null` property or writes it is not modelled.
- `isLoggedIn()` is modelled as "the session has a login". The `UserSession` internals are not part of this model.
- `hasProjectPermission` is modelled as membership in a per-project permission set. The permission model is not part of this model.
- `IssueTypes.IssueAdmin` carries the value of `UserRole.ISSUE_ADMIN`. `UserRole` is not part of this model.
- `result.rule(issue)` (line 101) and `result.actionPlan(issue)` (line 126) are dereferenced without a null check. The model takes both lookups as always succeeding, so it does not model the failure when either is missing.
- The internals of `formatDiffs`, i18n, `DateUtils.formatDateTime`, `Markdown.convertToHtml`, `TechnicalDebtFormatter`, `DefaultTechnicalDebtManager`, the issue finder and the changelog service are opaque functions. Their code is not part of this model.
- The `ChangelogAction` implementation is not part of this model. `ProfileChangelog.Handle` models what its test class asserts (the lookup, the bounds, the loader call and the pass-through) plus one inference, stated next.
- ProfileChangelog.QueryFor: the query's profile key being the resolved profile's key is inferred, not asserted. The test stubs the loader with any query and checks only the two bounds of the captured one.
- IssueShow.Handle: the failure when the request has no `key` parameter (`requiredParam`, line 80) is not modelled; the model takes the key as given.
- IssueShow.Handle: fails exactly when the finder does not return one issue only in the corrected model. The handler as written also fails on a comment whose author the query result does not know (line 202); see "Findings".
- Paging parameters of the profile changelog and the exact response field names are left out. The `changelog_*.json` expectations are not part of this model.
- Rejecting `since` after `to` and rejecting malformed dates are left out. No visible code asserts either.
- Date parsing and the calendar behind start-of-day are left out. Start-of-day is an abstract strictly increasing function, and no fixed day length is assumed.
- The loader's own filtering and its newest-first ordering are left out. The loader's code is not part of this model; the action only passes its result through.
- Insertion order of a change's params is not modelled: params are a `map`. In-place mutation of the params map is modelled as building a new `Change` value with `PutParam`.
