/**
 * The issue "show" web service (IssueShowWsHandler): finds one issue by key
 * and writes its fields, transitions, actions, comments and changelog.
 * The pure property computations are functions; the parts that build a list
 * or append to the response in a loop are methods proved against them.
 */
module IssueShow {
  import opened Wrappers
  import opened IssueTypes

  // ---------------------------------------------------------------------------
  // Null-guarded properties of the "issue" object
  // ---------------------------------------------------------------------------

  /** formatDate: null in, null out; otherwise the localised date-time. */
  function FormatDate(i18n: I18n, locale: Locale, date: Option<Date>): (r: Option<string>)
    ensures r.Some? <==> date.Some?
    ensures date.Some? ==> r.value == i18n.formatDateTime(locale, date.value)
  {
    if date.Some? then Some(i18n.formatDateTime(locale, date.value)) else None
  }

  /** formatAgeDate: null in, null out; otherwise the localised age from now. */
  function FormatAgeDate(i18n: I18n, locale: Locale, date: Option<Date>): (r: Option<string>)
    ensures r.Some? <==> date.Some?
    ensures date.Some? ==> r.value == i18n.ageFromNow(locale, date.value)
  {
    if date.Some? then Some(i18n.ageFromNow(locale, date.value)) else None
  }

  /** addUserWithLabel: nothing is written for an absent user; otherwise the
      login, and the user's name when the query result knows the user. */
  function AddUserWithLabel(result: IssueQueryResult, value: Option<string>): (r: Option<UserLabel>)
    ensures r.Some? <==> value.Some?
    ensures r.Some? ==> r.value.login == value.value
    ensures r.Some? ==> (r.value.name.Some? <==> result.user(value.value).Some?)
    ensures r.Some? && r.value.name.Some? ==> r.value.name.value == result.user(value.value).value.name
  {
    if value.Some? then
      var user := result.user(value.value);
      Some(UserLabel(value.value, if user.Some? then Some(user.value.name) else None))
    else
      None
  }

  function NameOf(characteristic: Option<Characteristic>): (r: Option<string>)
    ensures r.Some? <==> characteristic.Some?
  {
    if characteristic.Some? then Some(characteristic.value.name) else None
  }

  /** addCharacteristics: the two characteristic fields are written only when
      the rule has a requirement (it has none once disabled). */
  function AddCharacteristics(services: Services, rule: Rule): (r: Option<CharacteristicFields>)
    ensures r.Some? <==> services.findRequirementByRule(rule).Some?
    ensures r.Some? ==>
      var requirement := services.findRequirementByRule(rule).value;
      (r.value.characteristic.Some? <==> services.findCharacteristicById(requirement.rootId).Some?) &&
      (r.value.subCharacteristic.Some? <==> services.findCharacteristicById(requirement.parentId).Some?) &&
      (r.value.characteristic.Some? ==>
        r.value.characteristic.value == services.findCharacteristicById(requirement.rootId).value.name) &&
      (r.value.subCharacteristic.Some? ==>
        r.value.subCharacteristic.value == services.findCharacteristicById(requirement.parentId).value.name)
  {
    var requirement := services.findRequirementByRule(rule);
    if requirement.Some? then
      Some(CharacteristicFields(
        NameOf(services.findCharacteristicById(requirement.value.rootId)),
        NameOf(services.findCharacteristicById(requirement.value.parentId))))
    else
      None
  }

  /** writeIssue: the plain properties of the issue object. */
  function WriteIssue(result: IssueQueryResult, issue: Issue, session: Session, services: Services): (r: IssueFields)
    // the message falls back to the rule name
    ensures issue.message.Some? ==> r.message == issue.message.value
    ensures issue.message.None? ==> r.message == result.rule(issue).name
    // null-guarded lookups
    ensures r.componentLongName.Some? <==> result.component(issue).Some?
    ensures r.projectLongName.Some? <==> result.project(issue).Some?
    ensures r.debt.Some? <==> issue.technicalDebt.Some?
    ensures r.actionPlanName.Some? <==> issue.actionPlanKey.Some?
    ensures r.updateDate.Some? <==> issue.updateDate.Some?
    ensures r.closeDate.Some? <==> issue.closeDate.Some?
    // assignee, reporter and characteristics, each present exactly when their helper says
    ensures r.assignee == AddUserWithLabel(result, issue.assignee)
    ensures r.reporter == AddUserWithLabel(result, issue.reporter)
    ensures r.characteristics == AddCharacteristics(services, result.rule(issue))
    // the values behind the guards
    ensures r.componentLongName.Some? ==> r.componentLongName.value == result.component(issue).value.longName
    ensures r.componentQualifier.Some? <==> result.component(issue).Some?
    ensures r.componentQualifier.Some? ==> r.componentQualifier.value == result.component(issue).value.qualifier
    ensures r.projectLongName.Some? ==> r.projectLongName.value == result.project(issue).value.longName
    ensures r.debt.Some? ==> r.debt.value == services.formatDebt(session.locale, issue.technicalDebt.value)
    ensures r.actionPlanName.Some? ==> r.actionPlanName.value == result.actionPlan(issue).name
    ensures r.updateDate.Some? ==> r.updateDate.value == services.formatDateTime(issue.updateDate.value)
    ensures r.closeDate.Some? ==> r.closeDate.value == services.formatDateTime(issue.closeDate.value)
    ensures r.creationDate == services.formatDateTime(issue.creationDate)
    ensures r.fCreationDate == FormatDate(services.i18n, session.locale, Some(issue.creationDate))
    ensures r.fUpdateDate == FormatDate(services.i18n, session.locale, issue.updateDate)
    ensures r.fUpdateAge == FormatAgeDate(services.i18n, session.locale, issue.updateDate)
    ensures r.fCloseDate == FormatDate(services.i18n, session.locale, issue.closeDate)
    // the issue's own values, passed through
    ensures r.key == issue.key && r.component == issue.componentKey && r.project == issue.projectKey
    ensures r.rule == issue.ruleKey && r.ruleName == result.rule(issue).name && r.line == issue.line
    ensures r.resolution == issue.resolution && r.status == issue.status && r.severity == issue.severity
    ensures r.author == issue.authorLogin && r.actionPlan == issue.actionPlanKey
  {
    var rule := result.rule(issue);
    var component := result.component(issue);
    var project := result.project(issue);
    var i18n := services.i18n;
    var locale := session.locale;
    IssueFields(
      key := issue.key,
      component := issue.componentKey,
      componentLongName := if component.Some? then Some(component.value.longName) else None,
      componentQualifier := if component.Some? then Some(component.value.qualifier) else None,
      project := issue.projectKey,
      projectLongName := if project.Some? then Some(project.value.longName) else None,
      rule := issue.ruleKey,
      ruleName := rule.name,
      line := issue.line,
      message := if issue.message.Some? then issue.message.value else rule.name,
      resolution := issue.resolution,
      status := issue.status,
      severity := issue.severity,
      author := issue.authorLogin,
      actionPlan := issue.actionPlanKey,
      debt := if issue.technicalDebt.Some? then Some(services.formatDebt(locale, issue.technicalDebt.value)) else None,
      actionPlanName := if issue.actionPlanKey.Some? then Some(result.actionPlan(issue).name) else None,
      creationDate := services.formatDateTime(issue.creationDate),
      fCreationDate := FormatDate(i18n, locale, Some(issue.creationDate)),
      updateDate := if issue.updateDate.Some? then Some(services.formatDateTime(issue.updateDate.value)) else None,
      fUpdateDate := FormatDate(i18n, locale, issue.updateDate),
      fUpdateAge := FormatAgeDate(i18n, locale, issue.updateDate),
      closeDate := if issue.closeDate.Some? then Some(services.formatDateTime(issue.closeDate.value)) else None,
      fCloseDate := FormatDate(i18n, locale, issue.closeDate),
      assignee := AddUserWithLabel(result, issue.assignee),
      reporter := AddUserWithLabel(result, issue.reporter),
      characteristics := AddCharacteristics(services, rule))
  }

  // ---------------------------------------------------------------------------
  // Transitions
  // ---------------------------------------------------------------------------

  /** The "transitions" array: empty for an anonymous user, otherwise the
      keys of the transitions the issue service lists, in its order. */
  function Transitions(issue: Issue, session: Session, services: Services): seq<string>
  {
    if session.IsLoggedIn() then
      var transitions := services.listTransitions(issue, session);
      seq(|transitions|, i requires 0 <= i < |transitions| => transitions[i].key)
    else
      []
  }

  /** writeTransitions */
  method WriteTransitions(issue: Issue, session: Session, services: Services) returns (keys: seq<string>)
    ensures !session.IsLoggedIn() ==> keys == []
    ensures session.IsLoggedIn() ==>
      var transitions := services.listTransitions(issue, session);
      |keys| == |transitions| && forall i :: 0 <= i < |transitions| ==> keys[i] == transitions[i].key
    ensures keys == Transitions(issue, session, services)
  {
    keys := [];
    if session.IsLoggedIn() {
      var transitions := services.listTransitions(issue, session);
      for i := 0 to |transitions|
        invariant |keys| == i
        invariant forall j :: 0 <= j < i ==> keys[j] == transitions[j].key
      {
        keys := keys + [transitions[i].key];
      }
    }
  }

  // ---------------------------------------------------------------------------
  // Actions
  // ---------------------------------------------------------------------------

  /** The built-in actions, in the order the handler may offer them. */
  const BuiltInActions: seq<string> := ["comment", "assign", "assign_to_me", "plan", "set_severity"]

  predicate CanSetSeverity(issue: Issue, session: Session) {
    issue.projectKey.Some? && session.HasProjectPermission(IssueAdmin, issue.projectKey.value)
  }

  /** When a built-in action is offered: only to a logged-in user; "comment"
      always, the others only on an unresolved issue, "assign_to_me" only when
      the user is not already the assignee, "set_severity" only to an issue
      administrator of the issue's project. */
  predicate Offers(issue: Issue, session: Session, action: string) {
    session.login.Some? &&
    (action == "comment" ||
     (issue.resolution.None? &&
      (action == "assign" || action == "plan" ||
       (action == "assign_to_me" && issue.assignee != session.login) ||
       (action == "set_severity" && CanSetSeverity(issue, session)))))
  }

  /** The elements of `names` that are offered, in their order. */
  function Offered(issue: Issue, session: Session, names: seq<string>): (r: seq<string>)
    ensures |r| <= |names|
  {
    if names == [] then []
    else (if Offers(issue, session, names[0]) then [names[0]] else []) + Offered(issue, session, names[1..])
  }

  function ActionKeys(actions: seq<Action>): (r: seq<string>)
    ensures |r| == |actions|
    ensures forall i :: 0 <= i < |actions| ==> r[i] == actions[i].key
  {
    if actions == [] then [] else ActionKeys(actions[..|actions| - 1]) + [actions[|actions| - 1].key]
  }

  /** The "actions" array: the offered built-in actions in their fixed order,
      then, on an unresolved issue seen by a logged-in user, the keys of the
      plugin actions in the action service's order. */
  function AvailableActions(issue: Issue, session: Session, plugin: seq<Action>): seq<string>
  {
    Offered(issue, session, BuiltInActions)
      + (if session.login.Some? && issue.resolution.None? then ActionKeys(plugin) else [])
  }

  /** An action is in the offered list exactly when it is one of the names and offered. */
  lemma {:induction false} OfferedMembers(issue: Issue, session: Session, names: seq<string>, a: string)
    ensures a in Offered(issue, session, names) <==> a in names && Offers(issue, session, a)
  {
    if names != [] {
      OfferedMembers(issue, session, names[1..], a);
      assert names == [names[0]] + names[1..];
    }
  }

  /** Whether one built-in action is offered, as a one-element or empty list. */
  function IfOffered(issue: Issue, session: Session, action: string): (r: seq<string>)
    ensures r == [action] || r == []
    ensures r == [action] <==> Offers(issue, session, action)
  {
    if Offers(issue, session, action) then [action] else []
  }

  lemma OfferedBuiltIns(issue: Issue, session: Session)
    ensures Offered(issue, session, BuiltInActions) ==
      IfOffered(issue, session, "comment") + IfOffered(issue, session, "assign")
      + IfOffered(issue, session, "assign_to_me") + IfOffered(issue, session, "plan")
      + IfOffered(issue, session, "set_severity")
  {
    var s5: seq<string> := ["set_severity"];
    var s4: seq<string> := ["plan"] + s5;
    var s3: seq<string> := ["assign_to_me"] + s4;
    var s2: seq<string> := ["assign"] + s3;
    var s1: seq<string> := ["comment"] + s2;
    assert s5[1..] == [] && s4[1..] == s5 && s3[1..] == s4 && s2[1..] == s3 && s1[1..] == s2;
    assert Offered(issue, session, s5) == IfOffered(issue, session, "set_severity");
    assert Offered(issue, session, s4) == IfOffered(issue, session, "plan") + Offered(issue, session, s5);
    assert Offered(issue, session, s3) == IfOffered(issue, session, "assign_to_me") + Offered(issue, session, s4);
    assert Offered(issue, session, s2) == IfOffered(issue, session, "assign") + Offered(issue, session, s3);
    assert Offered(issue, session, s1) == IfOffered(issue, session, "comment") + Offered(issue, session, s2);
    assert s1 == BuiltInActions;
  }

  /** actions: built step by step, as the handler does. */
  method Actions(issue: Issue, session: Session, services: Services) returns (actions: seq<string>)
    ensures actions == AvailableActions(issue, session, services.listAvailableActions(issue))
  {
    OfferedBuiltIns(issue, session);
    actions := [];
    var login := session.login;
    if login.Some? {
      actions := actions + ["comment"];
      if issue.resolution.None? {
        actions := actions + ["assign"];
        if issue.assignee != Some(login.value) {
          actions := actions + ["assign_to_me"];
        }
        actions := actions + ["plan"];
        var projectKey := issue.projectKey;
        if projectKey.Some? && session.HasProjectPermission(IssueAdmin, projectKey.value) {
          actions := actions + ["set_severity"];
        }
        assert actions == Offered(issue, session, BuiltInActions);
        var available := services.listAvailableActions(issue);
        ghost var builtIn := actions;
        for i := 0 to |available|
          invariant actions == builtIn + ActionKeys(available[..i])
        {
          assert available[..i + 1][..i] == available[..i];
          actions := actions + [available[i].key];
        }
        assert available[..|available|] == available;
      } else {
        assert actions == Offered(issue, session, BuiltInActions);
      }
    } else {
      assert actions == Offered(issue, session, BuiltInActions);
    }
  }

  lemma AnonymousGetsNoActions(issue: Issue, session: Session, plugin: seq<Action>)
    requires session.login.None?
    ensures AvailableActions(issue, session, plugin) == []
  {
    OfferedBuiltIns(issue, session);
  }

  lemma CommentComesFirst(issue: Issue, session: Session, plugin: seq<Action>)
    requires session.login.Some?
    ensures |AvailableActions(issue, session, plugin)| > 0
    ensures AvailableActions(issue, session, plugin)[0] == "comment"
  {
  }

  lemma ResolvedIssueOnlyComment(issue: Issue, session: Session, plugin: seq<Action>)
    requires session.login.Some? && issue.resolution.Some?
    ensures AvailableActions(issue, session, plugin) == ["comment"]
  {
    OfferedBuiltIns(issue, session);
  }

  lemma UnresolvedIssueActions(issue: Issue, session: Session, plugin: seq<Action>)
    requires session.login.Some? && issue.resolution.None?
    ensures AvailableActions(issue, session, plugin) ==
      ["comment", "assign"]
      + (if issue.assignee != session.login then ["assign_to_me"] else [])
      + ["plan"]
      + (if issue.projectKey.Some? && session.HasProjectPermission(IssueAdmin, issue.projectKey.value)
         then ["set_severity"] else [])
      + ActionKeys(plugin)
  {
    OfferedBuiltIns(issue, session);
    assert IfOffered(issue, session, "comment") + IfOffered(issue, session, "assign") == ["comment", "assign"];
  }

  // ---------------------------------------------------------------------------
  // Comments
  // ---------------------------------------------------------------------------

  /** A comment is updatable only by its author. */
  predicate Updatable(login: Option<string>, comment: Comment) {
    login.Some? && comment.userLogin == login
  }

  /** One comment object, as written (line 202 of the handler): the author's
      name is read from the query result without a null check, so a comment
      whose author the query result does not know makes the handler fail. */
  function WriteCommentAsWritten(result: IssueQueryResult, comment: Comment, session: Session, services: Services)
    : (r: Result<CommentFields, Error>)
    ensures r.Failure? <==> comment.userLogin.Some? && result.user(comment.userLogin.value).None?
    ensures r.Success? ==> r.value == WriteComment(result, comment, session, services)
  {
    if comment.userLogin.Some? && result.user(comment.userLogin.value).None? then
      Failure(NullDereference("user of comment " + comment.key))
    else
      Success(WriteComment(result, comment, session, services))
  }

  /** One comment object, with the author's name null-guarded as the handler
      does for change authors and for the assignee and reporter. */
  function WriteComment(result: IssueQueryResult, comment: Comment, session: Session, services: Services)
    : (r: CommentFields)
    ensures r.key == comment.key && r.raw == comment.markdownText
    ensures r.userName.Some? <==> comment.userLogin.Some? && result.user(comment.userLogin.value).Some?
    ensures r.userName.Some? ==> r.userName.value == result.user(comment.userLogin.value).value.name
    ensures r.html == services.markdownToHtml(comment.markdownText)
    ensures r.createdAt == services.formatDateTime(comment.createdAt)
    ensures r.fCreatedAge == FormatAgeDate(services.i18n, session.locale, Some(comment.createdAt))
    ensures r.fCreatedAge.Some?
    ensures r.updatable <==> session.login.Some? && comment.userLogin == session.login
  {
    var author := if comment.userLogin.Some? then result.user(comment.userLogin.value) else None;
    CommentFields(
      key := comment.key,
      userName := if author.Some? then Some(author.value.name) else None,
      raw := comment.markdownText,
      html := services.markdownToHtml(comment.markdownText),
      createdAt := services.formatDateTime(comment.createdAt),
      fCreatedAge := FormatAgeDate(services.i18n, session.locale, Some(comment.createdAt)),
      updatable := Updatable(session.login, comment))
  }

  /** The comment whose author is unknown to the query result: the handler as
      written fails on it, the null-guarded version writes it without a name. */
  lemma UnknownCommentAuthor(result: IssueQueryResult, comment: Comment, session: Session, services: Services)
    requires comment.userLogin == Some("marcel") && result.user("marcel") == None
    ensures WriteCommentAsWritten(result, comment, session, services).Failure?
    ensures WriteComment(result, comment, session, services).userName == None
  {
  }

  function CommentList(result: IssueQueryResult, comments: seq<Comment>, session: Session, services: Services)
    : (r: seq<CommentFields>)
    ensures |r| == |comments|
    ensures forall i :: 0 <= i < |comments| ==> r[i] == WriteComment(result, comments[i], session, services)
  {
    if comments == [] then
      []
    else
      CommentList(result, comments[..|comments| - 1], session, services)
      + [WriteComment(result, comments[|comments| - 1], session, services)]
  }

  /** writeComments: one object per comment of the issue, in the issue's order. */
  method WriteComments(result: IssueQueryResult, issue: Issue, session: Session, services: Services)
    returns (views: seq<CommentFields>)
    ensures |views| == |issue.comments|
    ensures forall i :: 0 <= i < |issue.comments| ==>
      views[i].key == issue.comments[i].key &&
      (views[i].updatable <==> session.login.Some? && issue.comments[i].userLogin == session.login)
    ensures views == CommentList(result, issue.comments, session, services)
  {
    views := [];
    var login := session.login;
    for i := 0 to |issue.comments|
      invariant |views| == i
      invariant forall j :: 0 <= j < i ==> views[j] == WriteComment(result, issue.comments[j], session, services)
    {
      var comment := issue.comments[i];
      var userLogin := comment.userLogin;
      var author := if userLogin.Some? then result.user(userLogin.value) else None;
      var view := CommentFields(
        key := comment.key,
        userName := if author.Some? then Some(author.value.name) else None,
        raw := comment.markdownText,
        html := services.markdownToHtml(comment.markdownText),
        createdAt := services.formatDateTime(comment.createdAt),
        fCreatedAge := FormatAgeDate(services.i18n, session.locale, Some(comment.createdAt)),
        updatable := login.Some? && userLogin == Some(login.value));
      views := views + [view];
    }
  }

  // ---------------------------------------------------------------------------
  // Changelog
  // ---------------------------------------------------------------------------

  /** The synthetic first entry: the issue's creation, with the single
      localised "created" diff and no author. */
  function CreatedEntry(issue: Issue, session: Session, services: Services): (e: ChangelogEntry)
    ensures e.userName.None?
    ensures e.diffs == [services.i18n.message(session.locale, "created")]
    ensures e.creationDate == services.formatDateTime(issue.creationDate)
    ensures e.fCreationDate == Some(services.i18n.formatDateTime(session.locale, issue.creationDate))
  {
    ChangelogEntry(
      None,
      services.formatDateTime(issue.creationDate),
      FormatDate(services.i18n, session.locale, Some(issue.creationDate)),
      [services.i18n.message(session.locale, "created")])
  }

  /** The entry of one recorded change: its author's name when known, its date,
      and its diffs as the changelog service formats them. */
  function ChangeEntry(changelog: IssueChangelog, change: FieldDiffs, session: Session, services: Services)
    : (e: ChangelogEntry)
    ensures e.userName.Some? <==> changelog.user(change).Some?
    ensures e.userName.Some? ==> e.userName.value == changelog.user(change).value.name
    ensures e.fCreationDate == Some(services.i18n.formatDateTime(session.locale, change.creationDate))
    ensures e.diffs == services.formatDiffs(change)
    ensures e.creationDate == services.formatDateTime(change.creationDate)
  {
    var user := changelog.user(change);
    ChangelogEntry(
      if user.Some? then Some(user.value.name) else None,
      services.formatDateTime(change.creationDate),
      FormatDate(services.i18n, session.locale, Some(change.creationDate)),
      services.formatDiffs(change))
  }

  function ChangeEntries(changelog: IssueChangelog, changes: seq<FieldDiffs>, session: Session, services: Services)
    : (r: seq<ChangelogEntry>)
    ensures |r| == |changes|
    ensures forall i :: 0 <= i < |changes| ==> r[i] == ChangeEntry(changelog, changes[i], session, services)
  {
    if changes == [] then
      []
    else
      ChangeEntries(changelog, changes[..|changes| - 1], session, services)
      + [ChangeEntry(changelog, changes[|changes| - 1], session, services)]
  }

  /** The "changelog" array: the creation entry, then one entry per recorded change. */
  function Changelog(issue: Issue, session: Session, services: Services): seq<ChangelogEntry>
  {
    var changelog := services.changelog(issue);
    [CreatedEntry(issue, session, services)] + ChangeEntries(changelog, changelog.changes, session, services)
  }

  /** writeChangelog: the creation entry first, then, for each recorded change
      in the service's order, an entry whose diffs are appended one by one. */
  method WriteChangelog(issue: Issue, session: Session, services: Services) returns (entries: seq<ChangelogEntry>)
    ensures var changes := services.changelog(issue).changes;
      |entries| == 1 + |changes| &&
      entries[0].diffs == [services.i18n.message(session.locale, "created")] &&
      entries[0].creationDate == services.formatDateTime(issue.creationDate) &&
      forall i :: 0 <= i < |changes| ==>
        entries[i + 1].diffs == services.formatDiffs(changes[i]) &&
        entries[i + 1].creationDate == services.formatDateTime(changes[i].creationDate)
    ensures entries == Changelog(issue, session, services)
  {
    entries := [CreatedEntry(issue, session, services)];
    var changelog := services.changelog(issue);
    var changes := changelog.changes;
    for i := 0 to |changes|
      invariant |entries| == 1 + i
      invariant entries[0] == CreatedEntry(issue, session, services)
      invariant forall j :: 0 <= j < i ==> entries[j + 1] == ChangeEntry(changelog, changes[j], session, services)
    {
      var change := changes[i];
      var user := changelog.user(change);
      var formatted := services.formatDiffs(change);
      var diffs := [];
      for k := 0 to |formatted|
        invariant diffs == formatted[..k]
      {
        diffs := diffs + [formatted[k]];
      }
      assert diffs == formatted;
      var entry := ChangelogEntry(
        if user.Some? then Some(user.value.name) else None,
        services.formatDateTime(change.creationDate),
        FormatDate(services.i18n, session.locale, Some(change.creationDate)),
        diffs);
      entries := entries + [entry];
    }
  }

  // ---------------------------------------------------------------------------
  // The request handler
  // ---------------------------------------------------------------------------

  /** The whole "issue" object for the one issue found. */
  function ShowIssue(result: IssueQueryResult, issue: Issue, session: Session, services: Services): IssueView
  {
    IssueView(
      WriteIssue(result, issue, session, services),
      Transitions(issue, session, services),
      AvailableActions(issue, session, services.listAvailableActions(issue)),
      CommentList(result, issue.comments, session, services),
      Changelog(issue, session, services))
  }

  /** handle: exactly one issue must be found for the key, otherwise NotFound
      and nothing is written; then the sections in their order. */
  method Handle(issueKey: string, find: string -> IssueQueryResult, session: Session, services: Services)
    returns (r: Result<IssueView, Error>)
    ensures r.Failure? <==> |find(issueKey).issues| != 1
    ensures r.Failure? ==> r.error == NotFound("Issue not found: " + issueKey)
    ensures r.Success? ==> r.value == ShowIssue(find(issueKey), find(issueKey).issues[0], session, services)
  {
    var result := find(issueKey);
    if |result.issues| != 1 {
      return Failure(NotFound("Issue not found: " + issueKey));
    }
    var issue := result.issues[0];
    var fields := WriteIssue(result, issue, session, services);
    var transitions := WriteTransitions(issue, session, services);
    var actions := Actions(issue, session, services);
    var comments := WriteComments(result, issue, session, services);
    var changelog := WriteChangelog(issue, session, services);
    r := Success(IssueView(fields, transitions, actions, comments, changelog));
  }
}
