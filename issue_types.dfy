/**
 * The values the issue "show" web service reads and writes: the issue as the
 * finder returns it, the ambient user session made explicit, the collaborators
 * it calls (as functions), and the records it writes to the JSON response.
 */
module IssueTypes {
  import opened Wrappers

  /** A point in time, in milliseconds since the epoch. */
  type Date = int
  type Locale = string

  /** ISSUE_ADMIN, the project permission that unlocks "set_severity". */
  const IssueAdmin: string := "issueadmin"

  /** What the handler reads from the request-scoped user session. */
  datatype Session = Session(login: Option<string>, locale: Locale, projectPermissions: map<string, set<string>>)
  {
    /** A session is logged in exactly when it carries a login. */
    predicate IsLoggedIn() { login.Some? }

    predicate HasProjectPermission(permission: string, projectKey: string) {
      projectKey in projectPermissions && permission in projectPermissions[projectKey]
    }
  }

  datatype Comment = Comment(key: string, userLogin: Option<string>, markdownText: string, createdAt: Date)

  datatype WorkDayDuration = WorkDayDuration(days: int, hours: int, minutes: int)

  datatype Issue = Issue(
    key: string,
    componentKey: string,
    projectKey: Option<string>,
    ruleKey: string,
    line: Option<int>,
    message: Option<string>,
    resolution: Option<string>,
    status: string,
    severity: string,
    authorLogin: Option<string>,
    actionPlanKey: Option<string>,
    technicalDebt: Option<WorkDayDuration>,
    creationDate: Date,
    updateDate: Option<Date>,
    closeDate: Option<Date>,
    assignee: Option<string>,
    reporter: Option<string>,
    comments: seq<Comment>)

  datatype Rule = Rule(key: string, name: string)
  datatype Component = Component(longName: string, qualifier: string)
  datatype ActionPlan = ActionPlan(name: string)
  datatype User = User(login: string, name: string)
  datatype Transition = Transition(key: string)
  datatype Action = Action(key: string)
  datatype Requirement = Requirement(rootId: int, parentId: int)
  datatype Characteristic = Characteristic(name: string)

  /** One recorded change of an issue: when, by whom, and the old/new value of each field. */
  datatype FieldDiff = FieldDiff(oldValue: Option<string>, newValue: Option<string>)
  datatype FieldDiffs = FieldDiffs(creationDate: Date, userLogin: Option<string>, diffs: map<string, FieldDiff>)

  /** What the changelog service returns: the recorded changes in its order, and the author of each. */
  datatype IssueChangelog = IssueChangelog(changes: seq<FieldDiffs>, user: FieldDiffs -> Option<User>)

  /** What the issue finder returns: the issues found and the lookups into the context it loaded with them. */
  datatype IssueQueryResult = IssueQueryResult(
    issues: seq<Issue>,
    rule: Issue -> Rule,
    component: Issue -> Option<Component>,
    project: Issue -> Option<Component>,
    actionPlan: Issue -> ActionPlan,
    user: string -> Option<User>)

  /** The localisation collaborator. */
  datatype I18n = I18n(
    message: (Locale, string) -> string,
    formatDateTime: (Locale, Date) -> string,
    ageFromNow: (Locale, Date) -> string)

  /** The handler's other collaborators; their internals are not part of this model. */
  datatype Services = Services(
    listTransitions: (Issue, Session) -> seq<Transition>,
    listAvailableActions: Issue -> seq<Action>,
    changelog: Issue -> IssueChangelog,
    formatDiffs: FieldDiffs -> seq<string>,
    i18n: I18n,
    formatDateTime: Date -> string,
    markdownToHtml: string -> string,
    formatDebt: (Locale, WorkDayDuration) -> string,
    findRequirementByRule: Rule -> Option<Requirement>,
    findCharacteristicById: int -> Option<Characteristic>)

  // ---- What the handler writes. An absent field is the null handed to the JSON writer. ----

  /** The `<field>` / `<field>Name` pair written for the assignee and the reporter. */
  datatype UserLabel = UserLabel(login: string, name: Option<string>)

  datatype CharacteristicFields = CharacteristicFields(characteristic: Option<string>, subCharacteristic: Option<string>)

  datatype IssueFields = IssueFields(
    key: string,
    component: string,
    componentLongName: Option<string>,
    componentQualifier: Option<string>,
    project: Option<string>,
    projectLongName: Option<string>,
    rule: string,
    ruleName: string,
    line: Option<int>,
    message: string,
    resolution: Option<string>,
    status: string,
    severity: string,
    author: Option<string>,
    actionPlan: Option<string>,
    debt: Option<string>,
    actionPlanName: Option<string>,
    creationDate: string,
    fCreationDate: Option<string>,
    updateDate: Option<string>,
    fUpdateDate: Option<string>,
    fUpdateAge: Option<string>,
    closeDate: Option<string>,
    fCloseDate: Option<string>,
    assignee: Option<UserLabel>,
    reporter: Option<UserLabel>,
    characteristics: Option<CharacteristicFields>)

  datatype CommentFields = CommentFields(
    key: string,
    userName: Option<string>,
    raw: string,
    html: string,
    createdAt: string,
    fCreatedAge: Option<string>,
    updatable: bool)

  datatype ChangelogEntry = ChangelogEntry(
    userName: Option<string>,
    creationDate: string,
    fCreationDate: Option<string>,
    diffs: seq<string>)

  /** The "issue" object of the response, section by section in the order they are written. */
  datatype IssueView = IssueView(
    issue: IssueFields,
    transitions: seq<string>,
    actions: seq<string>,
    comments: seq<CommentFields>,
    changelog: seq<ChangelogEntry>)

  datatype Error = NotFound(message: string) | NullDereference(what: string)
}
