/**
 * The quality-profile changelog web service, as its tests pin it down: the
 * profile is resolved first (an unknown one is NotFound), the day-granular
 * `since` / `to` parameters become the half-open storage range
 * [fromIncluded, toExcluded), and the loader's changelog is passed through.
 */
module ProfileChangelog {
  import opened Wrappers

  /** A calendar day, numbered consecutively. */
  type Day = int
  /** A timestamp in milliseconds since the epoch. */
  type Millis = int

  /** Start-of-day in the server's time zone is kept abstract: all that is
      assumed of it is that a later day starts strictly later. */
  ghost predicate StrictlyIncreasing(startOfDay: Day -> Millis) {
    forall d1: Day, d2: Day :: d1 < d2 ==> startOfDay(d1) < startOfDay(d2)
  }

  datatype ProfileRef = ProfileRef(key: string)
  datatype Profile = Profile(key: string, name: string, language: string)

  datatype ChangelogRequest = ChangelogRequest(profile: ProfileRef, since: Option<Day>, to: Option<Day>)

  /** The query handed to the loader; an absent bound is no limit. */
  datatype ChangeQuery = ChangeQuery(profileKey: string, fromIncluded: Option<Millis>, toExcluded: Option<Millis>)

  /** One change of a profile. Only id, action and date are required. */
  datatype Change = Change(
    id: string,
    action: string,
    date: Millis,
    severity: Option<string>,
    login: Option<string>,
    userName: Option<string>,
    inheritance: Option<string>,
    ruleKey: Option<string>,
    ruleName: Option<string>,
    params: map<string, string>)

  /** What the loader returns: the number of matching changes and the changes
      it returned, which need not be all of them. */
  datatype Changelog = Changelog(total: nat, changes: seq<Change>)

  datatype Error = NotFound(message: string)

  // ---------------------------------------------------------------------------
  // Change values
  // ---------------------------------------------------------------------------

  /** The nine-argument constructor: the params start empty. */
  function NewChange(id: string, action: string, date: Millis, severity: Option<string>, login: Option<string>,
                     userName: Option<string>, inheritance: Option<string>, ruleKey: Option<string>,
                     ruleName: Option<string>): (c: Change)
    ensures c.params == map[]
    ensures c.id == id && c.action == action && c.date == date
    ensures c.severity == severity && c.login == login && c.userName == userName
    ensures c.inheritance == inheritance && c.ruleKey == ruleKey && c.ruleName == ruleName
  {
    Change(id, action, date, severity, login, userName, inheritance, ruleKey, ruleName, map[])
  }

  /** Putting a parameter after construction: the named parameter now has the
      value, every other parameter and every other field is kept. */
  function PutParam(c: Change, name: string, value: string): (r: Change)
    ensures name in r.params && r.params[name] == value
    ensures r.params.Keys == c.params.Keys + {name}
    ensures forall k :: k in c.params && k != name ==> r.params[k] == c.params[k]
    ensures r.(params := c.params) == c
  {
    c.(params := c.params[name := value])
  }

  /** A change built with every optional field absent and then given two
      parameters holds both of them and nothing else. */
  lemma TwoParamsAfterConstruction(id: string, action: string, date: Millis, foo: string, bar: string)
    ensures var c := PutParam(PutParam(NewChange(id, action, date, None, None, None, None, None, None), "foo", foo), "bar", bar);
      c.params == map["foo" := foo, "bar" := bar] && c.id == id && c.action == action && c.date == date
  {
  }

  // ---------------------------------------------------------------------------
  // Date bounds
  // ---------------------------------------------------------------------------

  /** `since = D` starts the range at the first instant of D. */
  function FromIncluded(startOfDay: Day -> Millis, since: Option<Day>): (r: Option<Millis>)
    ensures r.Some? <==> since.Some?
    ensures since.Some? ==> r.value == startOfDay(since.value)
  {
    if since.Some? then Some(startOfDay(since.value)) else None
  }

  /** `to = D` ends the range just before the first instant of D + 1. */
  function ToExcluded(startOfDay: Day -> Millis, to: Option<Day>): (r: Option<Millis>)
    ensures r.Some? <==> to.Some?
    ensures to.Some? ==> r.value == startOfDay(to.value + 1)
  {
    if to.Some? then Some(startOfDay(to.value + 1)) else None
  }

  function QueryFor(profile: Profile, request: ChangelogRequest, startOfDay: Day -> Millis): (q: ChangeQuery)
    ensures q.profileKey == profile.key
    ensures q.fromIncluded == FromIncluded(startOfDay, request.since)
    ensures q.toExcluded == ToExcluded(startOfDay, request.to)
  {
    ChangeQuery(profile.key, FromIncluded(startOfDay, request.since), ToExcluded(startOfDay, request.to))
  }

  /** Whether the storage range of a query admits an instant. */
  predicate InRange(q: ChangeQuery, t: Millis) {
    (q.fromIncluded.None? || q.fromIncluded.value <= t) && (q.toExcluded.None? || t < q.toExcluded.value)
  }

  /** Whether an instant falls within a day. */
  predicate OnDay(startOfDay: Day -> Millis, d: Day, t: Millis) {
    startOfDay(d) <= t < startOfDay(d + 1)
  }

  /** Whether a day lies within the caller's inclusive [since, to] filter. */
  predicate DayRequested(request: ChangelogRequest, d: Day) {
    (request.since.None? || request.since.value <= d) && (request.to.None? || d <= request.to.value)
  }

  /** The inclusive lower bound: the first instant of the `since` day is in
      range, and the instant before it is not. */
  lemma SinceIsInclusive(profile: Profile, request: ChangelogRequest, startOfDay: Day -> Millis)
    requires request.since.Some? && request.to.None?
    ensures var q := QueryFor(profile, request, startOfDay);
      q.fromIncluded == Some(startOfDay(request.since.value)) &&
      InRange(q, startOfDay(request.since.value)) && !InRange(q, startOfDay(request.since.value) - 1)
  {
  }

  /** The caller's `to` is inclusive: every instant of day `to` is in range,
      and the first instant of the next day is not. */
  lemma ToIsInclusive(profile: Profile, request: ChangelogRequest, startOfDay: Day -> Millis, t: Millis)
    requires request.to.Some? && request.since.None?
    requires OnDay(startOfDay, request.to.value, t)
    ensures var q := QueryFor(profile, request, startOfDay);
      q.toExcluded == Some(startOfDay(request.to.value + 1)) &&
      InRange(q, t) && !InRange(q, startOfDay(request.to.value + 1))
  {
  }

  /** The main property of the translation: an instant of day `d` is in the
      storage range exactly when `d` is within the caller's inclusive filter. */
  lemma InRangeIffDayRequested(profile: Profile, request: ChangelogRequest,
                                 startOfDay: Day -> Millis, d: Day, t: Millis)
    requires StrictlyIncreasing(startOfDay)
    requires OnDay(startOfDay, d, t)
    ensures InRange(QueryFor(profile, request, startOfDay), t) <==> DayRequested(request, d)
  {
  }

  /** With `since == to == D` the range is not empty and is exactly day D. */
  lemma SameDayRange(profile: Profile, request: ChangelogRequest, startOfDay: Day -> Millis)
    requires StrictlyIncreasing(startOfDay)
    requires request.since.Some? && request.to == request.since
    ensures var q := QueryFor(profile, request, startOfDay);
      InRange(q, startOfDay(request.since.value)) &&
      forall t :: InRange(q, t) <==> OnDay(startOfDay, request.since.value, t)
  {
  }

  // ---------------------------------------------------------------------------
  // The action
  // ---------------------------------------------------------------------------

  /** The changelog action: resolve the profile (an unknown one fails with the
      resolver's NotFound, and the loader is not consulted), then ask the loader
      for the changes of that profile within the requested range and return
      its changelog as it is. */
  function Handle(request: ChangelogRequest, findProfile: ProfileRef -> Result<Profile, Error>,
                  load: ChangeQuery -> Changelog, startOfDay: Day -> Millis): (r: Result<Changelog, Error>)
    ensures r.Success? <==> findProfile(request.profile).Success?
    ensures r.Failure? ==> r.error == findProfile(request.profile).error
    ensures r.Success? ==> r.value == load(QueryFor(findProfile(request.profile).value, request, startOfDay))
  {
    var found := findProfile(request.profile);
    if found.Failure? then
      Failure(found.error)
    else
      var query := QueryFor(found.value, request, startOfDay);
      Success(load(query))
  }

  /** An empty changelog from the loader is a successful, empty answer. */
  lemma EmptyChangelogIsSuccess(request: ChangelogRequest, findProfile: ProfileRef -> Result<Profile, Error>,
                                load: ChangeQuery -> Changelog, startOfDay: Day -> Millis)
    requires findProfile(request.profile).Success?
    requires forall q :: load(q) == Changelog(0, [])
    ensures Handle(request, findProfile, load, startOfDay) == Success(Changelog(0, []))
  {
  }

  /** The total is passed through independently of the changes returned:
      a total of 10 with two changes is a successful answer with both. */
  lemma TotalIsPassedThrough(request: ChangelogRequest, findProfile: ProfileRef -> Result<Profile, Error>,
                             load: ChangeQuery -> Changelog, startOfDay: Day -> Millis, c1: Change, c2: Change)
    requires findProfile(request.profile).Success?
    requires forall q :: load(q) == Changelog(10, [c1, c2])
    ensures var r := Handle(request, findProfile, load, startOfDay);
      r.Success? && r.value.total == 10 && r.value.changes == [c1, c2]
  {
  }
}
