/**
 * The providers page: the search and exact-match filters, the credential
 * summary, the "time ago" label of a date, and the demo roster built on
 * first load. Case folding is ASCII only; dates are milliseconds since the
 * epoch, and the locale-formatted date is an input.
 */
module Providers {
  import opened Seqs
  import opened Text

  datatype Credentials = Credentials(licenseStatus: string, boardCertified: bool, deaStatus: string)
  datatype Payroll = Payroll(frequency: string, lastPayment: string, ytdEarnings: int)

  datatype Provider = Provider(
    id: string,
    name: string,
    specialty: string,
    state: string,
    email: string,
    phone: string,
    status: string,
    patients: int,
    revenue: int,
    rating: real,
    startDate: string,
    lastActivity: string,
    credentials: Credentials,
    payroll: Payroll)

  // ---------------------------------------------------------------------------
  // Filtering
  // ---------------------------------------------------------------------------

  /** The lowercased search term occurs in the lowercased name, email or specialty. */
  predicate SearchHit(p: Provider, term: string) {
    Includes(ToLower(p.name), ToLower(term)) ||
    Includes(ToLower(p.email), ToLower(term)) ||
    Includes(ToLower(p.specialty), ToLower(term))
  }

  predicate PassesSearch(p: Provider, term: string) {
    term == "" || SearchHit(p, term)
  }

  predicate PassesState(p: Provider, term: string, state: string) {
    PassesSearch(p, term) && (state == "" || p.state == state)
  }

  predicate PassesSpecialty(p: Provider, term: string, state: string, specialty: string) {
    PassesState(p, term, state) && (specialty == "" || p.specialty == specialty)
  }

  /** A provider is shown: it passes the search and every non-empty exact filter. */
  predicate Shown(p: Provider, term: string, state: string, specialty: string, status: string) {
    PassesSpecialty(p, term, state, specialty) && (status == "" || p.status == status)
  }

  /** `filterProviders`: narrows a copy of the list by search term, state, specialty and status in turn. */
  method FilterProviders(providers: seq<Provider>, term: string, state: string, specialty: string, status: string)
    returns (filtered: seq<Provider>)
    ensures filtered == Filter(providers, p => Shown(p, term, state, specialty, status))
    ensures forall i :: 0 <= i < |filtered| ==> Shown(filtered[i], term, state, specialty, status)
    ensures forall i :: 0 <= i < |providers| && Shown(providers[i], term, state, specialty, status) ==>
              providers[i] in filtered
  {
    var stage1 := (p: Provider) => PassesSearch(p, term);
    var stage2 := (p: Provider) => PassesState(p, term, state);
    var stage3 := (p: Provider) => PassesSpecialty(p, term, state, specialty);
    var stage4 := (p: Provider) => Shown(p, term, state, specialty, status);

    filtered := providers;
    if term != "" {
      filtered := Filter(filtered, (p: Provider) => SearchHit(p, term));
      FilterSamePredicate(providers, (p: Provider) => SearchHit(p, term), stage1);
    } else {
      FilterKeepsAll(providers, stage1);
    }
    // filtered == Filter(providers, stage1)

    var byState := (p: Provider) => p.state == state;
    if state != "" {
      filtered := Filter(filtered, byState);
      FilterTwice(providers, stage1, byState, stage2);
    } else {
      FilterSamePredicate(providers, stage1, stage2);
    }

    var bySpecialty := (p: Provider) => p.specialty == specialty;
    if specialty != "" {
      filtered := Filter(filtered, bySpecialty);
      FilterTwice(providers, stage2, bySpecialty, stage3);
    } else {
      FilterSamePredicate(providers, stage2, stage3);
    }

    var byStatus := (p: Provider) => p.status == status;
    if status != "" {
      filtered := Filter(filtered, byStatus);
      FilterTwice(providers, stage3, byStatus, stage4);
    } else {
      FilterSamePredicate(providers, stage3, stage4);
    }
  }

  /** With every filter empty the roster is shown unchanged. */
  lemma NoFilterShowsAll(providers: seq<Provider>)
    ensures Filter(providers, p => Shown(p, "", "", "", "")) == providers
  {
    FilterKeepsAll(providers, p => Shown(p, "", "", "", ""));
  }

  /** The search ignores ASCII case: a term matches exactly when its lowercase form does. */
  lemma SearchIgnoresCase(p: Provider, term: string)
    ensures SearchHit(p, term) <==> SearchHit(p, ToLower(term))
  {
    assert ToLower(ToLower(term)) == ToLower(term) by {
      forall i | 0 <= i < |term|
        ensures ToLower(ToLower(term))[i] == ToLower(term)[i]
      {
      }
    }
  }

  /** A term found in the name finds the provider, whichever its other fields. */
  lemma NameMatchShows(p: Provider, term: string, k: int)
    requires OccursAt(ToLower(p.name), ToLower(term), k)
    ensures Shown(p, term, "", "", "")
  {
    IncludesIffOccurs(ToLower(p.name), ToLower(term));
  }

  // ---------------------------------------------------------------------------
  // Credentials
  // ---------------------------------------------------------------------------

  datatype CredentialStatus = CredentialsExpired | CredentialsPending | CredentialsActive

  /** `getCredentialStatus`: expired if either is expired, else pending if either is pending, else active. */
  function CredentialStatusOf(c: Credentials): (r: CredentialStatus)
    ensures r == CredentialsExpired <==> c.licenseStatus == "expired" || c.deaStatus == "expired"
    ensures r == CredentialsPending <==>
              c.licenseStatus != "expired" && c.deaStatus != "expired" &&
              (c.licenseStatus == "pending" || c.deaStatus == "pending")
    ensures r == CredentialsActive <==>
              c.licenseStatus !in {"expired", "pending"} && c.deaStatus !in {"expired", "pending"}
  {
    if c.licenseStatus == "expired" || c.deaStatus == "expired" then CredentialsExpired
    else if c.licenseStatus == "pending" || c.deaStatus == "pending" then CredentialsPending
    else CredentialsActive
  }

  /** License and DEA status weigh alike: swapping them changes nothing. */
  lemma CredentialStatusSymmetric(license: string, board: bool, dea: string)
    ensures CredentialStatusOf(Credentials(license, board, dea)) == CredentialStatusOf(Credentials(dea, board, license))
  {
  }

  /** Expired dominates: once either side is expired, the other side does not matter. */
  lemma ExpiredDominates(c: Credentials, other: string)
    requires c.licenseStatus == "expired"
    ensures CredentialStatusOf(c.(deaStatus := other)) == CredentialsExpired
  {
  }

  // ---------------------------------------------------------------------------
  // Time ago
  // ---------------------------------------------------------------------------

  const MillisPerDay: nat := 1000 * 60 * 60 * 24

  /** Whole days between the date and now, floored: negative for a future date. */
  function DiffInDays(nowMs: int, dateMs: int): (d: int)
    ensures d * MillisPerDay <= nowMs - dateMs < (d + 1) * MillisPerDay
  {
    (nowMs - dateMs) / MillisPerDay
  }

  /** The label `getTimeAgo` picks. */
  datatype TimeAgo = Today | Yesterday | DaysAgo(days: int) | WeeksAgo(weeks: int) | OnDate(formatted: string)

  /** `getTimeAgo`: the branch is chosen by the whole number of days alone. */
  function TimeAgoOf(nowMs: int, dateMs: int, formatted: string): (t: TimeAgo)
    ensures var d := DiffInDays(nowMs, dateMs);
            && (t == Today <==> d == 0)
            && (t == Yesterday <==> d == 1)
            && (t.DaysAgo? <==> d < 7 && d != 0 && d != 1)
            && (t.WeeksAgo? <==> 7 <= d < 30)
            && (t.OnDate? <==> d >= 30)
    ensures t.DaysAgo? ==> t.days == DiffInDays(nowMs, dateMs)
    ensures t.WeeksAgo? ==> 1 <= t.weeks <= 4 && t.weeks * 7 <= DiffInDays(nowMs, dateMs) < t.weeks * 7 + 7
    ensures t.OnDate? ==> t.formatted == formatted
  {
    var d := DiffInDays(nowMs, dateMs);
    if d == 0 then Today
    else if d == 1 then Yesterday
    else if d < 7 then DaysAgo(d)
    else if d < 30 then WeeksAgo(d / 7)
    else OnDate(formatted)
  }

  /** The text shown for a label. */
  function Render(t: TimeAgo): string {
    match t
    case Today => "Today"
    case Yesterday => "Yesterday"
    case DaysAgo(n) => IntToString(n) + " days ago"
    case WeeksAgo(w) => IntToString(w) + " weeks ago"
    case OnDate(f) => f
  }

  /** A date more than a day in the future is labelled with a negative number of days ago. */
  lemma FutureDateReadsNegativeDays(nowMs: int, dateMs: int, formatted: string)
    requires dateMs > nowMs + MillisPerDay
    ensures TimeAgoOf(nowMs, dateMs, formatted).DaysAgo?
    ensures TimeAgoOf(nowMs, dateMs, formatted).days < -1
    ensures Render(TimeAgoOf(nowMs, dateMs, formatted))[0] == '-'
  {
  }

  // ---------------------------------------------------------------------------
  // The demo roster
  // ---------------------------------------------------------------------------

  const Specialties: seq<string> := ["Primary Care", "Internal Medicine", "Pediatrics", "Cardiology",
    "Dermatology", "Psychiatry", "Orthopedics", "Neurology", "Emergency Medicine", "Family Medicine"]
  const RosterStates: seq<string> := ["Florida", "Texas", "California", "New York", "Washington"]
  const FirstNames: seq<string> := ["Sarah", "Michael", "Jennifer", "David", "Lisa", "Robert", "Emily", "James"]
  const LastNames: seq<string> := ["Johnson", "Smith", "Williams", "Brown", "Davis", "Miller", "Wilson", "Moore"]

  const RosterSize: nat := 12

  /** The random fields of one demo provider. */
  datatype RosterDraw = RosterDraw(phone: string, patients: int, revenue: int, rating: real,
                                   startDate: string, lastActivity: string, lastPayment: string, ytdEarnings: int)

  function MockStatus(i: nat): string {
    if i % 3 == 0 then "inactive" else if i % 5 == 0 then "pending" else "active"
  }

  function MockProvider(i: nat, d: RosterDraw): Provider {
    Provider(
      NatToString(i + 1),
      "Dr. " + FirstNames[i % 8] + " " + LastNames[i % 8],
      Specialties[i % 10],
      RosterStates[i % 5],
      "dr." + ToLower(LastNames[i % 8]) + "@example.com",
      d.phone,
      MockStatus(i),
      d.patients, d.revenue, d.rating, d.startDate, d.lastActivity,
      Credentials(if i % 4 == 0 then "expired" else if i % 7 == 0 then "pending" else "active",
                  i % 3 != 0,
                  if i % 5 == 0 then "expired" else if i % 8 == 0 then "pending" else "active"),
      Payroll(if i % 3 == 0 then "weekly" else if i % 2 == 0 then "biweekly" else "monthly",
              d.lastPayment, d.ytdEarnings))
  }

  /** `generateMockProviders`: twelve providers built from their position. */
  function MockProviders(draw: nat -> RosterDraw): (ps: seq<Provider>)
    ensures |ps| == RosterSize
    ensures forall i :: 0 <= i < RosterSize ==> ps[i] == MockProvider(i, draw(i))
  {
    seq(RosterSize, i requires 0 <= i < RosterSize => MockProvider(i, draw(i)))
  }

  /** Ids are "1" to "12", read back as the position plus one, hence all distinct. */
  lemma MockIds(draw: nat -> RosterDraw, i: nat, j: nat)
    requires i < j < RosterSize
    ensures ParseNat(MockProviders(draw)[i].id) == i + 1
    ensures MockProviders(draw)[i].id != MockProviders(draw)[j].id
  {
    MockIdIs(draw, i);
    MockIdIs(draw, j);
    ParseNatToString(i + 1);
    NatToStringInjective(i + 1, j + 1);
  }

  lemma MockIdIs(draw: nat -> RosterDraw, i: nat)
    requires i < RosterSize
    ensures MockProviders(draw)[i].id == NatToString(i + 1)
  {
    assert MockProviders(draw)[i] == MockProvider(i, draw(i));
  }

  /** Only a provider whose position is not a multiple of 3 is board certified, and exactly those are not inactive. */
  lemma MockBoardCertifiedIffNotInactive(draw: nat -> RosterDraw, i: nat)
    requires i < RosterSize
    ensures MockProviders(draw)[i].credentials.boardCertified <==> MockProviders(draw)[i].status != "inactive"
  {
  }

  /** A demo provider's credentials are expired exactly at positions divisible by 4 or by 5. */
  lemma MockCredentialStatus(draw: nat -> RosterDraw, i: nat)
    requires i < RosterSize
    ensures CredentialStatusOf(MockProviders(draw)[i].credentials) == CredentialsExpired <==> i % 4 == 0 || i % 5 == 0
  {
  }
}
