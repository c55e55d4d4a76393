/**
 * The organization page: the profile loaded from storage, the edit form with
 * its edit / cancel / save handlers, and the summary statistics computed from
 * the stored states and providers. The profile is a plain object, so it is a
 * JSON object here and a spread `{...a, ...b}` is the map union `a + b`.
 * `Date.now().toString()` and `toISOString()` are the parameters `newId` and
 * `nowIso`; the stored profile is kept already parsed.
 */
module Organization {
  import opened Base
  import opened Json

  type Profile = Object

  /**
   * The page's state: the profile shown, whether the form is open, the form's
   * fields, the loading flag, and the `organization` entry of storage.
   */
  datatype OrgPage = OrgPage(
    organization: Option<Profile>,
    isEditing: bool,
    editForm: Profile,
    loading: bool,
    stored: Option<Profile>)

  /** The page as first rendered, before the mount effect runs. */
  function Initial(stored: Option<Profile>): (p: OrgPage)
    ensures p.organization.None? && !p.isEditing && p.editForm == map[] && p.loading && p.stored == stored
  {
    OrgPage(None, false, map[], true, stored)
  }

  /** `loadOrganization`: a stored profile is shown and copied into the form; loading ends either way. */
  function LoadOrganization(page: OrgPage): (r: OrgPage)
    ensures !r.loading && r.isEditing == page.isEditing && r.stored == page.stored
    ensures page.stored.Some? ==> r.organization == page.stored && r.editForm == page.stored.value
    ensures page.stored.None? ==> r.organization == page.organization && r.editForm == page.editForm
  {
    match page.stored
    case Some(org) => page.(organization := Some(org), editForm := org, loading := false)
    case None => page.(loading := false)
  }

  /** `organization || {}`. */
  function OrEmpty(org: Option<Profile>): Profile {
    org.GetOr(map[])
  }

  /** `handleEdit`: opens the form, filled with the current profile. */
  function HandleEdit(page: OrgPage): (r: OrgPage)
    ensures r.isEditing && r.editForm == OrEmpty(page.organization)
    ensures r.organization == page.organization && r.stored == page.stored
  {
    page.(isEditing := true, editForm := OrEmpty(page.organization))
  }

  /** `handleCancel`: closes the form and throws its edits away. */
  function HandleCancel(page: OrgPage): (r: OrgPage)
    ensures !r.isEditing && r.editForm == OrEmpty(page.organization)
    ensures r.organization == page.organization && r.stored == page.stored
  {
    page.(isEditing := false, editForm := OrEmpty(page.organization))
  }

  /** `organization?.[k] || fallback`. */
  function KeptOr(org: Option<Profile>, k: string, fallback: Json): (r: Json)
    ensures org.Some? && Truthy(Get(org.value, k)) ==> r == org.value[k]
    ensures !(org.Some? && Truthy(Get(org.value, k))) ==> r == fallback
  {
    if org.Some? && Truthy(Get(org.value, k)) then org.value[k] else fallback
  }

  /** The profile `handleSave` builds: profile, then the form, then the kept or fresh id and creation date. */
  function Merged(org: Option<Profile>, editForm: Profile, newId: string, nowIso: string): (r: Profile)
    ensures r.Keys == OrEmpty(org).Keys + editForm.Keys + {"id", "createdAt"}
    ensures r["id"] == KeptOr(org, "id", Str(newId))
    ensures r["createdAt"] == KeptOr(org, "createdAt", Str(nowIso))
    ensures forall k :: k in editForm && k !in {"id", "createdAt"} ==> r[k] == editForm[k]
    ensures forall k :: k in OrEmpty(org) && k !in editForm && k !in {"id", "createdAt"} ==> r[k] == OrEmpty(org)[k]
  {
    OrEmpty(org) + editForm +
      map["id" := KeptOr(org, "id", Str(newId)), "createdAt" := KeptOr(org, "createdAt", Str(nowIso))]
  }

  /** `handleSave`: shows and stores the merged profile and closes the form; the form keeps its fields. */
  function HandleSave(page: OrgPage, newId: string, nowIso: string): (r: OrgPage)
    ensures r.organization == Some(Merged(page.organization, page.editForm, newId, nowIso))
    ensures r.stored == r.organization
    ensures !r.isEditing && r.editForm == page.editForm && r.loading == page.loading
  {
    var updated := Merged(page.organization, page.editForm, newId, nowIso);
    page.(organization := Some(updated), stored := Some(updated), isEditing := false)
  }

  /** A saved profile keeps its id and creation date, whatever the form says about them. */
  lemma SaveKeepsIdentity(page: OrgPage, newId: string, nowIso: string)
    requires page.organization.Some?
    requires Truthy(Get(page.organization.value, "id")) && Truthy(Get(page.organization.value, "createdAt"))
    ensures var saved := HandleSave(page, newId, nowIso).organization.value;
            saved["id"] == page.organization.value["id"] &&
            saved["createdAt"] == page.organization.value["createdAt"]
  {
  }

  /** The first save of a page without a profile stamps the fresh id and the current time. */
  lemma FirstSaveStamps(page: OrgPage, newId: string, nowIso: string)
    requires page.organization.None?
    ensures var saved := HandleSave(page, newId, nowIso).organization.value;
            saved["id"] == Str(newId) && saved["createdAt"] == Str(nowIso) &&
            saved.Keys == page.editForm.Keys + {"id", "createdAt"}
  {
  }

  /** Saving again with the same form changes nothing, once the first save produced a truthy id and date. */
  lemma SaveIdempotent(page: OrgPage, newId: string, nowIso: string, laterId: string, laterIso: string)
    requires newId != "" && nowIso != ""
    ensures var once := HandleSave(page, newId, nowIso);
            HandleSave(once, laterId, laterIso) == once
  {
    var once := HandleSave(page, newId, nowIso);
    var org := once.organization.value;
    assert Truthy(Get(org, "id")) && Truthy(Get(org, "createdAt")) by {
      assert org["id"] == KeptOr(page.organization, "id", Str(newId));
      assert org["createdAt"] == KeptOr(page.organization, "createdAt", Str(nowIso));
    }
    var twice := Merged(once.organization, page.editForm, laterId, laterIso);
    assert twice.Keys == org.Keys;
    forall k | k in org
      ensures twice[k] == org[k]
    {
      if k !in {"id", "createdAt"} && k !in page.editForm {
        assert k in OrEmpty(page.organization);
      }
    }
    assert twice == org;
  }

  /** Opening the form and saving it untouched stores the profile as it was. */
  lemma UntouchedSaveKeepsProfile(page: OrgPage, newId: string, nowIso: string)
    requires page.organization.Some?
    requires Truthy(Get(page.organization.value, "id")) && Truthy(Get(page.organization.value, "createdAt"))
    ensures HandleSave(HandleEdit(page), newId, nowIso).organization == page.organization
    ensures HandleSave(HandleCancel(page), newId, nowIso).organization == page.organization
  {
    var org := page.organization.value;
    var saved := Merged(page.organization, org, newId, nowIso);
    assert saved.Keys == org.Keys;
    assert forall k :: k in org ==> saved[k] == org[k];
    assert saved == org;
    assert HandleEdit(page).editForm == org && HandleCancel(page).editForm == org;
  }

  // ---------------------------------------------------------------------------
  // Statistics
  // ---------------------------------------------------------------------------

  /**
   * `totalRevenue` as the page computes it. `None` stands for the value
   * turning into a string: once a truthy non-number is added, `+=`
   * concatenates from then on.
   */
  type Total = Option<real>

  datatype OrgStats = OrgStats(totalStates: nat, totalProviders: nat, totalRevenue: Total, monthlyGrowth: real)

  /** The growth rate the page shows, a fixed figure. */
  const MonthlyGrowth: real := 12.5

  /** `state.revenue || 0` as an addend: numbers count, falsy counts 0, `true` counts 1, anything else is text. */
  function RevenueOf(state: Object): (r: Total)
    ensures !Truthy(Get(state, "revenue")) ==> r == Some(0.0)
    ensures Get(state, "revenue").Num? ==> r == Some(Get(state, "revenue").n)
    ensures r.None? <==> (Get(state, "revenue").Str? && Get(state, "revenue").s != "") ||
                         Get(state, "revenue").Arr? || Get(state, "revenue").Obj?
  {
    match Get(state, "revenue")
    case Null => Some(0.0)
    case Bool(b) => Some(if b then 1.0 else 0.0)
    case Num(n) => Some(n)
    case Str(s) => if s == "" then Some(0.0) else None
    case Arr(_) => None
    case Obj(_) => None
  }

  /** `total += addend`: text absorbs everything after it. */
  function AddTotal(total: Total, addend: Total): (r: Total)
    ensures r.Some? <==> total.Some? && addend.Some?
    ensures r.Some? ==> r.value == total.value + addend.value
  {
    if total.Some? && addend.Some? then Some(total.value + addend.value) else None
  }

  /** The total after `forEach` has visited the states in order. */
  function SumRevenue(states: seq<Object>): Total {
    if states == [] then Some(0.0)
    else AddTotal(SumRevenue(states[..|states| - 1]), RevenueOf(states[|states| - 1]))
  }

  /** `loadStats`: counts the stored states and providers and sums the states' revenue. */
  method LoadStats(states: seq<Object>, providers: seq<Json>) returns (stats: OrgStats)
    ensures stats.totalStates == |states| && stats.totalProviders == |providers|
    ensures stats.totalRevenue == SumRevenue(states)
    ensures stats.monthlyGrowth == MonthlyGrowth
  {
    var totalRevenue: Total := Some(0.0);
    var i := 0;
    while i < |states|
      invariant 0 <= i <= |states|
      invariant totalRevenue == SumRevenue(states[..i])
    {
      assert states[..i + 1][..i] == states[..i];
      totalRevenue := AddTotal(totalRevenue, RevenueOf(states[i]));
      i := i + 1;
    }
    assert states[..i] == states;
    stats := OrgStats(|states|, |providers|, totalRevenue, MonthlyGrowth);
  }

  /** Summing two lists of states one after the other is summing their concatenation. */
  lemma {:induction false} SumRevenueAppend(a: seq<Object>, b: seq<Object>)
    ensures SumRevenue(a + b) == AddTotal(SumRevenue(a), SumRevenue(b))
    decreases |b|
  {
    if b == [] {
      assert a + b == a;
    } else {
      var b' := b[..|b| - 1];
      assert (a + b)[..|a + b| - 1] == a + b';
      SumRevenueAppend(a, b');
    }
  }

  /** A state without revenue adds nothing to the total. */
  lemma MissingRevenueAddsNothing(states: seq<Object>, s: Object)
    requires "revenue" !in s
    ensures SumRevenue(states + [s]) == SumRevenue(states)
  {
    assert (states + [s])[..|states|] == states;
    if SumRevenue(states).Some? {
      assert SumRevenue(states + [s]).value == SumRevenue(states).value + 0.0;
    }
  }

  /** One state whose revenue is a non-empty string turns the whole total into text. */
  lemma TextRevenuePoisonsTotal(states: seq<Object>, k: nat)
    requires k < |states| && Get(states[k], "revenue").Str? && Get(states[k], "revenue").s != ""
    ensures SumRevenue(states).None?
  {
    assert states == states[..k] + [states[k]] + states[k + 1..];
    SumRevenueAppend(states[..k] + [states[k]], states[k + 1..]);
    assert (states[..k] + [states[k]])[..k] == states[..k];
  }

  /** States whose revenues are all non-negative numbers give a non-negative total. */
  lemma {:induction false} NonNegativeRevenues(states: seq<Object>)
    requires forall i :: 0 <= i < |states| ==> Get(states[i], "revenue").Num? && Get(states[i], "revenue").n >= 0.0
    ensures SumRevenue(states).Some? && SumRevenue(states).value >= 0.0
  {
    if states != [] {
      NonNegativeRevenues(states[..|states| - 1]);
    }
  }
}
