/**
 * The dashboard page: the session guard, the demo figures loaded on mount,
 * and the three realtime subscriptions that patch the figures. The figures
 * are a plain object updated by spreads, so they are a JSON object here; the
 * subscriptions are entries of the channel's handler registry.
 */
module Dashboard {
  import opened Base
  import opened Json
  import opened Storage
  import Channel

  type Stats = Object

  /** The six figures, all starting at 0. */
  const InitialStats: Stats := map[
    "totalRevenue" := Num(0.0), "activeProviders" := Num(0.0), "states" := Num(0.0),
    "services" := Num(0.0), "monthlyGrowth" := Num(0.0), "patientVolume" := Num(0.0)]

  /** The demo figures `loadDashboardStats` sets. */
  const MockStats: Stats := map[
    "totalRevenue" := Num(1875420.0), "activeProviders" := Num(47.0), "states" := Num(5.0),
    "services" := Num(12.0), "monthlyGrowth" := Num(12.5), "patientVolume" := Num(3240.0)]

  const StatsEvent := "dashboard:stats"
  const RevenueEvent := "revenue:update"
  const ProviderEvent := "provider:count"

  /** `dashboard:stats`: every field of the payload overwrites the figure of that name, and may add new ones. */
  function OnStats(stats: Stats, data: Object): (r: Stats)
    ensures r.Keys == stats.Keys + data.Keys
    ensures forall k :: k in data ==> r[k] == data[k]
    ensures forall k :: k in stats && k !in data ==> r[k] == stats[k]
  {
    stats + data
  }

  /** `data.f || prev.g`: the payload's field when truthy, the previous figure otherwise. */
  function TruthyOr(data: Object, f: string, stats: Stats, g: string): (r: Json)
    ensures Truthy(Get(data, f)) ==> r == data[f]
    ensures !Truthy(Get(data, f)) ==> r == Get(stats, g)
  {
    if Truthy(Get(data, f)) then data[f] else Get(stats, g)
  }

  /** `revenue:update`: replaces revenue and growth by the payload's truthy values. */
  function OnRevenue(stats: Stats, data: Object): (r: Stats)
    ensures r.Keys == stats.Keys + {"totalRevenue", "monthlyGrowth"}
    ensures r["totalRevenue"] == TruthyOr(data, "totalRevenue", stats, "totalRevenue")
    ensures r["monthlyGrowth"] == TruthyOr(data, "monthlyGrowth", stats, "monthlyGrowth")
    ensures forall k :: k in stats && k !in {"totalRevenue", "monthlyGrowth"} ==> r[k] == stats[k]
  {
    stats["totalRevenue" := TruthyOr(data, "totalRevenue", stats, "totalRevenue")]
         ["monthlyGrowth" := TruthyOr(data, "monthlyGrowth", stats, "monthlyGrowth")]
  }

  /** `provider:count`: replaces the provider figure by the payload's truthy `count`. */
  function OnProviderCount(stats: Stats, data: Object): (r: Stats)
    ensures r.Keys == stats.Keys + {"activeProviders"}
    ensures r["activeProviders"] == TruthyOr(data, "count", stats, "activeProviders")
    ensures forall k :: k in stats && k != "activeProviders" ==> r[k] == stats[k]
  {
    stats["activeProviders" := TruthyOr(data, "count", stats, "activeProviders")]
  }

  /** A reported revenue of 0 is not shown: the previous figure stays, as for a missing one. */
  lemma ZeroRevenueIgnored(stats: Stats, data: Object)
    requires Get(data, "totalRevenue") == Num(0.0) && "totalRevenue" in stats
    ensures OnRevenue(stats, data)["totalRevenue"] == stats["totalRevenue"]
    ensures OnRevenue(stats, data)["totalRevenue"] == OnRevenue(stats, data - {"totalRevenue"})["totalRevenue"]
  {
  }

  /** Likewise a provider count of 0 leaves the previous count. */
  lemma ZeroCountIgnored(stats: Stats, data: Object)
    requires Get(data, "count") == Num(0.0) && "activeProviders" in stats
    ensures OnProviderCount(stats, data) == stats
  {
    assert OnProviderCount(stats, data).Keys == stats.Keys;
  }

  /** `dashboard:stats` applies the same payload once or twice alike. */
  lemma OnStatsIdempotent(stats: Stats, data: Object)
    ensures OnStats(OnStats(stats, data), data) == OnStats(stats, data)
  {
  }

  /** Whatever arrives, the three events keep every one of the six figures present. */
  lemma FiguresStayPresent(stats: Stats, data: Object)
    requires InitialStats.Keys <= stats.Keys
    ensures InitialStats.Keys <= OnStats(stats, data).Keys
    ensures InitialStats.Keys <= OnRevenue(stats, data).Keys
    ensures InitialStats.Keys <= OnProviderCount(stats, data).Keys
  {
  }

  // ---------------------------------------------------------------------------
  // Mount and unmount
  // ---------------------------------------------------------------------------

  /** What the mount effect leaves behind: a redirect, or the figures and the three subscriptions. */
  datatype Mounted = Mounted(redirect: Option<string>, stats: Stats, loading: bool, reg: Channel.Registry)

  /**
   * The mount effect: without a stored user and organization it redirects to
   * `/` and subscribes nothing; otherwise it loads the demo figures and
   * subscribes the three handlers `hs`, `hr` and `hp`.
   */
  function Mount(store: Store, reg: Channel.Registry, hs: Channel.HandlerId, hr: Channel.HandlerId, hp: Channel.HandlerId)
    : (m: Mounted)
    ensures m.redirect.Some? <==> !SignedIn(store)
    ensures m.redirect.Some? ==> m.redirect.value == "/" && m.reg == reg && m.stats == InitialStats && m.loading
    ensures m.redirect.None? ==> m.stats == MockStats && !m.loading
    ensures m.redirect.None? ==>
              && Channel.HandlersFor(m.reg, StatsEvent) == Channel.HandlersFor(reg, StatsEvent) + {hs}
              && Channel.HandlersFor(m.reg, RevenueEvent) == Channel.HandlersFor(reg, RevenueEvent) + {hr}
              && Channel.HandlersFor(m.reg, ProviderEvent) == Channel.HandlersFor(reg, ProviderEvent) + {hp}
              && forall e :: e !in {StatsEvent, RevenueEvent, ProviderEvent} ==>
                   Channel.HandlersFor(m.reg, e) == Channel.HandlersFor(reg, e)
  {
    if !SignedIn(store) then Mounted(Some("/"), InitialStats, true, reg)
    else
      var r1 := Channel.AddHandler(reg, StatsEvent, hs);
      var r2 := Channel.AddHandler(r1, RevenueEvent, hr);
      var r3 := Channel.AddHandler(r2, ProviderEvent, hp);
      Mounted(None, MockStats, false, r3)
  }

  /** The cleanup the effect returns: the three unsubscribe functions in order. */
  function Cleanup(reg: Channel.Registry, hs: Channel.HandlerId, hr: Channel.HandlerId, hp: Channel.HandlerId)
    : (r: Channel.Registry)
    ensures Channel.HandlersFor(r, StatsEvent) == Channel.HandlersFor(reg, StatsEvent) - {hs}
    ensures Channel.HandlersFor(r, RevenueEvent) == Channel.HandlersFor(reg, RevenueEvent) - {hr}
    ensures Channel.HandlersFor(r, ProviderEvent) == Channel.HandlersFor(reg, ProviderEvent) - {hp}
    ensures forall e :: e !in {StatsEvent, RevenueEvent, ProviderEvent} ==>
              Channel.HandlersFor(r, e) == Channel.HandlersFor(reg, e)
    ensures Channel.NoEmptySets(reg) ==> Channel.NoEmptySets(r)
  {
    var r1 := Channel.RemoveHandler(reg, StatsEvent, hs);
    var r2 := Channel.RemoveHandler(r1, RevenueEvent, hr);
    Channel.RemoveHandler(r2, ProviderEvent, hp)
  }

  /** Two registries without empty entries that agree on every event's handlers are equal. */
  lemma RegistryExtensionality(a: Channel.Registry, b: Channel.Registry)
    requires Channel.NoEmptySets(a) && Channel.NoEmptySets(b)
    requires forall e :: Channel.HandlersFor(a, e) == Channel.HandlersFor(b, e)
    ensures a == b
  {
    assert forall e :: e in a <==> Channel.HandlersFor(a, e) != {};
    assert forall e :: e in b <==> Channel.HandlersFor(b, e) != {};
    assert a.Keys == b.Keys;
    assert forall e :: e in a ==> a[e] == Channel.HandlersFor(a, e);
  }

  /** Unmounting a signed-in dashboard leaves the registry exactly as mounting found it. */
  lemma MountThenCleanupRestores(store: Store, reg: Channel.Registry,
                                 hs: Channel.HandlerId, hr: Channel.HandlerId, hp: Channel.HandlerId)
    requires SignedIn(store) && Channel.NoEmptySets(reg)
    requires hs !in Channel.HandlersFor(reg, StatsEvent)
    requires hr !in Channel.HandlersFor(reg, RevenueEvent)
    requires hp !in Channel.HandlersFor(reg, ProviderEvent)
    ensures Cleanup(Mount(store, reg, hs, hr, hp).reg, hs, hr, hp) == reg
  {
    var m := Mount(store, reg, hs, hr, hp).reg;
    MountKeepsNoEmptySets(store, reg, hs, hr, hp);
    var c := Cleanup(m, hs, hr, hp);
    forall e
      ensures Channel.HandlersFor(c, e) == Channel.HandlersFor(reg, e)
    {
      if e == StatsEvent {
      } else if e == RevenueEvent {
      } else if e == ProviderEvent {
      }
    }
    RegistryExtensionality(c, reg);
  }

  /** The registry the mount effect leaves has no empty entries when it found none. */
  lemma MountKeepsNoEmptySets(store: Store, reg: Channel.Registry,
                              hs: Channel.HandlerId, hr: Channel.HandlerId, hp: Channel.HandlerId)
    requires Channel.NoEmptySets(reg)
    ensures Channel.NoEmptySets(Mount(store, reg, hs, hr, hp).reg)
  {
    var r1 := Channel.AddHandler(reg, StatsEvent, hs);
    var r2 := Channel.AddHandler(r1, RevenueEvent, hr);
  }
}
