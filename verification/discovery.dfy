/** The aggregation of the `/apps` handler (src/index.ts:64-95): one app-list
    lookup, then per app a region-list lookup and a global-instance lookup,
    then per region of an app whose regions resolved an instance lookup. The
    lookups are made one after another; the run records every query in the
    order it is made, so that what is looked up can be stated alongside what
    is produced. */
module Discovery {
  import opened Dns
  import opened TxtList
  import opened Lookups

  /** One element of an app's `regioninstances`: a region and its lookup
      outcome, a failure included. */
  datatype RegionInstances = RegionInstances(region: string, instances: Result<seq<string>>)

  /** One element of the result list: the leading list of every app, or the
      entry of one app whose regions resolved. */
  datatype Entry =
    | AllApps(allapps: seq<string>)
    | AppEntry(app: string, appregions: seq<string>, appinstances: Result<seq<string>>,
               regioninstances: seq<RegionInstances>)

  /** What one handling produces: the result list or the failure of the app
      list lookup, and the queries made, in order. */
  datatype Run = Run(outcome: Result<seq<Entry>>, queries: seq<Query>)

  /** Entries and queries contributed by some of the apps. */
  datatype Step = Step(entries: seq<Entry>, queries: seq<Query>)

  /** The region lookup of `app` succeeded, so the app gets an entry. */
  predicate RegionsResolve(dns: Resolver, app: string)
  {
    dns.txt(RegionsName(app)).Ok?
  }

  /** The `regioninstances` of `app`: for each region, in order, its instance
      lookup outcome as it came. */
  function RegionEntries(dns: Resolver, regions: seq<string>, app: string): (es: seq<RegionInstances>)
    ensures |es| == |regions|
    ensures forall j :: 0 <= j < |regions| ==>
      es[j] == RegionInstances(regions[j], dns.aaaa(RegionName(regions[j], app)))
    decreases |regions|
  {
    if regions == [] then []
    else [RegionInstances(regions[0], GetRegionInstances(dns, regions[0], app))]
         + RegionEntries(dns, regions[1..], app)
  }

  /** The instance queries made for the regions of `app`, in order. */
  function RegionQueries(regions: seq<string>, app: string): (qs: seq<Query>)
    ensures |qs| == |regions|
    ensures forall j :: 0 <= j < |regions| ==> qs[j] == Query(Aaaa, RegionName(regions[j], app))
    decreases |regions|
  {
    if regions == [] then []
    else [RegionQuery(regions[0], app)] + RegionQueries(regions[1..], app)
  }

  /** The entry of an app whose regions resolved. */
  function Describe(dns: Resolver, app: string): (e: Entry)
    requires TxtShaped(dns.txt(RegionsName(app)))
    requires RegionsResolve(dns, app)
    ensures e.AppEntry? && e.app == app
    ensures ReadsAs(Ok(e.appregions), dns.txt(RegionsName(app)))
    ensures e.appinstances == dns.aaaa(GlobalName(app))
    ensures |e.regioninstances| == |e.appregions|
    ensures forall j :: 0 <= j < |e.appregions| ==>
      e.regioninstances[j] == RegionInstances(e.appregions[j], dns.aaaa(RegionName(e.appregions[j], app)))
  {
    var regions := GetAppRegions(dns, app).value;
    AppEntry(app, regions, GetAllInstances(dns, app), RegionEntries(dns, regions, app))
  }

  /** One turn of the loop over apps: the region list and the global
      instances are looked up for every app; an app whose region lookup
      failed is skipped, the others get their entry. */
  function VisitApp(dns: Resolver, app: string): (s: Step)
    requires TxtShaped(dns.txt(RegionsName(app)))
    ensures |s.queries| >= 2 && s.queries[0] == RegionsQuery(app) && s.queries[1] == GlobalQuery(app)
    ensures RegionsResolve(dns, app) ==> s.entries == [Describe(dns, app)]
    ensures !RegionsResolve(dns, app) ==> s.entries == [] && |s.queries| == 2
  {
    var asked := [RegionsQuery(app), GlobalQuery(app)];
    match GetAppRegions(dns, app)
    case Err(_) => Step([], asked)
    case Ok(regions) => Step([Describe(dns, app)], asked + RegionQueries(regions, app))
  }

  /** The apps whose region lookup succeeds, in list order. */
  function Kept(dns: Resolver, apps: seq<string>): (kept: seq<string>)
    ensures |kept| <= |apps|
    ensures forall a :: a in kept <==> a in apps && RegionsResolve(dns, a)
    decreases |apps|
  {
    if apps == [] then []
    else if RegionsResolve(dns, apps[0]) then [apps[0]] + Kept(dns, apps[1..])
    else Kept(dns, apps[1..])
  }

  /** The apps whose region lookup fails, in list order. */
  function Dropped(dns: Resolver, apps: seq<string>): (dropped: seq<string>)
    ensures |dropped| <= |apps|
    ensures forall a :: a in dropped <==> a in apps && !RegionsResolve(dns, a)
    decreases |apps|
  {
    if apps == [] then []
    else if RegionsResolve(dns, apps[0]) then Dropped(dns, apps[1..])
    else [apps[0]] + Dropped(dns, apps[1..])
  }

  /** Every app is either kept or dropped. */
  lemma {:induction false} KeptDroppedPartition(dns: Resolver, apps: seq<string>)
    ensures |Kept(dns, apps)| + |Dropped(dns, apps)| == |apps|
    decreases |apps|
  {
    if apps != [] {
      KeptDroppedPartition(dns, apps[1..]);
    }
  }

  /** Keeping respects the order of the app list: the kept apps of a prefix
      come before those of the rest. */
  lemma {:induction false} KeptPreservesOrder(dns: Resolver, xs: seq<string>, ys: seq<string>)
    ensures Kept(dns, xs + ys) == Kept(dns, xs) + Kept(dns, ys)
    decreases |xs|
  {
    if xs == [] {
      assert xs + ys == ys;
    } else {
      assert (xs + ys)[1..] == xs[1..] + ys;
      KeptPreservesOrder(dns, xs[1..], ys);
    }
  }

  /** The loop over apps: entries follow the kept apps one for one. */
  function VisitApps(dns: Resolver, apps: seq<string>): (s: Step)
    requires WellShaped(dns)
    ensures |s.entries| == |Kept(dns, apps)|
    ensures forall i :: 0 <= i < |s.entries| ==> s.entries[i] == Describe(dns, Kept(dns, apps)[i])
    decreases |apps|
  {
    if apps == [] then Step([], [])
    else
      var first := VisitApp(dns, apps[0]);
      var rest := VisitApps(dns, apps[1..]);
      var s := Step(first.entries + rest.entries, first.queries + rest.queries);
      if RegionsResolve(dns, apps[0]) then
        assert Kept(dns, apps) == [apps[0]] + Kept(dns, apps[1..]);
        assert s.entries == [Describe(dns, apps[0])] + rest.entries;
        s
      else
        assert Kept(dns, apps) == Kept(dns, apps[1..]);
        assert s.entries == rest.entries;
        s
  }

  /** The region list and global instances of every app are looked up. */
  lemma {:induction false} VisitAppsAsksEveryApp(dns: Resolver, apps: seq<string>)
    requires WellShaped(dns)
    ensures forall a :: a in apps ==>
      RegionsQuery(a) in VisitApps(dns, apps).queries && GlobalQuery(a) in VisitApps(dns, apps).queries
    decreases |apps|
  {
    if apps != [] {
      VisitAppsAsksEveryApp(dns, apps[1..]);
      var first := VisitApp(dns, apps[0]).queries;
      var rest := VisitApps(dns, apps[1..]).queries;
      assert VisitApps(dns, apps).queries == first + rest;
      assert first[0] == RegionsQuery(apps[0]) && first[1] == GlobalQuery(apps[0]);
      forall a | a in apps
        ensures RegionsQuery(a) in first + rest && GlobalQuery(a) in first + rest
      {
        if a != apps[0] {
          var k :| 0 <= k < |apps| && apps[k] == a;
          assert apps[1..][k - 1] == a;
        }
      }
    }
  }

  /** The `/apps` handler's aggregation. If the app list cannot be looked up
      the outcome is that lookup's error and nothing else is asked; otherwise
      the list of every app comes first. */
  function Aggregate(dns: Resolver): (run: Run)
    requires WellShaped(dns)
    ensures run.outcome.Err? <==> dns.txt(AppsName).Err?
    ensures run.outcome.Err? ==> run.outcome == Err(dns.txt(AppsName).cause) && run.queries == [AppsQuery]
    ensures |run.queries| >= 1 && run.queries[0] == Query(Txt, "_apps.internal")
    ensures run.outcome.Ok? ==>
      && |run.outcome.value| >= 1
      && run.outcome.value[0].AllApps?
      && ReadsAs(Ok(run.outcome.value[0].allapps), dns.txt(AppsName))
  {
    match GetApps(dns)
    case Err(cause) => Run(Err(cause), [AppsQuery])
    case Ok(apps) =>
      var s := VisitApps(dns, apps);
      Run(Ok([AllApps(apps)] + s.entries), [AppsQuery] + s.queries)
  }

  /** After the leading list of all apps, the result holds exactly one entry
      per app whose region lookup succeeded, in app-list order. */
  lemma EntriesFollowKeptApps(dns: Resolver)
    requires WellShaped(dns)
    requires Aggregate(dns).outcome.Ok?
    ensures GetApps(dns).Ok?
    ensures
      var out := Aggregate(dns).outcome.value;
      var kept := Kept(dns, GetApps(dns).value);
      && out[0] == AllApps(GetApps(dns).value)
      && |out| == 1 + |kept|
      && forall i :: 0 <= i < |kept| ==> out[i + 1] == Describe(dns, kept[i])
  {
    var apps := GetApps(dns).value;
    var e := VisitApps(dns, apps).entries;
    var kept := Kept(dns, apps);
    assert Aggregate(dns).outcome.value == [AllApps(apps)] + e;
    LeadingEntryThenRest(AllApps(apps), e);
  }

  lemma LeadingEntryThenRest(first: Entry, rest: seq<Entry>)
    ensures forall i :: 0 <= i < |rest| ==> ([first] + rest)[i + 1] == rest[i]
  {
  }

  /** An app of the list has an entry exactly when its region lookup
      succeeded; an app whose region lookup failed is left out silently. */
  lemma {:induction false} EntryIffRegionsResolve(dns: Resolver, app: string)
    requires WellShaped(dns)
    requires Aggregate(dns).outcome.Ok?
    requires app in Aggregate(dns).outcome.value[0].allapps
    ensures
      var out := Aggregate(dns).outcome.value;
      (exists i :: 1 <= i < |out| && out[i].AppEntry? && out[i].app == app) <==> RegionsResolve(dns, app)
  {
    EntriesFollowKeptApps(dns);
    var out := Aggregate(dns).outcome.value;
    var kept := Kept(dns, GetApps(dns).value);
    if RegionsResolve(dns, app) {
      var k :| 0 <= k < |kept| && kept[k] == app;
      assert out[k + 1].AppEntry? && out[k + 1].app == app;
    }
    if i :| 1 <= i < |out| && out[i].AppEntry? && out[i].app == app {
      assert out[i] == Describe(dns, kept[i - 1]);
      assert kept[i - 1] in kept;
    }
  }

  /** The number of app entries is the number of apps less those whose
      region lookup failed; in particular one failing app among N leaves N-1
      app entries, while the leading list still names all N. */
  lemma EntryCount(dns: Resolver)
    requires WellShaped(dns)
    requires Aggregate(dns).outcome.Ok?
    ensures
      var apps := Aggregate(dns).outcome.value[0].allapps;
      && |Aggregate(dns).outcome.value| - 1 == |apps| - |Dropped(dns, apps)|
      && (|Dropped(dns, apps)| == 1 ==> |Aggregate(dns).outcome.value| - 1 == |apps| - 1)
  {
    EntriesFollowKeptApps(dns);
    KeptDroppedPartition(dns, GetApps(dns).value);
  }

  /** The region list and the global instances are looked up for every app of
      the list, also for the apps that end up without an entry. */
  lemma EveryAppLookedUp(dns: Resolver)
    requires WellShaped(dns)
    requires Aggregate(dns).outcome.Ok?
    ensures forall a :: a in Aggregate(dns).outcome.value[0].allapps ==>
      && Query(Txt, "regions." + a + ".internal") in Aggregate(dns).queries
      && Query(Aaaa, "global." + a + ".internal") in Aggregate(dns).queries
  {
    var apps := GetApps(dns).value;
    var later := VisitApps(dns, apps).queries;
    assert Aggregate(dns).queries == [AppsQuery] + later;
    VisitAppsAsksEveryApp(dns, apps);
  }

  /** Queries of a concatenated log are agreed on when the whole log is. */
  lemma AgreeOnParts(a: Resolver, b: Resolver, xs: seq<Query>, ys: seq<Query>)
    requires AgreeOn(a, b, xs + ys)
    ensures AgreeOn(a, b, xs) && AgreeOn(a, b, ys)
  {
    forall j | 0 <= j < |ys|
      ensures AgreeAt(a, b, ys[j])
    {
      assert (xs + ys)[|xs| + j] == ys[j];
    }
    forall j | 0 <= j < |xs|
      ensures AgreeAt(a, b, xs[j])
    {
      assert (xs + ys)[j] == xs[j];
    }
  }

  lemma RegionEntriesAgree(a: Resolver, b: Resolver, regions: seq<string>, app: string)
    requires AgreeOn(a, b, RegionQueries(regions, app))
    ensures RegionEntries(a, regions, app) == RegionEntries(b, regions, app)
  {
    var qs := RegionQueries(regions, app);
    forall j | 0 <= j < |regions|
      ensures a.aaaa(RegionName(regions[j], app)) == b.aaaa(RegionName(regions[j], app))
    {
      assert AgreeAt(a, b, qs[j]);
    }
  }

  lemma VisitAppAgree(a: Resolver, b: Resolver, app: string)
    requires WellShaped(a) && WellShaped(b)
    requires AgreeOn(a, b, VisitApp(a, app).queries)
    ensures VisitApp(a, app) == VisitApp(b, app)
  {
    var qs := VisitApp(a, app).queries;
    assert AgreeAt(a, b, qs[0]) && AgreeAt(a, b, qs[1]);
    if GetAppRegions(a, app).Ok? {
      var regions := GetAppRegions(a, app).value;
      AgreeOnParts(a, b, [RegionsQuery(app), GlobalQuery(app)], RegionQueries(regions, app));
      RegionEntriesAgree(a, b, regions, app);
    }
  }

  lemma {:induction false} VisitAppsAgree(a: Resolver, b: Resolver, apps: seq<string>)
    requires WellShaped(a) && WellShaped(b)
    requires AgreeOn(a, b, VisitApps(a, apps).queries)
    ensures VisitApps(a, apps) == VisitApps(b, apps)
    decreases |apps|
  {
    if apps != [] {
      AgreeOnParts(a, b, VisitApp(a, apps[0]).queries, VisitApps(a, apps[1..]).queries);
      VisitAppAgree(a, b, apps[0]);
      VisitAppsAgree(a, b, apps[1..]);
    }
  }

  /** The query log is complete: the run depends on the resolver only through
      the answers to the queries it records, so any resolver giving the same
      answers to those queries yields the same run. */
  lemma RunDeterminedByLoggedQueries(a: Resolver, b: Resolver)
    requires WellShaped(a) && WellShaped(b)
    requires AgreeOn(a, b, Aggregate(a).queries)
    ensures Aggregate(a) == Aggregate(b)
  {
    assert AgreeAt(a, b, Aggregate(a).queries[0]);
    if GetApps(a).Ok? {
      var apps := GetApps(a).value;
      AgreeOnParts(a, b, [AppsQuery], VisitApps(a, apps).queries);
      VisitAppsAgree(a, b, apps);
    }
  }

  /** Every app entry describes an app of the list whose region lookup
      succeeded: its regions are read from that lookup, its global instances
      are the global AAAA answer as it came, and it has one region entry per
      region, in region order, holding that region's AAAA answer as it came,
      a failure included. */
  lemma AppEntryContents(dns: Resolver, i: nat)
    requires WellShaped(dns)
    requires Aggregate(dns).outcome.Ok?
    requires 1 <= i < |Aggregate(dns).outcome.value|
    ensures
      var e := Aggregate(dns).outcome.value[i];
      && e.AppEntry?
      && e.app in Aggregate(dns).outcome.value[0].allapps
      && RegionsResolve(dns, e.app)
      && ReadsAs(Ok(e.appregions), dns.txt(RegionsName(e.app)))
      && e.appinstances == dns.aaaa(GlobalName(e.app))
      && |e.regioninstances| == |e.appregions|
      && forall j :: 0 <= j < |e.appregions| ==>
           e.regioninstances[j] == RegionInstances(e.appregions[j], dns.aaaa(RegionName(e.appregions[j], e.app)))
  {
    EntriesFollowKeptApps(dns);
    var apps := GetApps(dns).value;
    var kept := Kept(dns, apps);
    var app := kept[i - 1];
    assert app in kept;
    assert app in apps && RegionsResolve(dns, app);
    assert Aggregate(dns).outcome.value[i] == Describe(dns, app);
  }

  /** The queries one app may cause under the naming convention: its region
      list, its global instances, and, when its regions resolved, the
      instances of each of its regions. */
  predicate AskedFor(dns: Resolver, q: Query, app: string)
    requires TxtShaped(dns.txt(RegionsName(app)))
  {
    || q == RegionsQuery(app)
    || q == GlobalQuery(app)
    || (RegionsResolve(dns, app) && q in RegionQueries(GetAppRegions(dns, app).value, app))
  }

  lemma {:induction false} VisitAppsAsksByConvention(dns: Resolver, apps: seq<string>)
    requires WellShaped(dns)
    ensures forall q :: q in VisitApps(dns, apps).queries ==> exists a :: a in apps && AskedFor(dns, q, a)
    decreases |apps|
  {
    if apps != [] {
      VisitAppsAsksByConvention(dns, apps[1..]);
      var first := VisitApp(dns, apps[0]).queries;
      forall q | q in first
        ensures AskedFor(dns, q, apps[0])
      {
        VisitAppAsksByConvention(dns, apps[0], q);
      }
      AskedByConcatenation(dns, apps, first, VisitApps(dns, apps[1..]).queries);
    }
  }

  /** The queries of the first app and those of the later apps are all asked
      for by some app of the list. */
  lemma AskedByConcatenation(dns: Resolver, apps: seq<string>, first: seq<Query>, rest: seq<Query>)
    requires WellShaped(dns)
    requires |apps| > 0
    requires forall q :: q in first ==> AskedFor(dns, q, apps[0])
    requires forall q :: q in rest ==> exists a :: a in apps[1..] && AskedFor(dns, q, a)
    ensures forall q :: q in first + rest ==> exists a :: a in apps && AskedFor(dns, q, a)
  {
    forall q | q in first + rest
      ensures exists a :: a in apps && AskedFor(dns, q, a)
    {
      if q in first {
        assert apps[0] in apps;
      } else {
        var tail := apps[1..];
        var a :| a in tail && AskedFor(dns, q, a);
        var k :| 0 <= k < |tail| && tail[k] == a;
        assert apps[k + 1] == a;
      }
    }
  }

  lemma VisitAppAsksByConvention(dns: Resolver, app: string, q: Query)
    requires WellShaped(dns)
    requires q in VisitApp(dns, app).queries
    ensures AskedFor(dns, q, app)
  {
    if GetAppRegions(dns, app).Ok? {
      var regions := GetAppRegions(dns, app).value;
      var asked := [RegionsQuery(app), GlobalQuery(app)];
      assert q in asked + RegionQueries(regions, app);
      if q !in asked {
        assert q in RegionQueries(regions, app);
      }
    }
  }

  /** Every query of a run follows the naming convention: the app list first,
      then only queries that some app of the list causes. */
  lemma QueriesFollowConvention(dns: Resolver)
    requires WellShaped(dns)
    ensures forall q :: q in Aggregate(dns).queries ==>
      q == AppsQuery || (GetApps(dns).Ok? && exists a :: a in GetApps(dns).value && AskedFor(dns, q, a))
  {
    if GetApps(dns).Ok? {
      var apps := GetApps(dns).value;
      var later := VisitApps(dns, apps).queries;
      assert Aggregate(dns).queries == [AppsQuery] + later;
      VisitAppsAsksByConvention(dns, apps);
      forall q | q in [AppsQuery] + later
        ensures q == AppsQuery || exists a :: a in apps && AskedFor(dns, q, a)
      {
        if q != AppsQuery {
          assert q in later;
        }
      }
    }
  }
}
