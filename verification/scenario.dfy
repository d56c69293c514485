/** A worked example of the discovery convention: two apps, of which the
    second has no region record; the first runs in regions `us` and `eu`. */
module Scenario {
  import opened Dns
  import opened TxtList
  import opened Lookups
  import opened Discovery

  /** The answers of the example network at the names a run asks about
      (the AAAA answer for `eu` is left open). */
  predicate ExampleNetwork(dns: Resolver)
  {
    && dns.txt(AppsName) == Ok([["app1,app2"]])
    && dns.txt(RegionsName("app1")) == Ok([["us,eu"]])
    && dns.txt(RegionsName("app2")).Err?
    && dns.aaaa(GlobalName("app1")) == Ok(["fdaa::1"])
    && dns.aaaa(RegionName("us", "app1")) == Ok(["fdaa::1"])
  }

  /** A value of two comma-free names separated by a comma reads as those two names. */
  lemma ParseTwo(a: string, b: string)
    requires ',' !in a && ',' !in b
    ensures ParseList(a + [','] + b) == [a, b]
  {
    assert Join([a, b], ',') == a + [','] + b;
    ParseJoinRoundTrip([a, b]);
  }

  /** The two TXT values of the example, read as lists. */
  lemma ExampleListValues()
    ensures ParseList("app1,app2") == ["app1", "app2"]
    ensures ParseList("us,eu") == ["us", "eu"]
  {
    assert "app1" + [','] + "app2" == "app1,app2";
    ParseTwo("app1", "app2");
    assert "us" + [','] + "eu" == "us,eu";
    ParseTwo("us", "eu");
  }

  lemma ExampleLists(dns: Resolver)
    requires WellShaped(dns)
    requires ExampleNetwork(dns)
    ensures GetApps(dns) == Ok(["app1", "app2"])
    ensures GetAppRegions(dns, "app1") == Ok(["us", "eu"])
  {
    ExampleListValues();
  }

  /** `app1` resolves and gets its entry. */
  lemma App1Visit(dns: Resolver)
    requires WellShaped(dns)
    requires GetAppRegions(dns, "app1") == Ok(["us", "eu"])
    requires dns.aaaa(GlobalName("app1")) == Ok(["fdaa::1"])
    requires dns.aaaa(RegionName("us", "app1")) == Ok(["fdaa::1"])
    ensures VisitApp(dns, "app1") == Step(
      [AppEntry("app1", ["us", "eu"], Ok(["fdaa::1"]),
                [RegionInstances("us", Ok(["fdaa::1"])),
                 RegionInstances("eu", dns.aaaa(RegionName("eu", "app1")))])],
      [RegionsQuery("app1"), GlobalQuery("app1"), RegionQuery("us", "app1"), RegionQuery("eu", "app1")])
  {
    var entries := RegionEntries(dns, ["us", "eu"], "app1");
    assert entries == [RegionInstances("us", Ok(["fdaa::1"])),
                       RegionInstances("eu", dns.aaaa(RegionName("eu", "app1")))];
    var asked := RegionQueries(["us", "eu"], "app1");
    assert asked == [RegionQuery("us", "app1"), RegionQuery("eu", "app1")];
  }

  /** `app2` has no region record: no entry, but both of its lookups are made. */
  lemma App2Skipped(dns: Resolver)
    requires WellShaped(dns)
    requires dns.txt(RegionsName("app2")).Err?
    ensures VisitApps(dns, ["app2"]) == Step([], [RegionsQuery("app2"), GlobalQuery("app2")])
  {
    assert VisitApp(dns, "app2") == Step([], [RegionsQuery("app2"), GlobalQuery("app2")]);
    assert ["app2"][1..] == [];
  }

  /** `app2`'s region lookup fails, so only `app1` gets an entry, although the
      leading list names both; `app2`'s global instances are still looked up.
      Whatever the `eu` lookup gives, a failure included, is the `eu` entry. */
  lemma ExampleRun(dns: Resolver)
    requires WellShaped(dns)
    requires ExampleNetwork(dns)
    ensures Aggregate(dns).outcome == Ok([
      AllApps(["app1", "app2"]),
      AppEntry("app1", ["us", "eu"], Ok(["fdaa::1"]),
               [RegionInstances("us", Ok(["fdaa::1"])),
                RegionInstances("eu", dns.aaaa(RegionName("eu", "app1")))])])
    ensures Aggregate(dns).queries == [
      Query(Txt, AppsName),
      Query(Txt, RegionsName("app1")), Query(Aaaa, GlobalName("app1")),
      Query(Aaaa, RegionName("us", "app1")), Query(Aaaa, RegionName("eu", "app1")),
      Query(Txt, RegionsName("app2")), Query(Aaaa, GlobalName("app2"))]
  {
    ExampleLists(dns);
    ExampleRunFromLists(dns);
  }

  /** The example run, from the lists the TXT answers are read as. */
  lemma ExampleRunFromLists(dns: Resolver)
    requires WellShaped(dns)
    requires GetApps(dns) == Ok(["app1", "app2"])
    requires GetAppRegions(dns, "app1") == Ok(["us", "eu"])
    requires dns.txt(RegionsName("app2")).Err?
    requires dns.aaaa(GlobalName("app1")) == Ok(["fdaa::1"])
    requires dns.aaaa(RegionName("us", "app1")) == Ok(["fdaa::1"])
    ensures Aggregate(dns).outcome == Ok([
      AllApps(["app1", "app2"]),
      AppEntry("app1", ["us", "eu"], Ok(["fdaa::1"]),
               [RegionInstances("us", Ok(["fdaa::1"])),
                RegionInstances("eu", dns.aaaa(RegionName("eu", "app1")))])])
    ensures Aggregate(dns).queries == [
      Query(Txt, AppsName),
      Query(Txt, RegionsName("app1")), Query(Aaaa, GlobalName("app1")),
      Query(Aaaa, RegionName("us", "app1")), Query(Aaaa, RegionName("eu", "app1")),
      Query(Txt, RegionsName("app2")), Query(Aaaa, GlobalName("app2"))]
  {
    App1Visit(dns);
    App2Skipped(dns);
    var apps := ["app1", "app2"];
    assert apps[1..] == ["app2"];
    var s := VisitApps(dns, apps);
    assert s.entries == VisitApp(dns, "app1").entries + VisitApps(dns, ["app2"]).entries;
    assert s.queries == VisitApp(dns, "app1").queries + VisitApps(dns, ["app2"]).queries;
    var entry := AppEntry("app1", ["us", "eu"], Ok(["fdaa::1"]),
                          [RegionInstances("us", Ok(["fdaa::1"])),
                           RegionInstances("eu", dns.aaaa(RegionName("eu", "app1")))]);
    assert s.entries == [entry];
    assert Aggregate(dns) == Run(Ok([AllApps(apps)] + s.entries), [AppsQuery] + s.queries);
    assert [AllApps(apps)] + [entry] == [AllApps(apps), entry];
  }

  /** The run of the example when `eu` answers with `fdaa::2`. */
  lemma ExampleRunAllResolve(dns: Resolver)
    requires WellShaped(dns)
    requires ExampleNetwork(dns)
    requires dns.aaaa(RegionName("eu", "app1")) == Ok(["fdaa::2"])
    ensures Aggregate(dns).outcome == Ok([
      AllApps(["app1", "app2"]),
      AppEntry("app1", ["us", "eu"], Ok(["fdaa::1"]),
               [RegionInstances("us", Ok(["fdaa::1"])), RegionInstances("eu", Ok(["fdaa::2"]))])])
  {
    ExampleRun(dns);
  }

  /** A failed instance lookup of one region stays in the output, next to the
      region that resolved. */
  lemma RegionFailureStaysInline(dns: Resolver, cause: DnsError)
    requires WellShaped(dns)
    requires ExampleNetwork(dns)
    requires dns.aaaa(RegionName("eu", "app1")) == Err(cause)
    ensures Aggregate(dns).outcome == Ok([
      AllApps(["app1", "app2"]),
      AppEntry("app1", ["us", "eu"], Ok(["fdaa::1"]),
               [RegionInstances("us", Ok(["fdaa::1"])), RegionInstances("eu", Err(cause))])])
  {
    ExampleRun(dns);
  }

  /** When the app list cannot be looked up, that error is the outcome and no
      other query is made. */
  lemma AppListFailureIsFatal(aaaa: string -> Result<seq<string>>)
    ensures WellShaped(Resolver(_ => Err(DnsError("ENOTFOUND")), aaaa))
    ensures Aggregate(Resolver(_ => Err(DnsError("ENOTFOUND")), aaaa))
         == Run(Err(DnsError("ENOTFOUND")), [Query(Txt, "_apps.internal")])
  {
  }
}
