/** The four lookup helpers of the discovery helper (src/index.ts:11-62) and
    the DNS naming convention they follow:

      list all apps                 TXT   _apps.internal
      list an app's regions         TXT   regions.<app>.internal
      instances of an app in region AAAA  <region>.<app>.internal
      all instances of an app       AAAA  global.<app>.internal
 */
module Lookups {
  import opened Dns
  import opened TxtList

  const AppsName: string := "_apps.internal"

  function RegionsName(app: string): string
  {
    "regions." + app + ".internal"
  }

  function RegionName(region: string, app: string): string
  {
    region + "." + app + ".internal"
  }

  function GlobalName(app: string): string
  {
    "global." + app + ".internal"
  }

  const AppsQuery: Query := Query(Txt, AppsName)

  function RegionsQuery(app: string): Query
  {
    Query(Txt, RegionsName(app))
  }

  function RegionQuery(region: string, app: string): Query
  {
    Query(Aaaa, RegionName(region, app))
  }

  function GlobalQuery(app: string): Query
  {
    Query(Aaaa, GlobalName(app))
  }

  /** Distinct apps have distinct region-list names. */
  lemma RegionsNameInjective(a: string, b: string)
    ensures RegionsName(a) == RegionsName(b) <==> a == b
  {
    if RegionsName(a) == RegionsName(b) {
      var n := RegionsName(a);
      assert a == n[8..|n| - 9];
      assert b == n[8..|n| - 9];
    }
  }

  /** Distinct apps have distinct global-instance names. */
  lemma GlobalNameInjective(a: string, b: string)
    ensures GlobalName(a) == GlobalName(b) <==> a == b
  {
    if GlobalName(a) == GlobalName(b) {
      var n := GlobalName(a);
      assert a == n[7..|n| - 9];
      assert b == n[7..|n| - 9];
    }
  }

  /** Within one app, distinct regions have distinct instance names. */
  lemma RegionNameInjective(r: string, s: string, app: string)
    ensures RegionName(r, app) == RegionName(s, app) <==> r == s
  {
    if RegionName(r, app) == RegionName(s, app) {
      var n := RegionName(r, app);
      assert r == n[..|n| - |app| - 10];
      assert s == n[..|n| - |app| - 10];
    }
  }

  /** `r` is what the helpers make of the TXT answer `answer`: the lookup's
      error unchanged, or the list held in the first string of the first
      record, where the empty string means no entries at all. */
  predicate ReadsAs(r: Result<seq<string>>, answer: Result<seq<seq<string>>>)
    requires TxtShaped(answer)
  {
    match answer
    case Err(cause) => r == Err(cause)
    case Ok(records) => r.Ok? && IsReadingOf(r.value, records[0][0])
  }

  /** `ReadsAs` leaves no freedom: an answer is read in exactly one way. */
  lemma ReadsAsUnique(r1: Result<seq<string>>, r2: Result<seq<string>>, answer: Result<seq<seq<string>>>)
    requires TxtShaped(answer)
    requires ReadsAs(r1, answer) && ReadsAs(r2, answer)
    ensures r1 == r2
  {
    if answer.Ok? {
      ParseJoinRoundTrip(r1.value);
      ParseJoinRoundTrip(r2.value);
    }
  }

  /** The TXT reading shared by `GetApps` and `GetAppRegions`. */
  function ReadList(answer: Result<seq<seq<string>>>): (r: Result<seq<string>>)
    requires TxtShaped(answer)
    ensures ReadsAs(r, answer)
  {
    match answer
    case Err(cause) => Err(cause)
    case Ok(records) => Ok(ParseList(records[0][0]))
  }

  /** The list of all apps, from the TXT record at `_apps.internal`. */
  function GetApps(dns: Resolver): (r: Result<seq<string>>)
    requires TxtShaped(dns.txt(AppsName))
    ensures ReadsAs(r, dns.txt(AppsName))
  {
    ReadList(AskTxt(dns, AppsQuery))
  }

  /** The regions of `app`, from the TXT record at `regions.<app>.internal`. */
  function GetAppRegions(dns: Resolver, app: string): (r: Result<seq<string>>)
    requires TxtShaped(dns.txt(RegionsName(app)))
    ensures ReadsAs(r, dns.txt(RegionsName(app)))
  {
    ReadList(AskTxt(dns, RegionsQuery(app)))
  }

  /** The instances of `app` in `region`: the AAAA answer as it comes. */
  function GetRegionInstances(dns: Resolver, region: string, app: string): (r: Result<seq<string>>)
    ensures r == dns.aaaa(region + "." + app + ".internal")
  {
    AskAaaa(dns, RegionQuery(region, app))
  }

  /** All instances of `app`: the AAAA answer as it comes. */
  function GetAllInstances(dns: Resolver, app: string): (r: Result<seq<string>>)
    ensures r == dns.aaaa("global." + app + ".internal")
  {
    AskAaaa(dns, GlobalQuery(app))
  }

  /** Each helper's result depends on the resolver only through the one
      query of the naming convention: two resolvers that agree on it give the
      same result. */
  lemma LookupsAskTheirQuery(a: Resolver, b: Resolver, app: string, region: string)
    requires WellShaped(a) && WellShaped(b)
    ensures AgreeAt(a, b, AppsQuery) ==> GetApps(a) == GetApps(b)
    ensures AgreeAt(a, b, RegionsQuery(app)) ==> GetAppRegions(a, app) == GetAppRegions(b, app)
    ensures AgreeAt(a, b, RegionQuery(region, app)) ==> GetRegionInstances(a, region, app) == GetRegionInstances(b, region, app)
    ensures AgreeAt(a, b, GlobalQuery(app)) ==> GetAllInstances(a, app) == GetAllInstances(b, app)
  {
  }

  /** Within one app, the only region whose instance name collides with the
      app's global-instance name is the region named `global`; both lookups
      then ask the same AAAA question and get the same answer. */
  lemma RegionNamedGlobalIsGlobalName(dns: Resolver, app: string, region: string)
    ensures RegionName(region, app) == GlobalName(app) <==> region == "global"
    ensures RegionQuery("global", app) == GlobalQuery(app)
    ensures GetRegionInstances(dns, "global", app) == GetAllInstances(dns, app)
  {
    if RegionName(region, app) == GlobalName(app) {
      var n := RegionName(region, app);
      assert |region| == 6;
      assert region == n[..6];
    }
  }

  /** Names may contain dots, and then the convention's names collide across
      apps: region `global.a` of app `b` is asked at app `a.b`'s global name,
      and region `x.y` of app `z` at region `x` of app `y.z`. */
  lemma DottedNamesCollideAcrossApps()
    ensures RegionName("global.a", "b") == GlobalName("a.b")
    ensures RegionName("x.y", "z") == RegionName("x", "y.z")
  {
    assert RegionName("global.a", "b") == "global.a.b.internal";
    assert GlobalName("a.b") == "global.a.b.internal";
    assert RegionName("x.y", "z") == "x.y.z.internal";
    assert RegionName("x", "y.z") == "x.y.z.internal";
  }

  /** An empty TXT value is read as the empty list, never as `[""]`. */
  lemma EmptyValueMeansNoEntries(dns: Resolver, app: string)
    requires WellShaped(dns)
    ensures dns.txt(AppsName).Ok? && dns.txt(AppsName).value[0][0] == "" ==> GetApps(dns) == Ok([])
    ensures dns.txt(RegionsName(app)).Ok? && dns.txt(RegionsName(app)).value[0][0] == ""
        ==> GetAppRegions(dns, app) == Ok([])
  {
  }

  /** Only the first string of the first record is read: other strings and
      records of the TXT answer make no difference. */
  lemma OnlyFirstStringRead(first: string, rest: seq<string>, more: seq<seq<string>>)
    ensures ReadList(Ok([[first] + rest] + more)) == ReadList(Ok([[first]]))
  {
  }
}
