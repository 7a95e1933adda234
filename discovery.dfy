/**
 * Discovery (`get_aws_assets` and the account loop of `main`): for every account, every
 * region, every page, reservation and instance, keep the live instances as payloads.
 * Every AWS call is an input: whether the account's session has credentials, the answer of
 * `describe_regions`, and the pages each region's paginator delivers.
 */
module Discovery {
  import opened Common
  import opened Instances

  datatype Reservation = Reservation(instances: seq<RawInstance>)

  datatype Page = Page(reservations: seq<Reservation>)

  /**
   * What one region's paginator delivers: the pages it yielded before it ended, or before it
   * raised (`failed`). The region's handler swallows that error; the pages yielded before it
   * have been processed already.
   */
  datatype RegionListing = RegionListing(pages: seq<Page>, failed: bool)

  datatype Account = Account(name: string, profileName: string, defaultRegion: Option<string>)

  /**
   * The AWS side of one account: `hasSession` is false when the profile or its credentials
   * cannot be resolved; `describeRegions` answers the region query sent to a given region
   * (`None` when it raises); `listInstances` is each region's paginated listing.
   */
  datatype AccountEnv = AccountEnv(
    hasSession: bool,
    describeRegions: string -> Option<seq<string>>,
    listInstances: string -> RegionListing)

  /** One entry of `all_assets`: `{'payload': ..., 'asset_tag': ...}`. */
  datatype DiscoveredAsset = DiscoveredAsset(payload: Payload, assetTag: string)

  const FALLBACK_REGIONS: seq<string> := ["us-east-1", "us-west-2", "eu-west-1", "eu-central-1", "ap-southeast-1"]

  const QUERY_REGION_DEFAULT := "eu-south-1"

  const RETIRED_STATES: seq<string> := ["terminated", "shutting-down"]

  /** `instance['State']['Name']`; `None` when either key is missing (a KeyError in the loop). */
  function StateName(inst: RawInstance): Option<string> {
    if inst.state.Some? then inst.state.value.name else None
  }

  /** The instance has a state name, and it is neither "terminated" nor "shutting-down". */
  predicate Live(inst: RawInstance) {
    StateName(inst).Some? && StateName(inst).value !in RETIRED_STATES
  }

  function Discover(inst: RawInstance, accountName: string, region: string, cfg: Config): (a: DiscoveredAsset)
    ensures a.assetTag == inst.instanceId && a.payload.assetTag == a.assetTag
  {
    var r := ProcessInstance(inst, accountName, region, cfg);
    DiscoveredAsset(r.0, r.1)
  }

  function InstancesOf(r: Reservation): seq<RawInstance> {
    r.instances
  }

  /** The instances of one page, in reservation order. */
  function PageInstances(p: Page): seq<RawInstance> {
    FlatMap(p.reservations, InstancesOf)
  }

  /** The instances of a run of pages, in page, then reservation, then instance order. */
  function FlattenPages(ps: seq<Page>): seq<RawInstance> {
    FlatMap(ps, PageInstances)
  }

  predicate AllStated(insts: seq<RawInstance>) {
    forall j :: 0 <= j < |insts| ==> StateName(insts[j]).Some?
  }

  function FirstStateless(insts: seq<RawInstance>): (k: nat)
    ensures k <= |insts|
    ensures forall j :: 0 <= j < k ==> StateName(insts[j]).Some?
    ensures k < |insts| ==> StateName(insts[k]).None?
  {
    FirstIndexWhere(insts, (i: RawInstance) => StateName(i).None?)
  }

  /**
   * The instances the loop reaches: everything before the first instance without a state
   * name, since reading that one raises and ends the region.
   */
  function Reached(insts: seq<RawInstance>): seq<RawInstance> {
    insts[..FirstStateless(insts)]
  }

  /** The live instances of `insts`, normalised, in their order. */
  function Kept(insts: seq<RawInstance>, accountName: string, region: string, cfg: Config): seq<DiscoveredAsset> {
    if insts == [] then []
    else
      var head := if Live(insts[0]) then [Discover(insts[0], accountName, region, cfg)] else [];
      head + Kept(insts[1..], accountName, region, cfg)
  }

  /** What one region adds to the account's list. */
  function RegionAssets(listing: RegionListing, accountName: string, region: string, cfg: Config): seq<DiscoveredAsset> {
    Kept(Reached(FlattenPages(listing.pages)), accountName, region, cfg)
  }

  /** The region the region list is asked from: `default_region or 'eu-south-1'`. */
  function QueryRegion(account: Account): string {
    OrElse(account.defaultRegion, QUERY_REGION_DEFAULT)
  }

  /** The regions scanned: those `describe_regions` names, or the fixed five when it fails. */
  function RegionsToScan(account: Account, env: AccountEnv): seq<string> {
    var reply := env.describeRegions(QueryRegion(account));
    if reply.Some? then reply.value else FALLBACK_REGIONS
  }

  function RegionsAssets(regions: seq<string>, accountName: string, env: AccountEnv, cfg: Config): seq<DiscoveredAsset> {
    if regions == [] then []
    else
      var last := regions[|regions| - 1];
      RegionsAssets(regions[..|regions| - 1], accountName, env, cfg)
        + RegionAssets(env.listInstances(last), accountName, last, cfg)
  }

  /** What `get_aws_assets` returns for one account. */
  function AccountAssets(account: Account, env: AccountEnv, cfg: Config): seq<DiscoveredAsset> {
    if !env.hasSession then [] else RegionsAssets(RegionsToScan(account, env), account.name, env, cfg)
  }

  /** `all_aws_assets` after the account loop of `main`. */
  function AllAssets(accounts: seq<Account>, envs: seq<AccountEnv>, cfg: Config): seq<DiscoveredAsset>
    requires |envs| == |accounts|
  {
    if accounts == [] then []
    else
      var n := |accounts| - 1;
      AllAssets(accounts[..n], envs[..n], cfg) + AccountAssets(accounts[n], envs[n], cfg)
  }

  // ---------------------------------------------------------------------------------------
  // Facts about the specification functions
  // ---------------------------------------------------------------------------------------

  lemma {:induction false} KeptAppend(a: seq<RawInstance>, b: seq<RawInstance>, accountName: string, region: string, cfg: Config)
    ensures Kept(a + b, accountName, region, cfg) == Kept(a, accountName, region, cfg) + Kept(b, accountName, region, cfg)
    decreases |a|
  {
    if a != [] {
      assert (a + b)[1..] == a[1..] + b;
      KeptAppend(a[1..], b, accountName, region, cfg);
    } else {
      assert a + b == b;
    }
  }

  /** Every kept asset comes from a live instance, normalised under this account and region. */
  lemma {:induction false} KeptFromLive(insts: seq<RawInstance>, accountName: string, region: string, cfg: Config)
    ensures forall a :: a in Kept(insts, accountName, region, cfg) ==>
      exists j :: 0 <= j < |insts| && Live(insts[j]) && a == Discover(insts[j], accountName, region, cfg)
    decreases |insts|
  {
    if insts != [] {
      KeptFromLive(insts[1..], accountName, region, cfg);
      forall a | a in Kept(insts, accountName, region, cfg)
        ensures exists j :: 0 <= j < |insts| && Live(insts[j]) && a == Discover(insts[j], accountName, region, cfg)
      {
        if !(Live(insts[0]) && a == Discover(insts[0], accountName, region, cfg)) {
          assert a in Kept(insts[1..], accountName, region, cfg);
          var j :| 0 <= j < |insts[1..]| && Live(insts[1..][j]) && a == Discover(insts[1..][j], accountName, region, cfg);
          assert insts[1..][j] == insts[j + 1];
        }
      }
    }
  }

  /** Every live instance is kept. */
  lemma {:induction false} LiveKept(insts: seq<RawInstance>, j: nat, accountName: string, region: string, cfg: Config)
    requires j < |insts| && Live(insts[j])
    ensures Discover(insts[j], accountName, region, cfg) in Kept(insts, accountName, region, cfg)
    decreases j
  {
    if j > 0 {
      LiveKept(insts[1..], j - 1, accountName, region, cfg);
      assert insts[1..][j - 1] == insts[j];
    }
  }

  /** Exactly the live instances are kept, each normalised under this account and region. */
  lemma KeptMembers(insts: seq<RawInstance>, accountName: string, region: string, cfg: Config)
    ensures forall a :: a in Kept(insts, accountName, region, cfg) <==>
      exists j :: 0 <= j < |insts| && Live(insts[j]) && a == Discover(insts[j], accountName, region, cfg)
  {
    KeptFromLive(insts, accountName, region, cfg);
    forall j | 0 <= j < |insts| && Live(insts[j])
      ensures Discover(insts[j], accountName, region, cfg) in Kept(insts, accountName, region, cfg)
    {
      LiveKept(insts, j, accountName, region, cfg);
    }
  }

  lemma ReachedAll(insts: seq<RawInstance>)
    requires AllStated(insts)
    ensures Reached(insts) == insts
  {
    assert insts[..|insts|] == insts;
  }

  lemma ReachedStops(seen: seq<RawInstance>, inst: RawInstance, rest: seq<RawInstance>)
    requires AllStated(seen) && StateName(inst).None?
    ensures Reached(seen + [inst] + rest) == seen
  {
    var s := seen + [inst] + rest;
    var k := FirstStateless(s);
    assert s[|seen|] == inst;
    assert forall j :: 0 <= j < |seen| ==> s[j] == seen[j];
    assert k == |seen|;
    assert s[..k] == seen;
  }

  /** Reading stops inside `a` when `a` holds a stateless instance, and otherwise runs on into `b`. */
  lemma ReachedAppend(a: seq<RawInstance>, b: seq<RawInstance>)
    ensures AllStated(a + b) <==> AllStated(a) && AllStated(b)
    ensures Reached(a + b) == if AllStated(a) then a + Reached(b) else Reached(a)
  {
    var ka := FirstStateless(a);
    if ka < |a| {
      assert a == a[..ka] + [a[ka]] + a[ka + 1..];
      assert a + b == a[..ka] + [a[ka]] + (a[ka + 1..] + b);
      ReachedStops(a[..ka], a[ka], a[ka + 1..] + b);
      assert (a + b)[ka] == a[ka];
    } else {
      assert a[..ka] == a;
      var kb := FirstStateless(b);
      if kb < |b| {
        assert b == b[..kb] + [b[kb]] + b[kb + 1..];
        assert a + b == (a + b[..kb]) + [b[kb]] + b[kb + 1..];
        ReachedStops(a + b[..kb], b[kb], b[kb + 1..]);
        assert (a + b)[|a| + kb] == b[kb];
      } else {
        assert b[..kb] == b;
        ReachedAll(a + b);
      }
    }
  }

  /**
   * One step of a scan that has read `seen` without error and now reads `chunk`, with `rest`
   * still to come: a stateless instance in `chunk` ends the whole listing there; otherwise
   * the kept instances of `chunk` follow those of `seen`.
   */
  lemma ScanStep(seen: seq<RawInstance>, chunk: seq<RawInstance>, rest: seq<RawInstance>,
                 accountName: string, region: string, cfg: Config)
    requires AllStated(seen)
    ensures !AllStated(chunk) ==> (!AllStated(seen + chunk + rest)
      && Kept(Reached(seen + chunk + rest), accountName, region, cfg)
        == Kept(seen, accountName, region, cfg) + Kept(Reached(chunk), accountName, region, cfg))
    ensures AllStated(chunk) ==> (AllStated(seen + chunk)
      && Kept(seen + chunk, accountName, region, cfg)
        == Kept(seen, accountName, region, cfg) + Kept(Reached(chunk), accountName, region, cfg))
  {
    assert seen + chunk + rest == seen + (chunk + rest);
    ReachedAppend(seen, chunk + rest);
    ReachedAppend(chunk, rest);
    ReachedAppend(seen, chunk);
    KeptAppend(seen, Reached(chunk), accountName, region, cfg);
    if AllStated(chunk) {
      ReachedAll(chunk);
    }
  }

  lemma {:induction false} RegionsAssetsAppend(a: seq<string>, b: seq<string>, accountName: string, env: AccountEnv, cfg: Config)
    ensures RegionsAssets(a + b, accountName, env, cfg) == RegionsAssets(a, accountName, env, cfg) + RegionsAssets(b, accountName, env, cfg)
    decreases |b|
  {
    if b == [] {
      assert a + b == a;
    } else {
      var b' := b[..|b| - 1];
      assert (a + b)[..|a + b| - 1] == a + b';
      RegionsAssetsAppend(a, b', accountName, env, cfg);
    }
  }

  lemma EmptyListingAddsNothing(listing: RegionListing, accountName: string, region: string, cfg: Config)
    requires listing.pages == []
    ensures RegionAssets(listing, accountName, region, cfg) == []
  {
    assert FlattenPages(listing.pages) == [];
  }

  /**
   * A region whose listing fails before its first page adds nothing, and the regions after
   * it are scanned as if it were not there.
   */
  lemma FailedRegionSkipped(regions: seq<string>, k: nat, accountName: string, env: AccountEnv, cfg: Config)
    requires k < |regions| && env.listInstances(regions[k]).pages == []
    ensures RegionsAssets(regions, accountName, env, cfg)
      == RegionsAssets(regions[..k], accountName, env, cfg) + RegionsAssets(regions[k + 1..], accountName, env, cfg)
  {
    assert regions == regions[..k] + [regions[k]] + regions[k + 1..];
    var front := regions[..k] + [regions[k]];
    RegionsAssetsAppend(front, regions[k + 1..], accountName, env, cfg);
    assert front[..k] == regions[..k];
    EmptyListingAddsNothing(env.listInstances(regions[k]), accountName, regions[k], cfg);
  }

  /** Instances yielded before a listing fails are kept: a failure only cuts the listing short. */
  lemma FailureKeepsEarlierPages(pages: seq<Page>, later: seq<Page>, accountName: string, region: string, cfg: Config)
    requires AllStated(FlattenPages(pages))
    ensures RegionAssets(RegionListing(pages + later, false), accountName, region, cfg)
      == RegionAssets(RegionListing(pages, true), accountName, region, cfg)
        + Kept(Reached(FlattenPages(later)), accountName, region, cfg)
  {
    var a, b := FlattenPages(pages), FlattenPages(later);
    FlatMapAppend(pages, later, PageInstances);
    ReachedAppend(a, b);
    ReachedAll(a);
    KeptAppend(a, Reached(b), accountName, region, cfg);
  }

  /**
   * A listing in which every instance has a state name contributes exactly its live
   * instances, in page, reservation and instance order.
   */
  lemma CompleteListingKeepsLive(listing: RegionListing, accountName: string, region: string, cfg: Config)
    requires AllStated(FlattenPages(listing.pages))
    ensures RegionAssets(listing, accountName, region, cfg) == Kept(FlattenPages(listing.pages), accountName, region, cfg)
  {
    ReachedAll(FlattenPages(listing.pages));
  }

  lemma {:induction false} RegionsAssetsLive(regions: seq<string>, accountName: string, env: AccountEnv, cfg: Config)
    ensures forall a :: a in RegionsAssets(regions, accountName, env, cfg) ==>
      a.payload.instanceState !in RETIRED_STATES && a.payload.awsAccount == accountName
      && a.payload.awsRegion in regions && a.assetTag == a.payload.assetTag
    decreases |regions|
  {
    if regions != [] {
      var init, last := regions[..|regions| - 1], regions[|regions| - 1];
      RegionsAssetsLive(init, accountName, env, cfg);
      var insts := Reached(FlattenPages(env.listInstances(last).pages));
      KeptMembers(insts, accountName, last, cfg);
      forall a | a in RegionsAssets(regions, accountName, env, cfg)
        ensures a.payload.instanceState !in RETIRED_STATES && a.payload.awsAccount == accountName
          && a.payload.awsRegion in regions && a.assetTag == a.payload.assetTag
      {
        if a in RegionsAssets(init, accountName, env, cfg) {
          assert a.payload.awsRegion in init;
        } else {
          var j :| 0 <= j < |insts| && Live(insts[j]) && a == Discover(insts[j], accountName, last, cfg);
          AttributeDefaults(insts[j], accountName, last, cfg);
        }
      }
    }
  }

  /**
   * Nothing "terminated" or "shutting-down" is ever discovered; every asset carries its own
   * instance id as asset tag and names the account and a scanned region.
   */
  lemma {:induction false} DiscoveredAreLive(accounts: seq<Account>, envs: seq<AccountEnv>, cfg: Config)
    requires |envs| == |accounts|
    ensures forall a :: a in AllAssets(accounts, envs, cfg) ==>
      a.payload.instanceState !in RETIRED_STATES && a.assetTag == a.payload.assetTag
      && exists k :: 0 <= k < |accounts| && a.payload.awsAccount == accounts[k].name
    decreases |accounts|
  {
    if accounts != [] {
      var n := |accounts| - 1;
      DiscoveredAreLive(accounts[..n], envs[..n], cfg);
      if envs[n].hasSession {
        RegionsAssetsLive(RegionsToScan(accounts[n], envs[n]), accounts[n].name, envs[n], cfg);
      }
      forall a | a in AllAssets(accounts, envs, cfg)
        ensures a.payload.instanceState !in RETIRED_STATES && a.assetTag == a.payload.assetTag
          && exists k :: 0 <= k < |accounts| && a.payload.awsAccount == accounts[k].name
      {
        if a in AllAssets(accounts[..n], envs[..n], cfg) {
          var k :| 0 <= k < n && a.payload.awsAccount == accounts[..n][k].name;
          assert accounts[..n][k] == accounts[k];
        } else {
          assert a.payload.awsAccount == accounts[n].name;
        }
      }
    }
  }

  // ---------------------------------------------------------------------------------------
  // The loops
  // ---------------------------------------------------------------------------------------

  /**
   * The innermost loop of one region, over one reservation's instances. An instance without
   * a state name raises a KeyError there; `complete` is false when that happened.
   */
  method ScanInstances(insts: seq<RawInstance>, accountName: string, region: string, cfg: Config)
    returns (found: seq<DiscoveredAsset>, complete: bool)
    ensures complete == AllStated(insts)
    ensures found == Kept(Reached(insts), accountName, region, cfg)
  {
    found := [];
    var i := 0;
    while i < |insts|
      invariant 0 <= i <= |insts|
      invariant AllStated(insts[..i])
      invariant found == Kept(insts[..i], accountName, region, cfg)
    {
      var inst := insts[i];
      var state := StateName(inst);
      assert insts == insts[..i] + [inst] + insts[i + 1..];
      if state.None? {
        ReachedStops(insts[..i], inst, insts[i + 1..]);
        return found, false;
      }
      KeptAppend(insts[..i], [inst], accountName, region, cfg);
      assert insts[..i + 1] == insts[..i] + [inst];
      if state.value !in RETIRED_STATES {
        found := found + [Discover(inst, accountName, region, cfg)];
      }
      i := i + 1;
    }
    assert insts[..i] == insts;
    ReachedAll(insts);
    complete := true;
  }

  /** The middle loop, over one page's reservations. */
  method ScanPage(page: Page, accountName: string, region: string, cfg: Config)
    returns (found: seq<DiscoveredAsset>, complete: bool)
    ensures complete == AllStated(PageInstances(page))
    ensures found == Kept(Reached(PageInstances(page)), accountName, region, cfg)
  {
    var rs := page.reservations;
    found := [];
    var r := 0;
    while r < |rs|
      invariant 0 <= r <= |rs|
      invariant AllStated(FlatMap(rs[..r], InstancesOf))
      invariant found == Kept(FlatMap(rs[..r], InstancesOf), accountName, region, cfg)
    {
      var more, ok := ScanInstances(rs[r].instances, accountName, region, cfg);
      FlatMapAt(rs, r, InstancesOf);
      ScanStep(FlatMap(rs[..r], InstancesOf), rs[r].instances, FlatMap(rs[r + 1..], InstancesOf), accountName, region, cfg);
      found := found + more;
      if !ok {
        return found, false;
      }
      FlatMapStep(rs, r, InstancesOf);
      r := r + 1;
    }
    assert rs[..r] == rs;
    ReachedAll(PageInstances(page));
    complete := true;
  }

  /**
   * The `try` body of one region: the page / reservation / instance loops, appending live
   * instances and counting them. An instance without a state name ends all three loops;
   * what was appended before stays.
   */
  method ScanRegion(listing: RegionListing, accountName: string, region: string, cfg: Config)
    returns (found: seq<DiscoveredAsset>, instanceCount: nat)
    ensures found == RegionAssets(listing, accountName, region, cfg)
    ensures instanceCount == |found|
  {
    var pages := listing.pages;
    found, instanceCount := [], 0;
    var p := 0;
    while p < |pages|
      invariant 0 <= p <= |pages|
      invariant instanceCount == |found|
      invariant AllStated(FlattenPages(pages[..p]))
      invariant found == Kept(FlattenPages(pages[..p]), accountName, region, cfg)
    {
      var more, ok := ScanPage(pages[p], accountName, region, cfg);
      FlatMapAt(pages, p, PageInstances);
      ScanStep(FlattenPages(pages[..p]), PageInstances(pages[p]), FlattenPages(pages[p + 1..]), accountName, region, cfg);
      found, instanceCount := found + more, instanceCount + |more|;
      if !ok {
        return;
      }
      FlatMapStep(pages, p, PageInstances);
      p := p + 1;
    }
    assert pages[..p] == pages;
    ReachedAll(FlattenPages(pages));
  }

  /** `get_aws_assets` for one account; `scanned` lists the regions it scans, in order. */
  method DiscoverAccount(account: Account, env: AccountEnv, cfg: Config)
    returns (assets: seq<DiscoveredAsset>, scanned: seq<string>)
    ensures assets == AccountAssets(account, env, cfg)
    ensures scanned == if env.hasSession then RegionsToScan(account, env) else []
  {
    assets, scanned := [], [];
    if !env.hasSession {
      return;
    }
    var reply := env.describeRegions(QueryRegion(account));
    var regions := if reply.Some? then reply.value else FALLBACK_REGIONS;
    var k := 0;
    while k < |regions|
      invariant 0 <= k <= |regions|
      invariant scanned == regions[..k]
      invariant assets == RegionsAssets(regions[..k], account.name, env, cfg)
    {
      var region := regions[k];
      var found, _ := ScanRegion(env.listInstances(region), account.name, region, cfg);
      assert regions[..k + 1][..k] == regions[..k];
      assets := assets + found;
      scanned := scanned + [region];
      k := k + 1;
    }
    assert regions[..k] == regions;
  }

  /** The account loop of `main`: every account's assets, extended in account order. */
  method DiscoverAll(accounts: seq<Account>, envs: seq<AccountEnv>, cfg: Config)
    returns (all: seq<DiscoveredAsset>)
    requires |envs| == |accounts|
    ensures all == AllAssets(accounts, envs, cfg)
  {
    all := [];
    var k := 0;
    while k < |accounts|
      invariant 0 <= k <= |accounts|
      invariant all == AllAssets(accounts[..k], envs[..k], cfg)
    {
      var assets, _ := DiscoverAccount(accounts[k], envs[k], cfg);
      assert accounts[..k + 1][..k] == accounts[..k];
      assert envs[..k + 1][..k] == envs[..k];
      all := all + assets;
      k := k + 1;
    }
    assert accounts[..k] == accounts;
    assert envs[..k] == envs;
  }
}
