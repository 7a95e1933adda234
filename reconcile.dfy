/**
 * Synchronisation with the registry (`find_snipeit_asset_by_tag`,
 * `create_or_update_snipeit_asset` and the upsert loop of `main`): every discovered asset
 * is looked up by its tag, then patched when a record was found and posted otherwise.
 * The registry's replies are inputs, one lookup reply and one write reply per asset.
 */
module Reconcile {
  import opened Common
  import opened Text
  import opened Instances
  import opened Discovery

  const DEFAULT_APP_URL := "https://your-snipeit-domain.com"

  /** `SNIPEIT_API_URL`: the hardware endpoint under the configured application URL. */
  function HardwareUrl(appUrl: string): string {
    appUrl + "/api/v1/hardware"
  }

  /** A decoded search body: its `total` (`None` when the key is missing or not a number) and the ids of its rows. */
  datatype SearchBody = SearchBody(total: Option<int>, rowIds: seq<int>)

  /**
   * The reply to the search: a network or HTTP-status error, or a decoded JSON body; a body
   * that is falsy (`null`, `{}`) is `Decoded(None)`. A 2xx body that does not decode as JSON
   * raises a `RequestException` in `response.json()`, which the function catches, so it is
   * `LookupFailed` as well.
   */
  datatype LookupReply = LookupFailed | Decoded(body: Option<SearchBody>)

  /**
   * What the lookup yields: no id (`None`), the first row's id, or an exception that the
   * function does not catch: comparing a missing `total` with 0, or indexing an empty
   * `rows` list when `total` is positive.
   */
  datatype Lookup = NotFound | FoundId(id: int) | LookupCrash

  function SearchUrl(apiUrl: string, assetTag: string): string {
    apiUrl + "?search=" + assetTag + "&asset_tag=" + assetTag
  }

  /** `find_snipeit_asset_by_tag` on a given reply. */
  function LookupResult(reply: LookupReply): Lookup {
    match reply
    case LookupFailed => NotFound
    case Decoded(None) => NotFound
    case Decoded(Some(body)) =>
      if body.total.None? then LookupCrash
      else if body.total.value <= 0 then NotFound
      else if |body.rowIds| == 0 then LookupCrash
      else FoundId(body.rowIds[0])
  }

  /** The id `main` tests with `if snipeit_id:`. */
  function LookupId(l: Lookup): Option<int> {
    if l.FoundId? then Some(l.id) else None
  }

  datatype Verb = Patch | Post

  datatype WriteRequest = WriteRequest(verb: Verb, url: string, body: Payload)

  /** The branch of `create_or_update_snipeit_asset`: PATCH the record when the id is truthy, else POST. */
  function UpsertRequest(asset: DiscoveredAsset, id: Option<int>, apiUrl: string): WriteRequest {
    if IsTruthyId(id) then WriteRequest(Patch, apiUrl + "/" + IntToString(id.value), asset.payload)
    else WriteRequest(Post, apiUrl, asset.payload)
  }

  /** The text of a non-2xx reply: empty, JSON, or something that does not decode as JSON. */
  datatype ErrorText = NoText | JsonText | OtherText

  /**
   * The reply to the write: a network error (or a 2xx body that does not decode), an error
   * status with its body, or a decoded 2xx body with its `status` key.
   */
  datatype WriteReply = WriteFailed | HttpError(text: ErrorText) | Delivered(status: Option<string>)

  /** The write's return value, or `None` where the error handler itself raises while decoding the body. */
  function WriteResult(reply: WriteReply): Option<bool> {
    match reply
    case WriteFailed => Some(false)
    case HttpError(OtherText) => None
    case HttpError(_) => Some(false)
    case Delivered(status) => Some(status == Some("success"))
  }

  /** What happens to one asset: its search URL, then (unless the lookup raised) its write request and result. */
  datatype Step = Step(query: string, request: Option<WriteRequest>, result: Option<bool>)

  /** The step ended the run: the lookup or the write raised an exception nothing catches. */
  predicate Crashed(s: Step) {
    s.request.None? || s.result.None?
  }

  function StepOf(asset: DiscoveredAsset, lookup: LookupReply, write: WriteReply, apiUrl: string): Step {
    var query := SearchUrl(apiUrl, asset.assetTag);
    var l := LookupResult(lookup);
    if l.LookupCrash? then Step(query, None, None)
    else Step(query, Some(UpsertRequest(asset, LookupId(l), apiUrl)), WriteResult(write))
  }

  // ---------------------------------------------------------------------------------------
  // Facts
  // ---------------------------------------------------------------------------------------

  /**
   * The branch taken: an existing record with a non-zero id is patched at its own URL, whose
   * last segment reads back as the id; anything else (no row, a failed lookup, id 0) is posted
   * to the collection. Either way the payload is sent unchanged.
   */
  lemma UpsertDecision(asset: DiscoveredAsset, id: Option<int>, apiUrl: string)
    ensures var req := UpsertRequest(asset, id, apiUrl);
      && req.body == asset.payload
      && (req.verb == Patch <==> id.Some? && id.value != 0)
      && (req.verb == Post ==> req.url == apiUrl)
      && (req.verb == Patch ==> (req.url == apiUrl + "/" + IntToString(id.value)
            && ParseInt(AfterLast(req.url, '/')) == id))
  {
    if IsTruthyId(id) {
      var digits := IntToString(id.value);
      assert '/' !in digits;
      AfterLastAppend(apiUrl, '/', digits);
      assert apiUrl + "/" + digits == apiUrl + ['/'] + digits;
      IntToStringRoundTrip(id.value);
    }
  }

  /** The lookup finds a record exactly when the body reports a positive total and has a first row. */
  lemma LookupCases(reply: LookupReply)
    ensures LookupResult(reply).FoundId? <==>
      reply.Decoded? && reply.body.Some? && reply.body.value.total.Some?
      && reply.body.value.total.value > 0 && |reply.body.value.rowIds| > 0
    ensures LookupResult(reply).FoundId? ==> LookupResult(reply).id == reply.body.value.rowIds[0]
    ensures LookupResult(reply).LookupCrash? <==>
      reply.Decoded? && reply.body.Some?
      && (reply.body.value.total.None? || (reply.body.value.total.value > 0 && |reply.body.value.rowIds| == 0))
  {
  }

  /** A failed search is not a stop: the asset is posted as new. */
  lemma FailedLookupCreates(asset: DiscoveredAsset, write: WriteReply, apiUrl: string)
    ensures StepOf(asset, LookupFailed, write, apiUrl).request == Some(WriteRequest(Post, apiUrl, asset.payload))
  {
  }

  /** A write counts as done only on a 2xx body whose `status` is "success"; a decoded error body never crashes. */
  lemma WriteSuccessRule(reply: WriteReply)
    ensures WriteResult(reply) == Some(true) <==> reply == Delivered(Some("success"))
    ensures WriteResult(reply).None? <==> reply == HttpError(OtherText)
  {
  }

  /** The search URL ends in the asset tag, which reads back after its last '='. */
  lemma SearchUrlNamesTag(apiUrl: string, assetTag: string)
    requires '=' !in assetTag
    ensures AfterLast(SearchUrl(apiUrl, assetTag), '=') == assetTag
  {
    var prefix := apiUrl + "?search=" + assetTag + "&asset_tag";
    assert SearchUrl(apiUrl, assetTag) == prefix + ['='] + assetTag;
    AfterLastAppend(prefix, '=', assetTag);
  }

  /** The documented examples: no rows means a POST; record 42 means a PATCH of ".../42"; id 0 is falsy. */
  lemma UpsertExamples(asset: DiscoveredAsset, write: WriteReply)
    ensures var api := HardwareUrl(DEFAULT_APP_URL);
      && StepOf(asset, Decoded(Some(SearchBody(Some(0), []))), write, api).request
           == Some(WriteRequest(Post, api, asset.payload))
      && StepOf(asset, Decoded(Some(SearchBody(Some(1), [42]))), write, api).request
           == Some(WriteRequest(Patch, "https://your-snipeit-domain.com/api/v1/hardware/42", asset.payload))
      && StepOf(asset, Decoded(Some(SearchBody(Some(1), [0]))), write, api).request
           == Some(WriteRequest(Post, api, asset.payload))
  {
    assert IntToString(42) == "42" by {
      assert Digits(42) == Digits(4) + [DigitChar(2)];
    }
    assert HardwareUrl(DEFAULT_APP_URL) + "/" + "42" == "https://your-snipeit-domain.com/api/v1/hardware/42";
  }

  /**
   * Running twice: an asset the first run posts (its search found nothing) is patched by a
   * second run whose search finds the record the first run created, so no duplicate is posted.
   */
  lemma RerunUpdates(asset: DiscoveredAsset, first: LookupReply, second: LookupReply,
                     firstWrite: WriteReply, secondWrite: WriteReply, apiUrl: string, createdId: int)
    requires LookupResult(first) == NotFound
    requires LookupResult(second) == FoundId(createdId) && createdId != 0
    ensures StepOf(asset, first, firstWrite, apiUrl).request.value.verb == Post
    ensures StepOf(asset, second, secondWrite, apiUrl).request.value
      == WriteRequest(Patch, apiUrl + "/" + IntToString(createdId), asset.payload)
  {
  }

  // ---------------------------------------------------------------------------------------
  // The loop
  // ---------------------------------------------------------------------------------------

  /**
   * The upsert loop of `main`. `steps[k]` is what happened to asset k; the loop runs over
   * every asset unless a step raises, which ends the program after that step.
   */
  method Synchronize(assets: seq<DiscoveredAsset>, lookups: seq<LookupReply>, writes: seq<WriteReply>, apiUrl: string)
    returns (steps: seq<Step>)
    requires |lookups| == |assets| && |writes| == |assets|
    ensures |steps| <= |assets|
    ensures forall k :: 0 <= k < |steps| ==> steps[k] == StepOf(assets[k], lookups[k], writes[k], apiUrl)
    ensures forall k :: 0 <= k < |steps| - 1 ==> !Crashed(steps[k])
    ensures |steps| < |assets| ==> |steps| > 0 && Crashed(steps[|steps| - 1])
  {
    steps := [];
    var k := 0;
    while k < |assets|
      invariant 0 <= k <= |assets| && |steps| == k
      invariant forall j :: 0 <= j < k ==> steps[j] == StepOf(assets[j], lookups[j], writes[j], apiUrl)
      invariant forall j :: 0 <= j < k ==> !Crashed(steps[j])
    {
      var asset := assets[k];
      var query := SearchUrl(apiUrl, asset.assetTag);
      var found := LookupResult(lookups[k]);
      if found.LookupCrash? {
        steps := steps + [Step(query, None, None)];
        return;
      }
      var request := UpsertRequest(asset, LookupId(found), apiUrl);
      var result := WriteResult(writes[k]);
      steps := steps + [Step(query, Some(request), result)];
      if result.None? {
        return;
      }
      k := k + 1;
    }
  }

  /** The requests the run sends, in order. */
  function Requests(steps: seq<Step>): seq<WriteRequest> {
    if steps == [] then []
    else
      var head := if steps[0].request.Some? then [steps[0].request.value] else [];
      head + Requests(steps[1..])
  }

  /**
   * When no reply raises, every asset gets exactly one write, in discovery order, and
   * asset k's write is its upsert request.
   */
  lemma {:induction false} OneWritePerAsset(assets: seq<DiscoveredAsset>, lookups: seq<LookupReply>, writes: seq<WriteReply>,
                                            apiUrl: string, steps: seq<Step>)
    requires |lookups| == |assets| && |writes| == |assets| && |steps| == |assets|
    requires forall k :: 0 <= k < |steps| ==> steps[k] == StepOf(assets[k], lookups[k], writes[k], apiUrl)
    requires forall k :: 0 <= k < |steps| ==> !Crashed(steps[k])
    ensures |Requests(steps)| == |assets|
    ensures forall k :: 0 <= k < |assets| ==>
      Requests(steps)[k] == UpsertRequest(assets[k], LookupId(LookupResult(lookups[k])), apiUrl)
    decreases |assets|
  {
    if assets != [] {
      OneWritePerAsset(assets[1..], lookups[1..], writes[1..], apiUrl, steps[1..]);
      assert Requests(steps) == [steps[0].request.value] + Requests(steps[1..]);
    }
  }

  /** A whole run: discovery over every account, then the upsert loop over what it found. */
  method RunInventory(accounts: seq<Account>, envs: seq<AccountEnv>, cfg: Config, appUrl: string,
                      lookups: seq<LookupReply>, writes: seq<WriteReply>)
    returns (assets: seq<DiscoveredAsset>, steps: seq<Step>)
    requires |envs| == |accounts|
    requires |lookups| == |AllAssets(accounts, envs, cfg)| && |writes| == |lookups|
    ensures assets == AllAssets(accounts, envs, cfg)
    ensures |steps| <= |assets|
    ensures forall k :: 0 <= k < |steps| ==> steps[k] == StepOf(assets[k], lookups[k], writes[k], HardwareUrl(appUrl))
    ensures |steps| < |assets| ==> |steps| > 0 && Crashed(steps[|steps| - 1])
  {
    assets := DiscoverAll(accounts, envs, cfg);
    steps := Synchronize(assets, lookups, writes, HardwareUrl(appUrl));
  }
}
