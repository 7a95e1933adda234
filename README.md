# EC2 inventory for Snipe-IT, modelled in Dafny

This project models the two deterministic parts of a small tool that keeps a Snipe-IT
asset registry in step with the EC2 instances of several AWS accounts:

- **inventory.py.** This is the discovery and synchronisation run. For every account and
  region, each live EC2 instance is normalised into a Snipe-IT hardware payload
  (`get_tag_value`, `process_aws_instance`, the scan loops of `get_aws_assets`). Instances
  that are terminated or shutting down are dropped. Each asset is then looked up in the
  registry by its asset tag, which is the instance id. A record with a non-zero id is
  patched; otherwise the asset is posted. A write counts as done only when the reply body
  says `status == "success"` (`find_snipeit_asset_by_tag`, `create_or_update_snipeit_asset`
  and the upsert loop of `main`).
- **setup_snipeit.py.** This is the one-off provisioning script. It looks up the category,
  manufacturer and model by exact name and creates them when the scan finds no truthy id.
  It reuses the 22 required custom fields that already exist and creates only the missing
  ones; the first five are listed in the list view. It derives a `db_column` name when the
  registry gives none, merges existing and new fields with the new ones winning, and prints
  the mapping in its fixed order for the names that are present.

Every call to AWS or to the registry is an input: whether an account's session has
credentials, the region list (or its failure), the pages each region's paginator yields,
and the reply to every lookup, write, list and create request.

Files:

- `common.dfy`: `Option`, Python's `x or d` and `.get(k, d)` on optional values, the
  truth value of an id, a first-match index, and a flat map.
- `text.dfy`: `str(int)` and its inverse, zero padding, `', '.join` and a splitter
  that undoes it, the `lower().replace(' ', '_')` slug, and the text after a separator.
- `dates.dfy`: the `%Y-%m-%d` formatting of a launch date and its parser.
- `instances.dfy`: the raw instance record, the payload, `get_tag_value` and
  `process_aws_instance`.
- `discovery.dfy`: `get_aws_assets` and the account loop of `main`.
- `reconcile.dfy`: the lookup, the PATCH/POST choice, the success test and the upsert
  loop of `main`.
- `provisioning.dfy`: `setup_snipeit.py`.

Loops of the source are methods with `while` loops. Each is proved against a specification
function (for example `ScanRegion` against `RegionAssets`, `ReconcileFields` against
`FieldIdsAfter`), and the properties the source promises are lemmas about those functions.

### Behaviour of the code worth noting

- **Failed lookup.** A failed lookup is not skipped: it yields no id, and `main` then posts
  the asset as new (inventory.py:233-235, 309-311). The model does this
  (`FailedLookupCreates`).
- **Region that fails mid-listing.** A region whose listing fails midway is not skipped as a
  whole. The assets appended before the failure stay in the list, because the loop appends
  as it goes and the `except` only stops it (`FailureKeepsEarlierPages`). A region that
  fails before its first page adds nothing (`FailedRegionSkipped`).
- **Missing state name.** An instance without `State.Name` raises a KeyError at
  inventory.py:194. That error ends its region like any other listing failure (`Reached`).
- **Errors the code does not catch.** Some registry replies raise exceptions that nothing
  catches, and these end the whole run:
  - a search body without `total`: comparing `None > 0` raises;
  - `total > 0` with an empty `rows` list: indexing `rows[0]` raises;
  - an HTTP error reply whose text is not JSON: the handler's own `response.json()` raises.

  `Synchronize` stops after such a step and states so.
- **Id 0.** A record id of 0 is falsy. `main` then posts instead of patching, and the
  setup script creates the entity instead of reusing it. The model keeps this
  (`IsTruthyId`).

## Model

| member | source | states |
|---|---|---|
| Instances.GetTagValue | inventory.py:76-82 | the loop returns the value of the first tag whose key matches, and nothing for missing tags (proved against `TagLookup`) |
| Instances.TagLookupFirstMatch | inventory.py:76-82 | the lookup finds nothing exactly when no tag has the key; otherwise it finds the first matching tag's value |
| Instances.ProcessInstance | inventory.py:84-140 | asset tag and serial both equal the instance id, which is also returned beside the payload; the account and region fields are the inputs; the notes read "AWS Account: <account>, Region: <region>"; status and model ids are the configured ones |
| Instances.NameRule | inventory.py:88-90 | the name is the first Name tag's value when that is non-empty, and the asset tag otherwise, including when there is no Name tag |
| Instances.TagFieldRule | inventory.py:117-126 | each tag-sourced field is the first matching tag's non-empty value, else its own default |
| Instances.TagDefaults | inventory.py:117-126 | without a Description, SupportEnd, Criticity or Owner tag the field is "No description", "N/A", "Medium" or "Unassigned" |
| Instances.AttributeDefaults | inventory.py:116-137 | each of the thirteen attributes is copied when present, including the nested availability zone and state name, and gives its sentinel when missing: "N/A", "Linux/UNIX" for the platform, "unknown" for the state |
| Instances.MacAddressRule | inventory.py:102-103 | the MAC address is the first interface's (or "N/A" if it has none), and "N/A" without interfaces |
| Instances.SecurityGroupsRule | inventory.py:99 | the groups field is empty without groups; group ids without commas are recovered from it in their order |
| Instances.LaunchDateRule | inventory.py:96-133 | with a launch time both date fields hold the same ten-character YYYY-MM-DD text, which parses back to the date; without one the purchase date is null and the extension "N/A" |
| Instances.WebServerExample | inventory.py:87-140 | the worked example: id i-0abc with tag Name=web-1 gives name web-1, the private IP, and "N/A" for the public IP |
| Dates.FormatDateRoundTrip | inventory.py:96 | a formatted date is ten characters long, has dashes at positions 4 and 7, and reads back as the same date |
| Text.SplitJoin | inventory.py:99 | joining comma-free parts with ", " and splitting the result again gives the parts back |
| Text.IntToStringRoundTrip | inventory.py:244 | the decimal text of an id reads back as the id |
| Text.SlugShape | setup_snipeit.py:160 | the slug has no spaces and no ASCII capitals, and slugging it again changes nothing |
| Discovery.Discover | inventory.py:195-196 | each appended entry carries the instance id as its asset tag, the same as its payload's |
| Discovery.KeptMembers | inventory.py:190-197 | an asset is kept exactly when it comes from an instance whose state is not terminated or shutting down |
| Discovery.KeptFromLive | inventory.py:194-196 | every kept asset comes from a live instance |
| Discovery.LiveKept | inventory.py:194-196 | every live instance is kept |
| Discovery.KeptAppend | inventory.py:190-197 | filtering keeps order: the assets of a concatenation are those of each part, in turn |
| Discovery.ReachedAppend | inventory.py:190-205 | an instance without a state name ends the listing there; if there is none, reading runs on into the next part |
| Discovery.ScanStep | inventory.py:190-205 | one more reservation or page either ends the listing or adds its kept instances after those already found |
| Discovery.CompleteListingKeepsLive | inventory.py:189-197 | a listing whose instances all have a state name contributes exactly its live instances, in page, reservation and instance order |
| Discovery.FailureKeepsEarlierPages | inventory.py:189-205 | a listing that fails after some pages keeps what those pages contributed |
| Discovery.FailedRegionSkipped | inventory.py:178-205 | a region that yields no page adds nothing, and the regions after it are scanned as if it were absent |
| Discovery.RegionsAssetsLive | inventory.py:178-197 | every asset of an account is live, names the account and one of the scanned regions, and carries its payload's asset tag |
| Discovery.DiscoveredAreLive | inventory.py:289-291 | nothing terminated or shutting down is ever discovered, and every asset names one of the accounts |
| Discovery.ScanInstances | inventory.py:192-197 | the innermost loop keeps the live instances read before the first one without a state name, and reports whether it met one |
| Discovery.ScanPage | inventory.py:191-197 | the reservation loop does the same over a page's reservations in order |
| Discovery.ScanRegion | inventory.py:180-205 | the page loop yields the region's assets as `RegionAssets` defines them, with the instance count equal to their number |
| Discovery.DiscoverAccount | inventory.py:150-212 | no session gives no assets; otherwise the scanned regions are the listed ones, or the five fallback regions when listing fails, and the assets are theirs in region order |
| Discovery.DiscoverAll | inventory.py:288-291 | all accounts' assets, extended in account order |
| Reconcile.LookupCases | inventory.py:222-235 | a record is found exactly when the body has a positive total and a first row, whose id is returned; a missing total, or a positive total with no rows, raises |
| Reconcile.UpsertDecision | inventory.py:242-251 | a truthy id is patched at `<url>/<id>`, whose last segment reads back as the id; anything else is posted to `<url>`; the payload is sent unchanged |
| Reconcile.FailedLookupCreates | inventory.py:303-311 | a failed lookup leads to a POST of the asset |
| Reconcile.WriteSuccessRule | inventory.py:253-276 | a write succeeds exactly on a 2xx body whose status is "success"; only an undecodable error body raises |
| Reconcile.SearchUrlNamesTag | inventory.py:219 | the search URL ends in the asset tag, recovered after its last '=' |
| Reconcile.UpsertExamples | inventory.py:227-251 | no rows gives a POST; record 42 gives a PATCH of `.../api/v1/hardware/42`; record 0 gives a POST |
| Reconcile.RerunUpdates | inventory.py:303-311 | an asset posted by a first run is patched, not posted again, by a run whose lookup finds the created record |
| Reconcile.Synchronize | inventory.py:298-313 | each asset gets its lookup and upsert step in order; the loop stops early only right after a step that raised |
| Reconcile.OneWritePerAsset | inventory.py:298-311 | when nothing raises, each asset gets exactly one write, its upsert request, in discovery order |
| Reconcile.RunInventory | inventory.py:283-315 | a run is discovery over all accounts followed by the upsert loop over exactly the discovered assets |
| Provisioning.FindByName | setup_snipeit.py:28-32 | the scan loop ends with the id of the first row named exactly as asked, proved against `NamedId` |
| Provisioning.NamedIdFirstMatch | setup_snipeit.py:25-32 | nothing is found exactly when no row of a 200 reply has the name; otherwise the first such row's id is |
| Provisioning.ResolveRule | setup_snipeit.py:34-55 | creation is sent exactly when no truthy id was found; only a successful 200 reply changes the id; a 200 refusal is flagged (`RunSetup` ends the script on a refused category) |
| Provisioning.IndexExistingFields | setup_snipeit.py:152-161 | the loop builds `existing_fields` as `ExistingIndex` of the rows of a 200 reply |
| Provisioning.ExistingIndexKeys | setup_snipeit.py:156-161 | the index holds exactly the names of the listed rows |
| Provisioning.ExistingIndexLastWins | setup_snipeit.py:156-161 | a name maps to the last row of that name, with its id and column |
| Provisioning.DbColumnFallbackShape | setup_snipeit.py:160 | the derived column is "_snipeit_" and the slug of the name, and its last segment reads back as the id |
| Provisioning.IdAfterLastUnderscore | setup_snipeit.py:195 | the id at the end of a derived column is recovered after its last underscore |
| Provisioning.ReconcileFields | setup_snipeit.py:164-201 | the loop builds `field_ids` as `FieldIdsAfter` and sends creation requests as `PostedAfter` |
| Provisioning.FieldIdsAt | setup_snipeit.py:166-197 | with distinct names, field i is in `field_ids` exactly when it existed or was created, with the copied or the created entry |
| Provisioning.FieldIdsNames | setup_snipeit.py:164-197 | only required field names are ever entered into `field_ids` |
| Provisioning.FieldIdsContents | setup_snipeit.py:164-201 | `field_ids` holds exactly the required fields that existed or whose creation succeeded, with their entries, and nothing else |
| Provisioning.CustomFieldNamesDistinct | setup_snipeit.py:126-149 | the 22 required field names are pairwise different |
| Provisioning.FieldIdsAgree | setup_snipeit.py:168-171 | a reused field's entry is its existing entry, unchanged |
| Provisioning.PostedRequests | setup_snipeit.py:175-183 | a creation request is sent for exactly the missing fields, with empty custom format, no encryption, and list view exactly for positions 1 to 5 |
| Provisioning.MergeFields | setup_snipeit.py:204 | the merged map has the keys of both maps; an entry of `field_ids` wins, and other existing entries are kept |
| Provisioning.MergeKeepsExisting | setup_snipeit.py:168-204 | merging leaves every existing entry as it was |
| Provisioning.PrintedMapping | setup_snipeit.py:242-252 | the printing loops list `PresentEntries` of the mapping keys |
| Provisioning.PresentEntriesMembers | setup_snipeit.py:242-244 | an entry is printed exactly for a pair whose name is present, showing that name's id and column |
| Provisioning.PresentEntriesAppend | setup_snipeit.py:242-244 | the mapping keeps the order of `mapping_keys` |
| Provisioning.FullMapping | setup_snipeit.py:242-252 | when every name is present, one entry per pair is printed, in order |
| Provisioning.MappingMatchesRequiredFields | setup_snipeit.py:217-240 | the mapping pairs name the required fields one for one, in the same order |
| Provisioning.RunSetup | setup_snipeit.py:20-204 | the script exits exactly when the category creation is refused; otherwise each id is resolved as `Resolve` says, a category, manufacturer or model body is posted exactly when its creation is sent, with the fixed name and fields (the model body carrying the manufacturer and category ids), and fields, merge and mapping are as specified |

## Left out

- AWS and HTTP themselves are inputs, not models: boto3 sessions, credentials,
  `describe_regions`, the paginator, `requests` calls, headers, timeouts and JSON decoding.
  Their results are the inputs of the model.
- The paginator's server-side filter on `instance-state-name` in {running, stopped}
  (inventory.py:185-187) is not modelled. The model keeps whatever the pages hold except
  terminated and shutting-down instances, the client-side test at inventory.py:194, so
  `Live` also admits pending or stopping instances that the filter would have held back.
- The region query sends `default_region or 'eu-south-1'` (`QueryRegion`). Setting the
  region on a client has no modelled effect.
- `sleep(0.5)`, every `print`, `load_dotenv`/`os.getenv` (the application URL is a
  parameter, with the shipped default as `DEFAULT_APP_URL`) and the console text are not
  modelled. The instance count that feeds the per-region print is returned by `ScanRegion`.
- The setup script's `exit(1)` is the `Aborted` outcome of `RunSetup`. Its other messages
  are not modelled.
- `CUSTOM_FIELD_MAP` (inventory.py:47-70) is not modelled. The payload never reads it; its
  keys are written out in `Payload`.
- check_assets.py is not part of this model. It is one listing call plus printing.
- `Instances.ProcessInstance` assumes `InstanceId` is always present. No payload is built
  for a record without one.
- `Dates.FormatDate` always pads the year to four digits. How `%Y` pads years below 1000
  depends on the C library (glibc prints `999`, not `0999`), so for those years the source's
  date can be shorter than ten characters. From year 1000 on, which includes every EC2
  launch time, the two agree.
- `Text.Slug` lower-cases ASCII letters only. Python's `lower()` also maps other Unicode
  letters.
- Reply bodies are simplified. A JSON `null` stored under `db_column`, `db_column_name` or
  `total` is treated like an absent key. Bodies that are not JSON objects (a list, or
  `null`), a `rows` of `null`, and rows without `name` or `id` raise in the source and are
  not modelled: a write body of `null` makes `.get('status')` raise (inventory.py:260),
  which the model reads as a body without a success status, and a `rows` of `null` makes
  the scan loops raise (setup_snipeit.py:28, 64, 96, 156), which the model reads as no rows. A page
  without `Reservations`, or a reservation without `Instances`, is not modelled either.
- A create reply's body is either a success carrying its new id or a refusal. A success
  whose payload has no `id`, which raises in the source, is not modelled.
- URL encoding of the asset tag in the search URL is not modelled. The tag is pasted in as
  the f-string does.
- The idempotence of two successive runs depends on what the registry stores between them,
  which is outside the model. `Reconcile.RerunUpdates` states the part that follows from
  the code: a rerun whose lookup finds the created record patches it.
