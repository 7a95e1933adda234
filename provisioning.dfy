/**
 * The one-off provisioning script (`setup_snipeit.py`): find or create the category, the
 * manufacturer and the model by exact name, reuse or create the 22 custom fields, merge the
 * field maps and list the mapping in its fixed order. Every registry reply is an input.
 */
module Provisioning {
  import opened Common
  import opened Text

  /** One row of a list reply: an entity's id and name. */
  datatype Row = Row(id: int, name: string)

  /** A list reply: its status code and its `rows` (`None` when the key is missing). */
  datatype ListReply = ListReply(code: int, rows: Option<seq<Row>>)

  /** A create reply's body: `status == 'success'` with the new entity's id, or anything else. */
  datatype CreateBody = Succeeded(id: int) | Refused

  datatype CreateReply = CreateReply(code: int, body: CreateBody)

  const CATEGORY_NAME := "Cloud Infrastructure"
  const MANUFACTURER_NAME := "Amazon Web Services"
  const MODEL_NAME := "EC2 Instance"

  /** The bodies the script posts when a lookup finds no truthy id (setup_snipeit.py:36-40, 72-75, 104-109). */
  datatype CategoryRequest = CategoryRequest(name: string, categoryType: string, eula: bool)
  datatype ManufacturerRequest = ManufacturerRequest(name: string, url: string)
  datatype ModelRequest = ModelRequest(name: string, manufacturerId: Option<int>, categoryId: Option<int>, modelNumber: string)

  const CATEGORY_REQUEST := CategoryRequest(CATEGORY_NAME, "asset", false)
  const MANUFACTURER_REQUEST := ManufacturerRequest(MANUFACTURER_NAME, "https://aws.amazon.com")

  function ModelRequestFor(manufacturerId: Option<int>, categoryId: Option<int>): ModelRequest {
    ModelRequest(MODEL_NAME, manufacturerId, categoryId, "EC2")
  }

  // ---------------------------------------------------------------------------------------
  // Find by name, else create
  // ---------------------------------------------------------------------------------------

  function NamedIndex(rows: seq<Row>, name: string): (i: nat)
    ensures i <= |rows|
    ensures forall j :: 0 <= j < i ==> rows[j].name != name
    ensures i < |rows| ==> rows[i].name == name
  {
    FirstIndexWhere(rows, (r: Row) => r.name == name)
  }

  /** The rows a list reply offers to the scan: none unless the status is 200. */
  function ScannedRows(reply: ListReply): seq<Row> {
    if reply.code == 200 then reply.rows.GetOr([]) else []
  }

  /** The id the scan ends with: that of the first row named exactly `name`, if any. */
  function NamedId(reply: ListReply, name: string): Option<int> {
    var rows := ScannedRows(reply);
    var i := NamedIndex(rows, name);
    if i < |rows| then Some(rows[i].id) else None
  }

  /** The scan loop (`for cat in ...: if cat['name'] == ...: ...; break`). */
  method FindByName(reply: ListReply, name: string) returns (id: Option<int>)
    ensures id == NamedId(reply, name)
  {
    id := None;
    var rows := ScannedRows(reply);
    var i := 0;
    while i < |rows|
      invariant 0 <= i <= |rows|
      invariant forall j :: 0 <= j < i ==> rows[j].name != name
    {
      if rows[i].name == name {
        id := Some(rows[i].id);
        break;
      }
      i := i + 1;
    }
  }

  /** Row `i` is the first row named `name`. */
  predicate IsFirstNamed(rows: seq<Row>, name: string, i: nat) {
    i < |rows| && rows[i].name == name && forall j :: 0 <= j < i ==> rows[j].name != name
  }

  /** The scan finds nothing exactly when no row (of a 200 reply) has the name, and otherwise the first one. */
  lemma NamedIdFirstMatch(reply: ListReply, name: string)
    ensures var rows := ScannedRows(reply);
      && (NamedId(reply, name).None? <==> forall j :: 0 <= j < |rows| ==> rows[j].name != name)
      && (forall i: nat :: IsFirstNamed(rows, name, i) ==> NamedId(reply, name) == Some(rows[i].id))
  {
    var rows := ScannedRows(reply);
    var k := NamedIndex(rows, name);
    forall i: nat | IsFirstNamed(rows, name, i)
      ensures k == i
    {
    }
  }

  /** How an entity ended: its id, whether a creation was sent, and whether a 200 reply refused it. */
  datatype Resolution = Resolution(id: Option<int>, createSent: bool, refused: bool)

  /** `if not x_id:` create; a successful 200 reply supplies the id, anything else leaves it as found. */
  function Resolve(found: Option<int>, reply: CreateReply): Resolution {
    if IsTruthyId(found) then Resolution(found, false, false)
    else if reply.code == 200 && reply.body.Succeeded? then Resolution(Some(reply.body.id), true, false)
    else Resolution(found, true, reply.code == 200)
  }

  /** Creation is sent exactly when the scan found no truthy id, and only a successful creation changes the id. */
  lemma ResolveRule(found: Option<int>, reply: CreateReply)
    ensures var r := Resolve(found, reply);
      && (r.createSent <==> !IsTruthyId(found))
      && (!r.createSent ==> r.id == found && r.id.Some? && r.id.value != 0)
      && (r.createSent && reply.code == 200 && reply.body.Succeeded? ==> r.id == Some(reply.body.id))
      && (r.createSent && !(reply.code == 200 && reply.body.Succeeded?) ==> r.id == found)
      && (r.refused <==> r.createSent && reply.code == 200 && reply.body.Refused?)
  {
  }

  // ---------------------------------------------------------------------------------------
  // Custom fields
  // ---------------------------------------------------------------------------------------

  datatype RequiredField = RequiredField(name: string, format: string, element: string)

  const CUSTOM_FIELDS: seq<RequiredField> := [
    RequiredField("Instance Type", "ANY", "text"),
    RequiredField("Description", "ANY", "textarea"),
    RequiredField("Private IP Address", "IP", "text"),
    RequiredField("Public IP Address", "IP", "text"),
    RequiredField("Platform", "ANY", "text"),
    RequiredField("VPC ID", "ANY", "text"),
    RequiredField("DNS Name", "ANY", "text"),
    RequiredField("MAC Address", "MAC", "text"),
    RequiredField("Vendor Support End Date", "ANY", "text"),
    RequiredField("Criticality", "ANY", "text"),
    RequiredField("Asset Owner", "ANY", "text"),
    RequiredField("AWS Region", "ANY", "text"),
    RequiredField("AWS Account", "ANY", "text"),
    RequiredField("Availability Zone", "ANY", "text"),
    RequiredField("Subnet ID", "ANY", "text"),
    RequiredField("Security Groups", "ANY", "textarea"),
    RequiredField("Instance State", "ANY", "text"),
    RequiredField("Launch Time", "ANY", "text"),
    RequiredField("AMI ID", "ANY", "text"),
    RequiredField("Architecture", "ANY", "text"),
    RequiredField("Root Device Type", "ANY", "text"),
    RequiredField("Virtualization Type", "ANY", "text")
  ]

  /** A row of the field list; the two column keys are `None` when absent. */
  datatype FieldRow = FieldRow(id: int, name: string, dbColumn: Option<string>, dbColumnName: Option<string>)

  datatype FieldListReply = FieldListReply(code: int, rows: Option<seq<FieldRow>>)

  /** An entry of `existing_fields`, `field_ids` and `all_fields`. */
  datatype FieldRef = FieldRef(id: int, dbColumn: string)

  /** The column name derived when the registry gives none: `_snipeit_<slug of name>_<id>`. */
  function DbColumnFallback(name: string, id: int): string {
    "_snipeit_" + Slug(name) + "_" + IntToString(id)
  }

  /** An existing field's column: `db_column`, else `db_column_name`, else the derived name. */
  function ExistingColumn(row: FieldRow): string {
    row.dbColumn.GetOr(row.dbColumnName.GetOr(DbColumnFallback(row.name, row.id)))
  }

  function ExistingRef(row: FieldRow): FieldRef {
    FieldRef(row.id, ExistingColumn(row))
  }

  /** `existing_fields` after its loop over the first `n` rows; a later row of the same name replaces an earlier one. */
  function ExistingIndex(rows: seq<FieldRow>): map<string, FieldRef> {
    if rows == [] then map[]
    else
      var last := rows[|rows| - 1];
      ExistingIndex(rows[..|rows| - 1])[last.name := ExistingRef(last)]
  }

  function FieldRows(reply: FieldListReply): seq<FieldRow> {
    if reply.code == 200 then reply.rows.GetOr([]) else []
  }

  /** The `existing_fields` loop. */
  method IndexExistingFields(reply: FieldListReply) returns (existing: map<string, FieldRef>)
    ensures existing == ExistingIndex(FieldRows(reply))
  {
    existing := map[];
    var rows := FieldRows(reply);
    var i := 0;
    while i < |rows|
      invariant 0 <= i <= |rows|
      invariant existing == ExistingIndex(rows[..i])
    {
      var row := rows[i];
      assert rows[..i + 1][..i] == rows[..i];
      existing := existing[row.name := FieldRef(row.id, ExistingColumn(row))];
      i := i + 1;
    }
    assert rows[..i] == rows;
  }

  /** Row `j` is the last row named `name`. */
  predicate IsLastNamed(rows: seq<FieldRow>, name: string, j: nat) {
    j < |rows| && rows[j].name == name && forall k :: j < k < |rows| ==> rows[k].name != name
  }

  /** The index holds exactly the row names. */
  lemma {:induction false} ExistingIndexKeys(rows: seq<FieldRow>)
    ensures forall name :: name in ExistingIndex(rows) <==> exists j :: 0 <= j < |rows| && rows[j].name == name
  {
    if rows != [] {
      var init := rows[..|rows| - 1];
      var last := rows[|rows| - 1];
      ExistingIndexKeys(init);
      forall name | name in ExistingIndex(rows)
        ensures exists j :: 0 <= j < |rows| && rows[j].name == name
      {
        if name != last.name {
          assert name in ExistingIndex(init);
          var j :| 0 <= j < |init| && init[j].name == name;
          assert rows[j] == init[j];
        } else {
          assert rows[|rows| - 1].name == name;
        }
      }
      forall name | exists j :: 0 <= j < |rows| && rows[j].name == name
        ensures name in ExistingIndex(rows)
      {
        var j :| 0 <= j < |rows| && rows[j].name == name;
        if j < |init| {
          assert init[j] == rows[j];
        }
      }
    }
  }

  /** A name is mapped to the last row of that name. */
  lemma {:induction false} ExistingIndexLastWins(rows: seq<FieldRow>, name: string, j: nat)
    requires IsLastNamed(rows, name, j)
    ensures name in ExistingIndex(rows) && ExistingIndex(rows)[name] == ExistingRef(rows[j])
  {
    var init := rows[..|rows| - 1];
    if j < |init| {
      assert IsLastNamed(init, name, j);
      ExistingIndexLastWins(init, name, j);
    }
  }

  /** The derived column starts with "_snipeit_" and the slug of the name, and ends in the id. */
  lemma DbColumnFallbackShape(name: string, id: int)
    ensures DbColumnFallback(name, id)[..9 + |name|] == "_snipeit_" + Slug(name)
    ensures ParseInt(AfterLast(DbColumnFallback(name, id), '_')) == Some(id)
  {
    var head := "_snipeit_" + Slug(name);
    var digits := IntToString(id);
    assert DbColumnFallback(name, id) == head + ['_'] + digits;
    assert |head| == 9 + |name|;
    IdAfterLastUnderscore(head, id);
  }

  lemma IdAfterLastUnderscore(head: string, id: int)
    ensures ParseInt(AfterLast(head + ['_'] + IntToString(id), '_')) == Some(id)
  {
    var digits := IntToString(id);
    assert '_' !in digits;
    AfterLastAppend(head, '_', digits);
    IntToStringRoundTrip(id);
  }

  /** A creation reply's payload: the new id and the two column keys (`None` when absent). */
  datatype CreatedField = CreatedField(id: int, dbColumnName: Option<string>, dbColumn: Option<string>)

  datatype FieldBody = FieldCreated(payload: CreatedField) | FieldRefused

  datatype FieldReply = FieldReply(code: int, body: FieldBody)

  /** A created field's column: `db_column_name` first this time, then `db_column`, then the derived name. */
  function CreatedColumn(name: string, created: CreatedField): string {
    created.dbColumnName.GetOr(created.dbColumn.GetOr(DbColumnFallback(name, created.id)))
  }

  /** The body of the creation POST for the field at 1-based position `position`. */
  datatype FieldRequest = FieldRequest(name: string, element: string, format: string, customFormat: string,
                                       fieldEncrypted: bool, showInListview: bool)

  function FieldRequestFor(field: RequiredField, position: nat): FieldRequest {
    FieldRequest(field.name, field.element, field.format, "", false, position <= 5)
  }

  predicate CreationSucceeded(reply: FieldReply) {
    reply.code == 200 && reply.body.FieldCreated?
  }

  /** `field_ids` after the loop has handled the first `n` required fields. */
  function FieldIdsAfter(fields: seq<RequiredField>, existing: map<string, FieldRef>, replies: seq<FieldReply>, n: nat): map<string, FieldRef>
    requires n <= |fields| && |replies| == |fields|
  {
    if n == 0 then map[]
    else
      var ids := FieldIdsAfter(fields, existing, replies, n - 1);
      var name := fields[n - 1].name;
      if name in existing then ids[name := existing[name]]
      else if CreationSucceeded(replies[n - 1]) then
        ids[name := FieldRef(replies[n - 1].body.payload.id, CreatedColumn(name, replies[n - 1].body.payload))]
      else ids
  }

  /** The creation requests sent while handling the first `n` required fields. */
  function PostedAfter(fields: seq<RequiredField>, existing: map<string, FieldRef>, n: nat): seq<FieldRequest>
    requires n <= |fields|
  {
    if n == 0 then []
    else
      var posted := PostedAfter(fields, existing, n - 1);
      if fields[n - 1].name in existing then posted else posted + [FieldRequestFor(fields[n - 1], n)]
  }

  /** The custom-field loop (`for idx, field in enumerate(custom_fields, 1)`). */
  method ReconcileFields(fields: seq<RequiredField>, existing: map<string, FieldRef>, replies: seq<FieldReply>)
    returns (fieldIds: map<string, FieldRef>, posted: seq<FieldRequest>)
    requires |replies| == |fields|
    ensures fieldIds == FieldIdsAfter(fields, existing, replies, |fields|)
    ensures posted == PostedAfter(fields, existing, |fields|)
  {
    fieldIds, posted := map[], [];
    var idx := 1;
    while idx <= |fields|
      invariant 1 <= idx <= |fields| + 1
      invariant fieldIds == FieldIdsAfter(fields, existing, replies, idx - 1)
      invariant posted == PostedAfter(fields, existing, idx - 1)
    {
      var field := fields[idx - 1];
      if field.name in existing {
        fieldIds := fieldIds[field.name := existing[field.name]];
      } else {
        posted := posted + [FieldRequest(field.name, field.element, field.format, "", false, idx <= 5)];
        var reply := replies[idx - 1];
        if reply.code == 200 && reply.body.FieldCreated? {
          var created := reply.body.payload;
          fieldIds := fieldIds[field.name := FieldRef(created.id, CreatedColumn(field.name, created))];
        }
      }
      idx := idx + 1;
    }
  }

  /** The names in `fields` are pairwise different. */
  predicate DistinctNames(fields: seq<RequiredField>) {
    forall i, j :: 0 <= i < j < |fields| ==> fields[i].name != fields[j].name
  }

  /** Field `i` is handled as the source says: reused from `existing`, else created when the reply succeeds. */
  predicate HandledAs(fields: seq<RequiredField>, existing: map<string, FieldRef>, replies: seq<FieldReply>,
                      i: nat, ref: FieldRef)
    requires i < |fields| && |replies| == |fields|
  {
    var name := fields[i].name;
    if name in existing then ref == existing[name]
    else
      var created := replies[i].body;
      CreationSucceeded(replies[i]) && ref == FieldRef(created.payload.id, CreatedColumn(name, created.payload))
  }

  /** With distinct names, field `i` is in `field_ids` exactly when it existed or was created, with that entry. */
  lemma {:induction false} FieldIdsAt(fields: seq<RequiredField>, existing: map<string, FieldRef>,
                                      replies: seq<FieldReply>, n: nat, i: nat)
    requires i < n <= |fields| && |replies| == |fields| && DistinctNames(fields)
    ensures var ids := FieldIdsAfter(fields, existing, replies, n);
      && (fields[i].name in ids <==> fields[i].name in existing || CreationSucceeded(replies[i]))
      && (fields[i].name in ids ==> HandledAs(fields, existing, replies, i, ids[fields[i].name]))
  {
    if i < n - 1 {
      FieldIdsAt(fields, existing, replies, n - 1, i);
      assert fields[i].name != fields[n - 1].name;
    } else {
      FieldIdsNames(fields, existing, replies, n - 1);
      assert forall j :: 0 <= j < n - 1 ==> fields[j].name != fields[i].name;
    }
  }

  /** Only required fields are ever entered into `field_ids`. */
  lemma {:induction false} FieldIdsNames(fields: seq<RequiredField>, existing: map<string, FieldRef>,
                                         replies: seq<FieldReply>, n: nat)
    requires n <= |fields| && |replies| == |fields|
    ensures forall name :: name in FieldIdsAfter(fields, existing, replies, n) ==>
      exists i :: 0 <= i < n && fields[i].name == name
  {
    if n > 0 {
      FieldIdsNames(fields, existing, replies, n - 1);
      var prev := FieldIdsAfter(fields, existing, replies, n - 1);
      forall name | name in FieldIdsAfter(fields, existing, replies, n)
        ensures exists i :: 0 <= i < n && fields[i].name == name
      {
        if name != fields[n - 1].name {
          assert name in prev;
        }
      }
    }
  }

  /**
   * With distinct names, `field_ids` holds a required field exactly when it existed or its
   * creation succeeded, with the existing entry copied or the created id and column, and
   * holds nothing else.
   */
  lemma FieldIdsContents(fields: seq<RequiredField>, existing: map<string, FieldRef>, replies: seq<FieldReply>)
    requires |replies| == |fields| && DistinctNames(fields)
    ensures var ids := FieldIdsAfter(fields, existing, replies, |fields|);
      && (forall i :: 0 <= i < |fields| ==>
            (fields[i].name in ids <==> fields[i].name in existing || CreationSucceeded(replies[i])))
      && (forall i :: 0 <= i < |fields| && fields[i].name in ids ==> HandledAs(fields, existing, replies, i, ids[fields[i].name]))
      && (forall name :: name in ids ==> exists i :: 0 <= i < |fields| && fields[i].name == name)
  {
    forall i | 0 <= i < |fields|
      ensures var ids := FieldIdsAfter(fields, existing, replies, |fields|);
        && (fields[i].name in ids <==> fields[i].name in existing || CreationSucceeded(replies[i]))
        && (fields[i].name in ids ==> HandledAs(fields, existing, replies, i, ids[fields[i].name]))
    {
      FieldIdsAt(fields, existing, replies, |fields|, i);
    }
    FieldIdsNames(fields, existing, replies, |fields|);
  }

  /**
   * A proof device with no counterpart in the script: it exists only to show that the 22
   * required names are distinct. It packs a name's length and its second character into one
   * number, and `CUSTOM_FIELD_KEYS` below holds the 22 values, which are then compared
   * pairwise as integers rather than as strings.
   */
  function NameKey(name: string): int
    requires |name| >= 2
  {
    |name| * 256 + name[1] as int
  }

  /** `NameKey` of each required name, in order (each entry is checked by `CustomFieldKeys`). */
  const CUSTOM_FIELD_KEYS: seq<int> := [3438, 2917, 4722, 4469, 2156, 1616, 2126, 2881, 5989, 2930, 2931, 2647, 2903, 4470, 2421, 3941, 3694, 2913, 1613, 3186, 4207, 4969]

  lemma CustomFieldKeys()
    ensures |CUSTOM_FIELD_KEYS| == |CUSTOM_FIELDS|
    ensures forall i :: 0 <= i < |CUSTOM_FIELDS| ==>
      |CUSTOM_FIELDS[i].name| >= 2 && NameKey(CUSTOM_FIELDS[i].name) == CUSTOM_FIELD_KEYS[i]
  {
  }

  lemma CustomFieldKeysDistinct()
    ensures forall i, j :: 0 <= i < j < |CUSTOM_FIELD_KEYS| ==> CUSTOM_FIELD_KEYS[i] != CUSTOM_FIELD_KEYS[j]
  {
  }

  /** The 22 required fields have distinct names. */
  lemma CustomFieldNamesDistinct()
    ensures DistinctNames(CUSTOM_FIELDS)
  {
    CustomFieldKeys();
    CustomFieldKeysDistinct();
    forall i, j | 0 <= i < j < |CUSTOM_FIELDS|
      ensures CUSTOM_FIELDS[i].name != CUSTOM_FIELDS[j].name
    {
      assert CUSTOM_FIELD_KEYS[i] != CUSTOM_FIELD_KEYS[j];
    }
  }

  /** Reusing a field never alters it: every name of `field_ids` that also exists carries its existing entry. */
  lemma {:induction false} FieldIdsAgree(fields: seq<RequiredField>, existing: map<string, FieldRef>,
                                         replies: seq<FieldReply>, n: nat)
    requires n <= |fields| && |replies| == |fields|
    ensures forall name :: name in FieldIdsAfter(fields, existing, replies, n) && name in existing ==>
      FieldIdsAfter(fields, existing, replies, n)[name] == existing[name]
  {
    if n > 0 {
      FieldIdsAgree(fields, existing, replies, n - 1);
    }
  }

  /** A creation request is sent only for a missing field, listed in the list view exactly when its position is at most 5. */
  lemma {:induction false} PostedRequests(fields: seq<RequiredField>, existing: map<string, FieldRef>, n: nat)
    requires n <= |fields|
    ensures forall r :: r in PostedAfter(fields, existing, n) ==>
      exists i :: 0 <= i < n && fields[i].name !in existing && r == FieldRequestFor(fields[i], i + 1)
        && r.customFormat == "" && !r.fieldEncrypted && (r.showInListview <==> i < 5)
    ensures forall i :: 0 <= i < n && fields[i].name !in existing ==>
      FieldRequestFor(fields[i], i + 1) in PostedAfter(fields, existing, n)
  {
    if n > 0 {
      PostedRequests(fields, existing, n - 1);
    }
  }

  /** `all_fields = {**existing_fields, **field_ids}`: the union of both, with `field_ids` winning. */
  function MergeFields(existing: map<string, FieldRef>, fieldIds: map<string, FieldRef>): (all: map<string, FieldRef>)
    ensures all.Keys == existing.Keys + fieldIds.Keys
    ensures forall name :: name in fieldIds ==> all[name] == fieldIds[name]
    ensures forall name :: name in existing && name !in fieldIds ==> all[name] == existing[name]
  {
    existing + fieldIds
  }

  /** Since reused entries are copies, merging leaves every existing entry as it was. */
  lemma MergeKeepsExisting(fields: seq<RequiredField>, existing: map<string, FieldRef>, replies: seq<FieldReply>)
    requires |replies| == |fields|
    ensures var all := MergeFields(existing, FieldIdsAfter(fields, existing, replies, |fields|));
      forall name :: name in existing ==> all[name] == existing[name]
  {
    FieldIdsAgree(fields, existing, replies, |fields|);
  }

  // ---------------------------------------------------------------------------------------
  // The printed mapping
  // ---------------------------------------------------------------------------------------

  /** `(key, field name)` pairs in the order they are printed. */
  const MAPPING_KEYS: seq<(string, string)> := [
    ("instance_type", "Instance Type"),
    ("description", "Description"),
    ("private_ip", "Private IP Address"),
    ("public_ip", "Public IP Address"),
    ("platform", "Platform"),
    ("vpc_id", "VPC ID"),
    ("dns_name", "DNS Name"),
    ("mac_address", "MAC Address"),
    ("vendor_support_end", "Vendor Support End Date"),
    ("criticity", "Criticality"),
    ("asset_owner", "Asset Owner"),
    ("aws_region", "AWS Region"),
    ("aws_account", "AWS Account"),
    ("availability_zone", "Availability Zone"),
    ("subnet_id", "Subnet ID"),
    ("security_groups", "Security Groups"),
    ("instance_state", "Instance State"),
    ("launch_time", "Launch Time"),
    ("ami_id", "AMI ID"),
    ("architecture", "Architecture"),
    ("root_device_type", "Root Device Type"),
    ("virtualization_type", "Virtualization Type")
  ]

  /** One printed line of `CUSTOM_FIELD_MAP` and of the summary: key, field name, id and column. */
  datatype MappingEntry = MappingEntry(key: string, fieldName: string, field: FieldRef)

  /** The entries printed for `keys`: the pairs whose field name is in `all`, in their order. */
  function PresentEntries(keys: seq<(string, string)>, all: map<string, FieldRef>): seq<MappingEntry> {
    if keys == [] then []
    else
      var init := PresentEntries(keys[..|keys| - 1], all);
      var (key, name) := keys[|keys| - 1];
      if name in all then init + [MappingEntry(key, name, all[name])] else init
  }

  /** The two printing loops over `mapping_keys`. */
  method PrintedMapping(keys: seq<(string, string)>, all: map<string, FieldRef>) returns (entries: seq<MappingEntry>)
    ensures entries == PresentEntries(keys, all)
  {
    entries := [];
    var i := 0;
    while i < |keys|
      invariant 0 <= i <= |keys|
      invariant entries == PresentEntries(keys[..i], all)
    {
      var (key, name) := keys[i];
      assert keys[..i + 1][..i] == keys[..i];
      if name in all {
        entries := entries + [MappingEntry(key, name, all[name])];
      }
      i := i + 1;
    }
    assert keys[..i] == keys;
  }

  /** An entry is printed exactly for a pair whose name is present, and shows that name's id and column. */
  lemma {:induction false} PresentEntriesMembers(keys: seq<(string, string)>, all: map<string, FieldRef>)
    ensures forall e :: e in PresentEntries(keys, all) <==>
      exists i :: 0 <= i < |keys| && keys[i].1 in all && e == MappingEntry(keys[i].0, keys[i].1, all[keys[i].1])
  {
    if keys != [] {
      var init := keys[..|keys| - 1];
      PresentEntriesMembers(init, all);
      forall e | e in PresentEntries(keys, all)
        ensures exists i :: 0 <= i < |keys| && keys[i].1 in all && e == MappingEntry(keys[i].0, keys[i].1, all[keys[i].1])
      {
        if e in PresentEntries(init, all) {
          var i :| 0 <= i < |init| && init[i].1 in all && e == MappingEntry(init[i].0, init[i].1, all[init[i].1]);
          assert keys[i] == init[i];
        }
      }
      forall e | exists i :: 0 <= i < |keys| && keys[i].1 in all && e == MappingEntry(keys[i].0, keys[i].1, all[keys[i].1])
        ensures e in PresentEntries(keys, all)
      {
        var i :| 0 <= i < |keys| && keys[i].1 in all && e == MappingEntry(keys[i].0, keys[i].1, all[keys[i].1]);
        if i < |init| {
          assert init[i] == keys[i];
        }
      }
    }
  }

  /** Order is kept: the entries of a concatenation are those of each part, in turn. */
  lemma {:induction false} PresentEntriesAppend(a: seq<(string, string)>, b: seq<(string, string)>, all: map<string, FieldRef>)
    ensures PresentEntries(a + b, all) == PresentEntries(a, all) + PresentEntries(b, all)
    decreases |b|
  {
    if b == [] {
      assert a + b == a;
    } else {
      var b' := b[..|b| - 1];
      assert (a + b)[..|a + b| - 1] == a + b';
      PresentEntriesAppend(a, b', all);
    }
  }

  /** When every name is present, one entry per pair is printed, in the pairs' order. */
  lemma {:induction false} FullMapping(keys: seq<(string, string)>, all: map<string, FieldRef>)
    requires forall i :: 0 <= i < |keys| ==> keys[i].1 in all
    ensures |PresentEntries(keys, all)| == |keys|
    ensures forall i :: 0 <= i < |keys| ==>
      PresentEntries(keys, all)[i] == MappingEntry(keys[i].0, keys[i].1, all[keys[i].1])
  {
    if keys != [] {
      FullMapping(keys[..|keys| - 1], all);
    }
  }

  /** The mapping lists the required fields, one pair per field, in the same order. */
  lemma MappingMatchesRequiredFields()
    ensures |MAPPING_KEYS| == |CUSTOM_FIELDS|
    ensures forall i :: 0 <= i < |MAPPING_KEYS| ==> MAPPING_KEYS[i].1 == CUSTOM_FIELDS[i].name
  {
  }

  // ---------------------------------------------------------------------------------------
  // The whole script
  // ---------------------------------------------------------------------------------------

  /** The registry's replies to every call the script makes, in script order. */
  datatype SetupReplies = SetupReplies(
    categories: ListReply, categoryCreate: CreateReply,
    manufacturers: ListReply, manufacturerCreate: CreateReply,
    models: ListReply, modelCreate: CreateReply,
    fields: FieldListReply, fieldCreates: seq<FieldReply>)

  /** What the script ends with: it exits early when the category creation is refused. */
  datatype SetupOutcome =
    | Aborted
    | Completed(category: Resolution, manufacturer: Resolution, model: Resolution,
                categoryRequest: Option<CategoryRequest>, manufacturerRequest: Option<ManufacturerRequest>,
                modelRequest: Option<ModelRequest>, posted: seq<FieldRequest>,
                fieldIds: map<string, FieldRef>, allFields: map<string, FieldRef>, mapping: seq<MappingEntry>)

  method RunSetup(replies: SetupReplies) returns (outcome: SetupOutcome)
    requires |replies.fieldCreates| == |CUSTOM_FIELDS|
    ensures var category := Resolve(NamedId(replies.categories, CATEGORY_NAME), replies.categoryCreate);
      outcome.Aborted? <==> category.refused
    ensures outcome.Completed? ==>
      var manufacturer := Resolve(NamedId(replies.manufacturers, MANUFACTURER_NAME), replies.manufacturerCreate);
      var model := Resolve(NamedId(replies.models, MODEL_NAME), replies.modelCreate);
      var existing := ExistingIndex(FieldRows(replies.fields));
      && outcome.category == Resolve(NamedId(replies.categories, CATEGORY_NAME), replies.categoryCreate)
      && outcome.manufacturer == manufacturer
      && outcome.model == model
      && (outcome.categoryRequest.Some? <==> outcome.category.createSent)
      && (outcome.category.createSent ==> outcome.categoryRequest == Some(CATEGORY_REQUEST))
      && (outcome.manufacturerRequest.Some? <==> manufacturer.createSent)
      && (manufacturer.createSent ==> outcome.manufacturerRequest == Some(MANUFACTURER_REQUEST))
      && (outcome.modelRequest.Some? <==> model.createSent)
      && (model.createSent ==> outcome.modelRequest == Some(ModelRequestFor(manufacturer.id, outcome.category.id)))
      && outcome.fieldIds == FieldIdsAfter(CUSTOM_FIELDS, existing, replies.fieldCreates, |CUSTOM_FIELDS|)
      && outcome.posted == PostedAfter(CUSTOM_FIELDS, existing, |CUSTOM_FIELDS|)
      && outcome.allFields == MergeFields(existing, outcome.fieldIds)
      && outcome.mapping == PresentEntries(MAPPING_KEYS, outcome.allFields)
  {
    var categoryFound := FindByName(replies.categories, CATEGORY_NAME);
    var category := Resolve(categoryFound, replies.categoryCreate);
    if category.refused {
      return Aborted;
    }
    var manufacturerFound := FindByName(replies.manufacturers, MANUFACTURER_NAME);
    var manufacturer := Resolve(manufacturerFound, replies.manufacturerCreate);
    var modelFound := FindByName(replies.models, MODEL_NAME);
    var model := Resolve(modelFound, replies.modelCreate);
    var categoryRequest := if category.createSent then Some(CATEGORY_REQUEST) else None;
    var manufacturerRequest := if manufacturer.createSent then Some(MANUFACTURER_REQUEST) else None;
    var modelRequest := if model.createSent then Some(ModelRequestFor(manufacturer.id, category.id)) else None;
    var existing := IndexExistingFields(replies.fields);
    var fieldIds, posted := ReconcileFields(CUSTOM_FIELDS, existing, replies.fieldCreates);
    var allFields := MergeFields(existing, fieldIds);
    var mapping := PrintedMapping(MAPPING_KEYS, allFields);
    outcome := Completed(category, manufacturer, model, categoryRequest, manufacturerRequest, modelRequest, posted, fieldIds, allFields, mapping);
  }
}
