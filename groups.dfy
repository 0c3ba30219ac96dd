/**
 * Reading and rewriting a network-group document: the member names and
 * literal values it lists, the backup fields, and the body written back by
 * the checking client's group update.
 */
module Groups {
  import opened Wrappers
  import opened Api

  /** Does doc hold a list under `key`? */
  predicate ListAt(doc: JsonObject, key: string)
  {
    key in doc && doc[key].JArr?
  }

  /** Is every element an object with a field `key`? */
  predicate AllHave(elems: seq<Json>, key: string)
  {
    forall i :: 0 <= i < |elems| ==> elems[i].JObj? && key in elems[i].fields
  }

  /** The field `key` of every element, in order. */
  function Pluck(elems: seq<Json>, key: string): (values: seq<Json>)
    requires AllHave(elems, key)
    ensures |values| == |elems|
    ensures forall i :: 0 <= i < |elems| ==> values[i] == elems[i].fields[key]
  {
    seq(|elems|, i requires 0 <= i < |elems| && AllHave(elems, key) => elems[i].fields[key])
  }

  /**
   * The names of a group's objects followed by the values of its literals
   * (get_netgrp_ips), or the field whose reading fails first.
   */
  function GroupIps(doc: JsonObject): (r: Result<seq<Json>, Error>)
    ensures !ListAt(doc, "objects") ==> r == Err(Malformed("objects"))
    ensures r.Ok? <==>
      ListAt(doc, "objects") && AllHave(doc["objects"].elems, "name")
      && ListAt(doc, "literals") && AllHave(doc["literals"].elems, "value")
    ensures r.Ok? ==>
      var objects, literals := doc["objects"].elems, doc["literals"].elems;
      |r.value| == |objects| + |literals|
      && (forall i :: 0 <= i < |objects| ==> r.value[i] == objects[i].fields["name"])
      && (forall j :: 0 <= j < |literals| ==> r.value[|objects| + j] == literals[j].fields["value"])
  {
    if !ListAt(doc, "objects") then Err(Malformed("objects"))
    else if !AllHave(doc["objects"].elems, "name") then Err(Malformed("name"))
    else if !ListAt(doc, "literals") then Err(Malformed("literals"))
    else if !AllHave(doc["literals"].elems, "value") then Err(Malformed("value"))
    else
      var names, values := Pluck(doc["objects"].elems, "name"), Pluck(doc["literals"].elems, "value");
      assert forall j :: 0 <= j < |values| ==> (names + values)[|names| + j] == values[j];
      Ok(names + values)
  }

  /** One of get_netgrp_ips's loops: field `key` of each element in order, raising at the first element without it. */
  method PluckAll(elems: seq<Json>, key: string) returns (r: Result<seq<Json>, Error>)
    ensures AllHave(elems, key) ==> r == Ok(Pluck(elems, key))
    ensures !AllHave(elems, key) ==> r == Err(Malformed(key))
  {
    var values: seq<Json> := [];
    for i := 0 to |elems|
      invariant |values| == i
      invariant forall j :: 0 <= j < i ==> elems[j].JObj? && key in elems[j].fields && values[j] == elems[j].fields[key]
    {
      if !elems[i].JObj? || key !in elems[i].fields {
        return Err(Malformed(key));
      }
      values := values + [elems[i].fields[key]];
    }
    assert values == Pluck(elems, key);
    return Ok(values);
  }

  /**
   * get_netgrp_ips: the name of each of the group's objects, then the value of
   * each of its literals; reading a missing field raises.
   */
  method CollectIps(doc: JsonObject) returns (r: Result<seq<Json>, Error>)
    ensures r == GroupIps(doc)
  {
    if !ListAt(doc, "objects") {
      return Err(Malformed("objects"));
    }
    var names := PluckAll(doc["objects"].elems, "name");
    if names.Err? {
      return Err(names.error);
    }
    if !ListAt(doc, "literals") {
      return Err(Malformed("literals"));
    }
    var values := PluckAll(doc["literals"].elems, "value");
    if values.Err? {
      return Err(values.error);
    }
    return Ok(names.value + values.value);
  }

  /** The fields a group update removes before writing back: server metadata and the backup stamps. */
  const ServerFields: set<string> := {"metadata", "links", "backup_timestamp", "backup_uuid"}

  /** The fetched group with the two backup fields set, as written to the backup file. */
  function WithBackupFields(doc: JsonObject, timestamp: string, backupId: string): (snapshot: JsonObject)
    ensures snapshot.Keys == doc.Keys + {"backup_timestamp", "backup_uuid"}
    ensures snapshot["backup_timestamp"] == JStr(timestamp) && snapshot["backup_uuid"] == JStr(backupId)
    ensures forall k :: k in doc && k !in {"backup_timestamp", "backup_uuid"} ==> snapshot[k] == doc[k]
  {
    doc["backup_timestamp" := JStr(timestamp)]["backup_uuid" := JStr(backupId)]
  }

  /** Where the backup of a group update is written. */
  function BackupPath(backupId: string): string
  {
    "./backups/" + backupId + ".json"
  }

  /** Appending each new object to the group's "objects" list; reading "objects" fails only if something is appended. */
  function AppendMembers(group: JsonObject, newObjects: seq<Json>): Result<JsonObject, Error>
  {
    if newObjects == [] then Ok(group)
    else if !ListAt(group, "objects") then Err(Malformed("objects"))
    else Ok(group["objects" := JArr(group["objects"].elems + newObjects)])
  }

  /** The loop `for object in new_objects: obj_group["objects"].append(object)`. */
  method AppendObjects(group: JsonObject, newObjects: seq<Json>) returns (r: Result<JsonObject, Error>)
    ensures r == AppendMembers(group, newObjects)
  {
    var objGroup := group;
    for i := 0 to |newObjects|
      invariant i == 0 ==> objGroup == group
      invariant i > 0 ==> ListAt(group, "objects") && objGroup == group["objects" := JArr(group["objects"].elems + newObjects[..i])]
    {
      if !ListAt(objGroup, "objects") {
        return Err(Malformed("objects"));
      }
      var members := objGroup["objects"].elems + [newObjects[i]];
      assert members == group["objects"].elems + newObjects[..i + 1] by {
        assert newObjects[..i + 1] == newObjects[..i] + [newObjects[i]];
      }
      objGroup := objGroup["objects" := JArr(members)];
      assert objGroup == group["objects" := JArr(members)];
    }
    assert newObjects[..|newObjects|] == newObjects;
    return Ok(objGroup);
  }

  /**
   * The body a group update writes back: the fetched group without metadata,
   * links and backup fields, with the new objects appended to "objects" in
   * order and every other field (literals included) as fetched; or the field
   * whose removal or extension fails.
   */
  function MergedBody(doc: JsonObject, newObjects: seq<Json>): (r: Result<JsonObject, Error>)
    ensures "metadata" !in doc ==> r == Err(Malformed("metadata"))
    ensures "metadata" in doc && "links" !in doc ==> r == Err(Malformed("links"))
    ensures r.Ok? <==> "metadata" in doc && "links" in doc && (newObjects != [] ==> ListAt(doc, "objects"))
    ensures r.Ok? ==> r.value.Keys == doc.Keys - ServerFields
    ensures r.Ok? ==> forall k :: k in r.value && k != "objects" ==> r.value[k] == doc[k]
    ensures r.Ok? && newObjects == [] ==> r.value == doc - ServerFields
    ensures r.Ok? && newObjects != [] ==> r.value["objects"] == JArr(doc["objects"].elems + newObjects)
  {
    if "metadata" !in doc then Err(Malformed("metadata"))
    else if "links" !in doc then Err(Malformed("links"))
    else AppendMembers(doc - ServerFields, newObjects)
  }

  /** Stamping a group for the backup and then removing the server fields leaves what removing them from the group leaves. */
  lemma StrippedStamps(doc: JsonObject, timestamp: string, backupId: string)
    ensures WithBackupFields(doc, timestamp, backupId) - {"metadata"} - {"links"} - {"backup_timestamp"} - {"backup_uuid"}
      == doc - ServerFields
  {
  }

  /** How many times x occurs in a list. */
  function Occurrences(elems: seq<Json>, x: Json): nat
  {
    multiset(elems)[x]
  }

  /**
   * Merging is append-only and does not deduplicate: every member stays, and
   * merging an x that is already a member makes it occur once more.
   */
  lemma MergeKeepsDuplicates(doc: JsonObject, x: Json)
    requires MergedBody(doc, [x]).Ok?
    ensures var before, after := doc["objects"].elems, MergedBody(doc, [x]).value["objects"].elems;
      after[..|before|] == before
      && Occurrences(after, x) == Occurrences(before, x) + 1
  {
    var before := doc["objects"].elems;
    var after := MergedBody(doc, [x]).value["objects"].elems;
    assert after == before + [x];
    assert after[..|before|] == before;
  }

  /** The host entry update_group_from_existing_host appends: the host without links, metadata and value. */
  function ExistingHostEntry(hostDoc: JsonObject): (r: Result<Json, Error>)
    ensures r.Ok? <==> "links" in hostDoc && "metadata" in hostDoc && "value" in hostDoc
    ensures !("links" in hostDoc) ==> r == Err(Malformed("links"))
    ensures r.Ok? ==> r.value.JObj? && r.value.fields.Keys == hostDoc.Keys - {"links", "metadata", "value"}
    ensures r.Ok? ==> forall k :: k in r.value.fields ==> r.value.fields[k] == hostDoc[k]
  {
    if "links" !in hostDoc then Err(Malformed("links"))
    else if "metadata" !in hostDoc then Err(Malformed("metadata"))
    else if "value" !in hostDoc then Err(Malformed("value"))
    else Ok(JObj(hostDoc - {"links", "metadata", "value"}))
  }
}
