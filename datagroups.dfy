/** The results of the internal data-group tools
    (src/bigip_mcp_server/tools/datagroups.py). `_display_path` is
    `Names.DisplayName`, with the configured partition as a parameter. */
module DataGroups {
  import opened Wrappers
  import opened Strings
  import opened Json
  import opened Names
  import ToolResults
  import FakeBigIp

  /** `datagroups_list`: the configured partition, the count and the items. */
  function ListDataGroups(configured: string, items: seq<Value>): (r: Record)
    ensures r.Keys == {"partition", "count", "items"}
    ensures r["partition"] == Str(configured)
    ensures r["items"] == Arr(items) && r["count"] == Int(|items|)
  {
    ToolResults.Listing(configured, items)
  }

  /** The result of a data-group create or update: the partition is resolved
      first and the display path built from the resolved value. */
  function DataGroupChange(status: string, name: string, partition: Option<string>, configured: string,
                           response: Record): (r: Record)
    ensures r.Keys == {"status", "data_group", "generation"}
    ensures r["status"] == Str(status)
    ensures "fullPath" in response ==> r["data_group"] == response["fullPath"]
    ensures "fullPath" !in response ==> r["data_group"] == Str(DisplayName(name, partition, configured))
    ensures r["generation"] == GetOrNull(response, "generation")
  {
    var resolved := ResolvePartition(partition, configured);
    ResolveTwice(partition, configured);
    ToolResults.Change(status, "data_group", response, DisplayName(name, Some(resolved), configured))
  }

  /** `datagroups_create`. */
  function CreateDataGroup(name: string, partition: Option<string>, configured: string, response: Record): (r: Record)
    ensures r.Keys == {"status", "data_group", "generation"}
    ensures r["status"] == Str("created")
    ensures "fullPath" in response ==> r["data_group"] == response["fullPath"]
    ensures "fullPath" !in response ==> r["data_group"] == Str(DisplayName(name, partition, configured))
    ensures r["generation"] == GetOrNull(response, "generation")
  {
    DataGroupChange("created", name, partition, configured, response)
  }

  /** `datagroups_update`. */
  function UpdateDataGroup(name: string, partition: Option<string>, configured: string, response: Record): (r: Record)
    ensures r.Keys == {"status", "data_group", "generation"}
    ensures r["status"] == Str("updated")
    ensures "fullPath" in response ==> r["data_group"] == response["fullPath"]
    ensures "fullPath" !in response ==> r["data_group"] == Str(DisplayName(name, partition, configured))
    ensures r["generation"] == GetOrNull(response, "generation")
  {
    DataGroupChange("updated", name, partition, configured, response)
  }

  /** `datagroups_delete`: reports the display path of the name asked for,
      never anything from the device. */
  function DeleteDataGroup(name: string, partition: Option<string>, configured: string): (r: Record)
    ensures r.Keys == {"status", "data_group"}
    ensures r["status"] == Str("deleted")
    ensures r["data_group"].Str? && StartsWith(r["data_group"].s, "/")
    ensures r["data_group"] == Str(DisplayName(name, partition, configured))
  {
    map["status" := Str("deleted"), "data_group" := Str(DisplayName(name, partition, configured))]
  }

  /** Without a `fullPath` in the create response, create and delete of the
      same name report the same path. */
  lemma CreateAndDeleteReportAlike(name: string, partition: Option<string>, configured: string, response: Record)
    requires "fullPath" !in response
    ensures CreateDataGroup(name, partition, configured, response)["data_group"]
         == DeleteDataGroup(name, partition, configured)["data_group"]
  {
  }

  /** On a `~`-prefixed name the display path is what the fake device's
      `_decode_name` makes of it, whatever the partitions. */
  lemma DisplayAgreesWithDecode(name: string, partition: Option<string>, configured: string)
    requires StartsWith(name, "~")
    ensures DisplayName(name, partition, configured) == FakeBigIp.DecodeName(name)
  {
  }

  /** The display path of a bare name in a given partition is the key under
      which the fake device stores a data group created with that name and
      partition, and the `fullPath` it records. */
  lemma DisplayIsCreatedKey(name: string, partition: string, configured: string, body: Record, generation: int)
    requires partition != [] && name != [] && name[0] != '/' && name[0] != '~'
    requires "partition" in body && body["partition"] == Str(partition)
    requires "name" in body && body["name"] == Str(name)
    ensures DisplayName(name, Some(partition), configured) == FakeBigIp.PathOf(body, "dg")
    ensures FakeBigIp.DataGroupRecord(body, generation)["fullPath"] == Str(DisplayName(name, Some(partition), configured))
  {
    FakeBigIp.DataGroupRecordShape(body, generation);
  }
}
