/** The dictionaries the pool and data-group tools return
    (src/bigip_mcp_server/tools/pools.py, src/bigip_mcp_server/tools/datagroups.py). */
module ToolResults {
  import opened Wrappers
  import opened Json

  /** `{"partition": partition, "count": len(items), "items": items}`. */
  function Listing(partition: string, items: seq<Value>): (r: Record)
    ensures r.Keys == {"partition", "count", "items"}
    ensures r["partition"] == Str(partition)
    ensures r["items"] == Arr(items)
    ensures r["count"] == Int(|r["items"].items|)
  {
    map["partition" := Str(partition), "count" := Int(|items|), "items" := Arr(items)]
  }

  /** `response.get("fullPath", display)`: the device's own full path when the
      response carries one (whatever its value), the locally computed one otherwise. */
  function ReportedPath(response: Record, display: string): (v: Value)
    ensures "fullPath" in response ==> v == response["fullPath"]
    ensures "fullPath" !in response ==> v == Str(display)
  {
    GetOr(response, "fullPath", Str(display))
  }

  /** `{"status": status, field: response.get("fullPath", display),
      "generation": response.get("generation")}`. */
  function Change(status: string, field: string, response: Record, display: string): (r: Record)
    requires field != "status" && field != "generation"
    ensures r.Keys == {"status", field, "generation"}
    ensures r["status"] == Str(status)
    ensures "fullPath" in response ==> r[field] == response["fullPath"]
    ensures "fullPath" !in response ==> r[field] == Str(display)
    ensures "generation" in response ==> r["generation"] == response["generation"]
    ensures "generation" !in response ==> r["generation"] == Null
  {
    map["status" := Str(status), field := ReportedPath(response, display),
        "generation" := GetOrNull(response, "generation")]
  }
}
