/** The in-memory BIG-IP stand-in of tests/support/fake_bigip.py: four tables
    of records keyed by full path, a generation counter, and the table update
    done by each HTTP verb on each REST collection. A request is reduced to its
    verb, its path (without the query string) and its decoded JSON object body. */
module FakeBigIp {
  import opened Wrappers
  import opened Json
  import opened Strings
  import opened Tables
  import Names

  // ----------------------------------------------------------------- routing

  datatype Verb = GET | POST | PATCH | DELETE

  /** The four REST collections the device keeps. */
  datatype Kind = Rule | Pool | Virtual | DataGroup

  function CollectionPath(kind: Kind): string {
    match kind
    case Rule => "/mgmt/tm/ltm/rule"
    case Pool => "/mgmt/tm/ltm/pool"
    case Virtual => "/mgmt/tm/ltm/virtual"
    case DataGroup => "/mgmt/tm/ltm/data-group/internal"
  }

  /** What a path names: a whole collection, one item of it (by the last path
      component), the command endpoint, or nothing the device knows. */
  datatype Target = Collection(kind: Kind) | Item(kind: Kind, component: string) | Command | Unknown

  /** `path.rsplit("/", 1)[-1]`: the text after the last `/`. */
  function LastSegment(path: string): (r: string)
    ensures '/' !in r
    ensures |r| <= |path| && r == path[|path| - |r|..]
    ensures |r| < |path| ==> path[|path| - |r| - 1] == '/'
  {
    if path == [] || path[|path| - 1] == '/' then []
    else LastSegment(path[..|path| - 1]) + [path[|path| - 1]]
  }

  /** The prefix tests of the four verb handlers. The collection paths, the
      item prefixes and the command paths are all distinct and no item prefix
      starts another, so one classification serves every verb. */
  function Classify(path: string): Target {
    if path == CollectionPath(Rule) then Collection(Rule)
    else if path == CollectionPath(Pool) then Collection(Pool)
    else if path == CollectionPath(Virtual) then Collection(Virtual)
    else if path == CollectionPath(DataGroup) then Collection(DataGroup)
    else if StartsWith(path, CollectionPath(Rule) + "/") then Item(Rule, LastSegment(path))
    else if StartsWith(path, CollectionPath(Pool) + "/") then Item(Pool, LastSegment(path))
    else if StartsWith(path, CollectionPath(Virtual) + "/") then Item(Virtual, LastSegment(path))
    else if StartsWith(path, CollectionPath(DataGroup) + "/") then Item(DataGroup, LastSegment(path))
    else if path == "/tm/util/bash" || path == "/mgmt/tm/util/bash" then Command
    else Unknown
  }

  /** The branch of `do_GET`, `do_POST`, `do_PATCH` or `do_DELETE` a request takes. */
  datatype Branch =
    | ListAll(kind: Kind)
    | Fetch(kind: Kind, component: string)
    | Create(kind: Kind)
    | RunCommand
    | Patch(kind: Kind, component: string)
    | Remove(kind: Kind, component: string)
    | NoRoute

  function Route(verb: Verb, path: string): Branch {
    match (verb, Classify(path))
    case (GET, Collection(k)) => ListAll(k)
    case (GET, Item(k, c)) => if k == Virtual || k == DataGroup then Fetch(k, c) else NoRoute
    case (POST, Collection(k)) => if k != Virtual then Create(k) else NoRoute
    case (POST, Command) => RunCommand
    case (PATCH, Item(k, c)) => Patch(k, c)
    case (DELETE, Item(k, c)) => if k == Rule || k == DataGroup then Remove(k, c) else NoRoute
    case _ => NoRoute
  }

  /** A path that starts with `p` is neither `q` nor starts with `q` when `p`
      and `q` differ at a position both have. */
  lemma PrefixesDiffer(path: string, p: string, q: string, i: nat)
    requires StartsWith(path, p) && i < |p| && i < |q| && p[i] != q[i]
    ensures path != q && !StartsWith(path, q)
  {
    assert path[i] == p[i];
  }

  /** An item path a client builds from a component without `/` is routed to
      that item of that collection. */
  lemma ClassifyItemPath(kind: Kind, component: string)
    requires '/' !in component
    ensures Classify(CollectionPath(kind) + "/" + component) == Item(kind, component)
  {
    match kind
    case Rule => ItemPathFacts(Rule, component);
    case Pool => ClassifyPoolItem(component);
    case Virtual => ClassifyVirtualItem(component);
    case DataGroup => ClassifyDataGroupItem(component);
  }

  /** An item path starts with its collection's prefix, is not the collection
      path itself, and its last segment is the component. */
  lemma ItemPathFacts(kind: Kind, component: string)
    requires '/' !in component
    ensures StartsWith(CollectionPath(kind) + "/" + component, CollectionPath(kind) + "/")
    ensures CollectionPath(kind) + "/" + component != CollectionPath(kind)
    ensures LastSegment(CollectionPath(kind) + "/" + component) == component
  {
    var prefix := CollectionPath(kind) + "/";
    var path := prefix + component;
    assert path[..|prefix|] == prefix;
    LastSegmentAfterSlash(CollectionPath(kind), component);
    assert |path| > |CollectionPath(kind)|;
  }

  lemma ClassifyPoolItem(component: string)
    requires '/' !in component
    ensures Classify(CollectionPath(Pool) + "/" + component) == Item(Pool, component)
  {
    ItemPathFacts(Pool, component);
    OtherPrefix(CollectionPath(Pool) + "/" + component, CollectionPath(Pool) + "/", Rule);
  }

  lemma ClassifyVirtualItem(component: string)
    requires '/' !in component
    ensures Classify(CollectionPath(Virtual) + "/" + component) == Item(Virtual, component)
  {
    var path := CollectionPath(Virtual) + "/" + component;
    ItemPathFacts(Virtual, component);
    OtherPrefix(path, CollectionPath(Virtual) + "/", Rule);
    OtherPrefix(path, CollectionPath(Virtual) + "/", Pool);
  }

  lemma ClassifyDataGroupItem(component: string)
    requires '/' !in component
    ensures Classify(CollectionPath(DataGroup) + "/" + component) == Item(DataGroup, component)
  {
    var path := CollectionPath(DataGroup) + "/" + component;
    ItemPathFacts(DataGroup, component);
    OtherPrefix(path, CollectionPath(DataGroup) + "/", Rule);
    OtherPrefix(path, CollectionPath(DataGroup) + "/", Pool);
    OtherPrefix(path, CollectionPath(DataGroup) + "/", Virtual);
  }

  /** The collection paths part after `/mgmt/tm/ltm/`, at position 13. */
  lemma OtherPrefix(path: string, prefix: string, other: Kind)
    requires StartsWith(path, prefix) && |prefix| > 13 && prefix[13] != CollectionPath(other)[13]
    ensures path != CollectionPath(other) && !StartsWith(path, CollectionPath(other) + "/")
  {
    PrefixesDiffer(path, prefix, CollectionPath(other), 13);
    PrefixesDiffer(path, prefix, CollectionPath(other) + "/", 13);
  }

  /** The last segment of `a/b` is `b` when `b` holds no `/`. */
  lemma {:induction false} LastSegmentAfterSlash(a: string, b: string)
    requires '/' !in b
    ensures LastSegment(a + "/" + b) == b
  {
    var s := a + "/" + b;
    if b != [] {
      assert s[..|s| - 1] == a + "/" + b[..|b| - 1];
      LastSegmentAfterSlash(a, b[..|b| - 1]);
      assert b[..|b| - 1] + [b[|b| - 1]] == b;
    } else {
      assert s[|s| - 1] == '/';
    }
  }

  /** The device has no route for these requests, so they answer 404. */
  lemma UnroutedRequests(component: string)
    ensures '/' !in component ==> Route(GET, CollectionPath(Rule) + "/" + component) == NoRoute
    ensures '/' !in component ==> Route(GET, CollectionPath(Pool) + "/" + component) == NoRoute
    ensures '/' !in component ==> Route(DELETE, CollectionPath(Pool) + "/" + component) == NoRoute
    ensures '/' !in component ==> Route(DELETE, CollectionPath(Virtual) + "/" + component) == NoRoute
    ensures Route(POST, CollectionPath(Virtual)) == NoRoute
    ensures forall k :: Route(PATCH, CollectionPath(k)) == NoRoute && Route(DELETE, CollectionPath(k)) == NoRoute
  {
    if '/' !in component {
      ClassifyItemPath(Rule, component);
      ClassifyItemPath(Pool, component);
      ClassifyItemPath(Virtual, component);
    }
  }

  /** The routes the device does have: a collection is listed by GET and,
      apart from the virtual servers, grown by POST; the command endpoint
      answers a POST under both of its paths. */
  lemma CollectionRoutes(kind: Kind)
    ensures Route(GET, CollectionPath(kind)) == ListAll(kind)
    ensures kind != Virtual ==> Route(POST, CollectionPath(kind)) == Create(kind)
    ensures Route(POST, "/tm/util/bash") == RunCommand && Route(POST, "/mgmt/tm/util/bash") == RunCommand
  {
    match kind {
      case Rule =>
      case Pool =>
        CollectionPathsDiffer(Pool, Rule);
      case Virtual =>
        CollectionPathsDiffer(Virtual, Rule);
        CollectionPathsDiffer(Virtual, Pool);
      case DataGroup =>
        CollectionPathsDiffer(DataGroup, Rule);
        CollectionPathsDiffer(DataGroup, Pool);
        CollectionPathsDiffer(DataGroup, Virtual);
    }
    CommandNotUnder(Rule);
    CommandNotUnder(Pool);
    CommandNotUnder(Virtual);
    CommandNotUnder(DataGroup);
  }

  /** The collection paths differ after `/mgmt/tm/ltm/`, at position 13. */
  lemma CollectionPathsDiffer(a: Kind, b: Kind)
    requires a != b
    ensures CollectionPath(a) != CollectionPath(b)
  {
    assert CollectionPath(a)[13] != CollectionPath(b)[13];
  }

  /** Neither command path is a collection path or below one. */
  lemma CommandNotUnder(kind: Kind)
    ensures NotUnder("/mgmt/tm/util/bash", kind) && NotUnder("/tm/util/bash", kind)
  {
    var p := CollectionPath(kind);
    PrefixesDiffer("/mgmt/tm/util/bash", "/mgmt/tm/util/bash", p, 9);
    PrefixesDiffer("/mgmt/tm/util/bash", "/mgmt/tm/util/bash", p + "/", 9);
    PrefixesDiffer("/tm/util/bash", "/tm/util/bash", p, 1);
    PrefixesDiffer("/tm/util/bash", "/tm/util/bash", p + "/", 1);
  }

  /** `path` is neither `kind`'s collection path nor below it. */
  predicate NotUnder(path: string, kind: Kind) {
    path != CollectionPath(kind) && !StartsWith(path, CollectionPath(kind) + "/")
  }

  /** `_decode_name`: a tilde-form component becomes a full path; any other
      component is the key itself. (`unquote` is taken as already done.) */
  function DecodeName(component: string): (r: string)
    ensures StartsWith(component, "~") ==> r == Names.TildeToSlash(component)
    ensures !StartsWith(component, "~") ==> r == component
  {
    if StartsWith(component, "~") then Names.TildeToSlash(component) else component
  }

  /** Decoding is idempotent: a decoded tilde name starts with `/`. */
  lemma DecodeIdempotent(component: string)
    ensures DecodeName(DecodeName(component)) == DecodeName(component)
  {
  }

  /** `~Partition~Name` in a URL decodes to the key `/Partition/Name`. */
  lemma DecodeTildePair(partition: string, name: string)
    requires partition != [] && '~' !in partition
    requires name != [] && '~' !in name
    ensures DecodeName("~" + partition + "~" + name) == "/" + partition + "/" + name
  {
    Names.TildePair(partition, name);
  }

  // ----------------------------------------------------------------- records

  /** `f"/{partition}/{name}"` with the create defaults: partition "Common",
      the collection's default name. */
  function PathOf(body: Record, defaultName: string): string {
    "/" + Text(GetOr(body, "partition", Str("Common"))) + "/" + Text(GetOr(body, "name", Str(defaultName)))
  }

  /** The name, partition and full path every created record starts with. */
  function Identity(body: Record, defaultName: string): Record {
    map[
      "name" := GetOr(body, "name", Str(defaultName)),
      "partition" := GetOr(body, "partition", Str("Common")),
      "fullPath" := Str(PathOf(body, defaultName))
    ]
  }

  function RuleRecord(body: Record, generation: int): Record {
    Identity(body, "rule")
      ["apiAnonymous" := GetOr(body, "apiAnonymous", Str(""))]
      ["generation" := Int(generation)]
  }

  function PoolRecord(body: Record, generation: int): Record {
    Identity(body, "pool")
      ["loadBalancingMode" := GetOr(body, "loadBalancingMode", Str("round-robin"))]
      ["monitor" := GetOr(body, "monitor", Str("default"))]
      ["description" := GetOr(body, "description", Str(""))]
      ["members" := GetOr(body, "members", Arr([]))]
      ["generation" := Int(generation)]
  }

  function DataGroupRecord(body: Record, generation: int): Record {
    Identity(body, "dg")
      ["type" := GetOr(body, "type", Str("string"))]
      ["description" := GetOr(body, "description", Str(""))]
      ["records" := GetOr(body, "records", Arr([]))]
      ["generation" := Int(generation)]
  }

  /** Where a created record keeps its full path and its generation. */
  lemma RuleRecordShape(body: Record, generation: int)
    ensures "fullPath" in RuleRecord(body, generation)
    ensures RuleRecord(body, generation)["fullPath"] == Str(PathOf(body, "rule"))
    ensures "generation" in RuleRecord(body, generation)
    ensures RuleRecord(body, generation)["generation"] == Int(generation)
  {
    var r := Identity(body, "rule");
    assert r["fullPath"] == Str(PathOf(body, "rule"));
  }

  lemma PoolRecordShape(body: Record, generation: int)
    ensures "fullPath" in PoolRecord(body, generation)
    ensures PoolRecord(body, generation)["fullPath"] == Str(PathOf(body, "pool"))
    ensures "generation" in PoolRecord(body, generation)
    ensures PoolRecord(body, generation)["generation"] == Int(generation)
  {
    var r := Identity(body, "pool");
    assert r["fullPath"] == Str(PathOf(body, "pool"));
  }

  lemma DataGroupRecordShape(body: Record, generation: int)
    ensures "fullPath" in DataGroupRecord(body, generation)
    ensures DataGroupRecord(body, generation)["fullPath"] == Str(PathOf(body, "dg"))
    ensures "generation" in DataGroupRecord(body, generation)
    ensures DataGroupRecord(body, generation)["generation"] == Int(generation)
  {
    var r := Identity(body, "dg");
    assert r["fullPath"] == Str(PathOf(body, "dg"));
  }

  /** A body naming a string partition and a string name is stored under
      `/partition/name`, and the record's `fullPath` is that key. */
  lemma CreatedKey(body: Record, partition: string, name: string, generation: int)
    requires "partition" in body && body["partition"] == Str(partition)
    requires "name" in body && body["name"] == Str(name)
    ensures PathOf(body, "rule") == "/" + partition + "/" + name
    ensures RuleRecord(body, generation)["fullPath"] == Str("/" + partition + "/" + name)
  {
    RuleRecordShape(body, generation);
  }

  /** The defaults: an empty create body stores `/Common/rule`, `/Common/pool`
      or `/Common/dg`. */
  lemma CreateDefaults()
    ensures PathOf(map[], "rule") == "/Common/rule"
    ensures PathOf(map[], "pool") == "/Common/pool"
    ensures PathOf(map[], "dg") == "/Common/dg"
  {
    assert GetOr(map[], "partition", Str("Common")) == Str("Common");
    assert "/" + "Common" + "/" + "rule" == "/Common/rule";
    assert "/" + "Common" + "/" + "pool" == "/Common/pool";
    assert "/" + "Common" + "/" + "dg" == "/Common/dg";
  }

  /** The rule PATCH: only `apiAnonymous` is copied, then a new generation. */
  function PatchedRule(record: Record, body: Record, generation: int): Record {
    (if "apiAnonymous" in body then record["apiAnonymous" := body["apiAnonymous"]] else record)
      ["generation" := Int(generation)]
  }

  /** The virtual PATCH: only `rules` is copied; the generation is left alone. */
  function PatchedVirtual(record: Record, body: Record): Record {
    if "rules" in body then record["rules" := body["rules"]] else record
  }

  /** `{key: value for key, value in body.items() if value is not None}`. */
  function NonNullEntries(body: Record): (r: Record)
    ensures forall k :: k in r <==> k in body && body[k] != Null
    ensures forall k :: k in r ==> r[k] == body[k]
  {
    map k | k in body && body[k] != Null :: body[k]
  }

  /** The pool PATCH: every non-null body entry is copied, then the generation
      is overwritten, whatever the body said. */
  function PatchedPool(record: Record, body: Record, generation: int): Record {
    (record + NonNullEntries(body))["generation" := Int(generation)]
  }

  /** The keys the data-group PATCH copies, in the order it copies them. */
  const DataGroupPatchKeys: seq<string> := ["type", "description", "records"]

  /** The record after copying, one at a time and in order, each of `keys`
      that the body has. */
  function CopiedKeys(record: Record, body: Record, keys: seq<string>): Record {
    if keys == [] then record
    else
      var earlier := CopiedKeys(record, body, keys[..|keys| - 1]);
      var k := keys[|keys| - 1];
      if k in body then earlier[k := body[k]] else earlier
  }

  /** Copying keys takes each listed key the body has from the body and keeps
      every other entry of the record. */
  lemma {:induction false} CopiedKeysEntries(record: Record, body: Record, keys: seq<string>, k: string)
    ensures k in keys && k in body ==> k in CopiedKeys(record, body, keys) && CopiedKeys(record, body, keys)[k] == body[k]
    ensures !(k in keys && k in body) ==>
              (k in CopiedKeys(record, body, keys) <==> k in record)
              && (k in record ==> CopiedKeys(record, body, keys)[k] == record[k])
  {
    if keys != [] {
      var init := keys[..|keys| - 1];
      CopiedKeysEntries(record, body, init, k);
      assert keys == init + [keys[|keys| - 1]];
    }
  }

  function PatchedDataGroup(record: Record, body: Record, generation: int): Record {
    CopiedKeys(record, body, DataGroupPatchKeys)["generation" := Int(generation)]
  }

  /** The data-group PATCH loop: `for field in ("type", "description",
      "records")`, copying each field the body has onto the record. */
  method CopyDataGroupKeys(record: Record, body: Record) returns (r: Record)
    ensures r == CopiedKeys(record, body, DataGroupPatchKeys)
  {
    r := record;
    for i := 0 to |DataGroupPatchKeys|
      invariant r == CopiedKeys(record, body, DataGroupPatchKeys[..i])
    {
      var field := DataGroupPatchKeys[i];
      assert DataGroupPatchKeys[..i + 1][..i] == DataGroupPatchKeys[..i];
      if field in body {
        r := r[field := body[field]];
      }
    }
    assert DataGroupPatchKeys[..|DataGroupPatchKeys|] == DataGroupPatchKeys;
  }

  /** Each PATCH copies its own keys and no others. */
  lemma PatchesCopyOnlyTheirKeys(record: Record, body: Record, generation: int, k: string)
    ensures k != "apiAnonymous" && k != "generation" ==>
              ((k in PatchedRule(record, body, generation) <==> k in record)
               && (k in record ==> PatchedRule(record, body, generation)[k] == record[k]))
    ensures "apiAnonymous" in body ==> PatchedRule(record, body, generation)["apiAnonymous"] == body["apiAnonymous"]
    ensures k != "rules" ==>
              ((k in PatchedVirtual(record, body) <==> k in record)
               && (k in record ==> PatchedVirtual(record, body)[k] == record[k]))
    ensures k !in DataGroupPatchKeys && k != "generation" ==>
              ((k in PatchedDataGroup(record, body, generation) <==> k in record)
               && (k in record ==> PatchedDataGroup(record, body, generation)[k] == record[k]))
    ensures k in DataGroupPatchKeys && k in body ==>
              k in PatchedDataGroup(record, body, generation) && PatchedDataGroup(record, body, generation)[k] == body[k]
    ensures PatchedRule(record, body, generation)["generation"] == Int(generation)
    ensures PatchedDataGroup(record, body, generation)["generation"] == Int(generation)
  {
    CopiedKeysEntries(record, body, DataGroupPatchKeys, k);
  }

  /** The pool PATCH takes exactly the non-null body entries, keeps the rest of
      the record, and stamps the new generation even over a body's own. */
  lemma PoolPatchEntries(record: Record, body: Record, generation: int, k: string)
    requires k != "generation"
    ensures k in body && body[k] != Null ==> PatchedPool(record, body, generation)[k] == body[k]
    ensures !(k in body && body[k] != Null) ==>
              ((k in PatchedPool(record, body, generation) <==> k in record)
               && (k in record ==> PatchedPool(record, body, generation)[k] == record[k]))
    ensures PatchedPool(record, body, generation)["generation"] == Int(generation)
  {
  }

  // ----------------------------------------------------------------- responses

  datatype Response =
    | JsonReply(status: int, payload: Value)  // `_send_json`
    | EmptyJson(status: int)                  // `_send_empty_json`: a JSON content type, no body
    | NotFound                                // `_not_found`: status 404, no body

  function AsObjects(records: seq<Record>): (r: seq<Value>)
    ensures |r| == |records|
    ensures forall i :: 0 <= i < |r| ==> r[i] == Obj(records[i])
  {
    seq(|records|, i requires 0 <= i < |records| => Obj(records[i]))
  }

  /** A collection GET: `{"items": [...]}` with every record, in insertion order. */
  function ListResponse(t: Table): Response {
    JsonReply(200, Obj(map["items" := Arr(AsObjects(Items(t)))]))
  }

  /** An item GET: the record when there is one under the decoded key, 404 otherwise. */
  function FetchResponse(t: Table, component: string): (r: Response)
    ensures Found(t, DecodeName(component)) ==> r == JsonReply(200, Obj(t.rows[DecodeName(component)]))
    ensures !Found(t, DecodeName(component)) ==> r == NotFound
  {
    var found := Lookup(t, DecodeName(component));
    if found.Some? && found.value != map[] then JsonReply(200, Obj(found.value)) else NotFound
  }

  /** The command endpoint answers with a fixed line. */
  const CommandResponse: Response := JsonReply(200, Obj(map["commandResult" := Str("stub log line")]))

  /** A data group created from a body with a string partition and name is
      fetched back through the tilde form of its name. */
  lemma CreatedIsFetchedByTildeName(t: Table, body: Record, partition: string, name: string, generation: int)
    requires partition != [] && '~' !in partition
    requires name != [] && '~' !in name
    requires "partition" in body && body["partition"] == Str(partition)
    requires "name" in body && body["name"] == Str(name)
    ensures FetchResponse(Put(t, PathOf(body, "dg"), DataGroupRecord(body, generation)), "~" + partition + "~" + name)
         == JsonReply(200, Obj(DataGroupRecord(body, generation)))
  {
    DecodeTildePair(partition, name);
    DataGroupRecordShape(body, generation);
    assert PathOf(body, "dg") == "/" + partition + "/" + name;
  }

  // ----------------------------------------------------------------- the store

  /** Every record sits under its own `fullPath`. */
  ghost predicate KeyedByFullPath(t: Table) {
    forall k {:trigger Has(t, k)} :: Has(t, k) ==> "fullPath" in t.rows[k] && t.rows[k]["fullPath"] == Str(k)
  }

  /** Every record carries a generation the counter has issued: at least 2, at
      most the counter's current value. */
  ghost predicate StampedUpTo(t: Table, generation: int) {
    forall k {:trigger Has(t, k)} :: Has(t, k) ==>
      "generation" in t.rows[k] && t.rows[k]["generation"].Int?
      && 2 <= t.rows[k]["generation"].i <= generation
  }

  /** Every generation in the table is below `generation`. */
  ghost predicate StampedBelow(t: Table, generation: int) {
    forall k {:trigger Has(t, k)} :: Has(t, k) && "generation" in t.rows[k] && t.rows[k]["generation"].Int? ==>
      t.rows[k]["generation"].i < generation
  }

  /** Storing a record under its own full path keeps a table keyed by full path. */
  lemma PutKeyed(t: Table, key: string, record: Record)
    requires KeyedByFullPath(t)
    requires "fullPath" in record && record["fullPath"] == Str(key)
    ensures KeyedByFullPath(Put(t, key, record))
  {
    forall k | Has(Put(t, key, record), k)
      ensures "fullPath" in Put(t, key, record).rows[k] && Put(t, key, record).rows[k]["fullPath"] == Str(k)
    {
      if k != key {
        assert Has(t, k);
      }
    }
  }

  /** Storing a record stamped with an issued generation keeps a table stamped. */
  lemma PutStamped(t: Table, key: string, record: Record, before: int, after: int)
    requires StampedUpTo(t, before) && before <= after
    requires "generation" in record && record["generation"].Int?
    requires 2 <= record["generation"].i <= after
    ensures StampedUpTo(Put(t, key, record), after)
  {
    var t' := Put(t, key, record);
    forall k | Has(t', k)
      ensures "generation" in t'.rows[k] && t'.rows[k]["generation"].Int? && 2 <= t'.rows[k]["generation"].i <= after
    {
      if k != key {
        assert Has(t, k);
      }
    }
  }

  /** Issuing more generations keeps every table stamped, and below the next one. */
  lemma StampedLater(t: Table, before: int, after: int)
    requires StampedUpTo(t, before) && before <= after
    ensures StampedUpTo(t, after)
    ensures StampedBelow(t, before + 1)
  {
    forall k | Has(t, k)
      ensures "generation" in t.rows[k] && t.rows[k]["generation"].Int? && 2 <= t.rows[k]["generation"].i <= after
    {
    }
    forall k | Has(t, k) && "generation" in t.rows[k] && t.rows[k]["generation"].Int?
      ensures t.rows[k]["generation"].i < before + 1
    {
    }
  }

  /** The store's invariant: four well-formed tables, every rule, data group
      and virtual server under its own full path, and every stamp one the
      counter has issued. */
  ghost predicate Consistent(rules: Table, pools: Table, dataGroups: Table, virtuals: Table, generation: int) {
    && WellFormed(rules) && WellFormed(pools) && WellFormed(dataGroups) && WellFormed(virtuals)
    && generation >= 1
    && KeyedByFullPath(rules) && KeyedByFullPath(dataGroups) && KeyedByFullPath(virtuals)
    && StampedUpTo(rules, generation) && StampedUpTo(pools, generation) && StampedUpTo(dataGroups, generation)
  }

  /** The next stamp exceeds every stamp in a consistent store. */
  lemma NextStampIsFresh(rules: Table, pools: Table, dataGroups: Table, virtuals: Table, generation: int)
    requires Consistent(rules, pools, dataGroups, virtuals, generation)
    ensures StampedBelow(rules, generation + 1) && StampedBelow(pools, generation + 1)
    ensures StampedBelow(dataGroups, generation + 1)
    ensures StampedUpTo(rules, generation + 1) && StampedUpTo(pools, generation + 1)
    ensures StampedUpTo(dataGroups, generation + 1)
  {
    StampedLater(rules, generation, generation + 1);
    StampedLater(pools, generation, generation + 1);
    StampedLater(dataGroups, generation, generation + 1);
  }

  /** A rule create keeps the store consistent. */
  lemma RuleCreated(rules: Table, pools: Table, dataGroups: Table, virtuals: Table, generation: int, body: Record)
    requires Consistent(rules, pools, dataGroups, virtuals, generation)
    ensures Consistent(Put(rules, PathOf(body, "rule"), RuleRecord(body, generation + 1)), pools, dataGroups,
                       virtuals, generation + 1)
  {
    var g := generation + 1;
    NextStampIsFresh(rules, pools, dataGroups, virtuals, generation);
    RuleRecordShape(body, g);
    PutWellFormed(rules, PathOf(body, "rule"), RuleRecord(body, g));
    PutStamped(rules, PathOf(body, "rule"), RuleRecord(body, g), g, g);
    PutKeyed(rules, PathOf(body, "rule"), RuleRecord(body, g));
  }

  /** A pool create keeps the store consistent. */
  lemma PoolCreated(rules: Table, pools: Table, dataGroups: Table, virtuals: Table, generation: int, body: Record)
    requires Consistent(rules, pools, dataGroups, virtuals, generation)
    ensures Consistent(rules, Put(pools, PathOf(body, "pool"), PoolRecord(body, generation + 1)), dataGroups,
                       virtuals, generation + 1)
  {
    var g := generation + 1;
    NextStampIsFresh(rules, pools, dataGroups, virtuals, generation);
    PoolRecordShape(body, g);
    PutWellFormed(pools, PathOf(body, "pool"), PoolRecord(body, g));
    PutStamped(pools, PathOf(body, "pool"), PoolRecord(body, g), g, g);
  }

  /** A data-group create keeps the store consistent. */
  lemma DataGroupCreated(rules: Table, pools: Table, dataGroups: Table, virtuals: Table, generation: int, body: Record)
    requires Consistent(rules, pools, dataGroups, virtuals, generation)
    ensures Consistent(rules, pools, Put(dataGroups, PathOf(body, "dg"), DataGroupRecord(body, generation + 1)),
                       virtuals, generation + 1)
  {
    var g := generation + 1;
    NextStampIsFresh(rules, pools, dataGroups, virtuals, generation);
    DataGroupRecordShape(body, g);
    PutWellFormed(dataGroups, PathOf(body, "dg"), DataGroupRecord(body, g));
    PutStamped(dataGroups, PathOf(body, "dg"), DataGroupRecord(body, g), g, g);
    PutKeyed(dataGroups, PathOf(body, "dg"), DataGroupRecord(body, g));
  }

  /** A rule PATCH keeps the store consistent. */
  lemma RulePatched(rules: Table, pools: Table, dataGroups: Table, virtuals: Table, generation: int,
                    key: string, body: Record)
    requires Consistent(rules, pools, dataGroups, virtuals, generation)
    requires key in rules.rows
    ensures Consistent(Put(rules, key, PatchedRule(rules.rows[key], body, generation + 1)), pools, dataGroups,
                       virtuals, generation + 1)
  {
    assert Has(rules, key);
    var g := generation + 1;
    var rule := PatchedRule(rules.rows[key], body, g);
    NextStampIsFresh(rules, pools, dataGroups, virtuals, generation);
    assert rule["fullPath"] == rules.rows[key]["fullPath"];
    PutWellFormed(rules, key, rule);
    PutStamped(rules, key, rule, g, g);
    PutKeyed(rules, key, rule);
  }

  /** A virtual-server PATCH keeps the store consistent. */
  lemma VirtualPatched(rules: Table, pools: Table, dataGroups: Table, virtuals: Table, generation: int,
                       key: string, body: Record)
    requires Consistent(rules, pools, dataGroups, virtuals, generation)
    requires key in virtuals.rows
    ensures Consistent(rules, pools, dataGroups, Put(virtuals, key, PatchedVirtual(virtuals.rows[key], body)),
                       generation)
  {
    assert Has(virtuals, key);
    var virtual := PatchedVirtual(virtuals.rows[key], body);
    assert virtual["fullPath"] == virtuals.rows[key]["fullPath"];
    PutWellFormed(virtuals, key, virtual);
    PutKeyed(virtuals, key, virtual);
  }

  /** A pool PATCH keeps the store consistent. */
  lemma PoolPatched(rules: Table, pools: Table, dataGroups: Table, virtuals: Table, generation: int,
                    key: string, body: Record)
    requires Consistent(rules, pools, dataGroups, virtuals, generation)
    requires key in pools.rows
    ensures Consistent(rules, Put(pools, key, PatchedPool(pools.rows[key], body, generation + 1)), dataGroups,
                       virtuals, generation + 1)
  {
    assert Has(pools, key);
    var g := generation + 1;
    var pool := PatchedPool(pools.rows[key], body, g);
    NextStampIsFresh(rules, pools, dataGroups, virtuals, generation);
    PutWellFormed(pools, key, pool);
    PutStamped(pools, key, pool, g, g);
  }

  /** A data-group PATCH keeps the store consistent. */
  lemma DataGroupPatched(rules: Table, pools: Table, dataGroups: Table, virtuals: Table, generation: int,
                         key: string, body: Record)
    requires Consistent(rules, pools, dataGroups, virtuals, generation)
    requires key in dataGroups.rows
    ensures Consistent(rules, pools, Put(dataGroups, key, PatchedDataGroup(dataGroups.rows[key], body, generation + 1)),
                       virtuals, generation + 1)
  {
    assert Has(dataGroups, key);
    var g := generation + 1;
    var dataGroup := PatchedDataGroup(dataGroups.rows[key], body, g);
    NextStampIsFresh(rules, pools, dataGroups, virtuals, generation);
    CopiedKeysEntries(dataGroups.rows[key], body, DataGroupPatchKeys, "fullPath");
    assert dataGroup["fullPath"] == dataGroups.rows[key]["fullPath"];
    PutWellFormed(dataGroups, key, dataGroup);
    PutStamped(dataGroups, key, dataGroup, g, g);
    PutKeyed(dataGroups, key, dataGroup);
  }

  /** A rule or data-group DELETE keeps the store consistent. */
  lemma Deleted(rules: Table, pools: Table, dataGroups: Table, virtuals: Table, generation: int, key: string)
    requires Consistent(rules, pools, dataGroups, virtuals, generation)
    ensures Consistent(Pop(rules, key), pools, dataGroups, virtuals, generation)
    ensures Consistent(rules, pools, Pop(dataGroups, key), virtuals, generation)
  {
    PopWellFormed(rules, key);
    PopWellFormed(dataGroups, key);
    PopKeeps(rules, key, generation);
    PopKeeps(dataGroups, key, generation);
  }

  /** Removing a key keeps what held of every remaining row. */
  lemma PopKeeps(t: Table, key: string, generation: int)
    ensures KeyedByFullPath(t) ==> KeyedByFullPath(Pop(t, key))
    ensures StampedUpTo(t, generation) ==> StampedUpTo(Pop(t, key), generation)
  {
    forall k | Has(Pop(t, key), k) ensures Has(t, k) && Pop(t, key).rows[k] == t.rows[k] {
    }
  }

  datatype Request = Request(verb: Verb, path: string, body: Record)

  /** The record of the fake's starting virtual server. */
  const TestVs: Record := map[
    "name" := Str("TestVs"),
    "partition" := Str("Common"),
    "fullPath" := Str("/Common/TestVs"),
    "destination" := Str("0.0.0.0:0"),
    "rules" := Arr([])
  ]

  /** `_State` together with the table updates its request handler performs. */
  class FakeDevice {
    var rules: Table
    var pools: Table
    var dataGroups: Table
    var virtuals: Table
    var generation: int

    ghost predicate Valid()
      reads this
    {
      Consistent(rules, pools, dataGroups, virtuals, generation)
    }

    function TableOf(kind: Kind): Table
      reads this
    {
      match kind
      case Rule => rules
      case Pool => pools
      case Virtual => virtuals
      case DataGroup => dataGroups
    }

    /** In a valid store no record is empty, so the handlers' `if record:` test
        is a plain membership test. */
    lemma FoundIsPresent(kind: Kind, key: string)
      requires Valid()
      ensures Found(TableOf(kind), key) <==> key in TableOf(kind).rows
    {
      assert Has(TableOf(kind), key) <==> key in TableOf(kind).rows;
    }

    constructor ()
      ensures Valid()
      ensures rules == Empty && pools == Empty && dataGroups == Empty
      ensures virtuals == Table(["/Common/TestVs"], map["/Common/TestVs" := TestVs])
      ensures generation == 1
    {
      rules, pools, dataGroups := Empty, Empty, Empty;
      virtuals := Table(["/Common/TestVs"], map["/Common/TestVs" := TestVs]);
      generation := 1;
    }

    /** `next_generation`: stores the counter plus one and returns it. */
    method NextGeneration() returns (g: int)
      modifies this`generation
      ensures generation == old(generation) + 1 && g == generation
    {
      generation := generation + 1;
      g := generation;
    }

    /** POST on the rule collection: an upsert under `/{partition}/{name}`. */
    method CreateRule(body: Record) returns (resp: Response)
      requires Valid()
      modifies this
      ensures Valid()
      ensures generation == old(generation) + 1
      ensures StampedBelow(old(rules), generation) && StampedBelow(old(pools), generation)
      ensures StampedBelow(old(dataGroups), generation)
      ensures rules == Put(old(rules), PathOf(body, "rule"), RuleRecord(body, generation))
      ensures resp == JsonReply(200, Obj(RuleRecord(body, generation)))
      ensures pools == old(pools) && dataGroups == old(dataGroups) && virtuals == old(virtuals)
    {
      NextStampIsFresh(rules, pools, dataGroups, virtuals, generation);
      RuleCreated(rules, pools, dataGroups, virtuals, generation, body);
      var fullPath := PathOf(body, "rule");
      var g := NextGeneration();
      var rule := RuleRecord(body, g);
      rules := Put(rules, fullPath, rule);
      resp := JsonReply(200, Obj(rule));
    }

    /** POST on the pool collection. */
    method CreatePool(body: Record) returns (resp: Response)
      requires Valid()
      modifies this
      ensures Valid()
      ensures generation == old(generation) + 1
      ensures StampedBelow(old(rules), generation) && StampedBelow(old(pools), generation)
      ensures StampedBelow(old(dataGroups), generation)
      ensures pools == Put(old(pools), PathOf(body, "pool"), PoolRecord(body, generation))
      ensures resp == JsonReply(200, Obj(PoolRecord(body, generation)))
      ensures rules == old(rules) && dataGroups == old(dataGroups) && virtuals == old(virtuals)
    {
      NextStampIsFresh(rules, pools, dataGroups, virtuals, generation);
      PoolCreated(rules, pools, dataGroups, virtuals, generation, body);
      var fullPath := PathOf(body, "pool");
      var g := NextGeneration();
      var pool := PoolRecord(body, g);
      pools := Put(pools, fullPath, pool);
      resp := JsonReply(200, Obj(pool));
    }

    /** POST on the internal data-group collection. */
    method CreateDataGroup(body: Record) returns (resp: Response)
      requires Valid()
      modifies this
      ensures Valid()
      ensures generation == old(generation) + 1
      ensures StampedBelow(old(rules), generation) && StampedBelow(old(pools), generation)
      ensures StampedBelow(old(dataGroups), generation)
      ensures dataGroups == Put(old(dataGroups), PathOf(body, "dg"), DataGroupRecord(body, generation))
      ensures resp == JsonReply(200, Obj(DataGroupRecord(body, generation)))
      ensures rules == old(rules) && pools == old(pools) && virtuals == old(virtuals)
    {
      NextStampIsFresh(rules, pools, dataGroups, virtuals, generation);
      DataGroupCreated(rules, pools, dataGroups, virtuals, generation, body);
      var fullPath := PathOf(body, "dg");
      var g := NextGeneration();
      var dataGroup := DataGroupRecord(body, g);
      dataGroups := Put(dataGroups, fullPath, dataGroup);
      resp := JsonReply(200, Obj(dataGroup));
    }

    /** PATCH on a rule: 404 without any change when the key is missing. */
    method PatchRule(component: string, body: Record) returns (resp: Response)
      requires Valid()
      modifies this
      ensures Valid()
      ensures var key := DecodeName(component);
        if Found(old(rules), key) then
          && generation == old(generation) + 1
          && rules == Put(old(rules), key, PatchedRule(old(rules).rows[key], body, generation))
          && resp == JsonReply(200, Obj(rules.rows[key]))
        else
          generation == old(generation) && rules == old(rules) && resp == NotFound
      ensures pools == old(pools) && dataGroups == old(dataGroups) && virtuals == old(virtuals)
    {
      var key := DecodeName(component);
      var found := Lookup(rules, key);
      if found.None? || |found.value| == 0 {
        return NotFound;
      }
      RulePatched(rules, pools, dataGroups, virtuals, generation, key, body);
      var rule := found.value;
      if "apiAnonymous" in body {
        rule := rule["apiAnonymous" := body["apiAnonymous"]];
      }
      var g := NextGeneration();
      rule := rule["generation" := Int(g)];
      rules := Put(rules, key, rule);
      resp := JsonReply(200, Obj(rule));
    }

    /** PATCH on a virtual server: copies `rules` only and takes no generation. */
    method PatchVirtual(component: string, body: Record) returns (resp: Response)
      requires Valid()
      modifies this
      ensures Valid()
      ensures generation == old(generation)
      ensures var key := DecodeName(component);
        if Found(old(virtuals), key) then
          && virtuals == Put(old(virtuals), key, PatchedVirtual(old(virtuals).rows[key], body))
          && resp == JsonReply(200, Obj(virtuals.rows[key]))
        else
          virtuals == old(virtuals) && resp == NotFound
      ensures rules == old(rules) && pools == old(pools) && dataGroups == old(dataGroups)
    {
      var key := DecodeName(component);
      var found := Lookup(virtuals, key);
      if found.None? || |found.value| == 0 {
        return NotFound;
      }
      VirtualPatched(rules, pools, dataGroups, virtuals, generation, key, body);
      var virtual := found.value;
      if "rules" in body {
        virtual := virtual["rules" := body["rules"]];
      }
      virtuals := Put(virtuals, key, virtual);
      resp := JsonReply(200, Obj(virtual));
    }

    /** PATCH on a pool: merges the non-null body entries, then a new generation. */
    method PatchPool(component: string, body: Record) returns (resp: Response)
      requires Valid()
      modifies this
      ensures Valid()
      ensures var key := DecodeName(component);
        if Found(old(pools), key) then
          && generation == old(generation) + 1
          && pools == Put(old(pools), key, PatchedPool(old(pools).rows[key], body, generation))
          && resp == JsonReply(200, Obj(pools.rows[key]))
        else
          generation == old(generation) && pools == old(pools) && resp == NotFound
      ensures rules == old(rules) && dataGroups == old(dataGroups) && virtuals == old(virtuals)
    {
      var key := DecodeName(component);
      var found := Lookup(pools, key);
      if found.None? || |found.value| == 0 {
        return NotFound;
      }
      resp := MergePool(key, body);
    }

    /** The merge itself, on a pool that is there. */
    method MergePool(key: string, body: Record) returns (resp: Response)
      requires Valid() && key in pools.rows
      modifies this
      ensures Valid()
      ensures generation == old(generation) + 1
      ensures pools == Put(old(pools), key, PatchedPool(old(pools).rows[key], body, generation))
      ensures resp == JsonReply(200, Obj(pools.rows[key]))
      ensures rules == old(rules) && dataGroups == old(dataGroups) && virtuals == old(virtuals)
    {
      PoolPatched(rules, pools, dataGroups, virtuals, generation, key, body);
      var pool := pools.rows[key] + NonNullEntries(body);
      var g := NextGeneration();
      pool := pool["generation" := Int(g)];
      pools := Put(pools, key, pool);
      resp := JsonReply(200, Obj(pool));
    }

    /** PATCH on a data group: copies `type`, `description` and `records` one
        key at a time, then a new generation. */
    method PatchDataGroup(component: string, body: Record) returns (resp: Response)
      requires Valid()
      modifies this
      ensures Valid()
      ensures var key := DecodeName(component);
        if Found(old(dataGroups), key) then
          && generation == old(generation) + 1
          && dataGroups == Put(old(dataGroups), key, PatchedDataGroup(old(dataGroups).rows[key], body, generation))
          && resp == JsonReply(200, Obj(dataGroups.rows[key]))
        else
          generation == old(generation) && dataGroups == old(dataGroups) && resp == NotFound
      ensures rules == old(rules) && pools == old(pools) && virtuals == old(virtuals)
    {
      var key := DecodeName(component);
      var found := Lookup(dataGroups, key);
      if found.None? || |found.value| == 0 {
        return NotFound;
      }
      DataGroupPatched(rules, pools, dataGroups, virtuals, generation, key, body);
      var dataGroup := CopyDataGroupKeys(found.value, body);
      var g := NextGeneration();
      dataGroup := dataGroup["generation" := Int(g)];
      dataGroups := Put(dataGroups, key, dataGroup);
      resp := JsonReply(200, Obj(dataGroup));
    }

    /** DELETE on a rule: removes the key if present; succeeds either way. */
    method DeleteRule(component: string) returns (resp: Response)
      requires Valid()
      modifies this
      ensures Valid()
      ensures rules == Pop(old(rules), DecodeName(component))
      ensures DecodeName(component) !in rules.rows
      ensures resp == EmptyJson(200)
      ensures generation == old(generation)
      ensures pools == old(pools) && dataGroups == old(dataGroups) && virtuals == old(virtuals)
    {
      var key := DecodeName(component);
      Deleted(rules, pools, dataGroups, virtuals, generation, key);
      PopWellFormed(rules, key);
      rules := Pop(rules, key);
      resp := EmptyJson(200);
    }

    /** DELETE on a data group: removes the key if present; succeeds either way. */
    method DeleteDataGroup(component: string) returns (resp: Response)
      requires Valid()
      modifies this
      ensures Valid()
      ensures dataGroups == Pop(old(dataGroups), DecodeName(component))
      ensures DecodeName(component) !in dataGroups.rows
      ensures resp == EmptyJson(200)
      ensures generation == old(generation)
      ensures rules == old(rules) && pools == old(pools) && virtuals == old(virtuals)
    {
      var key := DecodeName(component);
      Deleted(rules, pools, dataGroups, virtuals, generation, key);
      PopWellFormed(dataGroups, key);
      dataGroups := Pop(dataGroups, key);
      resp := EmptyJson(200);
    }

    /** The requests the device answers with 404: no route, or an item GET or
        PATCH whose decoded key is not in its table. */
    ghost predicate Misses(req: Request)
      reads this
    {
      match Route(req.verb, req.path)
      case NoRoute => true
      case Fetch(k, c) => !Found(TableOf(k), DecodeName(c))
      case Patch(k, c) => !Found(TableOf(k), DecodeName(c))
      case _ => false
    }

    /** How many generations a request takes from the counter. */
    ghost function Stamps(req: Request): nat
      reads this
    {
      match Route(req.verb, req.path)
      case Create(_) => 1
      case Patch(k, c) => if k != Virtual && Found(TableOf(k), DecodeName(c)) then 1 else 0
      case _ => 0
    }

    /** The tables are `rules0`, `pools0`, `dataGroups0` and `virtuals0`, apart
        from `kind`'s table, which `changed` says nothing about. */
    ghost predicate OthersKept(kind: Option<Kind>, rules0: Table, pools0: Table, dataGroups0: Table, virtuals0: Table)
      reads this
    {
      && (kind != Some(Rule) ==> rules == rules0)
      && (kind != Some(Pool) ==> pools == pools0)
      && (kind != Some(DataGroup) ==> dataGroups == dataGroups0)
      && (kind != Some(Virtual) ==> virtuals == virtuals0)
    }

    /** What taking `branch` with request body `body` does, from the tables
        `rules0`, `pools0`, `dataGroups0`, `virtuals0` to the current tables,
        and the answer `resp` it gives. A stamp taken is the current counter. */
    ghost predicate Answers(branch: Branch, body: Record, rules0: Table, pools0: Table, dataGroups0: Table,
                            virtuals0: Table, resp: Response)
      reads this
    {
      match branch
      case ListAll(k) =>
        OthersKept(None, rules0, pools0, dataGroups0, virtuals0) && resp == ListResponse(TableOf(k))
      case Fetch(k, c) =>
        OthersKept(None, rules0, pools0, dataGroups0, virtuals0) && resp == FetchResponse(TableOf(k), c)
      case Create(k) =>
        OthersKept(Some(k), rules0, pools0, dataGroups0, virtuals0)
        && match k {
             case Rule =>
               rules == Put(rules0, PathOf(body, "rule"), RuleRecord(body, generation))
               && resp == JsonReply(200, Obj(RuleRecord(body, generation)))
             case Pool =>
               pools == Put(pools0, PathOf(body, "pool"), PoolRecord(body, generation))
               && resp == JsonReply(200, Obj(PoolRecord(body, generation)))
             case DataGroup =>
               dataGroups == Put(dataGroups0, PathOf(body, "dg"), DataGroupRecord(body, generation))
               && resp == JsonReply(200, Obj(DataGroupRecord(body, generation)))
             case Virtual => false
           }
      case RunCommand =>
        OthersKept(None, rules0, pools0, dataGroups0, virtuals0) && resp == CommandResponse
      case Patch(k, c) =>
        var key := DecodeName(c);
        OthersKept(Some(k), rules0, pools0, dataGroups0, virtuals0)
        && match k {
             case Rule =>
               if Found(rules0, key) then
                 rules == Put(rules0, key, PatchedRule(rules0.rows[key], body, generation))
                 && resp == JsonReply(200, Obj(rules.rows[key]))
               else rules == rules0 && resp == NotFound
             case Pool =>
               if Found(pools0, key) then
                 pools == Put(pools0, key, PatchedPool(pools0.rows[key], body, generation))
                 && resp == JsonReply(200, Obj(pools.rows[key]))
               else pools == pools0 && resp == NotFound
             case DataGroup =>
               if Found(dataGroups0, key) then
                 dataGroups == Put(dataGroups0, key, PatchedDataGroup(dataGroups0.rows[key], body, generation))
                 && resp == JsonReply(200, Obj(dataGroups.rows[key]))
               else dataGroups == dataGroups0 && resp == NotFound
             case Virtual =>
               if Found(virtuals0, key) then
                 virtuals == Put(virtuals0, key, PatchedVirtual(virtuals0.rows[key], body))
                 && resp == JsonReply(200, Obj(virtuals.rows[key]))
               else virtuals == virtuals0 && resp == NotFound
           }
      case Remove(k, c) =>
        OthersKept(Some(k), rules0, pools0, dataGroups0, virtuals0) && resp == EmptyJson(200)
        && match k {
             case Rule => rules == Pop(rules0, DecodeName(c))
             case DataGroup => dataGroups == Pop(dataGroups0, DecodeName(c))
             case _ => false
           }
      case NoRoute =>
        OthersKept(None, rules0, pools0, dataGroups0, virtuals0) && resp == NotFound
    }

    /** `do_GET`: lists a collection or fetches a virtual server or data
        group; it changes nothing. */
    method DoGet(path: string) returns (resp: Response)
      requires Valid()
      ensures resp.NotFound? <==> Misses(Request(GET, path, map[]))
      ensures Answers(Route(GET, path), map[], rules, pools, dataGroups, virtuals, resp)
      ensures Stamps(Request(GET, path, map[])) == 0
    {
      match Route(GET, path)
      case ListAll(k) =>
        resp := ListResponse(TableOf(k));
      case Fetch(k, c) =>
        resp := FetchResponse(TableOf(k), c);
      case _ =>
        resp := NotFound;
    }

    /** `do_POST`: creates a rule, pool or data group, or runs the command stub. */
    method DoPost(path: string, body: Record) returns (resp: Response)
      requires Valid()
      modifies this
      ensures Valid()
      ensures resp.NotFound? <==> old(Misses(Request(POST, path, body)))
      ensures Answers(Route(POST, path), body, old(rules), old(pools), old(dataGroups), old(virtuals), resp)
      ensures generation == old(generation) + old(Stamps(Request(POST, path, body)))
    {
      match Route(POST, path)
      case Create(k) =>
        if k == Rule {
          resp := CreateRule(body);
        } else if k == Pool {
          resp := CreatePool(body);
        } else {
          resp := CreateDataGroup(body);
        }
      case RunCommand =>
        resp := CommandResponse;
      case _ =>
        resp := NotFound;
    }

    /** `do_PATCH`: updates an item of any of the four tables. */
    method DoPatch(path: string, body: Record) returns (resp: Response)
      requires Valid()
      modifies this
      ensures Valid()
      ensures resp.NotFound? <==> old(Misses(Request(PATCH, path, body)))
      ensures Answers(Route(PATCH, path), body, old(rules), old(pools), old(dataGroups), old(virtuals), resp)
      ensures generation == old(generation) + old(Stamps(Request(PATCH, path, body)))
    {
      match Route(PATCH, path)
      case Patch(k, c) =>
        match k {
          case Rule => resp := PatchRule(c, body);
          case Virtual => resp := PatchVirtual(c, body);
          case Pool => resp := PatchPool(c, body);
          case DataGroup => resp := PatchDataGroup(c, body);
        }
      case _ =>
        resp := NotFound;
    }

    /** `do_DELETE`: removes a rule or data group. */
    method DoDelete(path: string) returns (resp: Response)
      requires Valid()
      modifies this
      ensures Valid()
      ensures resp.NotFound? <==> old(Misses(Request(DELETE, path, map[])))
      ensures Answers(Route(DELETE, path), map[], old(rules), old(pools), old(dataGroups), old(virtuals), resp)
      ensures generation == old(generation) + old(Stamps(Request(DELETE, path, map[])))
      ensures pools == old(pools) && virtuals == old(virtuals)
    {
      match Route(DELETE, path)
      case Remove(k, c) =>
        if k == Rule {
          resp := DeleteRule(c);
        } else {
          resp := DeleteDataGroup(c);
        }
      case _ =>
        resp := NotFound;
    }

    /** One request, dispatched on its verb to the handler of that verb. */
    method Handle(req: Request) returns (resp: Response)
      requires Valid()
      modifies this
      ensures Valid()
      ensures resp.NotFound? <==> old(Misses(req))
      ensures Answers(Route(req.verb, req.path), req.body, old(rules), old(pools), old(dataGroups), old(virtuals), resp)
      ensures resp.NotFound? ==>
                rules == old(rules) && pools == old(pools) && dataGroups == old(dataGroups)
                && virtuals == old(virtuals) && generation == old(generation)
      ensures req.verb == GET ==>
                rules == old(rules) && pools == old(pools) && dataGroups == old(dataGroups)
                && virtuals == old(virtuals) && generation == old(generation)
      ensures req.verb == DELETE ==>
                pools == old(pools) && virtuals == old(virtuals) && generation == old(generation)
      ensures generation == old(generation) + old(Stamps(req))
    {
      match req.verb
      case GET => resp := DoGet(req.path);
      case POST => resp := DoPost(req.path, req.body);
      case PATCH => resp := DoPatch(req.path, req.body);
      case DELETE => resp := DoDelete(req.path);
    }
  }
}
