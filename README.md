# bigip-mcp in Dafny

A model of the checkable core of `bigip-mcp`, an MCP server that exposes F5
BIG-IP configuration (iRules, pools, virtual servers, internal data groups)
as tools. The HTTP client is a stub in the repository. The logic that can be
checked lives in five places, and each is a Dafny module here:

- **The fake BIG-IP used by the tests** (`FakeBigIp`, over `Tables` and `Json`).
  - It holds four tables of records, keyed by full path `/Partition/Name`, plus a generation counter.
  - It has one method per state-changing branch (create, patch, delete). The read-only branches and the 404 answer are computed inline by the dispatcher of each verb (`DoGet`, `DoPost`, `DoPatch`, `DoDelete`).
  - It is a class. Its fields are the tables and the counter. `Valid()` is the invariant the methods keep:
    - the tables are well formed;
    - rule, data-group and virtual-server records sit under their own `fullPath`. Pool records need not: a pool PATCH whose body carries a non-null `fullPath` copies it onto the record, away from its key;
    - every stamp is one the counter has issued.
  - A Python `dict` is a `Tables.Table`: a map plus the order in which keys were first inserted, which is the order its listings use.
- **Names** (`Names`).
  - The tilde form of a name is decoded to its full path. The fake's `_decode_name` and both tool modules share this code.
  - `_display_pool` and `_display_path` are one function, `DisplayName`, with the configured partition as a parameter.
- **Pool and data-group tool results** (`Pools`, `DataGroups`, `ToolResults`):
  - `_parse_fields`;
  - the dictionaries the list, create, modify and update tools return;
  - the dictionary the delete tool returns.
- **Settings validation** (`Config`): `Settings` and `Settings.from_env`, over an environment given as a `map<string, string>`.
- **The validation harness's pure parts** (`Harness`):
  - the `KEY=VALUE` override parser (a loop, proved against a reference definition of its result);
  - the environment merge;
  - the `None`-argument filter of `_call`.

Python's `str` operations the code relies on (`split`, `join`, `strip`,
`rstrip`, `startswith`, `str(int)`, `in` on strings) are in `Strings`.
`Wrappers` holds `Option`, `Result` and `dict.get` with a default.

`config.py` requires `BIGIP_TOKEN` and has no username/password alternative
(src/bigip_mcp_server/config.py:20-26), so `Config.FromEnv` requires it too.

## Model

| member | source | states |
|---|---|---|
| FakeBigIp.FakeDevice.constructor | tests/support/fake_bigip.py:13-26 | Rule, pool and data-group tables start empty. The virtual table holds only `/Common/TestVs`. The counter is 1 and the invariant holds. |
| FakeBigIp.FakeDevice.NextGeneration | tests/support/fake_bigip.py:28-30 | Stores the counter plus one and returns the new value. |
| FakeBigIp.FakeDevice.TableOf | tests/support/fake_bigip.py:14-17 | Definition: the dictionary a kind of record lives in (`rules`, `pools`, `data_groups`, `virtuals`). See `FakeDevice.Valid` and `FoundIsPresent`. |
| FakeBigIp.NextStampIsFresh | tests/support/fake_bigip.py:28-30 | In a valid store, the next counter value is above every stamp already in a table. |
| FakeBigIp.DecodeName | tests/support/fake_bigip.py:67-73 | A `~`-prefixed component becomes the tilde-to-slash form. Any other component is returned unchanged. |
| FakeBigIp.DecodeIdempotent | tests/support/fake_bigip.py:67-73 | Decoding a decoded name changes nothing. |
| FakeBigIp.DecodeTildePair | tests/support/fake_bigip.py:70-72 | `~P~N` decodes to `/P/N` for `~`-free, non-empty P and N. |
| FakeBigIp.LastSegment | tests/support/fake_bigip.py:99 | `rsplit("/", 1)[-1]` is a `/`-free suffix, preceded by `/` when shorter than the path. |
| FakeBigIp.Classify | tests/support/fake_bigip.py:81-116 | Definition: which collection or item of a collection a path names, by exact collection path or by `startswith` the collection path plus `/`. See `ClassifyItemPath`. |
| FakeBigIp.Route | tests/support/fake_bigip.py:79-248 | Definition: the branch the handler of a verb takes for a path, with `NoRoute` for the final `_not_found()`. See `UnroutedRequests` and `CollectionRoutes`. |
| FakeBigIp.ClassifyItemPath | tests/support/fake_bigip.py:181-182 | A collection path plus `/` plus a `/`-free component routes to that item of that collection. |
| FakeBigIp.UnroutedRequests | tests/support/fake_bigip.py:79-248 | GET on a rule or pool item, DELETE on a pool or virtual item, POST on the virtual collection, and PATCH or DELETE on any of the four collections have no route. |
| FakeBigIp.CollectionRoutes | tests/support/fake_bigip.py:79-175 | GET on a collection lists it. POST on the rule, pool or data-group collection creates. POST on either command path runs the command stub. |
| FakeBigIp.PathOf | tests/support/fake_bigip.py:122-124 | Definition: `/{partition}/{name}` with the defaults `Common` and the kind's name. See `CreatedKey` and `CreateDefaults`. |
| FakeBigIp.RuleRecord | tests/support/fake_bigip.py:125-131 | Definition: the rule a POST stores. See `RuleRecordShape`. |
| FakeBigIp.PoolRecord | tests/support/fake_bigip.py:141-150 | Definition: the pool a POST stores, with its defaults. See `PoolRecordShape`. |
| FakeBigIp.DataGroupRecord | tests/support/fake_bigip.py:160-168 | Definition: the data group a POST stores, with its defaults. See `DataGroupRecordShape`. |
| FakeBigIp.RuleRecordShape | tests/support/fake_bigip.py:125-131 | A created rule holds `fullPath` equal to its storage key and `generation` equal to the stamp. |
| FakeBigIp.PoolRecordShape | tests/support/fake_bigip.py:141-150 | A created pool holds `fullPath` equal to its storage key and `generation` equal to the stamp. |
| FakeBigIp.DataGroupRecordShape | tests/support/fake_bigip.py:160-168 | A created data group holds `fullPath` equal to its storage key and `generation` equal to the stamp. |
| FakeBigIp.CreatedKey | tests/support/fake_bigip.py:122-128 | A body with string partition P and name N is stored under `/P/N`, and that is its `fullPath`. |
| FakeBigIp.CreateDefaults | tests/support/fake_bigip.py:122-124 | An empty create body is stored under `/Common/rule`, `/Common/pool` or `/Common/dg`. |
| FakeBigIp.CopiedKeys | tests/support/fake_bigip.py:225-227 | Definition: the record after the copy loop over a list of keys. See `CopiedKeysEntries` and `CopyDataGroupKeys`. |
| FakeBigIp.PatchedRule | tests/support/fake_bigip.py:188-190 | Definition: the rule after a PATCH. See `PatchesCopyOnlyTheirKeys` and `RulePatched`. |
| FakeBigIp.PatchedVirtual | tests/support/fake_bigip.py:201-202 | Definition: the virtual server after a PATCH. See `PatchesCopyOnlyTheirKeys` and `VirtualPatched`. |
| FakeBigIp.PatchedPool | tests/support/fake_bigip.py:213-214 | Definition: the pool after a PATCH. See `PoolPatchEntries` and `PoolPatched`. |
| FakeBigIp.PatchedDataGroup | tests/support/fake_bigip.py:225-228 | Definition: the data group after a PATCH. See `PatchesCopyOnlyTheirKeys` and `DataGroupPatched`. |
| FakeBigIp.CopiedKeysEntries | tests/support/fake_bigip.py:225-227 | Copying keys one at a time takes each listed key the body has from the body. Every other entry stays as it was. |
| FakeBigIp.CopyDataGroupKeys | tests/support/fake_bigip.py:225-227 | The copy loop over `type`, `description`, `records` yields the record specified by `CopiedKeys`, with each copied key taken from the body. |
| FakeBigIp.PatchesCopyOnlyTheirKeys | tests/support/fake_bigip.py:188-228 | Each PATCH copies only its own keys, and every other key keep its old value: `apiAnonymous` for rules, `rules` for virtual servers, the three data-group keys. Rule and data-group PATCHes stamp the new generation. |
| FakeBigIp.PoolPatchEntries | tests/support/fake_bigip.py:213-214 | Pool PATCH takes exactly the non-null body entries and keeps the rest. `generation` is the new stamp even when the body gives one. |
| FakeBigIp.NonNullEntries | tests/support/fake_bigip.py:213 | The comprehension keeps exactly the body entries whose value is not `None`. |
| FakeBigIp.ListResponse | tests/support/fake_bigip.py:81-96 | Definition: `{"items": list(table.values())}` with status 200. See `AsObjects`, `Tables.PutItems` and `FakeDevice.DoGet`. |
| FakeBigIp.FetchResponse | tests/support/fake_bigip.py:98-114 | An item GET answers the record stored under the decoded key when there is one, 404 otherwise. |
| FakeBigIp.CreatedIsFetchedByTildeName | tests/support/fake_bigip.py:107-114 | A data group created as partition P, name N is fetched back through `~P~N`. |
| FakeBigIp.AsObjects | tests/support/fake_bigip.py:94-95 | Listing wraps each record as a JSON object, one for one and in order. |
| FakeBigIp.RuleCreated | tests/support/fake_bigip.py:132 | A rule create keeps the store invariant. |
| FakeBigIp.PoolCreated | tests/support/fake_bigip.py:151 | A pool create keeps the store invariant. |
| FakeBigIp.DataGroupCreated | tests/support/fake_bigip.py:169 | A data-group create keeps the store invariant. |
| FakeBigIp.RulePatched | tests/support/fake_bigip.py:188-190 | A rule PATCH keeps the store invariant, including `fullPath` equal to the key. |
| FakeBigIp.VirtualPatched | tests/support/fake_bigip.py:201-202 | A virtual-server PATCH keeps the store invariant without a new generation. |
| FakeBigIp.PoolPatched | tests/support/fake_bigip.py:213-214 | A pool PATCH keeps the store invariant. |
| FakeBigIp.DataGroupPatched | tests/support/fake_bigip.py:225-228 | A data-group PATCH keeps the store invariant. |
| FakeBigIp.Deleted | tests/support/fake_bigip.py:238-244 | Removing a rule or a data group keeps the store invariant. |
| FakeBigIp.PopKeeps | tests/support/fake_bigip.py:238-244 | Removing a key keeps every remaining record keyed and stamped. |
| FakeBigIp.FakeDevice.FoundIsPresent | tests/support/fake_bigip.py:101 | In a valid store the `if record:` test is exactly key membership. |
| FakeBigIp.FakeDevice.CreateRule | tests/support/fake_bigip.py:120-134 | Upsert under `/{partition}/{name}`. The new stamp is above every earlier stamp. The answer is the stored record. The other tables are unchanged. |
| FakeBigIp.FakeDevice.CreatePool | tests/support/fake_bigip.py:136-153 | The same for pools, with the pool defaults. |
| FakeBigIp.FakeDevice.CreateDataGroup | tests/support/fake_bigip.py:155-171 | The same for data groups, with the data-group defaults. |
| FakeBigIp.FakeDevice.PatchRule | tests/support/fake_bigip.py:181-192 | A missing key gives 404 and changes nothing. Otherwise the patched rule replaces the record, a new stamp is taken and the answer is that record. |
| FakeBigIp.FakeDevice.PatchVirtual | tests/support/fake_bigip.py:194-204 | A missing key gives 404 and changes nothing. Otherwise `rules` is copied. The counter never moves. |
| FakeBigIp.FakeDevice.PatchPool | tests/support/fake_bigip.py:206-216 | A missing key gives 404 and changes nothing. Otherwise the non-null entries are merged and a new stamp is taken. |
| FakeBigIp.FakeDevice.MergePool | tests/support/fake_bigip.py:212-215 | The merge on a present pool: the record becomes `PatchedPool` of the old one, with the new stamp. |
| FakeBigIp.FakeDevice.PatchDataGroup | tests/support/fake_bigip.py:218-230 | A missing key gives 404 and changes nothing. Otherwise the three keys are copied and a new stamp is taken. |
| FakeBigIp.FakeDevice.DeleteRule | tests/support/fake_bigip.py:236-240 | The decoded key is gone afterwards, whether or not it was there. The answer is an empty 200. Nothing else changes. |
| FakeBigIp.FakeDevice.DeleteDataGroup | tests/support/fake_bigip.py:242-246 | The same for data groups. |
| FakeBigIp.FakeDevice.DoGet | tests/support/fake_bigip.py:79-116 | Changes nothing. 404 exactly when there is no route or the item is missing. A listing gives every record in insertion order; an item fetch gives the stored record. |
| FakeBigIp.FakeDevice.DoPost | tests/support/fake_bigip.py:118-177 | 404 exactly when there is no route, and then nothing changes. A create upserts the new record into its own table with one new stamp, answers that record, and leaves the other three tables alone. The command endpoint answers its fixed line and changes no table. |
| FakeBigIp.FakeDevice.DoPatch | tests/support/fake_bigip.py:179-232 | 404 exactly when there is no route or the item is missing, and then nothing changes. Otherwise the item's table holds the patched record of that kind (`PatchedRule`, `PatchedPool`, `PatchedDataGroup`, `PatchedVirtual`), the answer is that record, and the other three tables are unchanged. |
| FakeBigIp.FakeDevice.DoDelete | tests/support/fake_bigip.py:234-248 | 404 exactly when there is no route. A rule or data-group delete removes the decoded key from that table only and answers an empty 200. Pools, virtual servers and the counter never change. |
| FakeBigIp.FakeDevice.Handle | tests/support/fake_bigip.py:79-248 | Any request keeps the invariant and has the effect of its route on the tables and the answer, as the verb handlers state. The counter moves by the stamps the request takes. A 404 changes nothing, and so does a GET. |
| Tables.Lookup | tests/support/fake_bigip.py:100 | `dict.get` is `Some` exactly for a present key, with its record. |
| Tables.Found | tests/support/fake_bigip.py:101 | Definition: the `if record:` test, a present and non-empty record. See `FakeDevice.FoundIsPresent`. |
| Tables.Items | tests/support/fake_bigip.py:82 | `list(table.values())` has one record per key, in insertion order. See `PutItems`. |
| Tables.Put | tests/support/fake_bigip.py:132 | Definition: `table[key] = record`. See `PutWellFormed`, `PutItems` and `PutTwice`. |
| Tables.Pop | tests/support/fake_bigip.py:238 | Definition: `table.pop(key, None)`. See `PopWellFormed` and `PopIdempotent`. |
| Tables.PutWellFormed | tests/support/fake_bigip.py:132 | Storing keeps the table well formed and changes no other key. A present key keeps its place, so re-creating does not grow the table. A new key is appended. |
| Tables.PutItems | tests/support/fake_bigip.py:82 | After a store, the listing changes in one place, or grows by one record at the end. |
| Tables.PutTwice | tests/support/fake_bigip.py:132 | Storing twice under one key is storing the second record once. |
| Tables.PopWellFormed | tests/support/fake_bigip.py:238 | Removing keeps the table well formed and drops exactly that key. An absent key changes nothing. |
| Tables.PopIdempotent | tests/support/fake_bigip.py:244 | Deleting twice is deleting once. |
| Tables.WithoutDistinct | tests/support/fake_bigip.py:238 | Removing a key from distinct keys leaves them distinct, one shorter when the key was there. |
| Names.TildeToSlash | src/bigip_mcp_server/tools/pools.py:28-30 | The result starts with `/` and holds no `~`. |
| Names.TildeFormOfSegments | src/bigip_mcp_server/tools/pools.py:28-30 | `~` plus clean segments joined by `~` reads back as `/` plus the same segments joined by `/`. |
| Names.TildePair | src/bigip_mcp_server/tools/datagroups.py:28-30 | `~P~N` reads back as `/P/N`. |
| Names.DecodedComponents | src/bigip_mcp_server/tools/pools.py:29-30 | The `/` components of the result are exactly the non-empty `~` segments. |
| Names.ResolvePartition | src/bigip_mcp_server/tools/pools.py:31 | `partition or configured`: a `None` or empty partition falls back to the configured one. |
| Names.ResolveTwice | src/bigip_mcp_server/tools/pools.py:74 | Resolving an already resolved partition changes nothing. |
| Names.DisplayName | src/bigip_mcp_server/tools/pools.py:25-32 | Always starts with `/`. The three cases: a slash name unchanged, a tilde name converted, a bare name `/{partition}/{name}`. |
| Names.DisplayIdempotent | src/bigip_mcp_server/tools/datagroups.py:25-32 | Displaying a displayed name again, under any partition, changes nothing. |
| Names.ThreeFormsAgree | src/bigip_mcp_server/tools/pools.py:25-32 | `N` in partition P, `~P~N` and `/P/N` all display as `/P/N`. |
| Pools.ParseFields | src/bigip_mcp_server/tools/pools.py:34-38 | `None` exactly for `None` input or no non-blank piece. Otherwise the stripped non-blank pieces, each non-empty and stripped. |
| Pools.Fields | src/bigip_mcp_server/tools/pools.py:37 | Definition: the stripped, non-empty pieces of a `,` split. See `FieldsConcat` and `ParseFieldsJoin`. |
| Pools.Kept | src/bigip_mcp_server/tools/pools.py:37 | Never more pieces than it is given. See `KeptIsClean`, `KeptConcat` and `KeptClean`. |
| Pools.KeptIsClean | src/bigip_mcp_server/tools/pools.py:37 | Every kept piece is non-empty and has no surrounding white space. |
| Pools.KeptConcat | src/bigip_mcp_server/tools/pools.py:37 | The comprehension over two lists is the comprehension over each, in order. |
| Pools.KeptClean | src/bigip_mcp_server/tools/pools.py:37 | Pieces that are already clean are all kept, unchanged. |
| Pools.FieldsConcat | src/bigip_mcp_server/tools/pools.py:37 | The fields of `a,b` are those of `a` then those of `b`: order and duplicates kept. |
| Pools.ParseFieldsJoin | src/bigip_mcp_server/tools/pools.py:34-38 | Clean names joined with commas parse back to the same list. |
| Pools.BlankFieldsAreNone | src/bigip_mcp_server/tools/pools.py:37-38 | Input made only of blanks and commas gives `None`. |
| Pools.StripOfSpace | src/bigip_mcp_server/tools/pools.py:37 | A blank piece strips to nothing and is dropped. |
| Pools.ListPools | src/bigip_mcp_server/tools/pools.py:44-51 | Exactly the keys partition, count and items. The partition is the configured one and count equals the number of items. |
| Pools.PoolChange | src/bigip_mcp_server/tools/pools.py:74-79 | Exactly three keys. The response's `fullPath` when it has one, otherwise the display form. The response's generation or `None`. |
| Pools.CreatePool | src/bigip_mcp_server/tools/pools.py:74-79 | The same, with status `created`. |
| Pools.ModifyPool | src/bigip_mcp_server/tools/pools.py:102-107 | The same, with status `modified`. |
| ToolResults.Listing | src/bigip_mcp_server/tools/pools.py:47-51 | Exactly three keys, and count equals the length of items. |
| ToolResults.ReportedPath | src/bigip_mcp_server/tools/pools.py:77 | `response.get("fullPath", display)`. |
| ToolResults.Change | src/bigip_mcp_server/tools/pools.py:75-79 | Exactly status, the path field and generation. Each takes its value from the response or its fallback. |
| DataGroups.ListDataGroups | src/bigip_mcp_server/tools/datagroups.py:38-44 | Exactly partition, count and items. Count equals the number of items. |
| DataGroups.DataGroupChange | src/bigip_mcp_server/tools/datagroups.py:65-70 | Exactly three keys. The response's `fullPath` when it has one, otherwise the display path, which is the same whether or not the partition is resolved first. |
| DataGroups.CreateDataGroup | src/bigip_mcp_server/tools/datagroups.py:65-70 | The same, with status `created`. |
| DataGroups.UpdateDataGroup | src/bigip_mcp_server/tools/datagroups.py:91-96 | The same, with status `updated`. |
| DataGroups.DeleteDataGroup | src/bigip_mcp_server/tools/datagroups.py:102-107 | Exactly status and data_group. Always the display path, which starts with `/`. |
| DataGroups.CreateAndDeleteReportAlike | src/bigip_mcp_server/tools/datagroups.py:68-106 | Without a `fullPath` in the response, create and delete of one name report the same path. |
| DataGroups.DisplayAgreesWithDecode | src/bigip_mcp_server/tools/datagroups.py:28-30 | On a `~` name the display path equals the fake device's `_decode_name`. |
| DataGroups.DisplayIsCreatedKey | src/bigip_mcp_server/tools/datagroups.py:31-32 | A bare name's display path is the key, and the `fullPath`, under which the fake stores the data group created with that name and partition. |
| Config.Missing | src/bigip_mcp_server/config.py:23 | Exactly the unset or empty required names, host before token. |
| Config.FromEnv | src/bigip_mcp_server/config.py:18-35 | Fails exactly when host or token is unset or empty, naming the missing variables. Otherwise: the host has its trailing `/` cut; token as given; partition defaults to Common; verify is false exactly for `0`, `false`, `False`. |
| Config.MissingMessage | src/bigip_mcp_server/config.py:24-25 | The error text starts with the fixed prefix, and every missing name occurs after it. |
| Config.FromEnvOfSettings | src/bigip_mcp_server/config.py:18-35 | Settings with a host and a token, and no trailing `/` on the host, read back unchanged from their own environment. |
| Config.FromEnvIgnoresOthers | src/bigip_mcp_server/config.py:20-29 | Variables other than the four read change nothing. |
| Config.SlashHostIsAccepted | src/bigip_mcp_server/config.py:22-31 | A host of slashes only passes the check and is stored empty. |
| Config.HostNormalisedOnce | src/bigip_mcp_server/config.py:31 | Cutting trailing slashes from the stored host again changes nothing. |
| Config.SettingsDefaults | src/bigip_mcp_server/config.py:15-16 | A directly built `Settings` has partition Common and verify true. |
| Harness.ErrorMessage | src/bigip_mcp_server/harness.py:29-33 | Both rejection messages start with `Invalid env `, the missing-separator one with `Invalid env entry '` and the blank-key one with `Invalid env key in '`. The offending entry occurs in the text. |
| Strings.IndexOf | src/bigip_mcp_server/harness.py:30 | The first occurrence of the character, or the length when there is none: `split("=", 1)` cuts there. |
| Harness.RejectionOf | src/bigip_mcp_server/harness.py:28-33 | The rejection names the entry. It is the missing-separator error exactly when there is no `=`. |
| Harness.Rejected | src/bigip_mcp_server/harness.py:28-33 | Definition: no `=`, or an empty key after stripping. See `RejectionOf` and `ParseEnvOverrides`. |
| Harness.EntryKey | src/bigip_mcp_server/harness.py:30-31 | Definition: the stripped text before the first `=`. See `EntryRoundTrip` and `KeyIsStripped`. |
| Harness.EntryValue | src/bigip_mcp_server/harness.py:30 | Definition: the text after the first `=`, unstripped. See `EntryRoundTrip`. |
| Harness.StoreLatest | src/bigip_mcp_server/harness.py:34 | Assigning a key keeps the map at the last value of every key seen. |
| Harness.ScanStep | src/bigip_mcp_server/harness.py:27-34 | One accepted entry extends the loop invariant. |
| Harness.ScannedLatest | src/bigip_mcp_server/harness.py:34 | After the loop, each key holds the value of the last entry naming it. |
| Harness.ScannedKey | src/bigip_mcp_server/harness.py:27-35 | After the loop, a key is stored exactly when some entry names it. |
| Harness.ScanDone | src/bigip_mcp_server/harness.py:27-35 | The loop's end state gives the parser's success postconditions. |
| Harness.ParseEnvOverrides | src/bigip_mcp_server/harness.py:25-35 | Fails exactly when some entry is rejected, with the error of the first one. Otherwise the keys are exactly the entries' stripped keys, each with the unstripped value of its last entry. |
| Harness.EntryRoundTrip | src/bigip_mcp_server/harness.py:30-34 | `KEY=VALUE` with a clean key is accepted and reads back as KEY and VALUE, with any `=` in VALUE kept. |
| Harness.KeyIsStripped | src/bigip_mcp_server/harness.py:31-33 | White space around the key is dropped. A key of white space only is rejected. |
| Harness.MergeEnvironment | src/bigip_mcp_server/harness.py:70-72 | Override keys take the override values. Every other inherited key keeps its value. |
| Harness.MergeIdempotent | src/bigip_mcp_server/harness.py:72 | Merging the same overrides twice is merging once. No overrides leave the environment as it was. |
| Harness.OverriddenCredentialsValidate | src/bigip_mcp_server/harness.py:70-72 | Overrides that set host and token make `from_env` succeed on the merged environment, with that token. |
| Harness.CleanArgs | src/bigip_mcp_server/harness.py:53-54 | `None` exactly when every argument is `None`. Otherwise exactly the non-`None` arguments, unchanged. |
| Harness.CleanArgsIdempotent | src/bigip_mcp_server/harness.py:53 | Filtering filtered arguments changes nothing. |
| Strings.TrimStartSuffix | src/bigip_mcp_server/harness.py:31 | `lstrip` keeps a suffix. |
| Strings.IsSpace | src/bigip_mcp_server/harness.py:31 | Definition: the characters Python's `str.isspace()` accepts, which `strip` removes. See `StripClean`. |
| Strings.TrimStart | src/bigip_mcp_server/harness.py:31 | `lstrip` gives a string no longer than its input that does not start with white space. See `TrimStartSuffix` and `TrimStartCuts`. |
| Strings.TrimEnd | src/bigip_mcp_server/harness.py:31 | `rstrip` gives a string no longer than its input that does not end with white space. See `TrimEndPrefix` and `TrimEndCuts`. |
| Strings.StartsWith | src/bigip_mcp_server/tools/pools.py:26 | Definition: `str.startswith`. See `Names.TildeToSlash`. |
| Strings.TrimStartCuts | src/bigip_mcp_server/harness.py:31 | `lstrip` cuts only white space. |
| Strings.TrimEndPrefix | src/bigip_mcp_server/harness.py:31 | `rstrip` keeps a prefix. |
| Strings.TrimEndCuts | src/bigip_mcp_server/harness.py:31 | `rstrip` cuts only white space. |
| Strings.Strip | src/bigip_mcp_server/harness.py:31 | The result neither starts nor ends with white space. |
| Strings.StripCuts | src/bigip_mcp_server/harness.py:31 | `strip` removes white space, and only white space, from both ends. |
| Strings.StripClean | src/bigip_mcp_server/tools/pools.py:37 | A string with clean ends is its own strip. |
| Strings.StripPadded | src/bigip_mcp_server/harness.py:31 | White-space padding around a clean string is exactly what `strip` removes. |
| Strings.TrimStartSpaces | src/bigip_mcp_server/harness.py:31 | Leading white space before a clean start is exactly what `lstrip` removes. |
| Strings.TrimEndSpaces | src/bigip_mcp_server/harness.py:31 | Trailing white space after a clean end is exactly what `rstrip` removes. |
| Strings.TrimEndChar | src/bigip_mcp_server/config.py:31 | `rstrip("/")` keeps a prefix, cuts only `/`, and leaves no trailing `/`. |
| Strings.Split | src/bigip_mcp_server/tools/pools.py:37 | `split` always gives at least one piece. |
| Strings.SplitAvoids | src/bigip_mcp_server/tools/pools.py:37 | No piece of a split holds the separator. |
| Strings.JoinSplit | src/bigip_mcp_server/tools/pools.py:29-30 | Joining the pieces of a split with the separator gives the string back. |
| Strings.Join | src/bigip_mcp_server/tools/pools.py:30 | Definition: `sep.join(parts)`. See `JoinSplit`, `SplitJoin`, `JoinAvoids` and `PieceOccursInJoin`. |
| Strings.SplitJoin | src/bigip_mcp_server/tools/pools.py:29-30 | Splitting a join of separator-free pieces gives the pieces back. |
| Strings.SplitConcat | src/bigip_mcp_server/tools/pools.py:37 | Splitting at a separator between two strings splits each apart. |
| Strings.SplitAfter | src/bigip_mcp_server/tools/pools.py:37 | A separator after a separator-free piece ends that piece. |
| Strings.SplitWithout | src/bigip_mcp_server/tools/pools.py:37 | A string without the separator splits into itself alone. |
| Strings.SplitCons | src/bigip_mcp_server/tools/pools.py:37 | How `split` treats the first character. |
| Strings.JoinAvoids | src/bigip_mcp_server/tools/pools.py:30 | A character in neither the pieces nor the separator is not in the join. |
| Strings.NonEmpty | src/bigip_mcp_server/tools/pools.py:29 | `[p for p in parts if p]`: a piece is in the result exactly when it is a non-empty piece of the input. |
| Strings.NonEmptyConcat | src/bigip_mcp_server/tools/pools.py:29 | The comprehension over two lists is the comprehension over each, in order, so every non-empty piece is kept once per occurrence and in place. |
| Strings.NonEmptyKeepsAll | src/bigip_mcp_server/tools/pools.py:29 | Pieces that are all non-empty are all kept. |
| Strings.NatText | tests/support/fake_bigip.py:124 | `str(n)` is decimal digits with no leading zero whose decimal value is `n`. |
| Strings.IntText | tests/support/fake_bigip.py:124 | Definition: `str(i)`, a `-` before the digits of a negative number. See `IntTextInjective`. |
| Json.Text | tests/support/fake_bigip.py:124 | Definition: the text an f-string gives a JSON value, `None`, `True` or `False` for the constants. See `FakeBigIp.CreatedKey`. |
| Strings.IntTextInjective | tests/support/fake_bigip.py:124 | Distinct integers have distinct texts, so distinct integer names give distinct full paths. |
| Strings.PieceOccursInJoin | src/bigip_mcp_server/config.py:25 | Every piece of a `join` occurs in the joined text. |
| Wrappers.GetOr | tests/support/fake_bigip.py:122-123 | `dict.get(key, default)` and `os.getenv(name, default)`: the stored value when the key is present, even a `None`; the default otherwise. |

## Left out

- HTTP in the fake device: the request handler's I/O, JSON encoding and decoding, `urlparse`, `parse_qs` and `unquote`. A request is its verb, its path without the query string and its decoded object body. `unquote` is taken as already applied.
- Threading in the fake device: `ThreadingHTTPServer` and server start and stop. Each request is one atomic method call.
- A request body that is not a JSON object, and a malformed body: the model takes an already decoded object.
- `bigip_client.py`: it wraps `httpx`, and its resource methods are stubs that raise `NotImplementedError`. The items a list tool returns and the response a create, modify or update receives are parameters.
- The select fields a list tool passes to the client: the client is a stub, so only `_parse_fields` itself is modelled.
- The client behaviour the client tests describe (name normalisation, partition filtering, attach and detach, re-authentication) is not in the client's source, so it is not modelled.
- The placeholder tools (iRules, virtual servers, logs), tool registration, and the entry points.
- The `_call` wrappers of the tool modules: they translate `httpx` exceptions.
- The harness's MCP client calls, `_serialize_content`, and its argument parsing and file output.
- `argparse.ArgumentTypeError` is modelled as the `Failure` value of `ParseEnvOverrides`.
- `RuntimeError` from `from_env` is modelled as the `Failure` value of `FromEnv`. `MissingMessage` gives its text.
- `os.environ` and `os.getenv`: the environment is a map parameter. `MergeEnvironment` returns the merged map as a value, since the copied dict is local to `run_validation`.
- The `timeout` setting and floating-point JSON numbers.
- Json.Text: a list or dict used as a create body's name or partition reads as a fixed placeholder, not as Python's `repr`.
- Records are `map`s, so the key order inside one record is not modelled. The order of records within a table is modelled.
- The stored record and the answered record are one dict in Python. The model stores a value and answers that same value, so the aliasing is not modelled.
