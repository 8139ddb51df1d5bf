/** The pure parts of the validation harness (src/bigip_mcp_server/harness.py):
    parsing `KEY=VALUE` environment overrides, merging them over the inherited
    environment, and dropping `None` tool arguments. */
module Harness {
  import opened Wrappers
  import opened Strings
  import opened Json
  import Config

  /** Why an override entry was refused (`argparse.ArgumentTypeError`). */
  datatype OverrideError = MissingSeparator(entry: string) | BlankKey(entry: string)

  /** The error's message text. */
  function ErrorMessage(e: OverrideError): (m: string)
    ensures StartsWith(m, "Invalid env ")
    ensures e.MissingSeparator? ==> StartsWith(m, "Invalid env entry '")
    ensures e.BlankKey? ==> StartsWith(m, "Invalid env key in '")
    ensures Occurs(e.entry, m[|"Invalid env "|..])
  {
    var lead := match e
      case MissingSeparator(_) => "Invalid env entry '"
      case BlankKey(_) => "Invalid env key in '";
    var tail := match e
      case MissingSeparator(_) => "'. Use KEY=VALUE format."
      case BlankKey(_) => "'.";
    var text := lead + e.entry + tail;
    assert text[..|lead|] == lead;
    assert text[..|"Invalid env "|] == "Invalid env ";
    assert OccursAt(e.entry, text[|"Invalid env "|..], |lead| - |"Invalid env "|);
    text
  }

  /** `item.split("=", 1)[0].strip()`: the stripped text before the first `=`. */
  function EntryKey(entry: string): string {
    Strip(entry[..IndexOf(entry, '=')])
  }

  /** `item.split("=", 1)[1]`: everything after the first `=`, unstripped. */
  function EntryValue(entry: string): string {
    var i := IndexOf(entry, '=');
    if i < |entry| then entry[i + 1..] else []
  }

  /** The entries `_parse_env_overrides` refuses: no `=`, or a blank key. */
  predicate Rejected(entry: string) {
    '=' !in entry || EntryKey(entry) == []
  }

  /** The error raised for a refused entry. */
  function RejectionOf(entry: string): (e: OverrideError)
    requires Rejected(entry)
    ensures e.entry == entry
    ensures e.MissingSeparator? <==> '=' !in entry
  {
    if '=' !in entry then MissingSeparator(entry) else BlankKey(entry)
  }

  /** `i` is the last position of `keys` that holds `k`. */
  ghost predicate LastAt(keys: seq<string>, k: string, i: int) {
    0 <= i < |keys| && keys[i] == k && forall j :: i < j < |keys| ==> keys[j] != k
  }

  /** `m` maps exactly the `keys` to the value at their last position. */
  ghost predicate LatestValues(keys: seq<string>, values: seq<string>, m: map<string, string>) {
    && |values| == |keys|
    && (forall k :: k in m <==> k in keys)
    && (forall k :: k in m ==> exists i :: LastAt(keys, k, i) && m[k] == values[i])
  }

  /** Storing one more key and value keeps the map in step with the entries seen. */
  lemma StoreLatest(keys: seq<string>, values: seq<string>, m: map<string, string>, key: string, value: string)
    requires LatestValues(keys, values, m)
    ensures LatestValues(keys + [key], values + [value], m[key := value])
  {
    var ks, vs, m' := keys + [key], values + [value], m[key := value];
    forall k | k in m' ensures exists i :: LastAt(ks, k, i) && m'[k] == vs[i] {
      if k == key {
        assert LastAt(ks, k, |keys|);
      } else {
        var i :| LastAt(keys, k, i) && m[k] == values[i];
        assert LastAt(ks, k, i);
      }
    }
  }

  /** `i` is the last entry of `pairs` whose key is `k`. */
  ghost predicate LastEntryFor(pairs: seq<string>, k: string, i: int) {
    0 <= i < |pairs| && EntryKey(pairs[i]) == k
    && forall j :: i < j < |pairs| ==> EntryKey(pairs[j]) != k
  }

  /** The first `n` entries are accepted, `keys` and `values` are their keys
      and values in order, and `overrides` maps each key to its latest value. */
  ghost predicate Scanned(pairs: seq<string>, n: int, keys: seq<string>, values: seq<string>,
                          overrides: map<string, string>) {
    && 0 <= n <= |pairs| && |keys| == n && |values| == n
    && (forall j :: 0 <= j < n ==> !Rejected(pairs[j]))
    && (forall j :: 0 <= j < n ==> keys[j] == EntryKey(pairs[j]))
    && (forall j :: 0 <= j < n ==> values[j] == EntryValue(pairs[j]))
    && LatestValues(keys, values, overrides)
  }

  /** Accepting one more entry stores its key and value. */
  lemma ScanStep(pairs: seq<string>, n: int, keys: seq<string>, values: seq<string>, overrides: map<string, string>)
    requires Scanned(pairs, n, keys, values, overrides)
    requires n < |pairs| && !Rejected(pairs[n])
    ensures Scanned(pairs, n + 1, keys + [EntryKey(pairs[n])], values + [EntryValue(pairs[n])],
                    overrides[EntryKey(pairs[n]) := EntryValue(pairs[n])])
  {
    var key, value := EntryKey(pairs[n]), EntryValue(pairs[n]);
    StoreLatest(keys, values, overrides, key, value);
    var keys', values' := keys + [key], values + [value];
    forall j | 0 <= j < n + 1 ensures keys'[j] == EntryKey(pairs[j]) {
      if j < n {
        assert keys'[j] == keys[j];
      }
    }
    forall j | 0 <= j < n + 1 ensures values'[j] == EntryValue(pairs[j]) {
      if j < n {
        assert values'[j] == values[j];
      }
    }
  }

  /** Once every entry is accepted, the map holds exactly the entries' keys,
      each with the value of the last entry that names it. */
  lemma ScanDone(pairs: seq<string>, keys: seq<string>, values: seq<string>, overrides: map<string, string>)
    requires Scanned(pairs, |pairs|, keys, values, overrides)
    ensures forall k :: k in overrides <==> exists i :: 0 <= i < |pairs| && EntryKey(pairs[i]) == k
    ensures forall k :: k in overrides ==> exists i :: LastEntryFor(pairs, k, i) && overrides[k] == EntryValue(pairs[i])
  {
    forall k | k in overrides
      ensures exists i :: LastEntryFor(pairs, k, i) && overrides[k] == EntryValue(pairs[i])
    {
      ScannedLatest(pairs, keys, values, overrides, k);
    }
    forall k ensures k in overrides <==> exists i :: 0 <= i < |pairs| && EntryKey(pairs[i]) == k {
      ScannedKey(pairs, keys, values, overrides, k);
    }
  }

  /** A stored key's value is the value of the last entry naming it. */
  lemma ScannedLatest(pairs: seq<string>, keys: seq<string>, values: seq<string>, overrides: map<string, string>,
                      k: string)
    requires Scanned(pairs, |pairs|, keys, values, overrides)
    requires k in overrides
    ensures exists i :: LastEntryFor(pairs, k, i) && overrides[k] == EntryValue(pairs[i])
  {
    var i :| LastAt(keys, k, i) && overrides[k] == values[i];
    assert LastEntryFor(pairs, k, i);
  }

  /** A key is stored exactly when some entry names it. */
  lemma ScannedKey(pairs: seq<string>, keys: seq<string>, values: seq<string>, overrides: map<string, string>,
                   k: string)
    requires Scanned(pairs, |pairs|, keys, values, overrides)
    ensures k in overrides <==> exists i :: 0 <= i < |pairs| && EntryKey(pairs[i]) == k
  {
    if k in overrides {
      var i :| 0 <= i < |keys| && keys[i] == k;
      assert EntryKey(pairs[i]) == k;
    }
    if exists i :: 0 <= i < |pairs| && EntryKey(pairs[i]) == k {
      var i :| 0 <= i < |pairs| && EntryKey(pairs[i]) == k;
      assert keys[i] == k;
    }
  }

  /** `_parse_env_overrides(pairs)`: refuses the first bad entry; otherwise maps
      every entry's key to the value of the last entry with that key. */
  method ParseEnvOverrides(pairs: seq<string>) returns (r: Result<map<string, string>, OverrideError>)
    ensures r.Failure? <==> exists i :: 0 <= i < |pairs| && Rejected(pairs[i])
    ensures r.Failure? ==> exists i :: 0 <= i < |pairs| && Rejected(pairs[i]) && r.error == RejectionOf(pairs[i])
                                       && forall j :: 0 <= j < i ==> !Rejected(pairs[j])
    ensures r.Success? ==> forall k :: k in r.value <==> exists i :: 0 <= i < |pairs| && EntryKey(pairs[i]) == k
    ensures r.Success? ==> forall k :: k in r.value ==>
                             exists i :: LastEntryFor(pairs, k, i) && r.value[k] == EntryValue(pairs[i])
  {
    var overrides: map<string, string> := map[];
    ghost var keys: seq<string> := [];
    ghost var values: seq<string> := [];
    for n := 0 to |pairs|
      invariant Scanned(pairs, n, keys, values, overrides)
    {
      var item := pairs[n];
      if '=' !in item {
        assert Rejected(pairs[n]);
        return Failure(MissingSeparator(item));
      }
      var at := IndexOf(item, '=');
      var key := Strip(item[..at]);
      var value := item[at + 1..];
      if key == [] {
        assert Rejected(pairs[n]);
        return Failure(BlankKey(item));
      }
      assert key == EntryKey(item) && value == EntryValue(item);
      ScanStep(pairs, n, keys, values, overrides);
      keys, values := keys + [key], values + [value];
      overrides := overrides[key := value];
    }
    ScanDone(pairs, keys, values, overrides);
    return Success(overrides);
  }

  /** A clean key and any value, written as `KEY=VALUE`, are accepted and
      read back as that key and that value, `=` signs in the value included. */
  lemma EntryRoundTrip(key: string, value: string)
    requires key != [] && '=' !in key
    requires !IsSpace(key[0]) && !IsSpace(key[|key| - 1])
    ensures !Rejected(key + "=" + value)
    ensures EntryKey(key + "=" + value) == key
    ensures EntryValue(key + "=" + value) == value
  {
    var entry := key + "=" + value;
    assert entry[|key|] == '=';
    assert '=' !in entry[..|key|] by { assert entry[..|key|] == key; }
    assert IndexOf(entry, '=') == |key|;
    assert entry[..|key|] == key;
    StripClean(key);
    assert entry[|key| + 1..] == value;
  }

  /** Spaces around the key are dropped, and a key of spaces only is refused. */
  lemma KeyIsStripped(pad: string, key: string, value: string)
    requires AllSpace(pad) && '=' !in pad && '=' !in key
    requires key == [] || (!IsSpace(key[0]) && !IsSpace(key[|key| - 1]))
    ensures EntryKey(pad + key + pad + "=" + value) == key
    ensures Rejected(pad + key + pad + "=" + value) <==> key == []
  {
    var raw := pad + key + pad;
    var entry := raw + "=" + value;
    assert entry == raw + ("=" + value);
    assert '=' !in raw;
    assert entry[|raw|] == '=';
    assert '=' !in entry[..|raw|] by { assert entry[..|raw|] == raw; }
    assert IndexOf(entry, '=') == |raw|;
    assert entry[..|raw|] == raw;
    StripPadded(pad, key);
  }

  /** `env = os.environ.copy(); env.update(overrides)`. */
  function MergeEnvironment(inherited: map<string, string>, overrides: map<string, string>): (env: map<string, string>)
    ensures forall k :: k in env <==> k in inherited || k in overrides
    ensures forall k :: k in overrides ==> env[k] == overrides[k]
    ensures forall k :: k in inherited && k !in overrides ==> env[k] == inherited[k]
  {
    inherited + overrides
  }

  /** Merging the same overrides twice is merging them once, and merging no
      overrides keeps the inherited environment. */
  lemma MergeIdempotent(inherited: map<string, string>, overrides: map<string, string>)
    ensures MergeEnvironment(MergeEnvironment(inherited, overrides), overrides)
         == MergeEnvironment(inherited, overrides)
    ensures MergeEnvironment(inherited, map[]) == inherited
  {
  }

  /** Overrides that give the host and the token make the server's settings
      validation succeed with those values, whatever the inherited environment. */
  lemma OverriddenCredentialsValidate(inherited: map<string, string>, overrides: map<string, string>)
    requires Config.Given(overrides, Config.HostVar) && Config.Given(overrides, Config.TokenVar)
    ensures Config.FromEnv(MergeEnvironment(inherited, overrides)).Success?
    ensures Config.FromEnv(MergeEnvironment(inherited, overrides)).value.token == overrides[Config.TokenVar]
  {
    var env := MergeEnvironment(inherited, overrides);
    assert Config.Given(env, Config.HostVar) && Config.Given(env, Config.TokenVar);
  }

  /** `{k: v for k, v in arguments.items() if v is not None} or None`. */
  function CleanArgs(arguments: map<string, Value>): (r: Option<map<string, Value>>)
    ensures r.None? <==> forall k :: k in arguments ==> arguments[k] == Null
    ensures r.Some? ==> r.value != map[]
    ensures r.Some? ==> forall k :: k in r.value <==> k in arguments && arguments[k] != Null
    ensures r.Some? ==> forall k :: k in r.value ==> r.value[k] == arguments[k]
  {
    var kept := map k | k in arguments && arguments[k] != Null :: arguments[k];
    if kept == map[] then
      assert forall k :: k in arguments ==> arguments[k] == Null by {
        forall k | k in arguments ensures arguments[k] == Null {
          assert arguments[k] != Null ==> k in kept;
        }
      }
      None
    else
      var k :| k in kept;
      Some(kept)
  }

  /** Filtering arguments that are already filtered changes nothing. */
  lemma CleanArgsIdempotent(arguments: map<string, Value>)
    requires CleanArgs(arguments).Some?
    ensures CleanArgs(CleanArgs(arguments).value) == CleanArgs(arguments)
  {
    var kept := CleanArgs(arguments).value;
    assert forall k :: k in kept ==> kept[k] != Null;
    var k :| k in kept;
    assert CleanArgs(kept).Some?;
    assert CleanArgs(kept).value == kept;
  }
}
