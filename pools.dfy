/** The pure parts of the pool tools (src/bigip_mcp_server/tools/pools.py):
    `_parse_fields` and the results of `pools_list`, `pools_create` and
    `pools_modify`. `_display_pool` is `Names.DisplayName`, with the configured
    partition as a parameter. */
module Pools {
  import opened Wrappers
  import opened Strings
  import opened Json
  import opened Names
  import ToolResults

  /** `[field.strip() for field in parts if field.strip()]`. */
  function Kept(parts: seq<string>): (r: seq<string>)
    ensures |r| <= |parts|
  {
    if parts == [] then []
    else (if Strip(parts[0]) == [] then [] else [Strip(parts[0])]) + Kept(parts[1..])
  }

  /** Every kept piece is non-blank and carries no surrounding white space. */
  lemma {:induction false} KeptIsClean(parts: seq<string>)
    ensures forall i :: 0 <= i < |Kept(parts)| ==>
              Kept(parts)[i] != [] && !IsSpace(Kept(parts)[i][0]) && !IsSpace(Kept(parts)[i][|Kept(parts)[i]| - 1])
  {
    if parts != [] {
      KeptIsClean(parts[1..]);
      var head := if Strip(parts[0]) == [] then [] else [Strip(parts[0])];
      assert Kept(parts) == head + Kept(parts[1..]);
      forall i | 0 <= i < |Kept(parts)|
        ensures Kept(parts)[i] != [] && !IsSpace(Kept(parts)[i][0]) && !IsSpace(Kept(parts)[i][|Kept(parts)[i]| - 1])
      {
        if i >= |head| {
          assert Kept(parts)[i] == Kept(parts[1..])[i - |head|];
        }
      }
    }
  }

  /** The stripped, non-blank comma-separated pieces of `s`, in order. */
  function Fields(s: string): seq<string> {
    Kept(Split(s, ','))
  }

  /** `_parse_fields(select_fields)`. */
  function ParseFields(selectFields: Option<string>): (r: Option<seq<string>>)
    ensures r.None? <==> selectFields.None? || Fields(selectFields.value) == []
    ensures r.Some? ==> r.value == Fields(selectFields.value)
    ensures r.Some? ==> r.value != [] && forall i :: 0 <= i < |r.value| ==> Strip(r.value[i]) == r.value[i] != []
  {
    if selectFields.None? || selectFields.value == [] then
      assert selectFields.Some? ==> Split(selectFields.value, ',') == [[]];
      None
    else
      var values := Fields(selectFields.value);
      KeptIsClean(Split(selectFields.value, ','));
      if values == [] then None
      else
        forall i | 0 <= i < |values| ensures Strip(values[i]) == values[i] {
          StripClean(values[i]);
        }
        Some(values)
  }

  /** Keeping the non-blank pieces of two lists keeps those of each, in order. */
  lemma {:induction false} KeptConcat(a: seq<string>, b: seq<string>)
    ensures Kept(a + b) == Kept(a) + Kept(b)
  {
    if a != [] {
      var head := if Strip(a[0]) == [] then [] else [Strip(a[0])];
      assert (a + b)[0] == a[0] && (a + b)[1..] == a[1..] + b;
      assert Kept(a + b) == head + Kept(a[1..] + b);
      KeptConcat(a[1..], b);
      assert Kept(a) == head + Kept(a[1..]);
    } else {
      assert a + b == b;
    }
  }

  /** Pieces that are already clean are all kept. */
  lemma {:induction false} KeptClean(parts: seq<string>)
    requires forall i :: 0 <= i < |parts| ==> parts[i] != [] && !IsSpace(parts[i][0]) && !IsSpace(parts[i][|parts[i]| - 1])
    ensures Kept(parts) == parts
  {
    if parts != [] {
      StripClean(parts[0]);
      KeptClean(parts[1..]);
      assert [parts[0]] + parts[1..] == parts;
    }
  }

  /** The fields of two comma-joined strings are the fields of the first
      followed by those of the second: order and duplicates are kept. */
  lemma FieldsConcat(a: string, b: string)
    ensures Fields(a + "," + b) == Fields(a) + Fields(b)
  {
    SplitConcat(a, ',', b);
    KeptConcat(Split(a, ','), Split(b, ','));
  }

  /** Clean names joined with commas parse back to the same list. */
  lemma ParseFieldsJoin(names: seq<string>)
    requires names != []
    requires forall i :: 0 <= i < |names| ==>
               names[i] != [] && ',' !in names[i] && !IsSpace(names[i][0]) && !IsSpace(names[i][|names[i]| - 1])
    ensures ParseFields(Some(Join(names, ","))) == Some(names)
  {
    SplitJoin(names, ',');
    KeptClean(names);
  }

  /** Input made of blanks and commas selects no fields. */
  lemma {:induction false} BlankFieldsAreNone(s: string)
    requires forall i :: 0 <= i < |s| ==> s[i] == ',' || IsSpace(s[i])
    ensures Fields(s) == []
    ensures ParseFields(Some(s)) == None
  {
    if s != [] {
      var i := IndexOf(s, ',');
      if i == |s| {
        SplitWithout(s, ',');
        assert AllSpace(s);
        StripOfSpace(s);
      } else {
        assert s == s[..i] + [','] + s[i + 1..];
        assert AllSpace(s[..i]) by {
          forall j | 0 <= j < i ensures IsSpace(s[..i][j]) {
            assert s[..i][j] == s[j] != ',';
          }
        }
        var rest := s[i + 1..];
        forall j | 0 <= j < |rest| ensures rest[j] == ',' || IsSpace(rest[j]) {
          assert rest[j] == s[i + 1 + j];
        }
        BlankFieldsAreNone(rest);
        FieldsConcat(s[..i], s[i + 1..]);
        SplitWithout(s[..i], ',');
        StripOfSpace(s[..i]);
      }
    }
  }

  /** White space strips to nothing. */
  lemma StripOfSpace(s: string)
    requires AllSpace(s)
    ensures Strip(s) == []
    ensures Kept([s]) == []
  {
    TrimStartSpaces(s, []);
    assert s + [] == s;
    assert [s][1..] == [];
  }

  /** `pools_list`: the configured partition, the count and the items. */
  function ListPools(configured: string, items: seq<Value>): (r: Record)
    ensures r.Keys == {"partition", "count", "items"}
    ensures r["partition"] == Str(configured)
    ensures r["items"] == Arr(items) && r["count"] == Int(|items|)
  {
    ToolResults.Listing(configured, items)
  }

  /** The result of a pool create or modify: the partition is resolved first
      and the display form built from the resolved value. */
  function PoolChange(status: string, name: string, partition: Option<string>, configured: string,
                      response: Record): (r: Record)
    ensures r.Keys == {"status", "pool", "generation"}
    ensures r["status"] == Str(status)
    ensures "fullPath" in response ==> r["pool"] == response["fullPath"]
    ensures "fullPath" !in response ==> r["pool"] == Str(DisplayName(name, partition, configured))
    ensures r["generation"] == GetOrNull(response, "generation")
  {
    var resolved := ResolvePartition(partition, configured);
    ResolveTwice(partition, configured);
    ToolResults.Change(status, "pool", response, DisplayName(name, Some(resolved), configured))
  }

  /** `pools_create`. */
  function CreatePool(name: string, partition: Option<string>, configured: string, response: Record): (r: Record)
    ensures r.Keys == {"status", "pool", "generation"}
    ensures r["status"] == Str("created")
    ensures "fullPath" in response ==> r["pool"] == response["fullPath"]
    ensures "fullPath" !in response ==> r["pool"] == Str(DisplayName(name, partition, configured))
    ensures r["generation"] == GetOrNull(response, "generation")
  {
    PoolChange("created", name, partition, configured, response)
  }

  /** `pools_modify`. */
  function ModifyPool(name: string, partition: Option<string>, configured: string, response: Record): (r: Record)
    ensures r.Keys == {"status", "pool", "generation"}
    ensures r["status"] == Str("modified")
    ensures "fullPath" in response ==> r["pool"] == response["fullPath"]
    ensures "fullPath" !in response ==> r["pool"] == Str(DisplayName(name, partition, configured))
    ensures r["generation"] == GetOrNull(response, "generation")
  {
    PoolChange("modified", name, partition, configured, response)
  }
}
