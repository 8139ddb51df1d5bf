/** BIG-IP's object names. An object is written `/Partition/Name` (its full
    path), `~Partition~Name` (the form used inside REST URLs) or, inside the
    configured partition, as the bare `Name`.

    The fake device's `_decode_name` (tests/support/fake_bigip.py) and the tool
    modules' `_display_pool` (tools/pools.py) and `_display_path`
    (tools/datagroups.py) share one conversion from the tilde form, `TildeToSlash`;
    the last two are the same closure, `DisplayName`. */
module Names {
  import opened Wrappers
  import opened Strings

  /** `"/" + "/".join(p for p in name.split("~") if p)`. */
  function TildeToSlash(name: string): (r: string)
    ensures StartsWith(r, "/")
    ensures '~' !in r
  {
    var segments := NonEmpty(Split(name, '~'));
    SplitAvoids(name, '~');
    JoinAvoids(segments, "/", '~');
    "/" + Join(segments, "/")
  }

  /** The tilde form of a path made of clean segments reads back as the
      slash form of the same segments. */
  lemma TildeFormOfSegments(segments: seq<string>)
    requires |segments| >= 1
    requires forall i :: 0 <= i < |segments| ==> segments[i] != [] && '~' !in segments[i]
    ensures TildeToSlash("~" + Join(segments, "~")) == "/" + Join(segments, "/")
  {
    var pieces := [[]] + segments;
    assert pieces[1..] == segments;
    assert Join(pieces, "~") == "~" + Join(segments, "~");
    SplitJoin(pieces, '~');
    assert NonEmpty(pieces) == NonEmpty(segments);
    NonEmptyKeepsAll(segments);
  }

  /** `~Partition~Name` reads back as `/Partition/Name`. */
  lemma TildePair(partition: string, name: string)
    requires partition != [] && '~' !in partition
    requires name != [] && '~' !in name
    ensures TildeToSlash("~" + partition + "~" + name) == "/" + partition + "/" + name
  {
    var segments := [partition, name];
    assert Join(segments, "~") == partition + "~" + name by {
      assert segments[1..] == [name];
    }
    assert Join(segments, "/") == partition + "/" + name by {
      assert segments[1..] == [name];
    }
    TildeFormOfSegments(segments);
    assert "~" + Join(segments, "~") == "~" + partition + "~" + name;
    assert "/" + Join(segments, "/") == "/" + partition + "/" + name;
  }

  /** The `/`-separated components of a decoded name are exactly the non-empty
      `~`-segments of the original, when those hold no `/` of their own. */
  lemma DecodedComponents(name: string)
    requires '/' !in name
    requires NonEmpty(Split(name, '~')) != []
    ensures Split(TildeToSlash(name)[1..], '/') == NonEmpty(Split(name, '~'))
  {
    var segments := NonEmpty(Split(name, '~'));
    forall i | 0 <= i < |segments| ensures '/' !in segments[i] {
      var j :| 0 <= j < |Split(name, '~')| && Split(name, '~')[j] == segments[i];
      JoinSplit(name, '~');
      PieceOfJoinAvoids(Split(name, '~'), "~", j, '/');
    }
    assert TildeToSlash(name)[1..] == Join(segments, "/");
    SplitJoin(segments, '/');
  }

  /** A character absent from a join is absent from each of its pieces. */
  lemma {:induction false} PieceOfJoinAvoids(parts: seq<string>, sep: string, j: int, x: char)
    requires 0 <= j < |parts|
    requires x !in Join(parts, sep)
    ensures x !in parts[j]
  {
    if |parts| > 1 {
      assert Join(parts, sep) == parts[0] + sep + Join(parts[1..], sep);
      if j > 0 {
        PieceOfJoinAvoids(parts[1..], sep, j - 1, x);
      }
    }
  }

  /** `partition or settings.bigip_partition`: an absent or empty partition
      falls back to the configured one. */
  function ResolvePartition(partition: Option<string>, configured: string): (p: string)
    ensures partition.Some? && partition.value != [] ==> p == partition.value
    ensures partition.None? || partition.value == [] ==> p == configured
  {
    if partition.Some? && partition.value != [] then partition.value else configured
  }

  /** Resolving an already resolved partition changes nothing. */
  lemma ResolveTwice(partition: Option<string>, configured: string)
    ensures ResolvePartition(Some(ResolvePartition(partition, configured)), configured)
         == ResolvePartition(partition, configured)
  {
  }

  /** `_display_pool` and `_display_path`: the full-path form of a name given
      in any of the three forms. */
  function DisplayName(name: string, partition: Option<string>, configured: string): (r: string)
    ensures StartsWith(r, "/")
    ensures StartsWith(name, "/") ==> r == name
    ensures !StartsWith(name, "/") && StartsWith(name, "~") ==> r == TildeToSlash(name)
    ensures !StartsWith(name, "/") && !StartsWith(name, "~") ==>
              r == "/" + ResolvePartition(partition, configured) + "/" + name
  {
    if StartsWith(name, "/") then name
    else if StartsWith(name, "~") then TildeToSlash(name)
    else "/" + ResolvePartition(partition, configured) + "/" + name
  }

  /** The display form is already in full-path form, so displaying it again,
      under any partition, changes nothing. */
  lemma DisplayIdempotent(name: string, partition: Option<string>, configured: string,
                          partition': Option<string>, configured': string)
    ensures DisplayName(DisplayName(name, partition, configured), partition', configured')
         == DisplayName(name, partition, configured)
  {
  }

  /** The three forms of one object display alike: the bare name in a
      partition, its tilde form and its full path. */
  lemma ThreeFormsAgree(partition: string, name: string, other: Option<string>, configured: string)
    requires partition != [] && '~' !in partition
    requires name != [] && '~' !in name && name[0] != '/'
    ensures DisplayName(name, Some(partition), configured) == "/" + partition + "/" + name
    ensures DisplayName("~" + partition + "~" + name, other, configured) == "/" + partition + "/" + name
    ensures DisplayName("/" + partition + "/" + name, other, configured) == "/" + partition + "/" + name
  {
    assert !StartsWith(name, "~");
    assert StartsWith("~" + partition + "~" + name, "~");
    assert StartsWith("/" + partition + "/" + name, "/");
    TildePair(partition, name);
  }
}
