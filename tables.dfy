/** A Python `dict[str, dict]` as the fake device uses it: a map from keys to
    records plus the order in which the keys were first inserted, which is the
    order `dict.values()` lists them in. */
module Tables {
  import opened Wrappers
  import opened Json

  datatype Table = Table(order: seq<string>, rows: map<string, Record>)

  const Empty: Table := Table([], map[])

  /** `key in table`. Invariants over a table's rows are stated through this
      predicate, so that the verifier applies them to the keys a proof names
      rather than to every key in sight. */
  ghost predicate Has(t: Table, k: string) {
    k in t.rows
  }

  /** Every key is listed once, and the listed keys are exactly the stored ones. */
  ghost predicate WellFormed(t: Table) {
    && Distinct(t.order)
    && (forall k {:trigger Has(t, k)} :: Has(t, k) <==> k in t.order)
  }

  /** No element occurs twice. */
  ghost predicate Distinct(s: seq<string>) {
    forall i, j :: 0 <= i < j < |s| ==> s[i] != s[j]
  }

  /** `table.get(key)`. */
  function Lookup(t: Table, key: string): (r: Option<Record>)
    ensures r.Some? <==> key in t.rows
    ensures r.Some? ==> r.value == t.rows[key]
  {
    if key in t.rows then Some(t.rows[key]) else None
  }

  /** `if record:` after `table.get(key)`: present and not the empty dict. */
  predicate Found(t: Table, key: string) {
    key in t.rows && t.rows[key] != map[]
  }

  /** `table[key] = record`: an existing key keeps its place, a new one goes last. */
  function Put(t: Table, key: string, record: Record): Table {
    Table(if key in t.rows then t.order else t.order + [key], t.rows[key := record])
  }

  /** `s` without the occurrences of `key`, the rest in order. */
  function Without(s: seq<string>, key: string): (r: seq<string>)
    ensures forall x :: x in r <==> x in s && x != key
    ensures |r| <= |s|
  {
    if s == [] then []
    else (if s[0] == key then [] else [s[0]]) + Without(s[1..], key)
  }

  /** `table.pop(key, None)`: removes the key if it is there. */
  function Pop(t: Table, key: string): Table {
    if key in t.rows then Table(Without(t.order, key), t.rows - {key}) else t
  }

  /** `list(table.values())`: the records in insertion order. */
  function Items(t: Table): (r: seq<Record>)
    ensures |r| == |t.order|
  {
    seq(|t.order|, i requires 0 <= i < |t.order| =>
      if t.order[i] in t.rows then t.rows[t.order[i]] else map[])
  }

  /** Storing a record keeps the table well formed. An existing key keeps its
      place and the table keeps its size; a new key is appended. */
  lemma PutWellFormed(t: Table, key: string, record: Record)
    requires WellFormed(t)
    ensures WellFormed(Put(t, key, record))
    ensures key in Put(t, key, record).rows && Put(t, key, record).rows[key] == record
    ensures forall k :: k != key ==> Lookup(Put(t, key, record), k) == Lookup(t, k)
    ensures key in t.rows ==> Put(t, key, record).order == t.order
    ensures key !in t.rows ==> Put(t, key, record).order == t.order + [key]
  {
    var t' := Put(t, key, record);
    assert Has(t, key) <==> key in t.order;
    forall k ensures Has(t', k) <==> k in t'.order {
      assert Has(t, k) <==> k in t.order;
    }
  }

  /** Replacing the record of a present key changes that one entry of the
      listing; storing a new key appends its record to the listing. */
  lemma PutItems(t: Table, key: string, record: Record)
    requires WellFormed(t)
    ensures key in t.rows ==> forall i :: 0 <= i < |t.order| ==>
              Items(Put(t, key, record))[i] == (if t.order[i] == key then record else Items(t)[i])
    ensures key !in t.rows ==> Items(Put(t, key, record)) == Items(t) + [record]
  {
    forall i | 0 <= i < |t.order| ensures t.order[i] in t.rows {
      assert Has(t, t.order[i]) <==> t.order[i] in t.order;
    }
    assert Has(t, key) <==> key in t.order;
  }

  /** Removing a distinct element from distinct elements leaves them distinct. */
  lemma {:induction false} WithoutDistinct(s: seq<string>, key: string)
    requires Distinct(s)
    ensures Distinct(Without(s, key))
    ensures key in s ==> |Without(s, key)| == |s| - 1
    ensures key !in s ==> Without(s, key) == s
  {
    if s != [] {
      WithoutDistinct(s[1..], key);
      var rest := Without(s[1..], key);
      assert s[0] !in s[1..] by {
        forall j | 0 <= j < |s[1..]| ensures s[1..][j] != s[0] {
          assert s[1..][j] == s[j + 1];
        }
      }
      assert s[0] !in rest;
      if s[0] != key {
        var r := [s[0]] + rest;
        forall i, j | 0 <= i < j < |r| ensures r[i] != r[j] {
          if i > 0 {
            assert r[i] == rest[i - 1] && r[j] == rest[j - 1];
          } else {
            assert r[j] == rest[j - 1];
          }
        }
        if key !in s {
          assert [s[0]] + s[1..] == s;
        }
      } else {
        assert key !in s[1..];
      }
    }
  }

  /** Removing a key keeps the table well formed, drops that key and keeps
      every other entry; removing an absent key changes nothing. */
  lemma PopWellFormed(t: Table, key: string)
    requires WellFormed(t)
    ensures WellFormed(Pop(t, key))
    ensures key !in Pop(t, key).rows
    ensures forall k :: k != key ==> Lookup(Pop(t, key), k) == Lookup(t, k)
    ensures key in t.rows ==> |Pop(t, key).order| == |t.order| - 1
    ensures key !in t.rows ==> Pop(t, key) == t
  {
    WithoutDistinct(t.order, key);
    var t' := Pop(t, key);
    assert Has(t, key) <==> key in t.order;
    forall k ensures Has(t', k) <==> k in t'.order {
      assert Has(t, k) <==> k in t.order;
    }
  }

  /** Storing under a key twice keeps only the second record, in the place
      the key first took. */
  lemma PutTwice(t: Table, key: string, first: Record, second: Record)
    ensures Put(Put(t, key, first), key, second) == Put(t, key, second)
  {
  }

  /** Removing twice is removing once. */
  lemma PopIdempotent(t: Table, key: string)
    ensures Pop(Pop(t, key), key) == Pop(t, key)
  {
  }
}
