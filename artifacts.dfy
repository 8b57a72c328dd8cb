/** The two artifact stores of a session (`syllabus_files` and `pyq_files`):
    Python dicts from an artifact name (an uploaded file name, or one of the
    fixed names "PDFs", "Images", "Manual Entry") to extracted text. A dict
    keeps insertion order, so a store is a sequence of (name, text) pairs with
    unique names; `AsMap` is the dict's key/value view and `Keys` its order. */
module Artifacts {
  import opened Wrappers
  import opened Text

  type Entry = (string, string)
  type Store = seq<Entry>

  /** `list(d.keys())`. */
  function Keys(s: Store): (r: seq<string>)
  {
    seq(|s|, i requires 0 <= i < |s| => s[i].0)
  }

  /** A key is in the map view exactly when it is one of the keys. */
  lemma {:induction false} AsMapDomain(s: Store)
    ensures forall k :: k in AsMap(s) <==> k in Keys(s)
  {
    if s != [] {
      AsMapDomain(s[..|s| - 1]);
      assert Keys(s) == Keys(s[..|s| - 1]) + [s[|s| - 1].0];
    }
  }

  /** `list(d.values())`. */
  function Values(s: Store): (r: seq<string>)
  {
    seq(|s|, i requires 0 <= i < |s| => s[i].1)
  }

  /** A dict never holds the same key twice. */
  predicate UniqueKeys(s: Store) {
    forall i, j :: 0 <= i < j < |s| ==> s[i].0 != s[j].0
  }

  /** The dict as a finite map (a later pair would win, as in `dict(pairs)`). */
  function AsMap(s: Store): (m: map<string, string>)
  {
    if s == [] then map[] else AsMap(s[..|s| - 1])[s[|s| - 1].0 := s[|s| - 1].1]
  }

  /** Where key `k` sits in insertion order. */
  function KeyIndex(s: Store, k: string): (i: nat)
    requires k in Keys(s)
    ensures i < |s| && s[i].0 == k
  {
    var j :| 0 <= j < |s| && Keys(s)[j] == k;
    if s[|s| - 1].0 == k then |s| - 1
    else
      assert Keys(s[..|s| - 1])[j] == k;
      KeyIndex(s[..|s| - 1], k)
  }

  /** With unique keys, every pair is what the map says for its key. */
  lemma {:induction false} AsMapAt(s: Store, i: nat)
    requires UniqueKeys(s) && i < |s|
    ensures s[i].0 in AsMap(s) && AsMap(s)[s[i].0] == s[i].1
  {
    if i < |s| - 1 {
      AsMapAt(s[..|s| - 1], i);
    }
  }

  /** Replacing the pair at the index of `k` is the map update `[k := v]`. */
  lemma {:induction false} AsMapReplace(s: Store, i: nat, v: string)
    requires UniqueKeys(s) && i < |s|
    ensures AsMap(s[i := (s[i].0, v)]) == AsMap(s)[s[i].0 := v]
  {
    var t := s[i := (s[i].0, v)];
    if i < |s| - 1 {
      assert t[..|t| - 1] == s[..|s| - 1][i := (s[i].0, v)];
      AsMapReplace(s[..|s| - 1], i, v);
    } else {
      assert t[..|t| - 1] == s[..|s| - 1];
    }
  }

  /** Updating one key and removing another commute. */
  lemma UpdateRemoveCommute(m: map<string, string>, a: string, v: string, k: string)
    requires a != k
    ensures m[a := v] - {k} == (m - {k})[a := v]
  {
  }

  /** Dropping the pair at the index of `k` is the map removal `- {k}`. */
  lemma {:induction false} AsMapDrop(s: Store, i: nat)
    requires UniqueKeys(s) && i < |s|
    ensures AsMap(s[..i] + s[i + 1..]) == AsMap(s) - {s[i].0}
  {
    var t := s[..i] + s[i + 1..];
    var k := s[i].0;
    var p := s[..|s| - 1];
    var last := s[|s| - 1];
    if i == |s| - 1 {
      assert t == p;
      AsMapDomain(p);
      assert k !in AsMap(p);
    } else {
      assert t[..|t| - 1] == p[..i] + p[i + 1..];
      assert t[|t| - 1] == last;
      assert last.0 != k;
      AsMapDrop(p, i);
      UpdateRemoveCommute(AsMap(p), last.0, last.1, k);
    }
  }

  /** Appending a pair whose key is new keeps the keys unique. */
  lemma AppendUnique(s: Store, k: string, v: string)
    requires UniqueKeys(s) && k !in Keys(s)
    ensures UniqueKeys(s + [(k, v)])
  {
    forall i | 0 <= i < |s| ensures s[i].0 != k {
      assert Keys(s)[i] == s[i].0;
    }
  }

  /** `d[k] = v`: overwrites in place when `k` is present, appends otherwise. */
  function Put(s: Store, k: string, v: string): (r: Store)
    requires UniqueKeys(s)
    ensures UniqueKeys(r)
    ensures |r| == if k in Keys(s) then |s| else |s| + 1
  {
    if k in Keys(s) then
      var i := KeyIndex(s, k);
      assert Keys(s[i := (k, v)]) == Keys(s);
      s[i := (k, v)]
    else
      AppendUnique(s, k, v);
      s + [(k, v)]
  }

  /** After `d[k] = v` the dict maps `k` to `v` and is otherwise unchanged; a
      new key goes last, an existing one keeps its place. */
  lemma PutSpec(s: Store, k: string, v: string)
    requires UniqueKeys(s)
    ensures AsMap(Put(s, k, v)) == AsMap(s)[k := v]
    ensures Keys(Put(s, k, v)) == if k in Keys(s) then Keys(s) else Keys(s) + [k]
  {
    if k in Keys(s) {
      var i := KeyIndex(s, k);
      AsMapReplace(s, i, v);
      assert Keys(s[i := (k, v)]) == Keys(s);
    } else {
      assert (s + [(k, v)])[..|s|] == s;
    }
  }

  /** The upload rule: insert only when the key is absent. */
  function AddIfAbsent(s: Store, k: string, v: string): (r: Store)
    requires UniqueKeys(s)
    ensures UniqueKeys(r)
    ensures AsMap(r) == if k in AsMap(s) then AsMap(s) else AsMap(s)[k := v]
    ensures Keys(r) == if k in Keys(s) then Keys(s) else Keys(s) + [k]
  {
    AsMapDomain(s);
    if k in Keys(s) then s else Put(s, k, v)
  }

  /** `del d[k]` (a no-op when `k` is absent, as the delete button only exists for present keys). */
  function Remove(s: Store, k: string): (r: Store)
    requires UniqueKeys(s)
    ensures UniqueKeys(r)
    ensures AsMap(r) == AsMap(s) - {k}
    ensures k in Keys(s) ==> r == s[..KeyIndex(s, k)] + s[KeyIndex(s, k) + 1..]
    ensures k !in Keys(s) ==> r == s
  {
    if k in Keys(s) then
      var i := KeyIndex(s, k);
      AsMapDrop(s, i);
      s[..i] + s[i + 1..]
    else
      AsMapDomain(s);
      assert AsMap(s) - {k} == AsMap(s);
      s
  }

  /** `"\n".join(d.values())`: the merged context handed to the model. */
  function MergedText(s: Store): (r: string) {
    Join(Values(s), "\n")
  }

  /** Merged text follows insertion order: a newly added artifact lands at the end. */
  lemma MergedTextAppend(s: Store, k: string, v: string)
    requires UniqueKeys(s) && k !in Keys(s)
    ensures MergedText(AddIfAbsent(s, k, v)) == if s == [] then v else MergedText(s) + "\n" + v
  {
    var r := AddIfAbsent(s, k, v);
    assert r == s + [(k, v)];
    assert Values(r) == Values(s) + [v];
    JoinSnoc(Values(s), v, "\n");
  }

  /** Overwriting keeps the artifact's place in the merged text. */
  lemma PutKeepsOrder(s: Store, k: string, v: string)
    requires UniqueKeys(s) && k in Keys(s)
    ensures Values(Put(s, k, v)) == Values(s)[KeyIndex(s, k) := v]
  {
  }
}
