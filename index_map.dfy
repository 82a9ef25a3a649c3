/** The content index: a JavaScript `Map` from slug to entry, which keeps its
    keys in first-insertion order. */
module IndexMap {
  import opened Wrappers

  /** `ContentDetails`: one index entry. Absent optional fields are `None`. */
  datatype Entry = Entry(
    slug: string,
    filePath: string,
    title: string,
    links: seq<string>,
    tags: seq<string>,
    content: string,
    richContent: Option<string>,
    date: Option<int>,
    description: Option<string>)

  /** The map's entries in iteration order (`Array.from(idx)`). */
  type Index = seq<(string, Entry)>

  function Keys(idx: Index): (ks: seq<string>)
    ensures |ks| == |idx|
    ensures forall i :: 0 <= i < |idx| ==> ks[i] == idx[i].0
  {
    seq(|idx|, i requires 0 <= i < |idx| => idx[i].0)
  }

  /** What a `Map` always satisfies: no key occurs twice. */
  predicate UniqueKeys(idx: Index)
  {
    forall i, j :: 0 <= i < j < |idx| ==> idx[i].0 != idx[j].0
  }

  /** The position of key `k`. */
  function Position(idx: Index, k: string): (p: nat)
    requires k in Keys(idx)
    ensures p < |idx| && idx[p].0 == k
    ensures forall j :: 0 <= j < p ==> idx[j].0 != k
  {
    if idx[0].0 == k then 0
    else
      assert k in Keys(idx[1..]) by {
        var i :| 0 <= i < |idx| && Keys(idx)[i] == k;
        assert Keys(idx[1..])[i - 1] == k;
      }
      1 + Position(idx[1..], k)
  }

  /** The entry stored under `k`, if any. */
  function Lookup(idx: Index, k: string): (r: Option<Entry>)
    ensures r.Some? <==> k in Keys(idx)
    ensures r.Some? ==> r == Some(idx[Position(idx, k)].1)
  {
    if k in Keys(idx) then Some(idx[Position(idx, k)].1) else None
  }

  /** `idx.set(k, v)`: a new key goes at the end; an existing key keeps its
      place and gets the new value. */
  function Set(idx: Index, k: string, v: Entry): (r: Index)
    ensures Keys(r) == if k in Keys(idx) then Keys(idx) else Keys(idx) + [k]
    ensures UniqueKeys(idx) ==> UniqueKeys(r)
    ensures UniqueKeys(idx) ==> Lookup(r, k) == Some(v)
    ensures UniqueKeys(idx) ==> forall k' :: k' != k ==> Lookup(r, k') == Lookup(idx, k')
  {
    if k in Keys(idx) then idx[Position(idx, k) := (k, v)] else idx + [(k, v)]
  }

  /** In a map, the lookup of an entry's own key gives that entry. */
  lemma LookupAt(idx: Index, i: nat)
    requires UniqueKeys(idx) && i < |idx|
    ensures Lookup(idx, idx[i].0) == Some(idx[i].1)
  {
    assert idx[i].0 in Keys(idx) by { assert Keys(idx)[i] == idx[i].0; }
  }
}
