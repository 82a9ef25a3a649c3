/** The client-side `contentIndex.json` payload: every entry without its
    `date` and `description`. */
module JsonIndex {
  import opened Wrappers
  import opened IndexMap

  /** An entry with its description and date removed. */
  function Strip(e: Entry): Entry
  {
    e.(date := None, description := None)
  }

  /** The object `Object.fromEntries` receives, as a new value. */
  function Simplify(idx: Index): (r: Index)
    ensures Keys(r) == Keys(idx)
    ensures forall i :: 0 <= i < |r| ==>
      && r[i].1.date.None? && r[i].1.description.None?
      && r[i].1.slug == idx[i].1.slug && r[i].1.filePath == idx[i].1.filePath
      && r[i].1.title == idx[i].1.title && r[i].1.links == idx[i].1.links
      && r[i].1.tags == idx[i].1.tags && r[i].1.content == idx[i].1.content
      && r[i].1.richContent == idx[i].1.richContent
  {
    seq(|idx|, i requires 0 <= i < |idx| => (idx[i].0, Strip(idx[i].1)))
  }

  /** Looking a slug up in the payload gives the stripped entry of the index,
      and the payload is still a map. */
  lemma SimplifyLookup(idx: Index, k: string)
    ensures UniqueKeys(idx) ==> UniqueKeys(Simplify(idx))
    ensures Lookup(Simplify(idx), k) ==
            if k in Keys(idx) then Some(Strip(Lookup(idx, k).value)) else None
  {
    var r := Simplify(idx);
    if k in Keys(idx) {
      var p := Position(idx, k);
      assert Position(r, k) == p by {
        assert Keys(r) == Keys(idx);
      }
    }
  }

  /** Projecting twice is projecting once. */
  lemma SimplifyIdempotent(idx: Index)
    ensures Simplify(Simplify(idx)) == Simplify(idx)
  {
  }
}
