/** Journal deduplication: what it means, the loop that computes it, and its algebra. */
module Deduplication {
  import opened Entities

  datatype Entry = Entry(clientOrderId: string, kind: string, payload: string)

  /** The last entry for `id`, if there is one. */
  function Last(es: seq<Entry>, id: string): Option<Entry> {
    if es == [] then None
    else if es[|es| - 1].clientOrderId == id then Some(es[|es| - 1])
    else Last(es[..|es| - 1], id)
  }

  /** The first `n` entries of `es`, each id at its first position, with the last entry that `es` has for it. */
  function Pick(es: seq<Entry>, n: nat): seq<Entry>
    requires n <= |es|
  {
    if n == 0 then []
    else
      var e := es[n - 1];
      if e.clientOrderId == "" then Pick(es, n - 1) + [e]
      else if Last(es[..n - 1], e.clientOrderId).Some? then Pick(es, n - 1)
      else Pick(es, n - 1) + [Last(es, e.clientOrderId).GetOr(e)]
  }

  /** Entries without an id are all kept, where they stand. */
  function Dedup(es: seq<Entry>): seq<Entry> { Pick(es, |es|) }

  /* ---------- One entry at a time ---------- */

  /** `r` with every entry for `e`'s id replaced by `e`. */
  function Replace(r: seq<Entry>, e: Entry): seq<Entry> {
    if r == [] then []
    else Replace(r[..|r| - 1], e) +
         [if e.clientOrderId != "" && r[|r| - 1].clientOrderId == e.clientOrderId then e else r[|r| - 1]]
  }

  /** What the loop does with the next entry. */
  function Put(r: seq<Entry>, e: Entry): seq<Entry> {
    if e.clientOrderId == "" || Last(r, e.clientOrderId).None? then r + [e] else Replace(r, e)
  }

  lemma ReplaceSnoc(r: seq<Entry>, x: Entry, e: Entry)
    ensures Replace(r + [x], e) == Replace(r, e) + [if e.clientOrderId != "" && x.clientOrderId == e.clientOrderId then e else x]
  {
    assert (r + [x])[..|r|] == r;
  }

  lemma LastSnoc(es: seq<Entry>, e: Entry, id: string)
    ensures Last(es + [e], id) == if e.clientOrderId == id then Some(e) else Last(es, id)
  {
    assert (es + [e])[..|es|] == es;
  }

  /** A later entry only replaces what was picked for its own id. */
  lemma {:induction false} PickSnoc(es: seq<Entry>, e: Entry, n: nat)
    requires n <= |es|
    ensures Pick(es + [e], n) == Replace(Pick(es, n), e)
  {
    if n != 0 {
      PickSnoc(es, e, n - 1);
      var x := es[n - 1];
      assert (es + [e])[n - 1] == x && (es + [e])[..n - 1] == es[..n - 1];
      LastSnoc(es, e, x.clientOrderId);
      LastFound(es, n - 1);
      ReplaceSnoc(Pick(es, n - 1), if x.clientOrderId == "" then x else Last(es, x.clientOrderId).GetOr(x), e);
    }
  }

  lemma {:induction false} LastFound(es: seq<Entry>, i: nat)
    requires i < |es|
    ensures Last(es, es[i].clientOrderId).Some? && Last(es, es[i].clientOrderId).value.clientOrderId == es[i].clientOrderId
  {
    if i != |es| - 1 { LastFound(es[..|es| - 1], i); }
    LastIs(es, es[i].clientOrderId);
  }

  lemma {:induction false} LastIs(es: seq<Entry>, id: string)
    ensures Last(es, id).Some? ==> Last(es, id).value in es && Last(es, id).value.clientOrderId == id
  {
    if es != [] { LastIs(es[..|es| - 1], id); }
  }

  lemma {:induction false} LastReplace(r: seq<Entry>, e: Entry, id: string)
    requires id != ""
    ensures Last(Replace(r, e), id) == if id == e.clientOrderId && Last(r, id).Some? then Some(e) else Last(r, id)
  {
    if r != [] {
      var n := |r| - 1;
      LastReplace(r[..n], e, id);
      LastSnoc(Replace(r[..n], e), if e.clientOrderId != "" && r[n].clientOrderId == e.clientOrderId then e else r[n], id);
    }
  }

  /** Deduplication forgets nothing about the latest entry of an id. */
  lemma {:induction false} LastDedup(es: seq<Entry>, id: string)
    requires id != ""
    ensures Last(Dedup(es), id) == Last(es, id)
  {
    if es != [] {
      var n := |es| - 1;
      LastDedup(es[..n], id);
      assert es == es[..n] + [es[n]];
      LastDedup(es[..n], if es[n].clientOrderId == "" then id else es[n].clientOrderId);
      DedupPut(es[..n], es[n]);
      LastReplace(Dedup(es[..n]), es[n], id);
      LastSnoc(Dedup(es[..n]), es[n], id);
    }
  }

  /** The specification, one entry further. */
  lemma {:induction false} DedupPut(es: seq<Entry>, e: Entry)
    ensures Dedup(es + [e]) == Put(Dedup(es), e)
    decreases |es|, 1
  {
    var id := e.clientOrderId;
    PickSnoc(es, e, |es|);
    assert (es + [e])[..|es|] == es;
    LastSnoc(es, e, id);
    if id == "" {
      ReplaceNothing(Dedup(es), e);
    } else {
      KnownAfterDedup(es, id);
      if Last(es, id).None? { ReplaceNothing(Dedup(es), e); }
    }
  }

  lemma {:induction false} ReplaceNothing(r: seq<Entry>, e: Entry)
    requires e.clientOrderId == "" || Last(r, e.clientOrderId).None?
    ensures Replace(r, e) == r
  {
    if r != [] { ReplaceNothing(r[..|r| - 1], e); }
  }

  /** Deduplication keeps exactly the ids it was given. */
  lemma {:induction false} KnownAfterDedup(es: seq<Entry>, id: string)
    requires id != ""
    ensures Last(Dedup(es), id).Some? <==> Last(es, id).Some?
    decreases |es|, 0
  {
    if es != [] {
      var n := |es| - 1;
      assert es == es[..n] + [es[n]];
      KnownAfterDedup(es[..n], id);
      DedupPut(es[..n], es[n]);
      LastSnoc(Dedup(es[..n]), es[n], id);
      LastReplace(Dedup(es[..n]), es[n], id);
      LastSnoc(es[..n], es[n], id);
      if es[n].clientOrderId != "" { KnownAfterDedup(es[..n], es[n].clientOrderId); }
    }
  }

  /* ---------- The algebra ---------- */

  ghost predicate Distinct(r: seq<Entry>) {
    forall i, j :: 0 <= i < j < |r| && r[i].clientOrderId == r[j].clientOrderId ==> r[i].clientOrderId == ""
  }

  lemma {:induction false} LastNone(r: seq<Entry>, id: string)
    ensures Last(r, id).None? <==> forall i :: 0 <= i < |r| ==> r[i].clientOrderId != id
  {
    if r != [] { LastNone(r[..|r| - 1], id); }
  }

  lemma {:induction false} ReplaceAt(r: seq<Entry>, e: Entry)
    ensures |Replace(r, e)| == |r|
    ensures forall i :: 0 <= i < |r| ==>
              Replace(r, e)[i] == if e.clientOrderId != "" && r[i].clientOrderId == e.clientOrderId then e else r[i]
  {
    if r != [] { ReplaceAt(r[..|r| - 1], e); }
  }

  lemma PutDistinct(r: seq<Entry>, e: Entry)
    requires Distinct(r)
    ensures Distinct(Put(r, e))
  {
    ReplaceAt(r, e);
    LastNone(r, e.clientOrderId);
  }

  lemma {:induction false} DedupDistinct(es: seq<Entry>)
    ensures Distinct(Dedup(es))
  {
    if es != [] {
      var n := |es| - 1;
      DedupDistinct(es[..n]);
      assert es == es[..n] + [es[n]];
      DedupPut(es[..n], es[n]);
      PutDistinct(Dedup(es[..n]), es[n]);
    }
  }

  lemma {:induction false} DistinctUnchanged(r: seq<Entry>)
    requires Distinct(r)
    ensures Dedup(r) == r
  {
    if r != [] {
      var n := |r| - 1;
      DistinctUnchanged(r[..n]);
      assert r == r[..n] + [r[n]];
      DedupPut(r[..n], r[n]);
      LastNone(r[..n], r[n].clientOrderId);
    }
  }

  lemma Idempotent(es: seq<Entry>)
    ensures Dedup(Dedup(es)) == Dedup(es)
  {
    DedupDistinct(es);
    DistinctUnchanged(Dedup(es));
  }

  /** Deduplicating a prefix first makes no difference. */
  lemma {:induction false} PrefixFirst(a: seq<Entry>, b: seq<Entry>)
    ensures Dedup(a + b) == Dedup(Dedup(a) + b)
  {
    if b == [] {
      assert a + b == a && Dedup(a) + b == Dedup(a);
      Idempotent(a);
    } else {
      var n := |b| - 1;
      PrefixFirst(a, b[..n]);
      assert a + b == (a + b[..n]) + [b[n]];
      assert Dedup(a) + b == (Dedup(a) + b[..n]) + [b[n]];
      DedupPut(a + b[..n], b[n]);
      DedupPut(Dedup(a) + b[..n], b[n]);
    }
  }

  /** Entries of `b` are later than those of `a`. */
  lemma {:induction false} LastConcat(a: seq<Entry>, b: seq<Entry>, id: string)
    ensures Last(a + b, id) == if Last(b, id).Some? then Last(b, id) else Last(a, id)
  {
    if b == [] {
      assert a + b == a;
    } else {
      assert (a + b)[..|a + b| - 1] == a + b[..|b| - 1];
      LastConcat(a, b[..|b| - 1], id);
    }
  }
}
