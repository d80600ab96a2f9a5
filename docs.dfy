/** MongoDB collections as sequences of documents in natural (insertion)
    order, each document carrying its `_id`, and the single-document
    operations `findOne`, `updateOne` and `deleteOne` by `_id`. */
module Docs {
  import opened Common
  import opened Seqs

  datatype Doc<T> = Doc(id: Id, val: T)

  function Ids<T>(docs: seq<Doc<T>>): set<Id> {
    set i | 0 <= i < |docs| :: docs[i].id
  }

  lemma IdsCons<T>(docs: seq<Doc<T>>)
    requires docs != []
    ensures Ids(docs) == {docs[0].id} + Ids(docs[1..])
  {
    forall id | id in Ids(docs) ensures id in {docs[0].id} + Ids(docs[1..]) {
      var i :| 0 <= i < |docs| && docs[i].id == id;
      if i > 0 { assert docs[1..][i - 1].id == id; }
    }
    forall id | id in Ids(docs[1..]) ensures id in Ids(docs) {
      var i :| 0 <= i < |docs[1..]| && docs[1..][i].id == id;
      assert docs[i + 1].id == id;
    }
  }

  /** No two documents of a collection share an `_id`. */
  predicate UniqueIds<T>(docs: seq<Doc<T>>) {
    forall i, j :: 0 <= i < j < |docs| ==> docs[i].id != docs[j].id
  }

  /** Every `_id` was allocated before `next`. */
  predicate IdsBelow<T>(docs: seq<Doc<T>>, next: nat) {
    forall i :: 0 <= i < |docs| ==> docs[i].id < next
  }

  /** `findOne({ _id: id })`. */
  function Find<T>(docs: seq<Doc<T>>, id: Id): (r: Option<T>)
    ensures r.None? <==> id !in Ids(docs)
    ensures r.Some? ==> Doc(id, r.value) in docs
  {
    if docs == [] then None
    else
      IdsCons(docs);
      if docs[0].id == id then Some(docs[0].val)
      else Find(docs[1..], id)
  }

  /** `deleteOne({ _id: id })`: removes the first document with that `_id`. */
  function Without<T>(docs: seq<Doc<T>>, id: Id): (r: seq<Doc<T>>)
    ensures |r| == if id in Ids(docs) then |docs| - 1 else |docs|
  {
    if docs == [] then []
    else
      IdsCons(docs);
      if docs[0].id == id then docs[1..]
      else [docs[0]] + Without(docs[1..], id)
  }

  /** `updateOne({ _id: id }, ...)`: rewrites the first document with that `_id`. */
  function Update<T>(docs: seq<Doc<T>>, id: Id, f: T -> T): (r: seq<Doc<T>>)
    ensures |r| == |docs|
    ensures forall i :: 0 <= i < |docs| ==> r[i].id == docs[i].id
  {
    if docs == [] then []
    else if docs[0].id == id then [Doc(id, f(docs[0].val))] + docs[1..]
    else [docs[0]] + Update(docs[1..], id, f)
  }

  /** Appending a document with a fresh `_id` keeps the identifiers unique. */
  lemma AppendFresh<T>(docs: seq<Doc<T>>, next: nat, v: T)
    requires UniqueIds(docs) && IdsBelow(docs, next)
    ensures UniqueIds(docs + [Doc(next, v)]) && IdsBelow(docs + [Doc(next, v)], next + 1)
    ensures next !in Ids(docs)
    ensures Ids(docs + [Doc(next, v)]) == Ids(docs) + {next}
  {
    assert (docs + [Doc(next, v)])[|docs|].id == next;
    forall id | id in Ids(docs + [Doc(next, v)]) ensures id in Ids(docs) + {next} {
      var i :| 0 <= i < |docs| + 1 && (docs + [Doc(next, v)])[i].id == id;
      if i < |docs| { assert docs[i].id == id; }
    }
    forall id | id in Ids(docs) ensures id in Ids(docs + [Doc(next, v)]) {
      var i :| 0 <= i < |docs| && docs[i].id == id;
      assert (docs + [Doc(next, v)])[i].id == id;
    }
  }

  /** Deleting by `_id` removes exactly that identifier and keeps every other
      document. */
  lemma {:induction false} WithoutSpec<T>(docs: seq<Doc<T>>, id: Id)
    requires UniqueIds(docs)
    ensures Ids(Without(docs, id)) == Ids(docs) - {id}
    ensures UniqueIds(Without(docs, id))
    ensures forall d :: d in Without(docs, id) <==> d in docs && d.id != id
  {
    if docs != [] {
      IdsCons(docs);
      WithoutSpec(docs[1..], id);
      if docs[0].id != id {
        var r := Without(docs, id);
        assert r == [docs[0]] + Without(docs[1..], id);
        IdsCons(r);
        assert r[1..] == Without(docs[1..], id);
        assert docs[0].id !in Ids(docs[1..]);
      } else {
        assert id !in Ids(docs[1..]);
      }
    }
  }

  /** Under unique identifiers, deleting by `_id` is filtering it out, so
      the other documents keep their order. */
  lemma {:induction false} WithoutIsFilter<T>(docs: seq<Doc<T>>, id: Id)
    requires UniqueIds(docs)
    ensures Without(docs, id) == Filter(docs, (d: Doc<T>) => d.id != id)
    ensures IsSubseq(Without(docs, id), docs)
  {
    FilterIsSubseq(docs, (d: Doc<T>) => d.id != id);
    if docs != [] {
      IdsCons(docs);
      if docs[0].id == id {
        assert id !in Ids(docs[1..]);
        FilterAll(docs[1..], (d: Doc<T>) => d.id != id);
      } else {
        WithoutIsFilter(docs[1..], id);
      }
    }
  }

  /** Under unique identifiers, the document found is the one stored under `id`. */
  lemma {:induction false} FindUnique<T>(docs: seq<Doc<T>>, i: nat)
    requires UniqueIds(docs) && i < |docs|
    ensures Find(docs, docs[i].id) == Some(docs[i].val)
  {
    if i > 0 {
      FindUnique(docs[1..], i - 1);
    }
  }

  /** Updating by `_id` rewrites that document and no other. */
  lemma {:induction false} UpdateSpec<T>(docs: seq<Doc<T>>, id: Id, f: T -> T)
    requires UniqueIds(docs)
    ensures UniqueIds(Update(docs, id, f))
    ensures Ids(Update(docs, id, f)) == Ids(docs)
    ensures forall i :: 0 <= i < |docs| ==>
      Update(docs, id, f)[i] == (if docs[i].id == id then Doc(id, f(docs[i].val)) else docs[i])
  {
    if docs != [] {
      IdsCons(docs);
      UpdateSpec(docs[1..], id, f);
      var r := Update(docs, id, f);
      IdsCons(r);
      if docs[0].id == id {
        assert id !in Ids(docs[1..]);
        assert r[1..] == docs[1..];
      } else {
        assert r[1..] == Update(docs[1..], id, f);
      }
    }
  }

  /** Updating keeps every identifier below the next one to be allocated. */
  lemma UpdateIdsBelow<T>(docs: seq<Doc<T>>, id: Id, f: T -> T, next: nat)
    requires IdsBelow(docs, next)
    ensures IdsBelow(Update(docs, id, f), next)
  {
    var r := Update(docs, id, f);
    forall i | 0 <= i < |r| ensures r[i].id < next {
      assert r[i].id == docs[i].id;
    }
  }

  /** Under unique identifiers, every stored document is the one found under
      its own identifier. */
  lemma FindMembers<T>(docs: seq<Doc<T>>)
    requires UniqueIds(docs)
    ensures forall d :: d in docs ==> Find(docs, d.id) == Some(d.val)
  {
    forall d | d in docs ensures Find(docs, d.id) == Some(d.val) {
      var i :| 0 <= i < |docs| && docs[i] == d;
      FindUnique(docs, i);
    }
  }
}
