/** Versioned upserts into the catalogue index (packages/acip_sync/ingest.py).
    The index keeps, per document id, a version and a body; a write that carries
    an external version is refused when the index already holds a newer one. */
module Ingest {
  import opened Timestamps
  import opened Wrappers

  datatype Stored = Stored(version: int, body: string)

  type Index = map<string, Stored>

  datatype Write = Write(id: string, version: Option<int>, body: string)

  datatype Product = Product(tenant: string, product: string, body: string, updatedAt: string)

  function DocId(tenant: string, product: string): string {
    tenant + ":" + product
  }

  /** Ids of different products differ while tenant ids hold no ':'. */
  lemma DocIdInjective(t: string, p: string, u: string, q: string)
    requires ':' !in t && ':' !in u
    ensures DocId(t, p) == DocId(u, q) <==> t == u && p == q
  {
    assert DocId(t, p) == t + (":" + p) && DocId(u, q) == u + (":" + q);
    BeforeStops(t, ":" + p, ':');
    BeforeStops(u, ":" + q, ':');
    assert p == DocId(t, p)[|t| + 1..] && q == DocId(u, q)[|u| + 1..];
  }

  /** With a ':' inside a tenant id two products can share a document. */
  lemma DocIdCollides(t: string, u: string, p: string)
    ensures DocId(t + ":" + u, p) == DocId(t, u + ":" + p)
  {
  }

  lemma PrefixWithColon(t: string, p: string, u: string, q: string)
    requires |t| < |u| && DocId(t, p) == DocId(u, q)
    ensures t + ":" <= u
  {
    assert forall i :: 0 <= i < |t| + 1 ==> DocId(t, p)[i] == (t + ":")[i];
    assert forall i :: 0 <= i < |u| ==> DocId(u, q)[i] == u[i];
  }

  lemma SameLengthSameTenant(t: string, p: string, u: string, q: string)
    requires |t| == |u| && DocId(t, p) == DocId(u, q)
    ensures t == u
  {
    assert t == DocId(t, p)[..|t|] && u == DocId(u, q)[..|u|];
  }

  /** Two tenants can share a document exactly when one's id is the other's, a ':' and
      perhaps more. */
  lemma DocIdsCollideIff(t: string, u: string)
    requires t != u
    ensures (exists p, q :: DocId(t, p) == DocId(u, q)) <==> t + ":" <= u || u + ":" <= t
  {
    if p, q :| DocId(t, p) == DocId(u, q) {
      if |t| < |u| {
        PrefixWithColon(t, p, u, q);
      } else if |u| < |t| {
        PrefixWithColon(u, q, t, p);
      } else {
        SameLengthSameTenant(t, p, u, q);
      }
    }
    if t + ":" <= u {
      DocIdCollides(t, u[|t| + 1..], "");
      assert u == t + ":" + u[|t| + 1..];
    } else if u + ":" <= t {
      DocIdCollides(u, t[|u| + 1..], "");
      assert t == u + ":" + t[|u| + 1..];
    }
  }

  /** Does the index refuse the write as stale (the version_conflict error)? */
  predicate Conflict(docs: Index, w: Write) {
    w.version.Some? && w.id in docs && w.version.value < docs[w.id].version
  }

  /** The index's own numbering when the write carries no version. */
  function NextVersion(docs: Index, id: string): int {
    if id in docs then docs[id].version + 1 else 1
  }

  function Apply(docs: Index, w: Write): Index {
    if Conflict(docs, w) then docs
    else docs[w.id := Stored(if w.version.Some? then w.version.value else NextVersion(docs, w.id), w.body)]
  }

  function WriteOf(p: Product, local: int): Write {
    Write(DocId(p.tenant, p.product), if p.updatedAt == "" then None else VersionFrom(p.updatedAt, local), p.body)
  }

  /** The index as the ingest code drives it. */
  class Catalogue {
    var docs: Index

    constructor ()
      ensures docs == map[]
    {
      docs := map[];
    }

    /** `es.index`, raising on a version conflict. */
    method Put(w: Write) returns (conflict: bool)
      modifies this
      ensures conflict == Conflict(old(docs), w)
      ensures docs == Apply(old(docs), w)
    {
      conflict := Conflict(docs, w);
      if !conflict {
        var version := if w.version.Some? then w.version.value else NextVersion(docs, w.id);
        docs := docs[w.id := Stored(version, w.body)];
      }
    }

    /** `upsert_product`: a conflict is swallowed, since a newer document won. */
    method UpsertProduct(p: Product, local: int)
      modifies this
      ensures docs == Apply(old(docs), WriteOf(p, local))
    {
      var conflict := Put(WriteOf(p, local));
    }

    /** `tombstone_product`: deleting a missing document is not an error. */
    method TombstoneProduct(tenant: string, product: string)
      modifies this
      ensures docs == old(docs) - {DocId(tenant, product)}
    {
      docs := docs - {DocId(tenant, product)};
    }
  }

  // ---- any order, any duplication -----------------------------------------------------

  function Deliver(docs: Index, ws: seq<Write>): Index {
    if ws == [] then docs else Apply(Deliver(docs, ws[..|ws| - 1]), ws[|ws| - 1])
  }

  predicate Versioned(ws: seq<Write>) {
    forall w :: w in ws ==> w.version.Some?
  }

  /** The version of a document determines its content, in the index and in
      every event. */
  ghost predicate VersionDeterminesBody(docs: Index, ws: seq<Write>) {
    && (forall v, w :: v in ws && w in ws && v.id == w.id && v.version == w.version ==> v.body == w.body)
    && (forall w :: w in ws && w.id in docs && w.version == Some(docs[w.id].version) ==> w.body == docs[w.id].body)
  }

  /** r holds, per document, the highest version among docs and ws. */
  ghost predicate Highest(docs: Index, ws: seq<Write>, r: Index) {
    && (forall id :: id in docs ==> id in r && r[id].version >= docs[id].version)
    && (forall w :: w in ws ==> w.id in r && w.version.Some? && r[w.id].version >= w.version.value)
    && (forall id :: id in r ==> (id in docs && r[id] == docs[id]) || Write(id, Some(r[id].version), r[id].body) in ws)
  }

  lemma ApplyKeepsHighest(docs: Index, ws: seq<Write>, d: Index, w: Write)
    requires Highest(docs, ws, d) && w.version.Some?
    ensures Highest(docs, ws + [w], Apply(d, w))
  {
  }

  /** Delivery in any order keeps the highest version of every document. */
  lemma {:induction false} DeliverKeepsHighest(docs: Index, ws: seq<Write>)
    requires Versioned(ws)
    ensures Highest(docs, ws, Deliver(docs, ws))
  {
    if ws != [] {
      var init, w := ws[..|ws| - 1], ws[|ws| - 1];
      assert ws == init + [w];
      DeliverKeepsHighest(docs, init);
      ApplyKeepsHighest(docs, init, Deliver(docs, init), w);
    }
  }

  lemma HighestUnique(docs: Index, ws: seq<Write>, r: Index, q: Index)
    requires VersionDeterminesBody(docs, ws) && Highest(docs, ws, r) && Highest(docs, ws, q)
    ensures r == q
  {
  }

  /** Two deliveries of the same events, in any order and with any repetition,
      leave the same index. */
  lemma IngestOrderIndependent(docs: Index, ws: seq<Write>, vs: seq<Write>)
    requires Versioned(ws) && VersionDeterminesBody(docs, ws)
    requires forall w :: w in ws <==> w in vs
    ensures Deliver(docs, ws) == Deliver(docs, vs)
  {
    DeliverKeepsHighest(docs, ws);
    DeliverKeepsHighest(docs, vs);
    HighestUnique(docs, ws, Deliver(docs, ws), Deliver(docs, vs));
  }

  // ---- writes without a version ----------------------------------------------------------

  /** After any deliveries, a write without a version replaces its document, whatever
      version that had, and touches no other. */
  lemma LastUnversionedWins(docs: Index, ws: seq<Write>, w: Write)
    requires w.version.None?
    ensures var before, after := Deliver(docs, ws), Deliver(docs, ws + [w]);
            && w.id in after && after[w.id].body == w.body
            && (w.id in before ==> after[w.id].version > before[w.id].version)
            && after - {w.id} == before - {w.id}
  {
    assert (ws + [w])[..|ws|] == ws;
  }

  predicate Unversioned(ws: seq<Write>) {
    forall w :: w in ws ==> w.version.None?
  }

  function WritesTo(ws: seq<Write>, id: string): nat {
    if ws == [] then 0 else WritesTo(ws[..|ws| - 1], id) + if ws[|ws| - 1].id == id then 1 else 0
  }

  /** What was last written to a document. */
  function LastBody(ws: seq<Write>, id: string): string
    requires WritesTo(ws, id) > 0
  {
    if ws[|ws| - 1].id == id then ws[|ws| - 1].body else LastBody(ws[..|ws| - 1], id)
  }

  function VersionIn(docs: Index, id: string): int {
    if id in docs then docs[id].version else 0
  }

  lemma {:induction false} UnversionedDelivery(docs: Index, ws: seq<Write>, id: string)
    requires Unversioned(ws)
    ensures var r, n := Deliver(docs, ws), WritesTo(ws, id);
            if n == 0 then (id in r <==> id in docs) && (id in docs ==> r[id] == docs[id])
            else id in r && r[id] == Stored(VersionIn(docs, id) + n, LastBody(ws, id))
  {
    if ws != [] {
      var init, w := ws[..|ws| - 1], ws[|ws| - 1];
      assert w in ws && forall x :: x in init ==> x in ws;
      UnversionedDelivery(docs, init, id);
    }
  }

  /** Do two deliveries write the document equally often, and last with the same body? */
  predicate SameLast(ws: seq<Write>, vs: seq<Write>, id: string) {
    && WritesTo(ws, id) == WritesTo(vs, id)
    && (WritesTo(ws, id) > 0 ==> LastBody(ws, id) == LastBody(vs, id))
  }

  predicate SameAt(r: Index, q: Index, id: string) {
    if id in r then id in q && r[id] == q[id] else id !in q
  }

  lemma SameMaps(r: Index, q: Index)
    requires forall id :: SameAt(r, q, id)
    ensures r == q
  {
    assert forall id :: id in r ==> SameAt(r, q, id);
    assert forall id :: id in q ==> SameAt(r, q, id);
  }

  /** Without versions order and repetition matter: two deliveries leave the same index
      exactly when they write each document equally often and last with the same body. */
  lemma UnversionedSameIff(docs: Index, ws: seq<Write>, vs: seq<Write>)
    requires Unversioned(ws) && Unversioned(vs)
    ensures Deliver(docs, ws) == Deliver(docs, vs) <==> forall id :: SameLast(ws, vs, id)
  {
    var r, q := Deliver(docs, ws), Deliver(docs, vs);
    forall id ensures SameAt(r, q, id) <==> SameLast(ws, vs, id) {
      UnversionedDelivery(docs, ws, id);
      UnversionedDelivery(docs, vs, id);
    }
    if forall id :: SameLast(ws, vs, id) {
      SameMaps(r, q);
    } else {
      var id :| !SameLast(ws, vs, id);
      assert !SameAt(r, q, id);
    }
  }
}
