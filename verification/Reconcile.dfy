/** Delta reconciliation (packages/acip_sync/reconcile.py, services/worker/tasks.py):
    pull what changed since the watermark, upsert it, advance the watermark. */
module Reconcile {
  import opened Timestamps
  import opened Wrappers
  import opened Sorting
  import opened Paging
  import opened Ingest

  datatype Source = Woo | OpenCart

  /** One tenant's and source's sync state: index, data version, watermark. */
  datatype Sync = Sync(docs: Index, dataVersion: nat, watermark: Option<Stamp>)

  datatype Outcome = Completed(repaired: nat) | Failed | NothingToPull | UnknownTenant

  function Separator(source: Source): char {
    if source.Woo? then 'T' else ' '
  }

  /** The bare text a store compares its change times with, from the stored
      watermark's ISO form. */
  function SinceText(source: Source, watermark: Option<Stamp>): Option<string>
    requires watermark.Some? ==> Valid(watermark.value)
  {
    if watermark.None? then None
    else
      var iso := IsoFormat(watermark.value);
      Some(if source.Woo? then Before(iso, '+') else OpenCartSince(iso))
  }

  /** `_parse_ts` of a zoneless stamp, read as UTC. */
  function ParseTs(text: Option<string>): Option<Stamp> {
    if text.None? then None else ParseStamp(text.value)
  }

  function WriteOfRaw(tenant: string, raw: Raw): Write {
    WriteOf(Product(tenant, raw.id, raw.body, raw.modified), 0)
  }

  function WritesOf(tenant: string, changed: seq<Raw>): seq<Write> {
    seq(|changed|, i requires 0 <= i < |changed| => WriteOfRaw(tenant, changed[i]))
  }

  lemma DeliverNext(tenant: string, changed: seq<Raw>, i: nat, docs: Index)
    requires i < |changed|
    ensures changed[..i + 1][..i] == changed[..i]
    ensures Deliver(docs, WritesOf(tenant, changed[..i + 1]))
         == Apply(Deliver(docs, WritesOf(tenant, changed[..i])), WriteOfRaw(tenant, changed[i]))
  {
    assert WritesOf(tenant, changed[..i + 1])[..i] == WritesOf(tenant, changed[..i]);
  }

  /** The greatest change time seen, as text; products without one do not count. */
  function HighWatermark(changed: seq<Raw>): Option<string> {
    if changed == [] then None
    else
      var wm, text := HighWatermark(changed[..|changed| - 1]), changed[|changed| - 1].modified;
      if text != "" && (wm.None? || StrLess(wm.value, text)) then Some(text) else wm
  }

  class SyncWorker {
    const tenant: string
    const source: Source
    const catalogue: Catalogue
    var dataVersion: nat
    var watermark: Option<Stamp>
    var lastRun: Option<real>
    var lastStatus: Option<string>

    ghost function State(): Sync
      reads this, catalogue
    {
      Sync(catalogue.docs, dataVersion, watermark)
    }

    constructor (tenant: string, source: Source, catalogue: Catalogue)
      ensures State() == Sync(catalogue.docs, 0, None) && this.catalogue == catalogue
      ensures this.tenant == tenant && this.source == source
      ensures lastRun == None && lastStatus == None
    {
      this.tenant, this.source, this.catalogue := tenant, source, catalogue;
      dataVersion, watermark, lastRun, lastStatus := 0, None, None, None;
    }

    /** `reconcile`: upserts the products one by one; position failAt of the stream,
        if it has one (its end counts), raises and abandons the rest. */
    method Reconcile(changed: seq<Raw>, failAt: nat) returns (failed: bool, repaired: nat, high: Option<string>)
      modifies catalogue
      ensures failed == (failAt <= |changed|)
      ensures failed ==> catalogue.docs == Deliver(old(catalogue.docs), WritesOf(tenant, changed[..failAt]))
      ensures !failed ==> catalogue.docs == Deliver(old(catalogue.docs), WritesOf(tenant, changed))
      ensures !failed ==> repaired == |changed| && high == HighWatermark(changed)
    {
      failed, repaired, high := false, 0, None;
      for i := 0 to |changed|
        invariant repaired == i <= failAt
        invariant high == HighWatermark(changed[..i])
        invariant catalogue.docs == Deliver(old(catalogue.docs), WritesOf(tenant, changed[..i]))
      {
        if i == failAt {
          failed := true;
          return;
        }
        catalogue.UpsertProduct(Product(tenant, changed[i].id, changed[i].body, changed[i].modified), 0);
        repaired := repaired + 1;
        if changed[i].modified != "" && (high.None? || StrLess(high.value, changed[i].modified)) {
          high := Some(changed[i].modified);
        }
        DeliverNext(tenant, changed, i, old(catalogue.docs));
      }
      assert changed[..|changed|] == changed;
      failed := failAt == |changed|;
    }

    /** `fetch_changed_since`, with the clients' page size. */
    method FetchChangedSince(products: seq<Raw>, since: Option<string>) returns (changed: seq<Raw>)
      ensures changed == Listing(products, since)
    {
      if source.Woo? {
        changed := FetchWooChanged(Listing(products, since), 100);
      } else {
        changed := FetchOpenCartChanged(Listing(products, since), 100);
      }
    }

    /** `_record_sync`: an absent watermark keeps the stored one. */
    method RecordSync(now: real, status: string, mark: Option<Stamp>)
      modifies this`watermark, this`lastRun, this`lastStatus
      ensures watermark == if mark.Some? then mark else old(watermark)
      ensures lastRun == Some(now) && lastStatus == Some(status)
    {
      lastRun, lastStatus := Some(now), Some(status);
      watermark := if mark.Some? then mark else watermark;
    }

    /** The rest of `_reconcile_one`: repair, publish and record. */
    method Repair(changed: seq<Raw>, failAt: nat, now: real) returns (outcome: Outcome)
      modifies this, catalogue
      ensures State() == AfterRepair(old(State()), tenant, changed, failAt).0
      ensures outcome == AfterRepair(old(State()), tenant, changed, failAt).1
      ensures lastRun == Some(now) && lastStatus == Some(if outcome.Failed? then "error" else "ok")
    {
      var failed, repaired, high := Reconcile(changed, failAt);
      if failed {
        RecordSync(now, "error", None);
        return Failed;
      }
      if repaired > 0 {
        dataVersion := dataVersion + 1;
      }
      RecordSync(now, "ok", ParseTs(high));
      return Completed(repaired);
    }

    /** `_reconcile_one` against a store listing its products. */
    method ReconcileOne(known: bool, configured: bool, products: seq<Raw>, failAt: nat, now: real)
      returns (outcome: Outcome)
      requires watermark.Some? ==> Valid(watermark.value)
      modifies this, catalogue
      ensures !known ==> outcome == UnknownTenant && State() == old(State())
                         && lastRun == old(lastRun) && lastStatus == old(lastStatus)
      ensures known ==> (State(), outcome) == AfterPass(old(State()), tenant, source, products, failAt, configured)
                        && lastRun == Some(now) && lastStatus == Some(if outcome.Failed? then "error" else "ok")
    {
      var since := SinceText(source, watermark);
      if !known {
        return UnknownTenant;
      }
      if !configured {
        RecordSync(now, "ok", None);
        return NothingToPull;
      }
      var changed := FetchChangedSince(products, since);
      outcome := Repair(changed, failAt, now);
    }
  }

  /** What pulling these products leaves: failing, a prefix of its upserts and the old
      watermark; completing, it publishes and advances. */
  function AfterRepair(s: Sync, tenant: string, changed: seq<Raw>, failAt: nat): (Sync, Outcome) {
    if failAt <= |changed| then (s.(docs := Deliver(s.docs, WritesOf(tenant, changed[..failAt]))), Failed)
    else
      var mark := ParseTs(HighWatermark(changed));
      (Sync(Deliver(s.docs, WritesOf(tenant, changed)),
            if |changed| > 0 then s.dataVersion + 1 else s.dataVersion,
            if mark.Some? then mark else s.watermark),
       Completed(|changed|))
  }

  /** A pass as one step. */
  function AfterPass(s: Sync, tenant: string, source: Source, products: seq<Raw>, failAt: nat, configured: bool)
    : (Sync, Outcome)
    requires s.watermark.Some? ==> Valid(s.watermark.value)
  {
    if !configured then (s, NothingToPull)
    else AfterRepair(s, tenant, Listing(products, SinceText(source, s.watermark)), failAt)
  }

  // ---- the store, its webhooks and the passes ------------------------------------------------

  datatype Version = Version(at: Stamp, body: string)

  /** One tenant's store and the sync side. `past` holds every version the store
      ever had, any of which a webhook may still deliver. */
  datatype World = World(live: map<string, Version>, past: set<(string, Version)>, sync: Sync)

  datatype Step =
    | Edit(id: string, version: Version)
    | Remove(id: string)
    | Webhook(id: string, version: Version)
    | Tombstone(id: string)
    | Pass(products: seq<Raw>, failAt: nat)

  function Secs(v: Version): int
    requires Valid(v.at)
  {
    EpochSeconds(v.at)
  }

  function RawOf(source: Source, id: string, v: Version): Raw
    requires Valid(v.at)
  {
    Raw(id, Render(v.at, Separator(source)), v.body)
  }

  ghost predicate IsLive(source: Source, w: World, p: Raw) {
    p.id in w.live && Valid(w.live[p.id].at) && p == RawOf(source, p.id, w.live[p.id])
  }

  /** The store's product list: every live product once, in some order. */
  ghost predicate Lists(source: Source, w: World, products: seq<Raw>) {
    forall p: Raw :: multiset(products)[p] == if IsLive(source, w, p) then 1 else 0
  }

  /** A version stamped after all earlier ones of its product. */
  ghost predicate Newer(w: World, id: string, v: Version) {
    Valid(v.at) && forall u :: (id, u) in w.past ==> Valid(u.at) && Secs(u) < Secs(v)
  }

  ghost function Edited(w: World, id: string, v: Version): World {
    w.(live := w.live[id := v], past := w.past + {(id, v)})
  }

  ghost predicate Enabled(tenant: string, source: Source, w: World, step: Step) {
    match step
    case Edit(id, v) =>
      && Newer(w, id, v)
      && (w.sync.watermark.Some? ==> Valid(w.sync.watermark.value) && EpochSeconds(w.sync.watermark.value) < Secs(v))
    case Remove(id) => true
    case Webhook(id, v) => (id, v) in w.past && Valid(v.at)
    case Tombstone(id) => id !in w.live
    case Pass(products, _) => Lists(source, w, products) && (w.sync.watermark.Some? ==> Valid(w.sync.watermark.value))
  }

  ghost function Next(tenant: string, source: Source, w: World, step: Step): World
    requires Enabled(tenant, source, w, step)
  {
    match step
    case Edit(id, v) => Edited(w, id, v)
    case Remove(id) => w.(live := w.live - {id})
    case Webhook(id, v) =>
      w.(sync := w.sync.(docs := Apply(w.sync.docs, WriteOfRaw(tenant, RawOf(source, id, v))),
                         dataVersion := w.sync.dataVersion + 1))
    case Tombstone(id) =>
      w.(sync := w.sync.(docs := w.sync.docs - {DocId(tenant, id)}, dataVersion := w.sync.dataVersion + 1))
    case Pass(products, failAt) =>
      w.(sync := AfterPass(w.sync, tenant, source, products, failAt, true).0)
  }

  // ---- what every step keeps ---------------------------------------------------------------

  /** The index holds this version as the product's document. */
  predicate Holds(tenant: string, docs: Index, id: string, v: Version)
    requires Valid(v.at)
  {
    var d := DocId(tenant, id);
    d in docs && docs[d] == Stored(Secs(v), v.body)
  }

  /** The index holds the store's current version of a live product. */
  ghost predicate Current(tenant: string, w: World, id: string)
    requires id in w.live && Valid(w.live[id].at)
  {
    Holds(tenant, w.sync.docs, id, w.live[id])
  }

  /** Versions are well stamped and told apart by their stamps; a live version is
      its product's latest. */
  ghost predicate StampsOrdered(w: World) {
    && (forall id, v :: (id, v) in w.past ==> Valid(v.at))
    && (forall id, u, v :: (id, u) in w.past && (id, v) in w.past && Secs(u) == Secs(v) ==> u == v)
    && (forall id :: id in w.live ==> (id, w.live[id]) in w.past)
    && (forall id, v :: id in w.live && (id, v) in w.past ==> Secs(v) <= Secs(w.live[id]))
    && (w.sync.watermark.Some? ==> Valid(w.sync.watermark.value))
  }

  /** Every document of the tenant is some version its product once had. */
  ghost predicate DocsFromPast(tenant: string, past: set<(string, Version)>, docs: Index) {
    forall id :: DocId(tenant, id) in docs ==>
      exists v :: (id, v) in past && Valid(v.at) && docs[DocId(tenant, id)] == Stored(Secs(v), v.body)
  }

  ghost predicate BehindWatermark(w: World, id: string)
    requires id in w.live && Valid(w.live[id].at)
  {
    w.sync.watermark.Some? && Valid(w.sync.watermark.value) && Secs(w.live[id]) <= EpochSeconds(w.sync.watermark.value)
  }

  ghost predicate Sound(tenant: string, w: World) {
    StampsOrdered(w) && DocsFromPast(tenant, w.past, w.sync.docs)
  }

  ghost predicate Inv(tenant: string, w: World) {
    && Sound(tenant, w)
    && (forall id :: id in w.live && BehindWatermark(w, id) ==> Current(tenant, w, id))
  }

  lemma SameTenantIds(tenant: string, p: string, q: string)
    requires DocId(tenant, p) == DocId(tenant, q)
    ensures p == q
  {
    assert p == DocId(tenant, p)[|tenant| + 1..] && q == DocId(tenant, q)[|tenant| + 1..];
  }

  lemma RenderedVersion(t: Stamp, sep: char)
    requires Valid(t) && (sep == 'T' || sep == ' ')
    ensures VersionFrom(Render(t, sep), 0) == Some(EpochSeconds(t))
  {
    var text := Render(t, sep);
    RenderParse(t, sep);
    assert text[..19] == text && text[19..] == "";
    assert Stamped(text, sep, "", 0) by {
      RenderedSeparator(t, sep);
    }
    VersionOfStamped(text, sep, "", 0);
  }

  lemma RenderedSeparator(t: Stamp, sep: char)
    requires Valid(t)
    ensures |Render(t, sep)| == 19 && Render(t, sep)[10] == sep
  {
    RenderedLength(t);
  }

  lemma WriteOfVersion(tenant: string, source: Source, id: string, v: Version)
    requires Valid(v.at)
    ensures WriteOfRaw(tenant, RawOf(source, id, v)) == Write(DocId(tenant, id), Some(Secs(v)), v.body)
  {
    RenderedSeparator(v.at, Separator(source));
    RenderedVersion(v.at, Separator(source));
  }

  /** Writes of the tenant's own past versions. */
  ghost predicate FromPast(tenant: string, past: set<(string, Version)>, ws: seq<Write>) {
    forall w :: w in ws ==>
      exists id, v :: (id, v) in past && Valid(v.at) && w == Write(DocId(tenant, id), Some(Secs(v)), v.body)
  }

  lemma DeliverFromPast(tenant: string, past: set<(string, Version)>, docs: Index, ws: seq<Write>)
    requires DocsFromPast(tenant, past, docs) && FromPast(tenant, past, ws)
    ensures DocsFromPast(tenant, past, Deliver(docs, ws))
  {
    DeliverKeepsHighest(docs, ws);
    var r := Deliver(docs, ws);
    forall id | DocId(tenant, id) in r
      ensures exists v :: (id, v) in past && Valid(v.at) && r[DocId(tenant, id)] == Stored(Secs(v), v.body)
    {
      var d := DocId(tenant, id);
      if !(d in docs && r[d] == docs[d]) {
        var id', v :| (id', v) in past && Valid(v.at)
                      && Write(d, Some(r[d].version), r[d].body) == Write(DocId(tenant, id'), Some(Secs(v)), v.body);
        SameTenantIds(tenant, id, id');
      }
    }
  }

  /** After delivering past versions a live product's document is current exactly
      when it was, or its current version was delivered. */
  lemma DeliverMakesCurrent(tenant: string, w: World, ws: seq<Write>, id: string)
    requires Sound(tenant, w) && FromPast(tenant, w.past, ws) && id in w.live
    ensures Holds(tenant, Deliver(w.sync.docs, ws), id, w.live[id])
       <==> Current(tenant, w, id) || Write(DocId(tenant, id), Some(Secs(w.live[id])), w.live[id].body) in ws
  {
    var d, docs, v := DocId(tenant, id), w.sync.docs, w.live[id];
    var r := Deliver(docs, ws);
    DeliverKeepsHighest(docs, ws);
    DeliverFromPast(tenant, w.past, docs, ws);
    if d in r {
      var u :| (id, u) in w.past && Valid(u.at) && r[d] == Stored(Secs(u), u.body);
      if Current(tenant, w, id) || Write(d, Some(Secs(v)), v.body) in ws {
        assert Secs(u) == Secs(v);
      }
    }
  }

  // ---- one completed pass --------------------------------------------------------------------

  lemma SinceIsWatermark(source: Source, wm: Stamp)
    requires Valid(wm)
    ensures SinceText(source, Some(wm)) == Some(Render(wm, Separator(source)))
  {
    var text := Render(wm, Separator(source));
    RenderParse(wm, Separator(source));
    RenderedLength(wm);
    assert text[10] == Separator(source);
    WatermarkRoundTrip(text);
  }

  /** A live product is pulled exactly when it changed after the watermark. */
  lemma PulledIffAhead(tenant: string, source: Source, w: World, products: seq<Raw>, p: Raw)
    requires Sound(tenant, w) && Lists(source, w, products)
    ensures p in Listing(products, SinceText(source, w.sync.watermark))
       <==> IsLive(source, w, p) && !BehindWatermark(w, p.id)
  {
    var since := SinceText(source, w.sync.watermark);
    ListingIsChanged(products, since);
    assert p in Listing(products, since) <==> multiset(Listing(products, since))[p] > 0;
    if IsLive(source, w, p) && w.sync.watermark.Some? {
      var wm, v := w.sync.watermark.value, w.live[p.id];
      SinceIsWatermark(source, wm);
      StampOrder(wm, v.at, Separator(source));
      EarlierIsSmaller(wm, v.at);
    }
  }

  /** The high watermark is the latest stamp among the pulled products, when the
      order of their texts is the order of their keys. */
  lemma {:induction false} HighIsLatest(changed: seq<Raw>, key: seq<int>) returns (i: nat)
    requires |changed| == |key| > 0
    requires forall j :: 0 <= j < |key| ==> changed[j].modified != ""
    requires forall j, k :: 0 <= j < |key| && 0 <= k < |key| ==>
                              (StrLess(changed[j].modified, changed[k].modified) <==> key[j] < key[k])
    ensures i < |key| && HighWatermark(changed) == Some(changed[i].modified)
    ensures forall j :: 0 <= j < |key| ==> key[j] <= key[i]
  {
    var n := |changed| - 1;
    var init := changed[..n];
    if n == 0 {
      assert HighWatermark(init) == None;
      return 0;
    }
    i := HighIsLatest(init, key[..n]);
    assert HighWatermark(init) == Some(init[i].modified) && init[i] == changed[i];
    assert forall j :: 0 <= j < n ==> key[j] == key[..n][j] <= key[i];
    if StrLess(changed[i].modified, changed[n].modified) {
      i := n;
    }
  }

  /** The keys of a pulled list: the stamps of the live versions. */
  ghost function KeysOf(w: World, changed: seq<Raw>): seq<int>
    requires forall p :: p in changed ==> p.id in w.live && Valid(w.live[p.id].at)
  {
    seq(|changed|, i requires 0 <= i < |changed| => Secs(w.live[changed[i].id]))
  }

  lemma RawOrder(source: Source, p: string, q: string, u: Version, v: Version)
    requires Valid(u.at) && Valid(v.at)
    ensures RawOf(source, p, u).modified != ""
    ensures StrLess(RawOf(source, p, u).modified, RawOf(source, q, v).modified) <==> Secs(u) < Secs(v)
  {
    RenderedSeparator(u.at, Separator(source));
    StampOrder(u.at, v.at, Separator(source));
    EarlierIsSmaller(u.at, v.at);
  }

  ghost predicate AllLive(source: Source, w: World, changed: seq<Raw>) {
    forall p :: p in changed ==> IsLive(source, w, p)
  }

  /** The watermark a completed pass computes: the latest live stamp it pulled. */
  lemma MarkIsLatest(source: Source, w: World, changed: seq<Raw>) returns (i: nat)
    requires changed != [] && AllLive(source, w, changed)
    ensures i < |changed| && IsLive(source, w, changed[i])
    ensures ParseTs(HighWatermark(changed)) == Some(w.live[changed[i].id].at)
    ensures forall p :: p in changed ==> Secs(w.live[p.id]) <= Secs(w.live[changed[i].id])
  {
    var key := KeysOf(w, changed);
    forall j, k | 0 <= j < |key| && 0 <= k < |key|
      ensures changed[j].modified != ""
      ensures StrLess(changed[j].modified, changed[k].modified) <==> key[j] < key[k]
    {
      assert IsLive(source, w, changed[j]) && IsLive(source, w, changed[k]);
      RawOrder(source, changed[j].id, changed[k].id, w.live[changed[j].id], w.live[changed[k].id]);
    }
    i := HighIsLatest(changed, key);
    assert IsLive(source, w, changed[i]);
    RenderParse(w.live[changed[i].id].at, Separator(source));
    forall p | p in changed ensures Secs(w.live[p.id]) <= Secs(w.live[changed[i].id]) {
      var j :| 0 <= j < |changed| && changed[j] == p;
      assert key[j] <= key[i];
    }
  }

  lemma WritesFromPast(tenant: string, source: Source, w: World, changed: seq<Raw>)
    requires StampsOrdered(w) && AllLive(source, w, changed)
    ensures FromPast(tenant, w.past, WritesOf(tenant, changed))
  {
    forall x | x in WritesOf(tenant, changed)
      ensures exists id, v :: (id, v) in w.past && Valid(v.at) && x == Write(DocId(tenant, id), Some(Secs(v)), v.body)
    {
      var i :| 0 <= i < |changed| && x == WriteOfRaw(tenant, changed[i]);
      var p := changed[i];
      assert IsLive(source, w, p);
      WriteOfVersion(tenant, source, p.id, w.live[p.id]);
      assert (p.id, w.live[p.id]) in w.past;
    }
  }

  /** The write of a live product's current version is among the pulled ones
      exactly when the product is. */
  lemma WrittenIffPulled(tenant: string, source: Source, w: World, changed: seq<Raw>, id: string)
    requires StampsOrdered(w) && AllLive(source, w, changed) && id in w.live
    ensures Write(DocId(tenant, id), Some(Secs(w.live[id])), w.live[id].body) in WritesOf(tenant, changed)
       <==> RawOf(source, id, w.live[id]) in changed
  {
    var p, x := RawOf(source, id, w.live[id]), Write(DocId(tenant, id), Some(Secs(w.live[id])), w.live[id].body);
    var ws := WritesOf(tenant, changed);
    WriteOfVersion(tenant, source, id, w.live[id]);
    if p in changed {
      var i :| 0 <= i < |changed| && changed[i] == p;
      assert ws[i] == x;
    }
    if x in ws {
      var i :| 0 <= i < |ws| && ws[i] == x;
      var q := changed[i];
      assert IsLive(source, w, q);
      WriteOfVersion(tenant, source, q.id, w.live[q.id]);
      SameTenantIds(tenant, id, q.id);
    }
  }

  ghost predicate Completes(source: Source, w: World, products: seq<Raw>, failAt: nat)
    requires w.sync.watermark.Some? ==> Valid(w.sync.watermark.value)
  {
    failAt > |Listing(products, SinceText(source, w.sync.watermark))|
  }

  lemma PassDelivers(tenant: string, source: Source, w: World, products: seq<Raw>, failAt: nat)
    requires Enabled(tenant, source, w, Pass(products, failAt))
    ensures var w' := Next(tenant, source, w, Pass(products, failAt));
            var changed := Listing(products, SinceText(source, w.sync.watermark));
            && w'.live == w.live && w'.past == w.past
            && w'.sync.docs
               == Deliver(w.sync.docs, WritesOf(tenant, if failAt <= |changed| then changed[..failAt] else changed))
  {
  }

  /** A live product's current version is written by a completed pass exactly when
      the product changed after the watermark. */
  lemma WrittenIffAhead(tenant: string, source: Source, w: World, products: seq<Raw>, id: string)
    requires Sound(tenant, w) && Lists(source, w, products) && id in w.live
    ensures Write(DocId(tenant, id), Some(Secs(w.live[id])), w.live[id].body)
            in WritesOf(tenant, Listing(products, SinceText(source, w.sync.watermark)))
       <==> !BehindWatermark(w, id)
  {
    var changed := Listing(products, SinceText(source, w.sync.watermark));
    PulledAreLive(tenant, source, w, products);
    WrittenIffPulled(tenant, source, w, changed, id);
    PulledIffAhead(tenant, source, w, products, RawOf(source, id, w.live[id]));
  }

  /** A completed pass makes a live product's document current exactly when it
      already was or the product changed after the watermark. */
  lemma PassRepairsIff(tenant: string, source: Source, w: World, products: seq<Raw>, failAt: nat, id: string)
    requires Sound(tenant, w) && Lists(source, w, products) && id in w.live
    requires Completes(source, w, products, failAt)
    ensures Current(tenant, Next(tenant, source, w, Pass(products, failAt)), id)
       <==> Current(tenant, w, id) || !BehindWatermark(w, id)
  {
    var changed := Listing(products, SinceText(source, w.sync.watermark));
    PassDelivers(tenant, source, w, products, failAt);
    PulledAreLive(tenant, source, w, products);
    WritesFromPast(tenant, source, w, changed);
    WrittenIffAhead(tenant, source, w, products, id);
    DeliverMakesCurrent(tenant, w, WritesOf(tenant, changed), id);
  }

  lemma PulledAreLive(tenant: string, source: Source, w: World, products: seq<Raw>)
    requires Sound(tenant, w) && Lists(source, w, products)
    ensures AllLive(source, w, Listing(products, SinceText(source, w.sync.watermark)))
  {
    forall p | p in Listing(products, SinceText(source, w.sync.watermark)) ensures IsLive(source, w, p) {
      PulledIffAhead(tenant, source, w, products, p);
    }
  }

  // ---- every step keeps the invariant ----------------------------------------------------------

  /** How far the watermark has come; absent counts as nothing. */
  ghost predicate NotBefore(later: Option<Stamp>, earlier: Option<Stamp>)
    requires later.Some? ==> Valid(later.value)
    requires earlier.Some? ==> Valid(earlier.value)
  {
    earlier.Some? ==> later.Some? && EpochSeconds(earlier.value) <= EpochSeconds(later.value)
  }

  /** A completed pass leaves a watermark that is not earlier, and behind which
      every live product was either behind before or has just been pulled. */
  lemma PassAdvances(tenant: string, source: Source, w: World, products: seq<Raw>, failAt: nat)
    requires Sound(tenant, w) && Lists(source, w, products)
    ensures var w' := Next(tenant, source, w, Pass(products, failAt));
            && (w'.sync.watermark.Some? ==> Valid(w'.sync.watermark.value))
            && NotBefore(w'.sync.watermark, w.sync.watermark)
            && (!Completes(source, w, products, failAt) ==> w'.sync.watermark == w.sync.watermark)
  {
    var changed := Listing(products, SinceText(source, w.sync.watermark));
    if failAt > |changed| && changed != [] {
      PulledAreLive(tenant, source, w, products);
      var i := MarkIsLatest(source, w, changed);
      assert changed[i] in changed;
      PulledIffAhead(tenant, source, w, products, changed[i]);
    }
  }

  lemma PassSound(tenant: string, source: Source, w: World, products: seq<Raw>, failAt: nat)
    requires Sound(tenant, w) && Lists(source, w, products)
    ensures Sound(tenant, Next(tenant, source, w, Pass(products, failAt)))
  {
    var changed := Listing(products, SinceText(source, w.sync.watermark));
    var part := if failAt <= |changed| then changed[..failAt] else changed;
    PulledAreLive(tenant, source, w, products);
    WritesFromPast(tenant, source, w, part);
    DeliverFromPast(tenant, w.past, w.sync.docs, WritesOf(tenant, part));
    PassAdvances(tenant, source, w, products, failAt);
  }

  /** A failed pass unmakes nothing. */
  lemma FailedPassKeepsCurrent(tenant: string, source: Source, w: World, products: seq<Raw>, failAt: nat, id: string)
    requires Sound(tenant, w) && Lists(source, w, products) && !Completes(source, w, products, failAt)
    requires id in w.live && Current(tenant, w, id)
    ensures Current(tenant, Next(tenant, source, w, Pass(products, failAt)), id)
  {
    var part := Listing(products, SinceText(source, w.sync.watermark))[..failAt];
    PulledAreLive(tenant, source, w, products);
    WritesFromPast(tenant, source, w, part);
    DeliverMakesCurrent(tenant, w, WritesOf(tenant, part), id);
  }

  lemma PassKeepsInv(tenant: string, source: Source, w: World, products: seq<Raw>, failAt: nat)
    requires Inv(tenant, w) && Lists(source, w, products)
    ensures Inv(tenant, Next(tenant, source, w, Pass(products, failAt)))
  {
    var w' := Next(tenant, source, w, Pass(products, failAt));
    PassSound(tenant, source, w, products, failAt);
    PassAdvances(tenant, source, w, products, failAt);
    forall id | id in w'.live && BehindWatermark(w', id) ensures Current(tenant, w', id) {
      if Completes(source, w, products, failAt) {
        PassRepairsIff(tenant, source, w, products, failAt, id);
      } else {
        assert BehindWatermark(w, id);
        FailedPassKeepsCurrent(tenant, source, w, products, failAt, id);
      }
    }
  }

  lemma WebhookKeepsInv(tenant: string, source: Source, w: World, id: string, v: Version)
    requires Inv(tenant, w) && Enabled(tenant, source, w, Webhook(id, v))
    ensures Inv(tenant, Next(tenant, source, w, Webhook(id, v)))
  {
    var x := WriteOfRaw(tenant, RawOf(source, id, v));
    WriteOfVersion(tenant, source, id, v);
    assert [x][..0] == [];
    assert Deliver(w.sync.docs, [x]) == Apply(w.sync.docs, x);
    assert FromPast(tenant, w.past, [x]);
    DeliverFromPast(tenant, w.past, w.sync.docs, [x]);
    var w' := Next(tenant, source, w, Webhook(id, v));
    forall q | q in w'.live && BehindWatermark(w', q) ensures Current(tenant, w', q) {
      assert BehindWatermark(w, q);
      DeliverMakesCurrent(tenant, w, [x], q);
    }
  }

  lemma TombstoneKeepsInv(tenant: string, source: Source, w: World, id: string)
    requires Inv(tenant, w) && id !in w.live
    ensures Inv(tenant, Next(tenant, source, w, Tombstone(id)))
  {
    var w' := Next(tenant, source, w, Tombstone(id));
    forall q | q in w'.live && BehindWatermark(w', q) ensures Current(tenant, w', q) {
      assert BehindWatermark(w, q);
      if DocId(tenant, q) == DocId(tenant, id) {
        SameTenantIds(tenant, q, id);
        assert false;
      }
    }
  }

  lemma EditKeepsDocs(tenant: string, w: World, id: string, v: Version)
    requires DocsFromPast(tenant, w.past, w.sync.docs)
    ensures DocsFromPast(tenant, Edited(w, id, v).past, w.sync.docs)
  {
  }

  lemma EditKeepsSound(tenant: string, w: World, id: string, v: Version)
    requires Sound(tenant, w) && Newer(w, id, v)
    ensures Sound(tenant, Edited(w, id, v))
  {
    var w' := Edited(w, id, v);
    EditKeepsDocs(tenant, w, id, v);
    assert forall q, u :: (q, u) in w'.past <==> (q, u) in w.past || (q == id && u == v);
    forall q, u | q in w'.live && (q, u) in w'.past ensures Secs(u) <= Secs(w'.live[q]) {
      if q == id && (q, u) in w.past {
        assert Secs(u) < Secs(v);
      }
    }
  }

  lemma EditKeepsInv(tenant: string, source: Source, w: World, id: string, v: Version)
    requires Inv(tenant, w) && Enabled(tenant, source, w, Edit(id, v))
    ensures Inv(tenant, Next(tenant, source, w, Edit(id, v)))
  {
    var w' := Next(tenant, source, w, Edit(id, v));
    EditKeepsSound(tenant, w, id, v);
    forall q | q in w'.live && BehindWatermark(w', q) ensures Current(tenant, w', q) {
      assert q != id && BehindWatermark(w, q);
    }
  }

  /** Every step keeps the invariant, and none moves the watermark back. */
  lemma StepKeepsInv(tenant: string, source: Source, w: World, step: Step)
    requires Inv(tenant, w) && Enabled(tenant, source, w, step)
    ensures Inv(tenant, Next(tenant, source, w, step))
    ensures NotBefore(Next(tenant, source, w, step).sync.watermark, w.sync.watermark)
  {
    match step
    case Edit(id, v) => EditKeepsInv(tenant, source, w, id, v);
    case Remove(id) => RemoveKeepsInv(tenant, source, w, id);
    case Webhook(id, v) => WebhookKeepsInv(tenant, source, w, id, v);
    case Tombstone(id) => TombstoneKeepsInv(tenant, source, w, id);
    case Pass(products, failAt) =>
      PassKeepsInv(tenant, source, w, products, failAt);
      PassAdvances(tenant, source, w, products, failAt);
  }

  lemma RemoveKeepsInv(tenant: string, source: Source, w: World, id: string)
    requires Inv(tenant, w)
    ensures Inv(tenant, Next(tenant, source, w, Remove(id)))
  {
  }

  // ---- over whole runs ---------------------------------------------------------------------------

  ghost predicate Run(tenant: string, source: Source, w: World, steps: seq<Step>, w': World)
    decreases |steps|
  {
    if steps == [] then w == w'
    else Enabled(tenant, source, w, steps[0]) && Run(tenant, source, Next(tenant, source, w, steps[0]), steps[1..], w')
  }

  /** Before the first sync: nothing of the tenant indexed, no watermark. */
  ghost predicate Init(tenant: string, w: World) {
    && w.live == map[] && w.past == {} && w.sync.watermark == None
    && forall id :: DocId(tenant, id) !in w.sync.docs
  }

  lemma {:induction false} RunKeepsInv(tenant: string, source: Source, w: World, steps: seq<Step>, w': World)
    requires Inv(tenant, w) && Run(tenant, source, w, steps, w')
    ensures Inv(tenant, w')
    ensures NotBefore(w'.sync.watermark, w.sync.watermark)
    decreases |steps|
  {
    if steps != [] {
      StepKeepsInv(tenant, source, w, steps[0]);
      RunKeepsInv(tenant, source, Next(tenant, source, w, steps[0]), steps[1..], w');
    }
  }

  /** After any mix of edits, removals, lost, repeated and stale webhooks and
      failed passes, one completed pass leaves the store's current version of
      every live product in the index. */
  lemma Converges(tenant: string, source: Source, w0: World, steps: seq<Step>, w: World, products: seq<Raw>,
                  failAt: nat)
    requires Init(tenant, w0) && Run(tenant, source, w0, steps, w)
    requires Enabled(tenant, source, w, Pass(products, failAt)) && Completes(source, w, products, failAt)
    ensures var w' := Next(tenant, source, w, Pass(products, failAt));
            forall id :: id in w.live ==> Valid(w.live[id].at) && Current(tenant, w', id)
  {
    RunKeepsInv(tenant, source, w0, steps, w);
    forall id | id in w.live
      ensures Valid(w.live[id].at) && Current(tenant, Next(tenant, source, w, Pass(products, failAt)), id)
    {
      assert (id, w.live[id]) in w.past;
      PassRepairsIff(tenant, source, w, products, failAt, id);
    }
  }

  // ---- where the repair stops ------------------------------------------------------------------

  /** Nothing but its own webhook repairs a live product behind the watermark: a
      version missed there stays missed through every pass. */
  lemma MissedBehindWatermarkStays(tenant: string, source: Source, w: World, products: seq<Raw>, failAt: nat,
                                   id: string)
    requires Sound(tenant, w) && Lists(source, w, products) && id in w.live
    requires BehindWatermark(w, id) && !Current(tenant, w, id)
    ensures var w' := Next(tenant, source, w, Pass(products, failAt));
            BehindWatermark(w', id) && !Current(tenant, w', id)
  {
    var changed := Listing(products, SinceText(source, w.sync.watermark));
    var part := if failAt <= |changed| then changed[..failAt] else changed;
    PassAdvances(tenant, source, w, products, failAt);
    PassDelivers(tenant, source, w, products, failAt);
    PulledAreLive(tenant, source, w, products);
    WritesFromPast(tenant, source, w, part);
    NotWrittenBehind(tenant, source, w, changed, part, products, id);
    DeliverMakesCurrent(tenant, w, WritesOf(tenant, part), id);
  }

  lemma NotWrittenBehind(tenant: string, source: Source, w: World, changed: seq<Raw>, part: seq<Raw>,
                         products: seq<Raw>, id: string)
    requires Sound(tenant, w) && Lists(source, w, products) && id in w.live && BehindWatermark(w, id)
    requires changed == Listing(products, SinceText(source, w.sync.watermark)) && part <= changed
    ensures Write(DocId(tenant, id), Some(Secs(w.live[id])), w.live[id].body) !in WritesOf(tenant, part)
  {
    PulledAreLive(tenant, source, w, products);
    WrittenIffPulled(tenant, source, w, part, id);
    PulledIffAhead(tenant, source, w, products, RawOf(source, id, w.live[id]));
  }

  /** A tombstone that arrives after its product is back on sale makes such a case. */
  lemma LateTombstoneIsNotRepaired(tenant: string, w: World, id: string)
    requires Sound(tenant, w) && id in w.live && BehindWatermark(w, id)
    ensures var w' := w.(sync := w.sync.(docs := w.sync.docs - {DocId(tenant, id)}));
            Sound(tenant, w') && BehindWatermark(w', id) && !Current(tenant, w', id)
  {
  }

  /** So does an edit stamped no later than the watermark whose webhook is lost. */
  lemma EditAtWatermarkIsNotRepaired(tenant: string, w: World, id: string, v: Version)
    requires Sound(tenant, w) && Newer(w, id, v)
    requires w.sync.watermark.Some? && Secs(v) <= EpochSeconds(w.sync.watermark.value)
    ensures var w' := Edited(w, id, v);
            Sound(tenant, w') && BehindWatermark(w', id) && !Current(tenant, w', id)
  {
    EditKeepsSound(tenant, w, id, v);
    var d := DocId(tenant, id);
    if d in w.sync.docs {
      var u :| (id, u) in w.past && Valid(u.at) && w.sync.docs[d] == Stored(Secs(u), u.body);
      assert Secs(u) < Secs(v);
    }
  }
}
