/**
 The SQLite store: one row per exchange with its VDC reduced to an id, and a second table of
 VDC documents. save commits the document first and only then compares versions.
 */
module Store {
  import opened Wrappers
  import opened Documents
  import opened Exchanges
  import opened Strings

  datatype Row = Row(payload: Exchange, vdcId: Option<VdcId>)

  datatype VdcRow = VdcRow(exchangeId: ExchangeId, doc: Vdc)

  datatype Tables = Tables(exchanges: map<ExchangeId, Row>, vdcs: map<VdcId, VdcRow>)

  /** _exchange_payload: the document stays out, its id stays in. */
  function Payload(ex: Exchange): Row {
    Row(ex.(vdc := None), if ex.vdc.Some? then Some(ex.vdc.value.body.vdcId) else None)
  }

  function Upsert(vdcs: map<VdcId, VdcRow>, ex: Exchange): map<VdcId, VdcRow> {
    if ex.vdc.None? then vdcs
    else vdcs[ex.vdc.value.body.vdcId := VdcRow(ex.terms.exchangeId, ex.vdc.value)]
  }

  /** v is the greatest id among the documents filed under an exchange. */
  ghost predicate IsLatest(vdcs: map<VdcId, VdcRow>, id: ExchangeId, v: VdcId) {
    v in vdcs && vdcs[v].exchangeId == id && forall u | u in vdcs && vdcs[u].exchangeId == id :: Leq(u, v)
  }

  /** The document a reader attaches to a row: the one it names, else the latest filed. */
  ghost function Attached(t: Tables, id: ExchangeId): Option<Vdc>
    requires id in t.exchanges
  {
    var named := t.exchanges[id].vdcId;
    if named.Some? && named.value in t.vdcs then Some(t.vdcs[named.value].doc)
    else LatestDoc(t.vdcs, id)
  }

  ghost function LatestDoc(vdcs: map<VdcId, VdcRow>, id: ExchangeId): Option<Vdc> {
    if v :| IsLatest(vdcs, id, v) then Some(vdcs[v].doc) else None
  }

  lemma LatestIsUnique(vdcs: map<VdcId, VdcRow>, id: ExchangeId, v: VdcId)
    requires IsLatest(vdcs, id, v)
    ensures LatestDoc(vdcs, id) == Some(vdcs[v].doc)
  {
    forall u | IsLatest(vdcs, id, u)
      ensures u == v
    {
      LeqAntisymmetric(u, v);
    }
  }

  ghost function Read(t: Tables, id: ExchangeId): Exchange
    requires id in t.exchanges
  {
    t.exchanges[id].payload.(vdc := Attached(t, id))
  }

  predicate Wins(t: Tables, expected: nat, ex: Exchange) {
    var id := ex.terms.exchangeId;
    id in t.exchanges && t.exchanges[id].payload.version == expected
  }

  /** A losing save keeps the exchange row but has already written the document. */
  function Saved(t: Tables, expected: nat, ex: Exchange): Tables {
    Tables(if Wins(t, expected, ex) then t.exchanges[ex.terms.exchangeId := Payload(ex)] else t.exchanges,
           Upsert(t.vdcs, ex))
  }

  function Added(t: Tables, ex: Exchange): Tables {
    Tables(t.exchanges[ex.terms.exchangeId := Payload(ex)], Upsert(t.vdcs, ex))
  }

  /** The row an exchange is stored as names its document by id. */
  ghost function RowOf(ex: Exchange): Row {
    match ex.vdc
    case None => Row(ex, None)
    case Some(doc) => Row(ex.(vdc := None), Some(doc.body.vdcId))
  }

  /** A document is filed under its own id and its exchange's. */
  ghost function Filed(vdcs: map<VdcId, VdcRow>, ex: Exchange): map<VdcId, VdcRow> {
    match ex.vdc
    case None => vdcs
    case Some(doc) => vdcs[doc.body.vdcId := VdcRow(ex.terms.exchangeId, doc)]
  }

  class SQLiteStore {
    var exchanges: map<ExchangeId, Row>
    var vdcs: map<VdcId, VdcRow>
    var idem: map<string, ExchangeId>

    ghost function Contents(): Tables
      reads this
    {
      Tables(exchanges, vdcs)
    }

    constructor ()
      ensures Contents() == Tables(map[], map[]) && idem == map[]
    {
      exchanges, vdcs, idem := map[], map[], map[];
    }

    method VdcUpsert(id: ExchangeId, doc: Vdc)
      modifies this`vdcs
      ensures vdcs == old(vdcs)[doc.body.vdcId := VdcRow(id, doc)]
    {
      vdcs := vdcs[doc.body.vdcId := VdcRow(id, doc)];
    }

    /** SELECT ... WHERE exchange_id = ? ORDER BY vdc_id DESC LIMIT 1 */
    method VdcGetByExchange(id: ExchangeId) returns (doc: Option<Vdc>)
      ensures doc == LatestDoc(vdcs, id)
      ensures doc.None? <==> forall v | v in vdcs :: vdcs[v].exchangeId != id
      ensures doc.Some? ==> exists v :: IsLatest(vdcs, id, v) && vdcs[v].doc == doc.value
    {
      var best: Option<VdcId> := None;
      var todo := vdcs.Keys;
      while todo != {}
        invariant todo <= vdcs.Keys
        invariant best.None? ==> forall u | u in vdcs && u !in todo :: vdcs[u].exchangeId != id
        invariant best.Some? ==>
          && best.value in vdcs && vdcs[best.value].exchangeId == id
          && forall u | u in vdcs && u !in todo && vdcs[u].exchangeId == id :: Leq(u, best.value)
        decreases todo
      {
        var v :| v in todo;
        todo := todo - {v};
        if vdcs[v].exchangeId == id {
          LeqTotal(v, v);
          if best.None? {
            best := Some(v);
          } else if Leq(best.value, v) {
            forall u | u in vdcs && u !in todo && u != v && vdcs[u].exchangeId == id
              ensures Leq(u, v)
            {
              LeqTransitive(u, best.value, v);
            }
            best := Some(v);
          } else {
            LeqTotal(v, best.value);
          }
        }
      }
      if best.Some? {
        LatestIsUnique(vdcs, id, best.value);
        doc := Some(vdcs[best.value].doc);
      } else {
        doc := None;
      }
    }

    method Get(id: ExchangeId) returns (r: Option<Exchange>)
      ensures r == if id in exchanges then Some(Read(Contents(), id)) else None
      ensures r.Some? ==>
                var named := exchanges[id].vdcId;
                && r.value == exchanges[id].payload.(vdc := r.value.vdc)
                && (named.Some? && named.value in vdcs ==> r.value.vdc == Some(vdcs[named.value].doc))
                && (!(named.Some? && named.value in vdcs) ==>
                      && (r.value.vdc == None <==> forall v | v in vdcs :: vdcs[v].exchangeId != id)
                      && (r.value.vdc.Some? ==> exists v :: IsLatest(vdcs, id, v) && vdcs[v].doc == r.value.vdc.value))
    {
      if id !in exchanges {
        return None;
      }
      var ex := exchanges[id].payload;
      var named := exchanges[id].vdcId;
      if named.Some? && named.value in vdcs {
        ex := ex.(vdc := Some(vdcs[named.value].doc));
      } else {
        var doc := VdcGetByExchange(id);
        ex := ex.(vdc := doc);
      }
      r := Some(ex);
    }

    /** INSERT: refused when the id is taken, by which time the document is already committed. */
    method Add(ex: Exchange) returns (ok: bool)
      modifies this`exchanges, this`vdcs
      ensures ok <==> ex.terms.exchangeId !in old(exchanges)
      ensures exchanges == if ok then old(exchanges)[ex.terms.exchangeId := RowOf(ex)] else old(exchanges)
      ensures vdcs == Filed(old(vdcs), ex)
      ensures ok ==> Contents() == Added(old(Contents()), ex)
      ensures !ok ==> exchanges == old(exchanges) && vdcs == Upsert(old(vdcs), ex)
    {
      if ex.vdc.Some? {
        VdcUpsert(ex.terms.exchangeId, ex.vdc.value);
      }
      if ex.terms.exchangeId in exchanges {
        return false;
      }
      exchanges := exchanges[ex.terms.exchangeId := Payload(ex)];
      ok := true;
    }

    /** expected is the version the caller's copy was read or last saved at; false is ConcurrencyError. */
    method Save(ex: Exchange, expected: nat) returns (ok: bool)
      modifies this`exchanges, this`vdcs
      ensures var id := ex.terms.exchangeId; ok <==>
              id in old(exchanges) && old(exchanges)[id].payload.version == expected
      ensures exchanges == if ok then old(exchanges)[ex.terms.exchangeId := RowOf(ex)] else old(exchanges)
      ensures vdcs == Filed(old(vdcs), ex)
      ensures ok == Wins(old(Contents()), expected, ex)
      ensures Contents() == Saved(old(Contents()), expected, ex)
    {
      if ex.vdc.Some? {
        VdcUpsert(ex.terms.exchangeId, ex.vdc.value);
      }
      var id := ex.terms.exchangeId;
      if id !in exchanges || exchanges[id].payload.version != expected {
        return false;
      }
      exchanges := exchanges[id := Payload(ex)];
      ok := true;
    }

    /** Every row once, in some order. */
    method Values() returns (ids: seq<ExchangeId>, rows: seq<Exchange>)
      ensures Lists(ids, exchanges.Keys)
      ensures |rows| == |ids| && forall k | 0 <= k < |ids| :: rows[k] == Read(Contents(), ids[k])
    {
      ids, rows := [], [];
      var todo := exchanges.Keys;
      while todo != {}
        invariant todo <= exchanges.Keys
        invariant Lists(ids, exchanges.Keys - todo)
        invariant |rows| == |ids|
        invariant forall k | 0 <= k < |ids| :: ids[k] in exchanges && rows[k] == Read(Contents(), ids[k])
        decreases todo
      {
        var id :| id in todo;
        var ex := Get(id);
        assert exchanges.Keys - (todo - {id}) == (exchanges.Keys - todo) + {id};
        todo := todo - {id};
        ids, rows := ids + [id], rows + [ex.value];
      }
      assert exchanges.Keys - todo == exchanges.Keys;
    }
  }

  /** ids holds the members of a set, each once. */
  ghost predicate Lists<T(!new)>(ids: seq<T>, members: set<T>) {
    && (forall id :: id in ids <==> id in members)
    && forall i, j | 0 <= i < j < |ids| :: ids[i] != ids[j]
  }
}
