/** The two tables against the plain map of exchanges a caller has in mind. */
module StoreRefinement {
  import opened Wrappers
  import opened Documents
  import opened Exchanges
  import opened Strings
  import opened Store

  ghost function View(t: Tables): map<ExchangeId, Exchange> {
    map id | id in t.exchanges :: Read(t, id)
  }

  /** A row names a stored document, or has none filed under it. */
  ghost predicate CoherentRow(t: Tables, id: ExchangeId)
    requires id in t.exchanges
  {
    var row := t.exchanges[id];
    && row.payload.terms.exchangeId == id && row.payload.vdc.None?
    && (row.vdcId.Some? ==> row.vdcId.value in t.vdcs)
    && (row.vdcId.None? ==> forall v | v in t.vdcs :: t.vdcs[v].exchangeId != id)
  }

  /** Every row is coherent, and every document is filed by its own id under some row. */
  ghost predicate Coherent(t: Tables) {
    && (forall id | id in t.exchanges :: CoherentRow(t, id))
    && forall v | v in t.vdcs :: t.vdcs[v].doc.body.vdcId == v && t.vdcs[v].exchangeId in t.exchanges
  }

  lemma RowCoherent(t: Tables, id: ExchangeId)
    requires Coherent(t) && id in t.exchanges
    ensures CoherentRow(t, id)
  {
  }

  lemma NothingFiled(t: Tables, id: ExchangeId)
    requires Coherent(t) && (id in t.exchanges ==> t.exchanges[id].vdcId.None?)
    ensures forall v | v in t.vdcs :: t.vdcs[v].exchangeId != id
  {
    if id in t.exchanges {
      RowCoherent(t, id);
    }
  }

  /******* What a save does to the rows it does not replace *******/

  /**
   A save of ex leaves a reader of row i alone: it brings no document, or the one the reader already
   sees, or one that row i does not name and that is not the first to be filed under it.
   */
  ghost predicate Spares(t: Tables, ex: Exchange, i: ExchangeId)
    requires i in t.exchanges
  {
    || ex.vdc.None?
    || Read(t, i).vdc == ex.vdc
    || match t.exchanges[i].vdcId
       case Some(v) => v != ex.vdc.value.body.vdcId
       case None => i != ex.terms.exchangeId
  }

  predicate Replaces(t: Tables, expected: nat, ex: Exchange, i: ExchangeId) {
    i == ex.terms.exchangeId && Wins(t, expected, ex)
  }

  /** Win or lose, a save changes what readers see of a row it does not replace unless it spares it. */
  lemma SaveSparesExactly(t: Tables, expected: nat, ex: Exchange, i: ExchangeId)
    requires i in t.exchanges && CoherentRow(t, i) && !Replaces(t, expected, ex, i)
    ensures Saved(t, expected, ex).exchanges.Keys == t.exchanges.Keys
    ensures Read(Saved(t, expected, ex), i) == Read(t, i) <==> Spares(t, ex, i)
  {
    WriteSparesExactly(t, Saved(t, expected, ex), ex, i);
  }

  lemma WriteSparesExactly(t: Tables, t': Tables, ex: Exchange, i: ExchangeId)
    requires i in t.exchanges && CoherentRow(t, i) && i in t'.exchanges && t'.exchanges[i] == t.exchanges[i]
    requires t'.vdcs == Upsert(t.vdcs, ex)
    ensures Read(t', i) == Read(t, i) <==> Spares(t, ex, i)
  {
    if t.exchanges[i].vdcId.Some? {
      NamedSpares(t, t', ex, i);
    } else {
      UnnamedSpares(t, t', ex, i);
    }
  }

  lemma NamedRead(t: Tables, i: ExchangeId, v: VdcId)
    requires i in t.exchanges && t.exchanges[i].vdcId == Some(v) && v in t.vdcs
    ensures Read(t, i) == t.exchanges[i].payload.(vdc := Some(t.vdcs[v].doc))
  {
  }

  lemma UnnamedRead(t: Tables, i: ExchangeId)
    requires i in t.exchanges && t.exchanges[i].vdcId == None && forall v | v in t.vdcs :: t.vdcs[v].exchangeId != i
    ensures Read(t, i) == t.exchanges[i].payload.(vdc := None)
  {
  }

  lemma NamedSpares(t: Tables, t': Tables, ex: Exchange, i: ExchangeId)
    requires i in t.exchanges && CoherentRow(t, i) && t.exchanges[i].vdcId.Some?
    requires i in t'.exchanges && t'.exchanges[i] == t.exchanges[i] && t'.vdcs == Upsert(t.vdcs, ex)
    ensures Read(t', i) == Read(t, i) <==> Spares(t, ex, i)
  {
    hide Read;
    var v := t.exchanges[i].vdcId.value;
    NamedRead(t, i, v);
    NamedRead(t', i, v);
  }

  lemma UnnamedSpares(t: Tables, t': Tables, ex: Exchange, i: ExchangeId)
    requires i in t.exchanges && CoherentRow(t, i) && t.exchanges[i].vdcId.None?
    requires i in t'.exchanges && t'.exchanges[i] == t.exchanges[i] && t'.vdcs == Upsert(t.vdcs, ex)
    ensures Read(t', i) == Read(t, i) <==> Spares(t, ex, i)
  {
    UnnamedRead(t, i);
    if ex.vdc.Some? && i == ex.terms.exchangeId {
      var v := ex.vdc.value.body.vdcId;
      assert IsLatest(t'.vdcs, i, v) by { LeqTotal(v, v); }
      LatestIsUnique(t'.vdcs, i, v);
    } else {
      hide Read;
      UnnamedRead(t', i);
    }
  }

  /**
   A save that loses its race keeps every exchange row, yet readers of all exchanges see no difference
   exactly when it spares every row.
   */
  lemma LosingSaveIsInvisibleExactly(t: Tables, expected: nat, ex: Exchange)
    requires Coherent(t) && !Wins(t, expected, ex)
    ensures Saved(t, expected, ex).exchanges == t.exchanges
    ensures View(Saved(t, expected, ex)) == View(t) <==> forall i | i in t.exchanges :: Spares(t, ex, i)
  {
    hide Spares, Read;
    var t' := Saved(t, expected, ex);
    forall i | i in t.exchanges
      ensures Read(t', i) == Read(t, i) <==> Spares(t, ex, i)
    {
      SaveSparesExactly(t, expected, ex, i);
    }
    SameViewExactly(t, t');
  }

  lemma SameViewExactly(t: Tables, t': Tables)
    requires t'.exchanges.Keys == t.exchanges.Keys
    ensures View(t') == View(t) <==> forall i | i in t.exchanges :: Read(t', i) == Read(t, i)
  {
    hide Read;
    if View(t') == View(t) {
      forall i | i in t.exchanges
        ensures Read(t', i) == Read(t, i)
      {
        assert View(t')[i] == View(t)[i];
      }
    }
  }

  /** A save that wins shows in another exchange exactly when it brings a different document under the id it names. */
  lemma WinningSaveHarmsExactly(t: Tables, expected: nat, ex: Exchange, victim: ExchangeId)
    requires victim in t.exchanges && CoherentRow(t, victim) && Wins(t, expected, ex) && victim != ex.terms.exchangeId
    ensures Read(Saved(t, expected, ex), victim) != Read(t, victim) <==>
            ex.vdc.Some? && t.exchanges[victim].vdcId == Some(ex.vdc.value.body.vdcId) && Read(t, victim).vdc != ex.vdc
  {
    SaveSparesExactly(t, expected, ex, victim);
  }

  /******* Writes that refine the map *******/

  /** A save that spares every other row and does not drop its own row's document. */
  ghost predicate Owns(t: Tables, ex: Exchange) {
    var id := ex.terms.exchangeId;
    && (forall i | i in t.exchanges && i != id :: Spares(t, ex, i))
    && (ex.vdc.None? && id in t.exchanges ==> t.exchanges[id].vdcId.None?)
  }

  lemma WriteCoherent(t: Tables, t': Tables, ex: Exchange)
    requires Coherent(t) && Owns(t, ex)
    requires t' == Tables(t.exchanges[ex.terms.exchangeId := Payload(ex)], Upsert(t.vdcs, ex))
    ensures Coherent(t')
  {
    hide Spares, CoherentRow;
    forall i | i in t'.exchanges
      ensures CoherentRow(t', i)
    {
      if i == ex.terms.exchangeId {
        if ex.vdc.None? { NothingFiled(t, i); }
        OwnRowReads(t, t', ex);
      } else {
        OtherRowCoherent(t, t', ex, i);
      }
    }
  }

  /** A row just saved is coherent and reads back as it was saved. */
  lemma OwnRowReads(t: Tables, t': Tables, ex: Exchange)
    requires ex.terms.exchangeId in t'.exchanges && t'.exchanges[ex.terms.exchangeId] == Payload(ex)
    requires t'.vdcs == Upsert(t.vdcs, ex)
    requires ex.vdc.None? ==> forall v | v in t.vdcs :: t.vdcs[v].exchangeId != ex.terms.exchangeId
    ensures CoherentRow(t', ex.terms.exchangeId) && Read(t', ex.terms.exchangeId) == ex
  {
  }

  /** A save leaves every other row coherent, and its own if it does not file the row's first document unnamed. */
  lemma OtherRowCoherent(t: Tables, t': Tables, ex: Exchange, i: ExchangeId)
    requires i in t.exchanges && CoherentRow(t, i) && i in t'.exchanges && t'.exchanges[i] == t.exchanges[i]
    requires t'.vdcs == Upsert(t.vdcs, ex)
    requires i == ex.terms.exchangeId && t.exchanges[i].vdcId.None? ==> ex.vdc.None?
    ensures CoherentRow(t', i)
  {
  }

  /** The save reads back as what was saved, and every other exchange as before. */
  lemma WriteReads(t: Tables, t': Tables, ex: Exchange)
    requires Coherent(t) && Owns(t, ex)
    requires t' == Tables(t.exchanges[ex.terms.exchangeId := Payload(ex)], Upsert(t.vdcs, ex))
    ensures Coherent(t') && Read(t', ex.terms.exchangeId) == ex
    ensures forall i | i in t.exchanges && i != ex.terms.exchangeId :: Read(t', i) == Read(t, i)
  {
    hide Read, Spares, Coherent, CoherentRow;
    WriteCoherent(t, t', ex);
    if ex.vdc.None? { NothingFiled(t, ex.terms.exchangeId); }
    OwnRowReads(t, t', ex);
    forall i | i in t.exchanges && i != ex.terms.exchangeId
      ensures Read(t', i) == Read(t, i)
    {
      RowCoherent(t, i);
      WriteSparesExactly(t, t', ex, i);
    }
  }

  lemma WriteRefines(t: Tables, t': Tables, ex: Exchange)
    requires Coherent(t) && Owns(t, ex)
    requires t' == Tables(t.exchanges[ex.terms.exchangeId := Payload(ex)], Upsert(t.vdcs, ex))
    ensures Coherent(t') && View(t') == View(t)[ex.terms.exchangeId := ex]
  {
    hide Read, Spares, Coherent;
    WriteReads(t, t', ex);
  }

  datatype StoreOp = AddOp(ex: Exchange) | SaveOp(expected: nat, ex: Exchange)

  function Performed(t: Tables, op: StoreOp): Tables {
    match op
    case AddOp(ex) => Added(t, ex)
    case SaveOp(expected, ex) => Saved(t, expected, ex)
  }

  function PerformedAll(t: Tables, ops: seq<StoreOp>): Tables {
    if ops == [] then t else Performed(PerformedAll(t, ops[..|ops| - 1]), ops[|ops| - 1])
  }

  /** The same operations on a plain map. */
  function MapAfter(m: map<ExchangeId, Exchange>, ops: seq<StoreOp>): map<ExchangeId, Exchange> {
    if ops == [] then m
    else MapAfter(m, ops[..|ops| - 1])[ops[|ops| - 1].ex.terms.exchangeId := ops[|ops| - 1].ex]
  }

  /** No add collides, no save loses its version check, no save touches another exchange's document. */
  ghost predicate Undisturbed(t: Tables, ops: seq<StoreOp>) {
    ops == [] ||
    (Undisturbed(t, ops[..|ops| - 1]) &&
     var now, op := PerformedAll(t, ops[..|ops| - 1]), ops[|ops| - 1];
     && Owns(now, op.ex)
     && match op
        case AddOp(ex) => ex.terms.exchangeId !in now.exchanges
        case SaveOp(expected, ex) => Wins(now, expected, ex))
  }

  /** Over whole runs the two tables are indistinguishable from one map of exchanges. */
  lemma {:induction false} TwoTablesRefineOneMap(t: Tables, ops: seq<StoreOp>)
    requires Coherent(t) && Undisturbed(t, ops)
    ensures Coherent(PerformedAll(t, ops)) && View(PerformedAll(t, ops)) == MapAfter(View(t), ops)
  {
    if ops != [] {
      var front, op := ops[..|ops| - 1], ops[|ops| - 1];
      TwoTablesRefineOneMap(t, front);
      WriteRefines(PerformedAll(t, front), PerformedAll(t, ops), op.ex);
    }
  }
}
