/** The health-centre stock routes: each health worker has one stock row,
    created with every counter at zero the first time it is read or
    written; an update overwrites exactly the counters it carries. */
module PhcRoutes {
  import opened Common
  import opened Records

  /** `PHCStock.query.filter_by(asha_id=...).first()`. */
  function FindStock(stocks: seq<PhcStock>, ashaId: string): (r: Option<nat>)
    ensures r.Some? ==> r.value < |stocks| && stocks[r.value].ashaId == ashaId
    ensures r.Some? ==> forall j :: 0 <= j < r.value ==> stocks[j].ashaId != ashaId
    ensures r.None? <==> forall j :: 0 <= j < |stocks| ==> stocks[j].ashaId != ashaId
  {
    if stocks == [] then None
    else if stocks[0].ashaId == ashaId then Some(0)
    else match FindStock(stocks[1..], ashaId)
      case None => None
      case Some(k) => Some(k + 1)
  }

  /** The table's uniqueness constraint on the owner column. */
  predicate OneRowPerAsha(stocks: seq<PhcStock>) {
    forall i, j :: 0 <= i < j < |stocks| ==> stocks[i].ashaId != stocks[j].ashaId
  }

  /** A new row: every counter starts at zero. */
  function DefaultStock(id: string, ashaId: string): (r: PhcStock)
    ensures r.ashaId == ashaId && r.id == id
    ensures r.ironTablets == 0 && r.ttVaccine == 0 && r.folicAcid == 0 && r.calciumTablets == 0
  {
    PhcStock(id, ashaId, 0, 0, 0, 0)
  }

  /** Appending a row for a health worker who has none keeps the rows unique. */
  lemma {:induction false} AppendKeepsUnique(stocks: seq<PhcStock>, row: PhcStock)
    requires OneRowPerAsha(stocks) && FindStock(stocks, row.ashaId).None?
    ensures OneRowPerAsha(stocks + [row])
  {
    var s := stocks + [row];
    forall i, j | 0 <= i < j < |s| ensures s[i].ashaId != s[j].ashaId {
      if j == |stocks| {
        assert s[i] == stocks[i];
      } else {
        assert s[i] == stocks[i] && s[j] == stocks[j];
      }
    }
  }

  /** Replacing a row by one with the same owner keeps the rows unique. */
  lemma ReplaceKeepsUnique(stocks: seq<PhcStock>, k: nat, row: PhcStock)
    requires OneRowPerAsha(stocks) && k < |stocks| && row.ashaId == stocks[k].ashaId
    ensures OneRowPerAsha(stocks[k := row])
  {
    var s := stocks[k := row];
    forall i, j | 0 <= i < j < |s| ensures s[i].ashaId != s[j].ashaId {
      assert s[i].ashaId == stocks[i].ashaId && s[j].ashaId == stocks[j].ashaId;
    }
  }

  /** `get_stock`: the caller's row, created with zero counters when there
      is none. */
  method GetStock(db: Database, ashaId: string, newId: string) returns (stock: PhcStock)
    requires OneRowPerAsha(db.stocks)
    modifies db
    ensures OneRowPerAsha(db.stocks)
    ensures db.ashas == old(db.ashas) && db.mothers == old(db.mothers) && db.callLogs == old(db.callLogs)
    ensures db.healthRecords == old(db.healthRecords) && db.appointments == old(db.appointments)
    ensures FindStock(old(db.stocks), ashaId).Some? ==>
      db.stocks == old(db.stocks) && stock == old(db.stocks)[FindStock(old(db.stocks), ashaId).value]
    ensures FindStock(old(db.stocks), ashaId).None? ==>
      stock == DefaultStock(newId, ashaId) && db.stocks == old(db.stocks) + [stock]
  {
    var found := FindStock(db.stocks, ashaId);
    if found.Some? {
      stock := db.stocks[found.value];
    } else {
      stock := DefaultStock(newId, ashaId);
      AppendKeepsUnique(db.stocks, stock);
      db.stocks := db.stocks + [stock];
    }
  }

  /** The counters an update carries; None is a key that is not there. */
  datatype StockUpdate = StockUpdate(
    ironTablets: Option<int>,
    ttVaccine: Option<int>,
    folicAcid: Option<int>,
    calciumTablets: Option<int>)

  /** The row after an update: a present counter is overwritten, an absent
      one kept; id and owner never change. */
  function ApplyStockUpdate(s: PhcStock, u: StockUpdate): (r: PhcStock)
    ensures r.id == s.id && r.ashaId == s.ashaId
    ensures u.ironTablets.None? ==> r.ironTablets == s.ironTablets
    ensures u.ironTablets.Some? ==> r.ironTablets == u.ironTablets.value
    ensures u.ttVaccine.None? ==> r.ttVaccine == s.ttVaccine
    ensures u.ttVaccine.Some? ==> r.ttVaccine == u.ttVaccine.value
    ensures u.folicAcid.None? ==> r.folicAcid == s.folicAcid
    ensures u.folicAcid.Some? ==> r.folicAcid == u.folicAcid.value
    ensures u.calciumTablets.None? ==> r.calciumTablets == s.calciumTablets
    ensures u.calciumTablets.Some? ==> r.calciumTablets == u.calciumTablets.value
  {
    s.(ironTablets := if u.ironTablets.Some? then u.ironTablets.value else s.ironTablets,
       ttVaccine := if u.ttVaccine.Some? then u.ttVaccine.value else s.ttVaccine,
       folicAcid := if u.folicAcid.Some? then u.folicAcid.value else s.folicAcid,
       calciumTablets := if u.calciumTablets.Some? then u.calciumTablets.value else s.calciumTablets)
  }

  /** Applying the same update twice is the same as applying it once. */
  lemma StockUpdateIdempotent(s: PhcStock, u: StockUpdate)
    ensures ApplyStockUpdate(ApplyStockUpdate(s, u), u) == ApplyStockUpdate(s, u)
  {
  }

  /** `update_stock`: the caller's row (created with zero counters when
      missing) with the present counters overwritten one by one. */
  method UpdateStock(db: Database, ashaId: string, u: StockUpdate, newId: string) returns (stock: PhcStock)
    requires OneRowPerAsha(db.stocks)
    modifies db
    ensures OneRowPerAsha(db.stocks)
    ensures db.ashas == old(db.ashas) && db.mothers == old(db.mothers) && db.callLogs == old(db.callLogs)
    ensures db.healthRecords == old(db.healthRecords) && db.appointments == old(db.appointments)
    ensures FindStock(old(db.stocks), ashaId).Some? ==>
      var k := FindStock(old(db.stocks), ashaId).value;
      stock == ApplyStockUpdate(old(db.stocks)[k], u) && db.stocks == old(db.stocks)[k := stock]
    ensures FindStock(old(db.stocks), ashaId).None? ==>
      stock == ApplyStockUpdate(DefaultStock(newId, ashaId), u) && db.stocks == old(db.stocks) + [stock]
  {
    var found := FindStock(db.stocks, ashaId);
    stock := if found.Some? then db.stocks[found.value] else DefaultStock(newId, ashaId);
    if u.ironTablets.Some? { stock := stock.(ironTablets := u.ironTablets.value); }
    if u.ttVaccine.Some? { stock := stock.(ttVaccine := u.ttVaccine.value); }
    if u.folicAcid.Some? { stock := stock.(folicAcid := u.folicAcid.value); }
    if u.calciumTablets.Some? { stock := stock.(calciumTablets := u.calciumTablets.value); }
    if found.Some? {
      var k := found.value;
      ReplaceKeepsUnique(db.stocks, k, stock);
      db.stocks := db.stocks[k := stock];
    } else {
      AppendKeepsUnique(db.stocks, stock);
      db.stocks := db.stocks + [stock];
    }
  }

  /** Once a row has been created for a health worker who had none, the
      next lookup finds that row. */
  lemma {:induction false} RowFoundAfterCreation(stocks: seq<PhcStock>, ashaId: string, row: PhcStock)
    requires FindStock(stocks, ashaId).None? && row.ashaId == ashaId
    ensures FindStock(stocks + [row], ashaId) == Some(|stocks|)
  {
    if stocks != [] {
      assert (stocks + [row])[1..] == stocks[1..] + [row];
      RowFoundAfterCreation(stocks[1..], ashaId, row);
    }
  }
}
