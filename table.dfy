/** The table changes and the projection the routes perform, as functions of
    the rows: add-or-update by symbol, removal by id, the per-row refresh, and
    the listing shape. */
module TableOps {
  import opened Schema
  import opened MarketCapFormat

  /** The row a successful track writes for symbol `s` under a given id. */
  function TrackedRow(id: nat, s: string, q: Quote): Row
  {
    Row(id, s, q.price, q.marketCap, q.currency)
  }

  /** The add-or-update of track: the row carrying `s` is overwritten in place
      and keeps its id; when there is none, a row with the next rowid is appended. */
  function Upsert(rows: seq<Row>, s: string, q: Quote): (r: seq<Row>)
    ensures |r| == |rows| || |r| == |rows| + 1
    ensures exists j :: (0 <= j < |r| && r[j].symbol == s &&
      r[j].price == q.price && r[j].marketCap == q.marketCap && r[j].currency == q.currency)
    ensures forall k :: 0 <= k < |rows| && rows[k].symbol != s ==> r[k] == rows[k]
  {
    match Find(rows, BySymbol(s))
    case Some(i) =>
      var r := rows[i := TrackedRow(rows[i].id, s, q)];
      assert r[i].symbol == s;
      r
    case None =>
      var r := rows + [TrackedRow(NextId(rows), s, q)];
      assert r[|rows|].symbol == s;
      r
  }

  /** Updating a tracked symbol keeps its row's place and id and leaves every other row alone. */
  lemma UpsertExisting(rows: seq<Row>, s: string, q: Quote, i: nat)
    requires SymbolsUnique(rows)
    requires i < |rows| && rows[i].symbol == s
    ensures |Upsert(rows, s, q)| == |rows|
    ensures Upsert(rows, s, q)[i] == TrackedRow(rows[i].id, s, q)
    ensures forall k :: 0 <= k < |rows| && k != i ==> Upsert(rows, s, q)[k] == rows[k]
  {
  }

  /** Tracking a new symbol appends one row whose id no existing row has. */
  lemma UpsertNew(rows: seq<Row>, s: string, q: Quote)
    requires forall k :: 0 <= k < |rows| ==> rows[k].symbol != s
    ensures |Upsert(rows, s, q)| == |rows| + 1
    ensures Upsert(rows, s, q)[..|rows|] == rows
    ensures Upsert(rows, s, q)[|rows|] == TrackedRow(NextId(rows), s, q)
    ensures forall k :: 0 <= k < |rows| ==> rows[k].id != NextId(rows)
  {
  }

  /** Add-or-update keeps ids increasing and symbols unique. */
  lemma UpsertWellFormed(rows: seq<Row>, s: string, q: Quote)
    requires WellFormed(rows)
    ensures WellFormed(Upsert(rows, s, q))
  {
  }

  /** After add-or-update exactly one row carries `s`, and it holds the quote's values. */
  lemma UpsertSingleRow(rows: seq<Row>, s: string, q: Quote)
    requires WellFormed(rows)
    ensures var r := Upsert(rows, s, q);
      exists j :: 0 <= j < |r| && r[j].symbol == s &&
        r[j].price == q.price && r[j].marketCap == q.marketCap && r[j].currency == q.currency &&
        forall k :: 0 <= k < |r| && k != j ==> r[k].symbol != s
  {
    var r := Upsert(rows, s, q);
    UpsertWellFormed(rows, s, q);
    match Find(rows, BySymbol(s))
    case Some(i) =>
      UpsertExisting(rows, s, q, i);
      assert r[i].symbol == s;
      assert forall k :: 0 <= k < |r| && k != i ==> r[k].symbol != s by {
        forall k | 0 <= k < |r| && k != i ensures r[k].symbol != s {
          if k < i { assert r[k].symbol != r[i].symbol; } else { assert r[i].symbol != r[k].symbol; }
        }
      }
    case None =>
      UpsertNew(rows, s, q);
      assert r[|rows|].symbol == s;
  }

  /** Tracking the same symbol with the same quote twice changes nothing the second time. */
  lemma UpsertIdempotent(rows: seq<Row>, s: string, q: Quote)
    ensures Upsert(Upsert(rows, s, q), s, q) == Upsert(rows, s, q)
  {
    var r := Upsert(rows, s, q);
    match Find(rows, BySymbol(s))
    case Some(i) =>
      assert Matches(r[i], BySymbol(s));
      assert forall k :: 0 <= k < i ==> r[k] == rows[k];
    case None =>
      assert Matches(r[|rows|], BySymbol(s));
      assert forall k :: 0 <= k < |rows| ==> r[k] == rows[k];
  }

  /** delete's effect on the table: every row with the given id is dropped, in order. */
  function Remove(rows: seq<Row>, id: nat): (r: seq<Row>)
    ensures |r| <= |rows|
    ensures forall k :: 0 <= k < |r| ==> r[k].id != id
  {
    if rows == [] then []
    else (if rows[0].id == id then [] else [rows[0]]) + Remove(rows[1..], id)
  }

  /** Removal keeps exactly the rows whose id differs. */
  lemma {:induction false} RemoveMembers(rows: seq<Row>, id: nat)
    ensures forall row :: row in Remove(rows, id) <==> row in rows && row.id != id
  {
    if rows != [] {
      RemoveMembers(rows[1..], id);
      assert rows == [rows[0]] + rows[1..];
    }
  }

  /** Removing an id no row has changes nothing. */
  lemma {:induction false} RemoveAbsent(rows: seq<Row>, id: nat)
    requires forall k :: 0 <= k < |rows| ==> rows[k].id != id
    ensures Remove(rows, id) == rows
  {
    if rows != [] {
      RemoveAbsent(rows[1..], id);
      assert rows == [rows[0]] + rows[1..];
    }
  }

  /** With increasing ids, removing the id of row `i` cuts out exactly that row. */
  lemma {:induction false} RemoveAt(rows: seq<Row>, id: nat, i: nat)
    requires IdsIncreasing(rows)
    requires i < |rows| && rows[i].id == id
    ensures Remove(rows, id) == rows[..i] + rows[i + 1..]
  {
    var tail := rows[1..];
    if i == 0 {
      assert Remove(rows, id) == Remove(tail, id);
      RemoveAbsent(tail, id);
    } else {
      assert rows[0].id != id;
      assert Remove(rows, id) == [rows[0]] + Remove(tail, id);
      RemoveAt(tail, id, i - 1);
      assert tail[..i - 1] == rows[1..i];
      assert tail[i..] == rows[i + 1..];
      assert [rows[0]] + rows[1..i] == rows[..i];
    }
  }

  /** Cutting one row out keeps ids increasing and symbols unique. */
  lemma CutWellFormed(rows: seq<Row>, i: nat)
    requires WellFormed(rows)
    requires i < |rows|
    ensures WellFormed(rows[..i] + rows[i + 1..])
  {
  }

  /** Removal by id keeps the table well formed. */
  lemma RemoveWellFormed(rows: seq<Row>, id: nat)
    requires WellFormed(rows)
    ensures WellFormed(Remove(rows, id))
  {
    match Find(rows, ById(id))
    case None => RemoveAbsent(rows, id);
    case Some(i) =>
      RemoveAt(rows, id, i);
      CutWellFormed(rows, i);
  }

  /** Deleting the id that tracking a new symbol just created gives back the old table. */
  lemma TrackThenDelete(rows: seq<Row>, s: string, q: Quote)
    requires forall k :: 0 <= k < |rows| ==> rows[k].symbol != s
    ensures Remove(Upsert(rows, s, q), NextId(rows)) == rows
  {
    var r := Upsert(rows, s, q);
    UpsertNew(rows, s, q);
    RemoveAbsent(rows, NextId(rows));
    RemoveAppend(rows, TrackedRow(NextId(rows), s, q), NextId(rows));
    assert r == rows + [TrackedRow(NextId(rows), s, q)];
  }

  /** Removal distributes over appending one row. */
  lemma {:induction false} RemoveAppend(rows: seq<Row>, last: Row, id: nat)
    ensures Remove(rows + [last], id) == Remove(rows, id) + (if last.id == id then [] else [last])
  {
    if rows == [] {
      assert [last][1..] == [];
    } else {
      assert (rows + [last])[1..] == rows[1..] + [last];
      RemoveAppend(rows[1..], last, id);
    }
  }

  /** refresh_all's treatment of one row: price and market cap are overwritten
      only when the lookup succeeded with a truthy price (a None market cap
      then overwrites too); otherwise the row is left as it was. */
  function RefreshRow(row: Row, f: Fetch): (r: Row)
    ensures r.id == row.id && r.symbol == row.symbol && r.currency == row.currency
    ensures f.Fetched? && Truthy(f.quote.price) ==>
      r.price == f.quote.price && r.marketCap == f.quote.marketCap
    ensures !(f.Fetched? && Truthy(f.quote.price)) ==> r == row
  {
    match f
    case LookupError => row
    case Fetched(q) =>
      if Truthy(q.price) then row.(price := q.price, marketCap := q.marketCap) else row
  }

  /** One entry of the tracked listing: no id, and the market cap formatted. */
  datatype Listed = Listed(symbol: string, price: Option<real>, marketCap: Option<Display>, currency: Option<string>)

  function ListEntry(row: Row): Listed
  {
    Listed(row.symbol, row.price, FormatMarketCap(row.marketCap), row.currency)
  }

  /** The tracked listing: one entry per row, in table order. */
  function Listing(rows: seq<Row>): (r: seq<Listed>)
    ensures |r| == |rows|
    ensures forall k :: 0 <= k < |rows| ==> r[k] == ListEntry(rows[k])
  {
    if rows == [] then [] else [ListEntry(rows[0])] + Listing(rows[1..])
  }

  /** The listing does not depend on ids: tables that differ only in ids list alike. */
  lemma ListingIgnoresIds(a: seq<Row>, b: seq<Row>)
    requires |a| == |b|
    requires forall k :: 0 <= k < |a| ==> a[k].(id := 0) == b[k].(id := 0)
    ensures Listing(a) == Listing(b)
  {
  }
}
