/** The table-backed routes of the backend: `/track`, `/refresh`,
    `/tracked/<id>` (DELETE) and `/tracked`, as methods of one object that
    holds the tracked_stock table. The market-data lookup is a parameter. */
module Routes {
  import opened Schema
  import opened MarketCapFormat
  import opened TableOps

  /** The keys of the lookup's dictionary, in its order. */
  datatype Field = PriceField | MarketCapField | CurrencyField

  function Rank(f: Field): nat
  {
    match f
    case PriceField => 0
    case MarketCapField => 1
    case CurrencyField => 2
  }

  predicate Absent(q: Quote, f: Field)
  {
    match f
    case PriceField => q.price.None?
    case MarketCapField => q.marketCap.None?
    case CurrencyField => q.currency.None?
  }

  /** The `missing` list of track: the keys whose value is None, in dictionary order. */
  function Missing(q: Quote): (r: seq<Field>)
    ensures forall f :: f in r <==> Absent(q, f)
    ensures forall i, j :: 0 <= i < j < |r| ==> Rank(r[i]) < Rank(r[j])
    ensures r == [] <==> q.price.Some? && q.marketCap.Some? && q.currency.Some?
  {
    (if q.price.None? then [PriceField] else [])
    + (if q.marketCap.None? then [MarketCapField] else [])
    + (if q.currency.None? then [CurrencyField] else [])
  }

  /** The answers of `/track`. */
  datatype TrackResponse =
    | NoSymbol                                     // 400, "No symbol provided"
    | LookupFailed(symbol: string)                 // the lookup raised: 500
    | Incomplete(symbol: string, missing: seq<Field>)  // 400, "Incomplete data"
    | Tracked(symbol: string, quote: Quote)        // 201, "<symbol> tracked"

  function TrackStatus(r: TrackResponse): (status: int)
    ensures status == 201 <==> r.Tracked?
    ensures status == 500 <==> r.LookupFailed?
    ensures status == 400 <==> r.NoSymbol? || r.Incomplete?
  {
    match r
    case NoSymbol => 400
    case LookupFailed(_) => 500
    case Incomplete(_, _) => 400
    case Tracked(_, _) => 201
  }

  /** The answers of DELETE `/tracked/<id>`. `Unbindable` is the uncaught
      overflow raised when the id is too large to pass to SQLite. */
  datatype DeleteResponse = Deleted | NotFound | Unbindable

  function DeleteStatus(r: DeleteResponse): (status: int)
    ensures status == 200 <==> r.Deleted?
    ensures status == 404 <==> r.NotFound?
    ensures status == 500 <==> r.Unbindable?
  {
    match r
    case Deleted => 200
    case NotFound => 404
    case Unbindable => 500
  }

  /** The tracked_stock table and the routes that read and change it. */
  class StockDb {
    var rows: seq<Row>

    ghost predicate Valid()
      reads this
    {
      WellFormed(rows)
    }

    constructor ()
      ensures Valid() && rows == []
    {
      rows := [];
    }

    /** `/track`: validate the symbol, upper-case it, look it up, reject
        incomplete data, then add or update its row. */
    method Track(symbol: Option<string>, lookup: string -> Fetch) returns (resp: TrackResponse)
      requires Valid()
      modifies this
      ensures Valid()
      ensures resp.NoSymbol? <==> symbol.None? || symbol.value == ""
      ensures !resp.Tracked? ==> rows == old(rows)
      ensures symbol.Some? && symbol.value != "" ==>
        var s := UpperAscii(symbol.value);
        match lookup(s)
        case LookupError => resp == LookupFailed(s)
        case Fetched(q) =>
          if Missing(q) != [] then resp == Incomplete(s, Missing(q))
          else resp == Tracked(s, q) && rows == Upsert(old(rows), s, q)
    {
      if symbol.None? || symbol.value == "" {
        return NoSymbol;
      }
      var s := UpperAscii(symbol.value);
      var fetched := lookup(s);
      if fetched.LookupError? {
        return LookupFailed(s);
      }
      var q := fetched.quote;
      var missing := Missing(q);
      if missing != [] {
        return Incomplete(s, missing);
      }
      var existing := Find(rows, BySymbol(s));
      UpsertWellFormed(rows, s, q);
      if existing.Some? {
        var i := existing.value;
        rows := rows[i := TrackedRow(rows[i].id, s, q)];
      } else {
        rows := rows + [TrackedRow(NextId(rows), s, q)];
      }
      resp := Tracked(s, q);
    }

    /** `/refresh`: look every row up again; overwrite price and market cap
        where the lookup succeeded with a truthy price, skip the rest, and
        report how many rows there were. */
    method RefreshAll(lookup: string -> Fetch) returns (count: nat)
      requires Valid()
      modifies this
      ensures Valid()
      ensures count == |old(rows)| == |rows|
      ensures forall k :: 0 <= k < |rows| ==>
        rows[k] == RefreshRow(old(rows)[k], lookup(old(rows)[k].symbol))
    {
      var i := 0;
      while i < |rows|
        invariant 0 <= i <= |rows| == |old(rows)|
        invariant forall k :: 0 <= k < i ==>
          rows[k] == RefreshRow(old(rows)[k], lookup(old(rows)[k].symbol))
        invariant forall k :: i <= k < |rows| ==> rows[k] == old(rows)[k]
        invariant forall k :: 0 <= k < |rows| ==>
          rows[k].id == old(rows)[k].id && rows[k].symbol == old(rows)[k].symbol
      {
        var stock := rows[i];
        var fetched := lookup(stock.symbol);
        if fetched.Fetched? && Truthy(fetched.quote.price) {
          rows := rows[i := stock.(price := fetched.quote.price, marketCap := fetched.quote.marketCap)];
        }
        i := i + 1;
      }
      count := |rows|;
    }

    /** DELETE `/tracked/<id>`: 500 for an id too large to bind, 404 for an
        unknown id, otherwise remove that row. */
    method DeleteStock(id: nat) returns (resp: DeleteResponse)
      requires Valid()
      modifies this
      ensures Valid()
      ensures resp == Unbindable <==> id > MaxSqlInteger
      ensures resp == NotFound <==>
        id <= MaxSqlInteger && forall k :: 0 <= k < |old(rows)| ==> old(rows)[k].id != id
      ensures rows == if resp == Unbindable then old(rows) else Remove(old(rows), id)
    {
      if id > MaxSqlInteger {
        return Unbindable;
      }
      var found := Find(rows, ById(id));
      if found.None? {
        RemoveAbsent(rows, id);
        return NotFound;
      }
      var i := found.value;
      RemoveAt(rows, id, i);
      CutWellFormed(rows, i);
      rows := rows[..i] + rows[i + 1..];
      resp := Deleted;
    }

    /** `/tracked`: one entry per row in table order, with the market cap
        formatted and no id. */
    method ListTracked() returns (entries: seq<Listed>)
      requires Valid()
      ensures |entries| == |rows|
      ensures forall k :: 0 <= k < |rows| ==>
        entries[k].symbol == rows[k].symbol && entries[k].price == rows[k].price &&
        entries[k].marketCap == FormatMarketCap(rows[k].marketCap) && entries[k].currency == rows[k].currency
      ensures forall i, j :: 0 <= i < j < |entries| ==> entries[i].symbol != entries[j].symbol
    {
      entries := Listing(rows);
    }
  }
}
