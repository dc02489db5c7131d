/** The tracked_stock table of the backend, the market-data lookup it consults,
    and the lookups by key that the routes perform on the table. */
module Schema {

  datatype Option<T> = None | Some(value: T)

  /** One row of the tracked_stock table. `id` is the integer primary key
      (SQLite's rowid); `price`, `marketCap` and `currency` are nullable columns. */
  datatype Row = Row(id: nat, symbol: string, price: Option<real>, marketCap: Option<int>, currency: Option<string>)

  /** The three values the market-data lookup reports for a symbol, in the
      order the lookup's dictionary lists them; each may be absent. */
  datatype Quote = Quote(price: Option<real>, marketCap: Option<int>, currency: Option<string>)

  /** One call of the market-data lookup: it either raises or yields a quote. */
  datatype Fetch = LookupError | Fetched(quote: Quote)

  /** Python truthiness of a fetched price: None and zero are false. */
  predicate Truthy(p: Option<real>)
  {
    p.Some? && p.value != 0.0
  }

  /** A full-table scan returns rows in rowid order, so ids strictly increase. */
  predicate IdsIncreasing(rows: seq<Row>)
  {
    forall i, j :: 0 <= i < j < |rows| ==> rows[i].id < rows[j].id
  }

  /** The unique constraint on the symbol column. */
  predicate SymbolsUnique(rows: seq<Row>)
  {
    forall i, j :: 0 <= i < j < |rows| ==> rows[i].symbol != rows[j].symbol
  }

  predicate WellFormed(rows: seq<Row>)
  {
    IdsIncreasing(rows) && SymbolsUnique(rows)
  }

  /** The largest value a 64-bit signed integer parameter can carry; SQLite's
      driver cannot bind a larger Python integer. */
  const MaxSqlInteger: int := 0x7FFF_FFFF_FFFF_FFFF

  /** The two ways the routes look a row up: by symbol (`filter_by(symbol=...)`)
      and by primary key (`get_or_404(id)`). */
  datatype Key = BySymbol(symbol: string) | ById(id: nat)

  predicate Matches(row: Row, key: Key)
  {
    match key
    case BySymbol(s) => row.symbol == s
    case ById(id) => row.id == id
  }

  /** The first row that matches `key`, as `.first()` returns it. */
  function Find(rows: seq<Row>, key: Key): (r: Option<nat>)
    ensures r.Some? ==> r.value < |rows| && Matches(rows[r.value], key)
    ensures r.Some? ==> forall k :: 0 <= k < r.value ==> !Matches(rows[k], key)
    ensures r.None? <==> forall k :: 0 <= k < |rows| ==> !Matches(rows[k], key)
  {
    if rows == [] then None
    else if Matches(rows[0], key) then Some(0)
    else match Find(rows[1..], key)
      case None => None
      case Some(i) => Some(i + 1)
  }

  /** The largest id in the table, 0 for an empty table. */
  function MaxId(rows: seq<Row>): (m: nat)
    ensures forall k :: 0 <= k < |rows| ==> rows[k].id <= m
    ensures rows == [] ==> m == 0
    ensures rows != [] ==> exists k :: 0 <= k < |rows| && rows[k].id == m
  {
    if rows == [] then 0
    else
      var rest := MaxId(rows[1..]);
      assert forall k :: 1 <= k < |rows| ==> rows[k] == rows[1..][k - 1];
      if rows[0].id < rest then rest else rows[0].id
  }

  /** The rowid SQLite gives an inserted row when the key is not supplied:
      one more than the largest rowid in use, or 1 in an empty table. */
  function NextId(rows: seq<Row>): (id: nat)
    ensures forall k :: 0 <= k < |rows| ==> rows[k].id < id
    ensures rows == [] ==> id == 1
  {
    MaxId(rows) + 1
  }

  /** ASCII upper-casing of one character. */
  function UpperChar(c: char): char
  {
    if 'a' <= c <= 'z' then (c as int - 32) as char else c
  }

  /** `str.upper()`, restricted to ASCII letters. */
  function UpperAscii(s: string): (r: string)
    ensures |r| == |s|
    ensures forall k :: 0 <= k < |r| ==> !('a' <= r[k] <= 'z')
    ensures forall k :: 0 <= k < |r| ==>
      if 'a' <= s[k] <= 'z' then r[k] as int == s[k] as int - 32 else r[k] == s[k]
  {
    if s == [] then [] else [UpperChar(s[0])] + UpperAscii(s[1..])
  }

  /** Upper-casing an upper-cased symbol changes nothing. */
  lemma UpperAsciiIdempotent(s: string)
    ensures UpperAscii(UpperAscii(s)) == UpperAscii(s)
  {
  }
}
