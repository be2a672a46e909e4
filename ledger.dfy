/**
 * The three lists of the bean bag store as values, and what each operation of
 * src/beanbags/Store.java does to them.  The Store class (store.dfy) is proved
 * to follow these functions; properties.dfy proves what they promise.
 */
module Ledger {
  import opened Wrappers
  import opened BeanBags
  import opened Ids

  /** One case per exception class the store throws. */
  datatype Error =
    | IllegalNumberOfBeanBagsAdded
    | IllegalNumberOfBeanBagsSold
    | IllegalNumberOfBeanBagsReserved
    | IllegalId
    | InvalidMonth
    | InvalidPrice
    | BeanBagMismatch
    | BeanBagIdNotRecognised
    | ReservationNumberNotRecognised
    | BeanBagNotInStock
    | InsufficientStock
    | PriceNotSet

  /** stockList, reserveList and soldList, in that order. */
  datatype State = State(stock: seq<Record>, reserved: seq<Record>, sold: seq<Record>)

  /** Tokens are 100000000 + (int)(Math.random() * 899999999); the cast lies in [0, TokenSpan). */
  const TokenBase: int := 100000000
  const TokenSpan: int := 899999999

  /** Draw d of the random source is the first one whose token no live
      reservation holds. */
  predicate FirstFreshDraw(reserved: seq<Record>, draws: seq<int>, d: int) {
    && 0 <= d < |draws|
    && !Has(reserved, ByToken(TokenBase + draws[d]))
    && forall e :: 0 <= e < d ==> Has(reserved, ByToken(TokenBase + draws[e]))
  }

  /** What the store's search loops compare a record with. */
  datatype Key =
    | ById(id: string)
    | ByToken(token: int)
    | BySale(id: string, price: int)

  predicate Matches(key: Key, r: Record) {
    match key
    case ById(id) => r.id == id
    case ByToken(t) => r.reservationNumber == t
    case BySale(id, p) => r.id == id && r.price == p
  }

  predicate Has(s: seq<Record>, key: Key) {
    exists i :: 0 <= i < |s| && Matches(key, s[i])
  }

  /** The index of the first record matching key, or |s| when there is none. */
  function Find(s: seq<Record>, key: Key): (k: nat)
    ensures k <= |s|
    ensures k < |s| ==> Matches(key, s[k])
    ensures forall j :: 0 <= j < k ==> !Matches(key, s[j])
    ensures k < |s| <==> Has(s, key)
  {
    if s == [] then 0
    else if Matches(key, s[0]) then 0
    else 1 + Find(s[1..], key)
  }

  /** What the store's summing loops add up for one record. */
  datatype Measure =
    | Units
    | UnitsOf(id: string)
    | Takings
    | TakingsOf(id: string)

  function Weight(m: Measure, r: Record): int {
    match m
    case Units => r.quantity
    case UnitsOf(id) => if r.id == id then r.quantity else 0
    case Takings => r.quantity * r.price
    case TakingsOf(id) => if r.id == id then r.quantity * r.price else 0
  }

  /** The sum of the measure over the list, accumulated from the front. */
  function Total(s: seq<Record>, m: Measure): int {
    if s == [] then 0 else Total(s[..|s| - 1], m) + Weight(m, s[|s| - 1])
  }

  predicate UniqueIds(s: seq<Record>) {
    forall i, j :: 0 <= i < j < |s| ==> s[i].id != s[j].id
  }

  function IdSet(s: seq<Record>): set<string> {
    set i | 0 <= i < |s| :: s[i].id
  }

  /**
   * What every operation keeps: stock quantities and prices are never
   * negative; a reservation holds at least one bag at a set price, under a
   * token in range that no other live reservation holds, for an id still in
   * stock; a sold entry holds at least one bag.
   */
  predicate Valid(st: State) {
    && (forall i :: 0 <= i < |st.stock| ==> st.stock[i].quantity >= 0 && st.stock[i].price >= 0)
    && (forall i :: 0 <= i < |st.reserved| ==>
          && st.reserved[i].quantity >= 1
          && st.reserved[i].price >= 1
          && TokenBase <= st.reserved[i].reservationNumber < TokenBase + TokenSpan
          && Has(st.stock, ById(st.reserved[i].id)))
    && (forall i, j :: 0 <= i < j < |st.reserved| ==>
          st.reserved[i].reservationNumber != st.reserved[j].reservationNumber)
    && (forall i :: 0 <= i < |st.sold| ==> st.sold[i].quantity >= 1 && st.sold[i].price >= 0)
  }

  /** How a method's result and new state follow the specification: on an
      error the whole state is left as it was. */
  predicate Realizes(spec: Result<State, Error>, before: State, after: State, outcome: Outcome<Error>) {
    match spec
    case Ok(s) => outcome == Pass && after == s
    case Err(e) => outcome == Fail(e) && after == before
  }

  function RemoveAt(s: seq<Record>, k: nat): seq<Record>
    requires k < |s|
  {
    s[..k] + s[k + 1..]
  }

  /** Adds num to the first entry matching key, or appends sale when none does. */
  function MergeInto(sold: seq<Record>, key: Key, num: int, sale: Record): seq<Record> {
    var k := Find(sold, key);
    if k < |sold| then sold[k := sold[k].(quantity := sold[k].quantity + num)] else sold + [sale]
  }

  /** Adds q to the quantity of every record with this id. */
  function Restock(s: seq<Record>, id: string, q: int): seq<Record> {
    seq(|s|, i requires 0 <= i < |s| =>
      if s[i].id == id then s[i].(quantity := s[i].quantity + q) else s[i])
  }

  function RenameRecord(r: Record, oldId: string, newId: string): Record {
    if r.id == oldId then r.(id := newId) else r
  }

  /** Gives every record carrying oldId the id newId. */
  function Rename(s: seq<Record>, oldId: string, newId: string): seq<Record> {
    seq(|s|, i requires 0 <= i < |s| => RenameRecord(s[i], oldId, newId))
  }

  /** The price a reservation is sold at: the first stock record with its id
      and a lower price lowers it; otherwise it stays. */
  function AdjustedPrice(stock: seq<Record>, id: string, price: int): int {
    if stock == [] then price
    else if stock[0].id == id && stock[0].price < price then stock[0].price
    else AdjustedPrice(stock[1..], id, price)
  }

  // ----- operations that change the lists

  /** addBeanBagsException: the checks, in order, before stock is touched. */
  function AddArgumentsCheck(num: int, id: string, month: int): Outcome<Error> {
    if num < 1 then Fail(IllegalNumberOfBeanBagsAdded)
    else if !LegalId(id) then Fail(IllegalId)
    else if month < 1 || month > 12 then Fail(InvalidMonth)
    else Pass
  }

  /**
   * addBeanBags; information is None for the six-argument overload and
   * Some(text) for the seven-argument one, which also compares free text on
   * a merge but keeps it only when stock was empty.
   */
  function Add(st: State, num: int, manufacturer: string, name: string, id: string,
               year: int, month: int, information: Option<string>): Result<State, Error>
  {
    var check := AddArgumentsCheck(num, id, month);
    if check.Fail? then Err(check.error)
    else
      var k := Find(st.stock, ById(id));
      if k < |st.stock| then
        var r := st.stock[k];
        if r.manufacturer == Some(manufacturer) && r.name == Some(name)
           && (information.None? || r.information == information)
        then Ok(st.(stock := st.stock[k := r.(quantity := r.quantity + num, year := year, month := month)]))
        else Err(BeanBagMismatch)
      else if st.stock == [] && information.Some? then
        Ok(st.(stock := [StockRecordWithInformation(num, manufacturer, name, id, year, month, information.value)]))
      else
        Ok(st.(stock := st.stock + [StockRecord(num, manufacturer, name, id, year, month)]))
  }

  /** setBeanBagPrice: an unknown id is only reported when stock is non-empty. */
  function SetPrice(st: State, id: string, price: int): Result<State, Error> {
    if !LegalId(id) then Err(IllegalId)
    else if price < 1 then Err(InvalidPrice)
    else
      var k := Find(st.stock, ById(id));
      if k < |st.stock| then Ok(st.(stock := st.stock[k := st.stock[k].(price := price)]))
      else if st.stock == [] then Ok(st)
      else Err(BeanBagIdNotRecognised)
  }

  /** The checks sale and reservation run on the stock record, in order. */
  function StockCheck(r: Record, num: int): Outcome<Error> {
    if r.price == 0 then Fail(PriceNotSet)
    else if r.quantity == 0 then Fail(BeanBagNotInStock)
    else if r.quantity < num then Fail(InsufficientStock)
    else Pass
  }

  /** sellBeanBags(num, id): the sale merges into the first sold entry with the
      same id, whatever its price. */
  function Sell(st: State, num: int, id: string): Result<State, Error> {
    if num < 1 then Err(IllegalNumberOfBeanBagsSold)
    else if !LegalId(id) then Err(IllegalId)
    else
      var k := Find(st.stock, ById(id));
      if k == |st.stock| then (if st.stock == [] then Ok(st) else Err(BeanBagIdNotRecognised))
      else
        var r := st.stock[k];
        var check := StockCheck(r, num);
        if check.Fail? then Err(check.error)
        else Ok(State(st.stock[k := r.(quantity := r.quantity - num)], st.reserved,
                      MergeInto(st.sold, ById(id), num, SoldRecord(num, id, r.price))))
  }

  /** reserveBeanBags with the token the generator drew. */
  function Reserve(st: State, num: int, id: string, token: int): Result<State, Error> {
    if num < 1 then Err(IllegalNumberOfBeanBagsReserved)
    else if !LegalId(id) then Err(IllegalId)
    else
      var k := Find(st.stock, ById(id));
      if k == |st.stock| then Err(BeanBagIdNotRecognised)
      else
        var r := st.stock[k];
        var check := StockCheck(r, num);
        if check.Fail? then Err(check.error)
        else Ok(State(st.stock[k := r.(quantity := r.quantity - num)],
                      st.reserved + [ReservationRecord(num, id, r.price, token)], st.sold))
  }

  /** unreserveBeanBags: an unknown token is only reported when reservations exist. */
  function Unreserve(st: State, token: int): Result<State, Error> {
    var k := Find(st.reserved, ByToken(token));
    if k == |st.reserved| then
      (if st.reserved == [] then Ok(st) else Err(ReservationNumberNotRecognised))
    else
      var r := st.reserved[k];
      Ok(State(Restock(st.stock, r.id, r.quantity), RemoveAt(st.reserved, k), st.sold))
  }

  /** sellBeanBags(reservationNumber): the sale merges into the sold entry
      with the same id and the same (possibly lowered) price. */
  function SellReserved(st: State, token: int): Result<State, Error> {
    var k := Find(st.reserved, ByToken(token));
    if k == |st.reserved| then
      (if st.reserved == [] then Ok(st) else Err(ReservationNumberNotRecognised))
    else
      var r := st.reserved[k];
      var p := AdjustedPrice(st.stock, r.id, r.price);
      Ok(State(st.stock, RemoveAt(st.reserved, k),
               MergeInto(st.sold, BySale(r.id, p), r.quantity, SoldRecord(r.quantity, r.id, p))))
  }

  /** replace: renames in stock and reservations but not in sold, and does not
      check whether newId is already in use. */
  function Replace(st: State, oldId: string, newId: string): Result<State, Error> {
    if !LegalId(oldId) || !LegalId(newId) then Err(IllegalId)
    else if st.stock == [] && st.reserved == [] then Ok(st)
    else if !Has(st.stock, ById(oldId)) && !Has(st.reserved, ById(oldId)) then Err(BeanBagIdNotRecognised)
    else Ok(st.(stock := Rename(st.stock, oldId, newId), reserved := Rename(st.reserved, oldId, newId)))
  }

  // ----- queries taking an identifier

  /** beanBagsInStock(id): units with this id in stock and reserved. */
  function InStockOf(st: State, id: string): Result<int, Error> {
    if !LegalId(id) then Err(IllegalId)
    else if st.stock == [] && st.reserved == [] then Ok(0)
    else if !Has(st.stock, ById(id)) && !Has(st.reserved, ById(id)) then Err(BeanBagIdNotRecognised)
    else Ok(Total(st.stock, UnitsOf(id)) + Total(st.reserved, UnitsOf(id)))
  }

  /** getNumberOfSoldBeanBags(id): a zero total counts as unknown, but only
      when something was sold at all. */
  function SoldUnitsOf(sold: seq<Record>, id: string): Result<int, Error> {
    if !LegalId(id) then Err(IllegalId)
    else if sold == [] then Ok(0)
    else if Total(sold, UnitsOf(id)) == 0 then Err(BeanBagIdNotRecognised)
    else Ok(Total(sold, UnitsOf(id)))
  }

  /** getTotalPriceOfSoldBeanBags(id): unknown only when nothing was sold. */
  function SoldTakingsOf(sold: seq<Record>, id: string): Result<int, Error> {
    if !LegalId(id) then Err(IllegalId)
    else if sold == [] then Err(BeanBagIdNotRecognised)
    else Ok(Total(sold, TakingsOf(id)))
  }

  /** getBeanBagDetails: the free text of the first stock record with the id. */
  function Details(stock: seq<Record>, id: string): Result<Option<string>, Error> {
    if !LegalId(id) then Err(IllegalId)
    else
      var k := Find(stock, ById(id));
      if k < |stock| then Ok(stock[k].information) else Err(BeanBagIdNotRecognised)
  }
}

/** Facts about the list functions of Ledger that the store and the properties use. */
module LedgerFacts {
  import opened Wrappers
  import opened BeanBags
  import opened Ledger
  import opened Ids

  lemma {:induction false} TotalAppend(a: seq<Record>, b: seq<Record>, m: Measure)
    ensures Total(a + b, m) == Total(a, m) + Total(b, m)
    decreases |b|
  {
    if b == [] {
      assert a + b == a;
    } else {
      var b' := b[..|b| - 1];
      assert (a + b)[..|a + b| - 1] == a + b';
      TotalAppend(a, b', m);
    }
  }

  lemma TotalUpdate(s: seq<Record>, k: nat, r: Record, m: Measure)
    requires k < |s|
    ensures Total(s[k := r], m) == Total(s, m) - Weight(m, s[k]) + Weight(m, r)
  {
    assert s == s[..k] + [s[k]] + s[k + 1..];
    assert s[k := r] == s[..k] + [r] + s[k + 1..];
    TotalAppend(s[..k] + [s[k]], s[k + 1..], m);
    TotalAppend(s[..k], [s[k]], m);
    TotalAppend(s[..k] + [r], s[k + 1..], m);
    TotalAppend(s[..k], [r], m);
  }

  lemma TotalRemoveAt(s: seq<Record>, k: nat, m: Measure)
    requires k < |s|
    ensures Total(RemoveAt(s, k), m) == Total(s, m) - Weight(m, s[k])
  {
    assert s == s[..k] + [s[k]] + s[k + 1..];
    TotalAppend(s[..k] + [s[k]], s[k + 1..], m);
    TotalAppend(s[..k], [s[k]], m);
    TotalAppend(s[..k], s[k + 1..], m);
  }

  /** A prefix one longer adds the weight of the next record: the step of every summing loop. */
  lemma TotalStep(s: seq<Record>, i: nat, m: Measure)
    requires i < |s|
    ensures Total(s[..i + 1], m) == Total(s[..i], m) + Weight(m, s[i])
  {
    assert s[..i + 1][..i] == s[..i];
  }

  lemma RemoveAtElements(s: seq<Record>, k: nat)
    requires k < |s|
    ensures |RemoveAt(s, k)| == |s| - 1
    ensures forall i :: 0 <= i < k ==> RemoveAt(s, k)[i] == s[i]
    ensures forall i :: k <= i < |s| - 1 ==> RemoveAt(s, k)[i] == s[i + 1]
  {
  }

  /** With unique ids, restocking touches only the one record with the id. */
  lemma RestockFound(s: seq<Record>, id: string, q: int, k: nat)
    requires UniqueIds(s) && k < |s| && s[k].id == id
    ensures Restock(s, id, q) == s[k := s[k].(quantity := s[k].quantity + q)]
  {
    var t := Restock(s, id, q);
    var u := s[k := s[k].(quantity := s[k].quantity + q)];
    assert |t| == |u|;
    forall j | 0 <= j < |s|
      ensures t[j] == u[j]
    {
      if j < k {
        assert s[j].id != s[k].id;
      } else if j > k {
        assert s[k].id != s[j].id;
      }
    }
  }

  /** Replacing the stock by one with the same ids (and possibly more
      records) keeps the invariant, as long as quantities and prices stay
      non-negative. */
  lemma ValidWithStock(st: State, stock: seq<Record>)
    requires Valid(st)
    requires |st.stock| <= |stock|
    requires forall i :: 0 <= i < |st.stock| ==> stock[i].id == st.stock[i].id
    requires forall i :: 0 <= i < |stock| ==> stock[i].quantity >= 0 && stock[i].price >= 0
    ensures Valid(st.(stock := stock))
  {
    forall i | 0 <= i < |st.reserved|
      ensures Has(stock, ById(st.reserved[i].id))
    {
      var j :| 0 <= j < |st.stock| && Matches(ById(st.reserved[i].id), st.stock[j]);
      assert Matches(ById(st.reserved[i].id), stock[j]);
    }
  }

  /** Dropping one reservation keeps the invariant. */
  lemma ValidWithoutReservation(st: State, k: nat)
    requires Valid(st) && k < |st.reserved|
    ensures Valid(st.(reserved := RemoveAt(st.reserved, k)))
  {
    RemoveAtElements(st.reserved, k);
    var rs := RemoveAt(st.reserved, k);
    forall i, j | 0 <= i < j < |rs|
      ensures rs[i].reservationNumber != rs[j].reservationNumber
    {
      var i' := if i < k then i else i + 1;
      var j' := if j < k then j else j + 1;
      assert rs[i] == st.reserved[i'] && rs[j] == st.reserved[j'];
    }
  }

  /** Merging a sale of at least one bag keeps every sold entry at one bag or more. */
  lemma MergeIntoKeepsSoldValid(sold: seq<Record>, key: Key, num: int, sale: Record)
    requires forall i :: 0 <= i < |sold| ==> sold[i].quantity >= 1 && sold[i].price >= 0
    requires num >= 1 && sale.quantity >= 1 && sale.price >= 0
    ensures var s := MergeInto(sold, key, num, sale);
            forall i :: 0 <= i < |s| ==> s[i].quantity >= 1 && s[i].price >= 0
  {
  }

  /** A merged sale that lands on an entry at its own price, or on a new
      entry, adds quantity times price to the takings. */
  lemma MergeIntoTakings(sold: seq<Record>, key: Key, num: int, id: string, price: int)
    requires Find(sold, key) < |sold| ==> sold[Find(sold, key)].price == price
    ensures Total(MergeInto(sold, key, num, SoldRecord(num, id, price)), Takings)
            == Total(sold, Takings) + num * price
  {
    var k := Find(sold, key);
    if k < |sold| {
      TotalUpdate(sold, k, sold[k].(quantity := sold[k].quantity + num), Takings);
      TakingsGrow(sold[k], num);
    } else {
      TotalAppend(sold, [SoldRecord(num, id, price)], Takings);
    }
  }

  lemma {:induction false} TotalRename(s: seq<Record>, oldId: string, newId: string)
    ensures Total(Rename(s, oldId, newId), Units) == Total(s, Units)
    decreases |s|
  {
    if s != [] {
      var n := |s| - 1;
      assert Rename(s, oldId, newId)[..n] == Rename(s[..n], oldId, newId);
      TotalRename(s[..n], oldId, newId);
    }
  }

  /** Find by id looks only at ids, so two lists with the same ids agree. */
  lemma FindSameIds(s: seq<Record>, t: seq<Record>, id: string)
    requires |s| == |t| && forall i :: 0 <= i < |s| ==> s[i].id == t[i].id
    ensures Find(s, ById(id)) == Find(t, ById(id))
  {
    var k, l := Find(s, ById(id)), Find(t, ById(id));
    if k < l {
      assert Matches(ById(id), t[k]);
    } else if l < k {
      assert Matches(ById(id), s[l]);
    }
  }

  /** An id no record carries contributes nothing to the per-id totals. */
  lemma {:induction false} TotalAbsent(s: seq<Record>, id: string)
    requires !Has(s, ById(id))
    ensures Total(s, UnitsOf(id)) == 0 && Total(s, TakingsOf(id)) == 0
    decreases |s|
  {
    if s != [] {
      var n := |s| - 1;
      assert !Matches(ById(id), s[n]);
      assert !Has(s[..n], ById(id)) by {
        forall i | 0 <= i < n ensures !Matches(ById(id), s[..n][i]) {
          assert s[..n][i] == s[i];
        }
      }
      TotalAbsent(s[..n], id);
    }
  }

  /** A sale merged under a key for its own id adds its quantity to the units
      sold, overall and for that id. */
  lemma MergeIntoUnits(sold: seq<Record>, key: Key, num: int, id: string, price: int)
    requires (key.ById? || key.BySale?) && key.id == id
    ensures var s := MergeInto(sold, key, num, SoldRecord(num, id, price));
            && Total(s, Units) == Total(sold, Units) + num
            && Total(s, UnitsOf(id)) == Total(sold, UnitsOf(id)) + num
  {
    var k := Find(sold, key);
    if k < |sold| {
      var r := sold[k];
      assert r.id == id by {
        assert Matches(key, r);
      }
      var r' := r.(quantity := r.quantity + num);
      assert MergeInto(sold, key, num, SoldRecord(num, id, price)) == sold[k := r'];
      TotalUpdate(sold, k, r', Units);
      TotalUpdate(sold, k, r', UnitsOf(id));
    } else {
      TotalAppend(sold, [SoldRecord(num, id, price)], Units);
      TotalAppend(sold, [SoldRecord(num, id, price)], UnitsOf(id));
    }
  }

  /** With unique ids, restocking an id in stock adds q to the units. */
  lemma RestockUnits(s: seq<Record>, id: string, q: int)
    requires UniqueIds(s) && Has(s, ById(id))
    ensures Total(Restock(s, id, q), Units) == Total(s, Units) + q
  {
    var k := Find(s, ById(id));
    RestockFound(s, id, q, k);
    TotalUpdate(s, k, s[k].(quantity := s[k].quantity + q), Units);
  }

  lemma Distribute(a: int, b: int, c: int)
    ensures (a + b) * c == a * c + b * c
  {
  }

  /** num more bags on an entry add num times its price to the takings. */
  lemma TakingsGrow(r: Record, num: int)
    ensures Weight(Takings, r.(quantity := r.quantity + num)) == Weight(Takings, r) + num * r.price
  {
    Distribute(r.quantity, num, r.price);
  }

  /** Sell once the first stock record with the id is known to be at k. */
  lemma SellAt(st: State, num: int, id: string, k: nat)
    requires num >= 1 && LegalId(id) && k < |st.stock| && st.stock[k].id == id
    requires forall j :: 0 <= j < k ==> st.stock[j].id != id
    ensures StockCheck(st.stock[k], num).Fail? ==> Sell(st, num, id) == Err(StockCheck(st.stock[k], num).error)
    ensures StockCheck(st.stock[k], num).Pass? ==>
              Sell(st, num, id) == Ok(State(st.stock[k := st.stock[k].(quantity := st.stock[k].quantity - num)],
                                            st.reserved, MergeInto(st.sold, ById(id), num, SoldRecord(num, id, st.stock[k].price))))
  {
    FindAt(st.stock, id, k);
  }

  /** Reserve once the first stock record with the id is known to be at k. */
  lemma ReserveAt(st: State, num: int, id: string, token: int, k: nat)
    requires num >= 1 && LegalId(id) && k < |st.stock| && st.stock[k].id == id
    requires forall j :: 0 <= j < k ==> st.stock[j].id != id
    ensures StockCheck(st.stock[k], num).Fail? ==> Reserve(st, num, id, token) == Err(StockCheck(st.stock[k], num).error)
    ensures StockCheck(st.stock[k], num).Pass? ==>
              Reserve(st, num, id, token) == Ok(State(st.stock[k := st.stock[k].(quantity := st.stock[k].quantity - num)],
                                                      st.reserved + [ReservationRecord(num, id, st.stock[k].price, token)], st.sold))
  {
    FindAt(st.stock, id, k);
  }

  /** The first record with the id is where the scan stops. */
  lemma FindAt(s: seq<Record>, id: string, k: nat)
    requires k < |s| && s[k].id == id
    requires forall j :: 0 <= j < k ==> s[j].id != id
    ensures Find(s, ById(id)) == k
  {
  }
}
