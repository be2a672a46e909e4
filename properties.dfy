/**
 * What the store's operations promise, proved about their specifications in
 * Ledger: the invariant each keeps, the units each moves between the lists,
 * the round trips between them, and the behaviours of the source that look
 * like oversights but are kept as written.
 */
module Properties {
  import opened Wrappers
  import opened BeanBags
  import opened Ids
  import opened Ledger
  import opened LedgerFacts

  // ----- every operation keeps the invariant

  lemma AddPreservesValid(st: State, num: int, manufacturer: string, name: string, id: string,
                          year: int, month: int, information: Option<string>)
    requires Valid(st)
    ensures var r := Add(st, num, manufacturer, name, id, year, month, information);
            r.Ok? ==> Valid(r.value)
  {
    var r := Add(st, num, manufacturer, name, id, year, month, information);
    if r.Ok? {
      ValidWithStock(st, r.value.stock);
    }
  }

  lemma SetPricePreservesValid(st: State, id: string, price: int)
    requires Valid(st)
    ensures var r := SetPrice(st, id, price); r.Ok? ==> Valid(r.value)
  {
    var r := SetPrice(st, id, price);
    if r.Ok? {
      ValidWithStock(st, r.value.stock);
    }
  }

  lemma SellPreservesValid(st: State, num: int, id: string)
    requires Valid(st)
    ensures var r := Sell(st, num, id); r.Ok? ==> Valid(r.value)
  {
    var r := Sell(st, num, id);
    if r.Ok? && st.stock != [] {
      var k := Find(st.stock, ById(id));
      ValidWithStock(st, r.value.stock);
      MergeIntoKeepsSoldValid(st.sold, ById(id), num, SoldRecord(num, id, st.stock[k].price));
    }
  }

  lemma ReservePreservesValid(st: State, num: int, id: string, token: int)
    requires Valid(st)
    requires TokenBase <= token < TokenBase + TokenSpan && !Has(st.reserved, ByToken(token))
    ensures var r := Reserve(st, num, id, token); r.Ok? ==> Valid(r.value)
  {
    var r := Reserve(st, num, id, token);
    if r.Ok? {
      var k := Find(st.stock, ById(id));
      var st' := st.(stock := r.value.stock);
      ValidWithStock(st, r.value.stock);
      assert Matches(ById(id), r.value.stock[k]);
      forall i | 0 <= i < |st.reserved|
        ensures st.reserved[i].reservationNumber != token
      {
        assert !Matches(ByToken(token), st.reserved[i]);
      }
    }
  }

  lemma UnreservePreservesValid(st: State, token: int)
    requires Valid(st)
    ensures var r := Unreserve(st, token); r.Ok? ==> Valid(r.value)
  {
    var k := Find(st.reserved, ByToken(token));
    if k < |st.reserved| {
      var res := st.reserved[k];
      var stock := Restock(st.stock, res.id, res.quantity);
      ValidWithStock(st, stock);
      ValidWithoutReservation(st.(stock := stock), k);
    }
  }

  lemma SellReservedPreservesValid(st: State, token: int)
    requires Valid(st)
    ensures var r := SellReserved(st, token); r.Ok? ==> Valid(r.value)
  {
    var k := Find(st.reserved, ByToken(token));
    if k < |st.reserved| {
      var res := st.reserved[k];
      var p := AdjustedPrice(st.stock, res.id, res.price);
      AdjustedPriceBounds(st.stock, res.id, res.price);
      ValidWithoutReservation(st, k);
      MergeIntoKeepsSoldValid(st.sold, BySale(res.id, p), res.quantity, SoldRecord(res.quantity, res.id, p));
    }
  }

  lemma ReplacePreservesValid(st: State, oldId: string, newId: string)
    requires Valid(st)
    ensures var r := Replace(st, oldId, newId); r.Ok? ==> Valid(r.value)
  {
    var r := Replace(st, oldId, newId);
    if r.Ok? && (st.stock != [] || st.reserved != []) {
      var stock := Rename(st.stock, oldId, newId);
      var reserved := Rename(st.reserved, oldId, newId);
      assert r.value == State(stock, reserved, st.sold);
      forall i | 0 <= i < |reserved|
        ensures Has(stock, ById(reserved[i].id))
      {
        var j :| 0 <= j < |st.stock| && Matches(ById(st.reserved[i].id), st.stock[j]);
        assert Matches(ById(reserved[i].id), stock[j]);
      }
      forall i, j | 0 <= i < j < |reserved|
        ensures reserved[i].reservationNumber != reserved[j].reservationNumber
      {
        assert reserved[i].reservationNumber == st.reserved[i].reservationNumber;
      }
    }
  }

  // ----- the price of a reservation sale

  /** A reservation is never sold above its reserved price, nor below zero
      when stock prices are not negative. */
  lemma {:induction false} AdjustedPriceBounds(stock: seq<Record>, id: string, price: int)
    requires price >= 0
    requires forall i :: 0 <= i < |stock| ==> stock[i].price >= 0
    ensures 0 <= AdjustedPrice(stock, id, price) <= price
    decreases |stock|
  {
    if stock != [] && !(stock[0].id == id && stock[0].price < price) {
      AdjustedPriceBounds(stock[1..], id, price);
    }
  }

  /** With unique ids the reservation is sold at the lower of its reserved
      price and the current stock price. */
  lemma {:induction false} AdjustedPriceIsMinimum(stock: seq<Record>, id: string, price: int)
    requires UniqueIds(stock) && Has(stock, ById(id))
    ensures var k := Find(stock, ById(id));
            AdjustedPrice(stock, id, price) == if stock[k].price < price then stock[k].price else price
    decreases |stock|
  {
    if stock[0].id != id {
      var k := Find(stock, ById(id));
      assert UniqueIds(stock[1..]);
      assert Matches(ById(id), stock[1..][k - 1]);
      AdjustedPriceIsMinimum(stock[1..], id, price);
    } else {
      AdjustedPriceOthers(stock[1..], id, price);
    }
  }

  /** Records with other ids never change the price. */
  lemma {:induction false} AdjustedPriceOthers(stock: seq<Record>, id: string, price: int)
    requires !Has(stock, ById(id))
    ensures AdjustedPrice(stock, id, price) == price
    decreases |stock|
  {
    if stock != [] {
      assert !Matches(ById(id), stock[0]);
      assert !Has(stock[1..], ById(id));
      AdjustedPriceOthers(stock[1..], id, price);
    }
  }

  // ----- adding stock

  /** A successful add puts num more bags in stock under id and leaves
      reservations and sales alone. */
  lemma AddAddsUnits(st: State, num: int, manufacturer: string, name: string, id: string,
                     year: int, month: int, information: Option<string>)
    requires Add(st, num, manufacturer, name, id, year, month, information).Ok?
    ensures var s := Add(st, num, manufacturer, name, id, year, month, information).value;
            && Total(s.stock, Units) == Total(st.stock, Units) + num
            && Has(s.stock, ById(id))
            && s.reserved == st.reserved && s.sold == st.sold
  {
    var s := Add(st, num, manufacturer, name, id, year, month, information).value;
    var k := Find(st.stock, ById(id));
    if k < |st.stock| {
      var r := st.stock[k];
      var r' := r.(quantity := r.quantity + num, year := year, month := month);
      assert s == st.(stock := st.stock[k := r']);
      TotalUpdate(st.stock, k, r', Units);
      assert Matches(ById(id), s.stock[k]);
    } else {
      var r := s.stock[|s.stock| - 1];
      assert s == st.(stock := st.stock + [r]);
      TotalAppend(st.stock, [r], Units);
      assert Matches(ById(id), r);
    }
  }

  /** A new id is appended after all others, so adding keeps distinct stock
      ids distinct. */
  lemma AddKeepsIdsUnique(st: State, num: int, manufacturer: string, name: string, id: string,
                          year: int, month: int, information: Option<string>)
    requires UniqueIds(st.stock)
    requires Add(st, num, manufacturer, name, id, year, month, information).Ok?
    ensures UniqueIds(Add(st, num, manufacturer, name, id, year, month, information).value.stock)
  {
    var s := Add(st, num, manufacturer, name, id, year, month, information).value;
    var k := Find(st.stock, ById(id));
    if k < |st.stock| {
      var r := st.stock[k];
      assert s.stock == st.stock[k := r.(quantity := r.quantity + num, year := year, month := month)];
      assert forall i :: 0 <= i < |s.stock| ==> s.stock[i].id == st.stock[i].id;
    } else {
      var r := s.stock[|s.stock| - 1];
      assert s.stock == st.stock + [r] && r.id == id;
      forall i | 0 <= i < |st.stock| ensures st.stock[i].id != id {
        assert !Matches(ById(id), st.stock[i]);
      }
    }
  }

  /** Adding the same bags twice without free text merges the second batch
      into the record the first one made. */
  lemma AddTwiceMerges(st: State, num: int, manufacturer: string, name: string, id: string,
                       year: int, month: int)
    requires Add(st, num, manufacturer, name, id, year, month, None).Ok?
    ensures Add(Add(st, num, manufacturer, name, id, year, month, None).value,
                num, manufacturer, name, id, year, month, None).Ok?
    ensures var s1 := Add(st, num, manufacturer, name, id, year, month, None).value;
            var s2 := Add(s1, num, manufacturer, name, id, year, month, None);
            && |s2.value.stock| == |s1.stock|
            && Total(s2.value.stock, Units) == Total(st.stock, Units) + 2 * num
  {
    var s1 := Add(st, num, manufacturer, name, id, year, month, None).value;
    var k := Find(st.stock, ById(id));
    AddAddsUnits(st, num, manufacturer, name, id, year, month, None);
    if k < |st.stock| {
      FindSameIds(st.stock, s1.stock, id);
    } else {
      var r := s1.stock[|s1.stock| - 1];
      assert s1.stock == st.stock + [r];
      assert Find(s1.stock, ById(id)) == |st.stock|;
    }
    AddAddsUnits(s1, num, manufacturer, name, id, year, month, None);
  }

  /** The free text is only kept for the first bags of an empty store: with
      other stock present it is dropped, and adding the same bags with the
      same text again is then refused as a mismatch. */
  lemma AddWithInformationTwiceMismatches(st: State, num: int, manufacturer: string, name: string,
                                          id: string, year: int, month: int, information: string)
    requires st.stock != [] && !Has(st.stock, ById(id))
    requires Add(st, num, manufacturer, name, id, year, month, Some(information)).Ok?
    ensures var s1 := Add(st, num, manufacturer, name, id, year, month, Some(information)).value;
            && s1.stock[|s1.stock| - 1].information == None
            && Add(s1, num, manufacturer, name, id, year, month, Some(information)) == Err(BeanBagMismatch)
  {
    var s1 := Add(st, num, manufacturer, name, id, year, month, Some(information)).value;
    var r := s1.stock[|s1.stock| - 1];
    assert s1.stock == st.stock + [r];
    assert Find(s1.stock, ById(id)) == |st.stock|;
  }

  // ----- selling from stock

  /** A direct sale moves num bags from stock to the sold list, both overall
      and for its id. */
  lemma SellMovesUnits(st: State, num: int, id: string)
    requires Has(st.stock, ById(id)) && Sell(st, num, id).Ok?
    ensures var s := Sell(st, num, id).value;
            && Total(s.stock, Units) == Total(st.stock, Units) - num
            && Total(s.sold, Units) == Total(st.sold, Units) + num
            && Total(s.sold, UnitsOf(id)) == Total(st.sold, UnitsOf(id)) + num
            && s.reserved == st.reserved
  {
    var k := Find(st.stock, ById(id));
    var r := st.stock[k];
    var r' := r.(quantity := r.quantity - num);
    assert Sell(st, num, id).value
        == State(st.stock[k := r'], st.reserved, MergeInto(st.sold, ById(id), num, SoldRecord(num, id, r.price)));
    TotalUpdate(st.stock, k, r', Units);
    MergeIntoUnits(st.sold, ById(id), num, id, r.price);
  }

  /** A direct sale of bags already sold before is booked at the price of
      that earlier sale, not at the current stock price. */
  lemma SellBooksEarlierPrice(st: State, num: int, id: string)
    requires Has(st.stock, ById(id)) && Has(st.sold, ById(id)) && Sell(st, num, id).Ok?
    ensures var s := Sell(st, num, id).value;
            var earlier := st.sold[Find(st.sold, ById(id))];
            && |s.sold| == |st.sold|
            && Total(s.sold, Takings) == Total(st.sold, Takings) + num * earlier.price
  {
    var k := Find(st.stock, ById(id));
    var j := Find(st.sold, ById(id));
    var e := st.sold[j];
    var e' := e.(quantity := e.quantity + num);
    assert Sell(st, num, id).value.sold == st.sold[j := e'];
    TotalUpdate(st.sold, j, e', Takings);
    TakingsGrow(e, num);
  }

  // ----- reservations

  /** A reservation moves num bags from stock to the reserved list, so the
      bags in stock (reserved or not) stay the same. */
  lemma ReserveKeepsUnitsInStock(st: State, num: int, id: string, token: int)
    requires Reserve(st, num, id, token).Ok?
    ensures var s := Reserve(st, num, id, token).value;
            && Total(s.stock, Units) == Total(st.stock, Units) - num
            && Total(s.reserved, Units) == Total(st.reserved, Units) + num
            && Total(s.stock, Units) + Total(s.reserved, Units) == Total(st.stock, Units) + Total(st.reserved, Units)
  {
    var s := Reserve(st, num, id, token).value;
    var k := Find(st.stock, ById(id));
    var r := st.stock[k];
    TotalUpdate(st.stock, k, r.(quantity := r.quantity - num), Units);
    TotalAppend(st.reserved, [s.reserved[|s.reserved| - 1]], Units);
    assert s.reserved == st.reserved + [s.reserved[|s.reserved| - 1]];
  }

  /** With distinct stock ids, cancelling a reservation gives its bags back
      to the one stock record they came from. */
  lemma UnreserveKeepsUnitsInStock(st: State, token: int)
    requires Valid(st) && UniqueIds(st.stock) && Has(st.reserved, ByToken(token))
    ensures Unreserve(st, token).Ok?
    ensures var s := Unreserve(st, token).value;
            var r := st.reserved[Find(st.reserved, ByToken(token))];
            && Total(s.stock, Units) == Total(st.stock, Units) + r.quantity
            && Total(s.reserved, Units) == Total(st.reserved, Units) - r.quantity
            && s.sold == st.sold
  {
    var k := Find(st.reserved, ByToken(token));
    var r := st.reserved[k];
    assert Has(st.stock, ById(r.id));
    RestockUnits(st.stock, r.id, r.quantity);
    TotalRemoveAt(st.reserved, k, Units);
  }

  /** When two stock records share an id (which replace allows), cancelling
      a reservation gives its bags back to both of them. */
  lemma UnreserveRestocksEveryMatch(st: State, token: int)
    requires Has(st.reserved, ByToken(token))
    ensures Unreserve(st, token).Ok?
    ensures var r := st.reserved[Find(st.reserved, ByToken(token))];
            var s := Unreserve(st, token).value;
            && |s.stock| == |st.stock|
            && forall i :: 0 <= i < |st.stock| && st.stock[i].id == r.id ==>
                 s.stock[i].quantity == st.stock[i].quantity + r.quantity
  {
  }

  /** What a reservation under a fresh token leaves behind: its record is
      the only one holding the token, and the stock keeps its ids. */
  lemma ReserveAppends(st: State, num: int, id: string, token: int)
    requires !Has(st.reserved, ByToken(token)) && Reserve(st, num, id, token).Ok?
    ensures var s1 := Reserve(st, num, id, token).value;
            var k := Find(st.stock, ById(id));
            && s1.reserved == st.reserved + [ReservationRecord(num, id, st.stock[k].price, token)]
            && Find(s1.reserved, ByToken(token)) == |st.reserved|
            && RemoveAt(s1.reserved, |st.reserved|) == st.reserved
            && s1.stock == st.stock[k := st.stock[k].(quantity := st.stock[k].quantity - num)]
            && s1.sold == st.sold
            && (UniqueIds(st.stock) ==> UniqueIds(s1.stock))
  {
    var s1 := Reserve(st, num, id, token).value;
    var n := |st.reserved|;
    assert Matches(ByToken(token), s1.reserved[n]);
    assert forall i :: 0 <= i < |s1.stock| ==> s1.stock[i].id == st.stock[i].id;
  }

  /** A reservation under a fresh token, cancelled again, leaves the store
      exactly as it was, as long as stock ids are distinct. */
  lemma ReserveThenUnreserveRestores(st: State, num: int, id: string, token: int)
    requires UniqueIds(st.stock) && !Has(st.reserved, ByToken(token))
    requires Reserve(st, num, id, token).Ok?
    ensures Unreserve(Reserve(st, num, id, token).value, token) == Ok(st)
  {
    var s1 := Reserve(st, num, id, token).value;
    var k := Find(st.stock, ById(id));
    ReserveAppends(st, num, id, token);
    RestockFound(s1.stock, id, num, k);
    assert s1.stock[k := s1.stock[k].(quantity := s1.stock[k].quantity + num)] == st.stock;
  }

  /** A reservation sale moves the reserved bags to the sold list, booked at
      the adjusted price, which never exceeds the reserved price. */
  lemma SellReservedMovesUnits(st: State, token: int)
    requires Valid(st) && Has(st.reserved, ByToken(token))
    ensures SellReserved(st, token).Ok?
    ensures var r := st.reserved[Find(st.reserved, ByToken(token))];
            var p := AdjustedPrice(st.stock, r.id, r.price);
            var s := SellReserved(st, token).value;
            && 0 <= p <= r.price
            && s.stock == st.stock
            && Total(s.reserved, Units) == Total(st.reserved, Units) - r.quantity
            && Total(s.sold, Units) == Total(st.sold, Units) + r.quantity
            && Total(s.sold, Takings) == Total(st.sold, Takings) + r.quantity * p
  {
    var k := Find(st.reserved, ByToken(token));
    var r := st.reserved[k];
    var p := AdjustedPrice(st.stock, r.id, r.price);
    AdjustedPriceBounds(st.stock, r.id, r.price);
    TotalRemoveAt(st.reserved, k, Units);
    MergeIntoUnits(st.sold, BySale(r.id, p), r.quantity, r.id, p);
    MergeIntoTakings(st.sold, BySale(r.id, p), r.quantity, r.id, p);
  }

  /** Selling a fresh reservation at once books it at the price it was
      reserved at, which is the stock price, and leaves the reservations as
      they were before it. */
  lemma ReserveThenSellReserved(st: State, num: int, id: string, token: int)
    requires Valid(st) && UniqueIds(st.stock)
    requires TokenBase <= token < TokenBase + TokenSpan && !Has(st.reserved, ByToken(token))
    requires Reserve(st, num, id, token).Ok?
    ensures SellReserved(Reserve(st, num, id, token).value, token).Ok?
    ensures var s1 := Reserve(st, num, id, token).value;
            var price := st.stock[Find(st.stock, ById(id))].price;
            var s2 := SellReserved(s1, token).value;
            && s2.stock == s1.stock
            && s2.reserved == st.reserved
            && Total(s2.sold, Units) == Total(st.sold, Units) + num
            && Total(s2.sold, Takings) == Total(st.sold, Takings) + num * price
  {
    var s1 := Reserve(st, num, id, token).value;
    var k := Find(st.stock, ById(id));
    var price := st.stock[k].price;
    var n := |st.reserved|;
    ReservePreservesValid(st, num, id, token);
    ReserveAppends(st, num, id, token);
    assert s1.reserved[n] == ReservationRecord(num, id, price, token);
    FindSameIds(st.stock, s1.stock, id);
    assert Matches(ById(id), s1.stock[k]);
    AdjustedPriceIsMinimum(s1.stock, id, price);
    assert AdjustedPrice(s1.stock, id, price) == price;
    SellReservedMovesUnits(s1, token);
  }

  /** A token under TokenBase + TokenSpan that no reservation holds exists
      whenever fewer than TokenSpan reservations are live, so the generator's
      demand for a fresh draw can be met. */
  lemma FreshTokenExists(reserved: seq<Record>) returns (v: int)
    requires |reserved| < TokenSpan
    ensures 0 <= v < TokenSpan && !Has(reserved, ByToken(TokenBase + v))
  {
    var used := TokenOffsets(reserved);
    TokenOffsetsSize(reserved);
    v := FreeValue(used, TokenSpan);
  }

  function TokenOffsets(reserved: seq<Record>): set<int> {
    set i | 0 <= i < |reserved| :: reserved[i].reservationNumber - TokenBase
  }

  lemma {:induction false} TokenOffsetsSize(reserved: seq<Record>)
    ensures |TokenOffsets(reserved)| <= |reserved|
    decreases |reserved|
  {
    if reserved != [] {
      var init := reserved[..|reserved| - 1];
      TokenOffsetsSize(init);
      assert TokenOffsets(reserved) <= TokenOffsets(init) + {reserved[|reserved| - 1].reservationNumber - TokenBase} by {
        forall x | x in TokenOffsets(reserved)
          ensures x in TokenOffsets(init) + {reserved[|reserved| - 1].reservationNumber - TokenBase}
        {
          var i :| 0 <= i < |reserved| && reserved[i].reservationNumber - TokenBase == x;
          if i < |reserved| - 1 {
            assert init[i] == reserved[i];
          }
        }
      }
      SubsetSize(TokenOffsets(reserved), TokenOffsets(init) + {reserved[|reserved| - 1].reservationNumber - TokenBase});
    }
  }

  lemma SubsetSize(a: set<int>, b: set<int>)
    requires a <= b
    ensures |a| <= |b|
  {
    assert b == a + (b - a);
    assert a * (b - a) == {};
  }

  /** Pigeonhole: fewer than n values leave one of 0 .. n - 1 free. */
  lemma {:induction false} FreeValue(used: set<int>, n: nat) returns (v: int)
    requires |used| < n
    ensures 0 <= v < n && v !in used
    decreases n
  {
    if n - 1 !in used {
      v := n - 1;
    } else {
      v := FreeValue(used - {n - 1}, n - 1);
    }
  }

  // ----- replacing an identifier

  /** replace renames in stock and reservations only: afterwards no live
      record carries the old id, the bags are the same, and the sold list
      still books the old id. */
  lemma ReplaceRenames(st: State, oldId: string, newId: string)
    requires Replace(st, oldId, newId).Ok? && oldId != newId
    ensures var s := Replace(st, oldId, newId).value;
            && !Has(s.stock, ById(oldId)) && !Has(s.reserved, ById(oldId))
            && Total(s.stock, Units) == Total(st.stock, Units)
            && Total(s.reserved, Units) == Total(st.reserved, Units)
            && s.sold == st.sold
  {
    TotalRename(st.stock, oldId, newId);
    TotalRename(st.reserved, oldId, newId);
  }

  /** replace does not check whether the new id is taken, so two stock
      records can end up with the same id. */
  lemma ReplaceCanDuplicateIds(st: State, oldId: string, newId: string)
    requires LegalId(oldId) && LegalId(newId) && oldId != newId
    requires Has(st.stock, ById(oldId)) && Has(st.stock, ById(newId))
    ensures Replace(st, oldId, newId).Ok?
    ensures !UniqueIds(Replace(st, oldId, newId).value.stock)
  {
    var i := Find(st.stock, ById(oldId));
    var j := Find(st.stock, ById(newId));
    var s := Replace(st, oldId, newId).value;
    assert s.stock[i].id == newId && s.stock[j].id == newId;
    assert i != j;
  }

  // ----- the sold queries

  /** For a legal id never sold, while something else was, the count reports
      the id as unknown but the takings report zero. */
  lemma SoldQueriesDisagree(sold: seq<Record>, id: string)
    requires LegalId(id) && sold != [] && !Has(sold, ById(id))
    ensures SoldUnitsOf(sold, id) == Err(BeanBagIdNotRecognised)
    ensures SoldTakingsOf(sold, id) == Ok(0)
  {
    TotalAbsent(sold, id);
  }

  /** An empty store lets a legal but unknown id pass silently where the
      search loop reports it only at the last index. */
  lemma EmptyStoreIgnoresUnknownIds(id: string, newId: string, num: int, price: int, token: int)
    requires LegalId(id) && LegalId(newId) && num >= 1 && price >= 1
    ensures var st := State([], [], []);
            && SetPrice(st, id, price) == Ok(st)
            && Sell(st, num, id) == Ok(st)
            && Reserve(st, num, id, token) == Err(BeanBagIdNotRecognised)
            && Unreserve(st, token) == Ok(st)
            && SellReserved(st, token) == Ok(st)
            && Replace(st, id, newId) == Ok(st)
            && InStockOf(st, id) == Ok(0)
            && SoldUnitsOf(st.sold, id) == Ok(0)
            && SoldTakingsOf(st.sold, id) == Err(BeanBagIdNotRecognised)
  {
  }

  // ----- counting different bean bags

  /** With distinct ids, the length of the stock list is the number of ids. */
  lemma {:induction false} DistinctIdsCount(s: seq<Record>)
    requires UniqueIds(s)
    ensures |IdSet(s)| == |s|
  {
    if s != [] {
      var init := s[..|s| - 1];
      var last := s[|s| - 1].id;
      assert UniqueIds(init);
      DistinctIdsCount(init);
      IdSetSnoc(s);
      assert forall i :: 0 <= i < |init| ==> init[i].id != last;
    }
  }

  lemma IdSetSnoc(s: seq<Record>)
    requires s != []
    ensures IdSet(s) == IdSet(s[..|s| - 1]) + {s[|s| - 1].id}
  {
    var init := s[..|s| - 1];
    forall x | x in IdSet(s) ensures x in IdSet(init) + {s[|s| - 1].id} {
      var i :| 0 <= i < |s| && s[i].id == x;
      if i < |s| - 1 {
        assert init[i].id == x;
      }
    }
    forall x | x in IdSet(init) ensures x in IdSet(s) {
      var i :| 0 <= i < |init| && init[i].id == x;
      assert s[i].id == x;
    }
  }
}
