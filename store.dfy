/**
 * The bean bag store (src/beanbags/Store.java): three lists changed in place,
 * every operation checking its arguments before it changes anything.  Each
 * method follows the loops of the source and is proved to do what the
 * matching function of Ledger specifies; an operation that fails leaves all
 * three lists as they were.
 */
module Stores {
  import opened Wrappers
  import opened BeanBags
  import opened Ids
  import opened Ledger
  import opened LedgerFacts
  import opened Properties

  /** The digits isIDValid compares against, in its order; the first eight
      are the ones a leading digit may be. */
  const HexValues: string := "0123456789abcdef"

  class Store {
    var stockList: seq<Record>
    var reserveList: seq<Record>
    var soldList: seq<Record>

    function Contents(): State
      reads this
    {
      State(stockList, reserveList, soldList)
    }

    ghost predicate Valid()
      reads this
    {
      Ledger.Valid(Contents())
    }

    constructor ()
      ensures Valid() && Contents() == State([], [], [])
    {
      stockList := [];
      reserveList := [];
      soldList := [];
    }

    // ----- helpers

    /** isIDValid: the digit loop alone; the length is checked by CheckId. */
    static method IsIdValid(id: string) returns (valid: bool)
      ensures valid <==> HexShaped(id)
    {
      var i := 0;
      while i < |id|
        invariant 0 <= i <= |id|
        invariant forall k :: 0 <= k < i ==> IsHexDigit(id[k])
        invariant i > 0 ==> '0' <= id[0] <= '7'
      {
        var x := 0;
        while x < |HexValues|
          invariant 0 <= x < |HexValues|
          invariant i == 0 ==> x <= 8
          invariant forall y :: 0 <= y < x ==> id[i] != HexValues[y]
        {
          if i == 0 && x >= 8 {
            HexValuesAt(id[0]);
            return false;
          }
          if id[i] == HexValues[x] {
            break;
          }
          if x == |HexValues| - 1 {
            HexValuesAt(id[i]);
            return false;
          }
          x := x + 1;
        }
        i := i + 1;
      }
      return true;
    }

    /** beanBagsIllegalIDException. */
    static method CheckId(id: string) returns (outcome: Outcome<Error>)
      ensures outcome == if LegalId(id) then Pass else Fail(IllegalId)
    {
      if |id| != 8 {
        return Fail(IllegalId);
      }
      var valid := IsIdValid(id);
      if !valid {
        return Fail(IllegalId);
      }
      return Pass;
    }

    /** addBeanBagsException: the count, then the id, then the month. */
    static method CheckAddArguments(num: int, id: string, month: int) returns (outcome: Outcome<Error>)
      ensures outcome == AddArgumentsCheck(num, id, month)
      ensures outcome.Pass? <==> num >= 1 && LegalId(id) && 1 <= month <= 12
    {
      if num < 1 {
        return Fail(IllegalNumberOfBeanBagsAdded);
      }
      outcome := CheckId(id);
      if outcome.Fail? {
        return;
      }
      if month < 1 || month > 12 {
        return Fail(InvalidMonth);
      }
    }

    // ----- adding stock and setting prices

    /** addBeanBags, six arguments. */
    method AddBeanBags(num: int, manufacturer: string, name: string, id: string, year: int, month: int)
      returns (outcome: Outcome<Error>)
      requires Valid()
      modifies this
      ensures Valid()
      ensures Realizes(Add(old(Contents()), num, manufacturer, name, id, year, month, None),
                       old(Contents()), Contents(), outcome)
    {
      outcome := AddStock(num, manufacturer, name, id, year, month, None);
    }

    /** addBeanBags, seven arguments. */
    method AddBeanBagsWithInformation(num: int, manufacturer: string, name: string, id: string,
                                      year: int, month: int, information: string)
      returns (outcome: Outcome<Error>)
      requires Valid()
      modifies this
      ensures Valid()
      ensures Realizes(Add(old(Contents()), num, manufacturer, name, id, year, month, Some(information)),
                       old(Contents()), Contents(), outcome)
    {
      outcome := AddStock(num, manufacturer, name, id, year, month, Some(information));
    }

    /** The loop both addBeanBags overloads run; information is None for the
        six-argument one. */
    method AddStock(num: int, manufacturer: string, name: string, id: string, year: int, month: int,
                    information: Option<string>)
      returns (outcome: Outcome<Error>)
      requires Valid()
      modifies this
      ensures Valid()
      ensures Realizes(Add(old(Contents()), num, manufacturer, name, id, year, month, information),
                       old(Contents()), Contents(), outcome)
    {
      ghost var before := Contents();
      outcome := CheckAddArguments(num, id, month);
      if outcome.Fail? {
        return;
      }
      if |stockList| != 0 {
        var i := 0;
        while i < |stockList|
          invariant 0 <= i < |stockList|
          invariant Contents() == before
          invariant forall j :: 0 <= j < i ==> stockList[j].id != id
        {
          if stockList[i].id == id {
            assert Find(before.stock, ById(id)) == i;
            if stockList[i].manufacturer == Some(manufacturer) && stockList[i].name == Some(name)
               && (information.None? || stockList[i].information == information) {
              stockList := stockList[i := stockList[i].(quantity := stockList[i].quantity + num,
                                                         year := year, month := month)];
              assert Add(before, num, manufacturer, name, id, year, month, information) == Ok(Contents());
              AddPreservesValid(before, num, manufacturer, name, id, year, month, information);
              return;
            } else {
              return Fail(BeanBagMismatch);
            }
          }
          if i == |stockList| - 1 {
            assert Find(before.stock, ById(id)) == |before.stock|;
            stockList := stockList + [StockRecord(num, manufacturer, name, id, year, month)];
            assert Add(before, num, manufacturer, name, id, year, month, information) == Ok(Contents());
            AddPreservesValid(before, num, manufacturer, name, id, year, month, information);
            return;
          }
          i := i + 1;
        }
      } else if information.Some? {
        stockList := stockList + [StockRecordWithInformation(num, manufacturer, name, id, year, month, information.value)];
        AddPreservesValid(before, num, manufacturer, name, id, year, month, information);
      } else {
        stockList := stockList + [StockRecord(num, manufacturer, name, id, year, month)];
        AddPreservesValid(before, num, manufacturer, name, id, year, month, information);
      }
    }

    /** setBeanBagPrice. */
    method SetBeanBagPrice(id: string, priceInPence: int) returns (outcome: Outcome<Error>)
      requires Valid()
      modifies this
      ensures Valid()
      ensures Realizes(SetPrice(old(Contents()), id, priceInPence), old(Contents()), Contents(), outcome)
    {
      ghost var before := Contents();
      outcome := CheckId(id);
      if outcome.Fail? {
        return;
      }
      if priceInPence < 1 {
        return Fail(InvalidPrice);
      }
      var i := 0;
      while i < |stockList|
        invariant 0 <= i <= |stockList| && (i < |stockList| || stockList == [])
        invariant Contents() == before
        invariant forall j :: 0 <= j < i ==> stockList[j].id != id
      {
        if stockList[i].id == id {
          FindAt(before.stock, id, i);
          stockList := stockList[i := stockList[i].(price := priceInPence)];
          assert SetPrice(before, id, priceInPence) == Ok(Contents());
          SetPricePreservesValid(before, id, priceInPence);
          return;
        }
        if i == |stockList| - 1 {
          return Fail(BeanBagIdNotRecognised);
        }
        i := i + 1;
      }
    }

    // ----- selling and reserving

    /** The sold-list loop of both sales: adds num to the first entry matching
        key, or appends sale when none does. */
    method RecordSale(key: Key, num: int, sale: Record)
      modifies this
      ensures soldList == MergeInto(old(soldList), key, num, sale)
      ensures stockList == old(stockList) && reserveList == old(reserveList)
    {
      if |soldList| != 0 {
        var x := 0;
        while x < |soldList|
          invariant 0 <= x < |soldList|
          invariant soldList == old(soldList) && stockList == old(stockList) && reserveList == old(reserveList)
          invariant forall j :: 0 <= j < x ==> !Matches(key, soldList[j])
        {
          if Matches(key, soldList[x]) {
            soldList := soldList[x := soldList[x].(quantity := soldList[x].quantity + num)];
            break;
          }
          if x == |soldList| - 1 {
            soldList := soldList + [sale];
            break;
          }
          x := x + 1;
        }
      } else {
        soldList := soldList + [sale];
      }
    }

    /** sellBeanBags(num, id). */
    method SellBeanBags(num: int, id: string) returns (outcome: Outcome<Error>)
      requires Valid()
      modifies this
      ensures Valid()
      ensures Realizes(Sell(old(Contents()), num, id), old(Contents()), Contents(), outcome)
    {
      ghost var before := Contents();
      if num < 1 {
        return Fail(IllegalNumberOfBeanBagsSold);
      }
      outcome := CheckId(id);
      if outcome.Fail? {
        return;
      }
      var i := 0;
      while i < |stockList|
        invariant 0 <= i <= |stockList| && (i < |stockList| || stockList == [])
        invariant Contents() == before
        invariant forall j :: 0 <= j < i ==> stockList[j].id != id
      {
        if stockList[i].id == id {
          SellAt(before, num, id, i);
          if stockList[i].price == 0 {
            return Fail(PriceNotSet);
          }
          if stockList[i].quantity == 0 {
            return Fail(BeanBagNotInStock);
          }
          if stockList[i].quantity >= num {
            stockList := stockList[i := stockList[i].(quantity := stockList[i].quantity - num)];
            RecordSale(ById(id), num, SoldRecord(num, id, stockList[i].price));
            assert Sell(before, num, id) == Ok(Contents());
            SellPreservesValid(before, num, id);
            return;
          } else {
            return Fail(InsufficientStock);
          }
        }
        if i == |stockList| - 1 {
          return Fail(BeanBagIdNotRecognised);
        }
        i := i + 1;
      }
    }

    /**
     * generateReservationNumber. Each element of draws is one value of the
     * random source, already scaled to [0, TokenSpan); a draw whose token is
     * taken is replaced by the next one.
     */
    method GenerateReservationNumber(draws: seq<int>) returns (token: int)
      requires forall k :: 0 <= k < |draws| ==> 0 <= draws[k] < TokenSpan
      requires exists k :: 0 <= k < |draws| && !Has(reserveList, ByToken(TokenBase + draws[k]))
      ensures TokenBase <= token < TokenBase + TokenSpan
      ensures !Has(reserveList, ByToken(token))
      ensures exists d :: FirstFreshDraw(reserveList, draws, d) && token == TokenBase + draws[d]
    {
      var d := 0;
      token := TokenBase + draws[d];
      if |reserveList| != 0 {
        while true
          invariant 0 <= d < |draws| && token == TokenBase + draws[d]
          invariant forall e :: 0 <= e < d ==> Has(reserveList, ByToken(TokenBase + draws[e]))
          decreases |draws| - d
        {
          ghost var d0 := d;
          var i := 0;
          while i < |reserveList|
            invariant 0 <= i < |reserveList|
            invariant d == d0 && token == TokenBase + draws[d]
            invariant forall j :: 0 <= j < i ==> reserveList[j].reservationNumber != token
          {
            if reserveList[i].reservationNumber == token {
              assert Has(reserveList, ByToken(TokenBase + draws[d]));
              d := d + 1;
              token := TokenBase + draws[d];
              break;
            }
            if i == |reserveList| - 1 {
              assert FirstFreshDraw(reserveList, draws, d);
              return;
            }
            i := i + 1;
          }
        }
      }
      assert FirstFreshDraw(reserveList, draws, d);
    }

    /**
     * reserveBeanBags. The token is drawn, as in the store, after the
     * stock record has been found and checked.
     */
    method ReserveBeanBags(num: int, id: string, draws: seq<int>) returns (result: Result<int, Error>)
      requires Valid()
      requires forall k :: 0 <= k < |draws| ==> 0 <= draws[k] < TokenSpan
      requires exists k :: 0 <= k < |draws| && !Has(reserveList, ByToken(TokenBase + draws[k]))
      modifies this
      ensures Valid()
      ensures result.Ok? ==> TokenBase <= result.value < TokenBase + TokenSpan
      ensures result.Ok? ==> !Has(old(reserveList), ByToken(result.value))
      ensures result.Ok? ==> Reserve(old(Contents()), num, id, result.value) == Ok(Contents())
      ensures result.Err? ==> Reserve(old(Contents()), num, id, 0) == Err(result.error)
      ensures result.Err? ==> Contents() == old(Contents())
    {
      ghost var before := Contents();
      if num < 1 {
        return Err(IllegalNumberOfBeanBagsReserved);
      }
      var check := CheckId(id);
      if check.Fail? {
        return Err(check.error);
      }
      var i := 0;
      while i < |stockList|
        invariant 0 <= i <= |stockList|
        invariant Contents() == before
        invariant forall j :: 0 <= j < i ==> stockList[j].id != id
      {
        if stockList[i].id == id {
          ReserveAt(before, num, id, 0, i);
          if stockList[i].price == 0 {
            return Err(PriceNotSet);
          }
          if stockList[i].quantity == 0 {
            return Err(BeanBagNotInStock);
          }
          if stockList[i].quantity >= num {
            stockList := stockList[i := stockList[i].(quantity := stockList[i].quantity - num)];
            var token := GenerateReservationNumber(draws);
            reserveList := reserveList + [ReservationRecord(num, id, stockList[i].price, token)];
            ReserveAt(before, num, id, token, i);
            assert Reserve(before, num, id, token) == Ok(Contents());
            ReservePreservesValid(before, num, id, token);
            return Ok(token);
          } else {
            return Err(InsufficientStock);
          }
        }
        i := i + 1;
      }
      return Err(BeanBagIdNotRecognised);
    }

    /** unreserveBeanBags: every stock record with the reservation's id gets
        the reserved bags back. */
    method UnreserveBeanBags(token: int) returns (outcome: Outcome<Error>)
      requires Valid()
      modifies this
      ensures Valid()
      ensures Realizes(Unreserve(old(Contents()), token), old(Contents()), Contents(), outcome)
    {
      ghost var before := Contents();
      outcome := Pass;
      var i := 0;
      while i < |reserveList|
        invariant 0 <= i <= |reserveList| && (i < |reserveList| || reserveList == [])
        invariant Contents() == before
        invariant forall j :: 0 <= j < i ==> reserveList[j].reservationNumber != token
      {
        if reserveList[i].reservationNumber == token {
          assert Find(before.reserved, ByToken(token)) == i;
          RestockAll(reserveList[i].id, reserveList[i].quantity);
          reserveList := reserveList[..i] + reserveList[i + 1..];
          assert Unreserve(before, token) == Ok(Contents());
          UnreservePreservesValid(before, token);
          return;
        }
        if i == |reserveList| - 1 {
          return Fail(ReservationNumberNotRecognised);
        }
        i := i + 1;
      }
    }

    /** The inner loop of unreserveBeanBags: every stock record with the id
        gets q more bags. */
    method RestockAll(id: string, q: int)
      modifies this
      ensures stockList == Restock(old(stockList), id, q)
      ensures reserveList == old(reserveList) && soldList == old(soldList)
    {
      ghost var restocked := Restock(stockList, id, q);
      ghost var original := stockList;
      var x := 0;
      while x < |stockList|
        invariant 0 <= x <= |stockList| == |original|
        invariant reserveList == old(reserveList) && soldList == old(soldList)
        invariant forall j :: 0 <= j < x ==> stockList[j] == restocked[j]
        invariant forall j :: x <= j < |stockList| ==> stockList[j] == original[j]
      {
        if stockList[x].id == id {
          stockList := stockList[x := stockList[x].(quantity := stockList[x].quantity + q)];
        }
        x := x + 1;
      }
    }

    /** The inner loop of sellBeanBags(reservationNumber): reservation i takes
        the price of the first stock record with its id and a lower price. */
    method LowerReservedPrice(i: nat)
      requires i < |reserveList|
      modifies this
      ensures reserveList == old(reserveList)[i := old(reserveList)[i].(price :=
                AdjustedPrice(old(stockList), old(reserveList)[i].id, old(reserveList)[i].price))]
      ensures stockList == old(stockList) && soldList == old(soldList)
    {
      ghost var r := reserveList[i];
      var y := 0;
      while y < |stockList|
        invariant 0 <= y <= |stockList|
        invariant stockList == old(stockList) && soldList == old(soldList)
        invariant reserveList == old(reserveList)[i := r.(price := reserveList[i].price)]
        invariant AdjustedPrice(stockList[y..], r.id, reserveList[i].price) == AdjustedPrice(stockList, r.id, r.price)
      {
        if stockList[y].id == reserveList[i].id && stockList[y].price < reserveList[i].price {
          reserveList := reserveList[i := reserveList[i].(price := stockList[y].price)];
          break;
        }
        assert stockList[y..][1..] == stockList[y + 1..];
        y := y + 1;
      }
    }

    /** sellBeanBags(reservationNumber): the reservation's price is first
        lowered to that of the first stock record with its id and a lower
        price, then the sale is merged into the sold list. */
    method SellReservedBeanBags(token: int) returns (outcome: Outcome<Error>)
      requires Valid()
      modifies this
      ensures Valid()
      ensures Realizes(SellReserved(old(Contents()), token), old(Contents()), Contents(), outcome)
    {
      ghost var before := Contents();
      outcome := Pass;
      var i := 0;
      while i < |reserveList|
        invariant 0 <= i <= |reserveList| && (i < |reserveList| || reserveList == [])
        invariant Contents() == before
        invariant forall j :: 0 <= j < i ==> reserveList[j].reservationNumber != token
      {
        if reserveList[i].reservationNumber == token {
          assert Find(before.reserved, ByToken(token)) == i;
          LowerReservedPrice(i);
          var sale := reserveList[i];
          RecordSale(BySale(sale.id, sale.price), sale.quantity, SoldRecord(sale.quantity, sale.id, sale.price));
          reserveList := reserveList[..i] + reserveList[i + 1..];
          assert reserveList == RemoveAt(before.reserved, i);
          assert SellReserved(before, token) == Ok(Contents());
          SellReservedPreservesValid(before, token);
          return;
        }
        if i == |reserveList| - 1 {
          return Fail(ReservationNumberNotRecognised);
        }
        i := i + 1;
      }
    }

    // ----- replacing an identifier

    /** replaceBeanBagID: list1 is the shorter list; a legal oldId that
        neither list holds is reported at the last index of list2. */
    static method ReplaceBeanBagId(oldId: string, newId: string, list1: seq<Record>, list2: seq<Record>)
      returns (outcome: Outcome<Error>, renamed1: seq<Record>, renamed2: seq<Record>)
      requires |list1| <= |list2|
      ensures outcome == Pass <==> list2 == [] || Has(list1, ById(oldId)) || Has(list2, ById(oldId))
      ensures outcome != Pass ==> outcome == Fail(BeanBagIdNotRecognised)
      ensures outcome == Pass ==> renamed1 == Rename(list1, oldId, newId) && renamed2 == Rename(list2, oldId, newId)
      ensures outcome != Pass ==> renamed1 == list1 && renamed2 == list2
    {
      renamed1, renamed2 := list1, list2;
      var found := false;
      var i := 0;
      while i < |list2|
        invariant 0 <= i <= |list2|
        invariant |renamed1| == |list1| && |renamed2| == |list2|
        invariant forall j :: 0 <= j < |list1| ==>
          renamed1[j] == if j < i then RenameRecord(list1[j], oldId, newId) else list1[j]
        invariant forall j :: 0 <= j < |list2| ==>
          renamed2[j] == if j < i then RenameRecord(list2[j], oldId, newId) else list2[j]
        invariant found ==> Has(list1, ById(oldId)) || Has(list2, ById(oldId))
        invariant !found ==> forall j :: 0 <= j < i ==> list2[j].id != oldId
        invariant !found ==> forall j :: 0 <= j < Min(i, |list1|) ==> list1[j].id != oldId
        invariant i == |list2| && list2 != [] ==> found
      {
        if i <= |list1| - 1 && |list1| != 0 {
          if renamed1[i].id == oldId {
            assert Matches(ById(oldId), list1[i]);
            renamed1 := renamed1[i := renamed1[i].(id := newId)];
            found := true;
          }
        }
        if renamed2[i].id == oldId {
          assert Matches(ById(oldId), list2[i]);
          renamed2 := renamed2[i := renamed2[i].(id := newId)];
          found := true;
        }
        if i == |list2| - 1 && !found {
          return Fail(BeanBagIdNotRecognised), list1, list2;
        }
        i := i + 1;
      }
      outcome := Pass;
    }

    /** replace: the identifiers are checked, then both lists are renamed
        with the longer one driving the loop. */
    method Replace(oldId: string, newId: string) returns (outcome: Outcome<Error>)
      requires Valid()
      modifies this
      ensures Valid()
      ensures Realizes(Ledger.Replace(old(Contents()), oldId, newId), old(Contents()), Contents(), outcome)
    {
      ReplacePreservesValid(Contents(), oldId, newId);
      outcome := CheckId(oldId);
      if outcome.Fail? {
        return;
      }
      outcome := CheckId(newId);
      if outcome.Fail? {
        return;
      }
      if |stockList| >= |reserveList| {
        outcome, reserveList, stockList := ReplaceBeanBagId(oldId, newId, reserveList, stockList);
      } else {
        outcome, stockList, reserveList := ReplaceBeanBagId(oldId, newId, stockList, reserveList);
      }
    }

    // ----- queries

    /** getTotalBeanBagsInStock(list1, list2): one pass over the longer
        list2, adding list1's entry at the same index while there is one. */
    static method TotalBeanBagsInStock(list1: seq<Record>, list2: seq<Record>) returns (total: int)
      requires |list1| <= |list2|
      ensures total == Total(list1, Units) + Total(list2, Units)
    {
      total := 0;
      var i := 0;
      while i < |list2|
        invariant 0 <= i <= |list2|
        invariant total == Total(list1[..Min(i, |list1|)], Units) + Total(list2[..i], Units)
      {
        if i <= |list1| - 1 && |list1| != 0 {
          TotalStep(list1, i, Units);
          total := total + list1[i].quantity;
        }
        TotalStep(list2, i, Units);
        total := total + list2[i].quantity;
        i := i + 1;
      }
      assert list1[..|list1|] == list1 && list2[..i] == list2;
    }

    /** beanBagsInStock: units in stock plus units reserved. */
    method BeanBagsInStock() returns (total: int)
      ensures total == Total(stockList, Units) + Total(reserveList, Units)
    {
      if |stockList| >= |reserveList| {
        total := TotalBeanBagsInStock(reserveList, stockList);
      } else {
        total := TotalBeanBagsInStock(stockList, reserveList);
      }
    }

    /** reservedBeanBagsInStock. */
    method ReservedBeanBagsInStock() returns (total: int)
      ensures total == Total(reserveList, Units)
    {
      total := 0;
      var i := 0;
      while i < |reserveList|
        invariant 0 <= i <= |reserveList|
        invariant total == Total(reserveList[..i], Units)
      {
        TotalStep(reserveList, i, Units);
        total := total + reserveList[i].quantity;
        i := i + 1;
      }
      assert reserveList[..i] == reserveList;
    }

    /** getTotalBeanBagsInStock(id, list1, list2): like the total above,
        counting only the id; unknown when neither list holds it. */
    static method TotalBeanBagsInStockOf(id: string, list1: seq<Record>, list2: seq<Record>) returns (result: Result<int, Error>)
      requires |list1| <= |list2|
      ensures result.Ok? <==> list2 == [] || Has(list1, ById(id)) || Has(list2, ById(id))
      ensures result.Ok? ==> result.value == Total(list1, UnitsOf(id)) + Total(list2, UnitsOf(id))
      ensures result.Err? ==> result.error == BeanBagIdNotRecognised
    {
      var total := 0;
      var found := false;
      var i := 0;
      while i < |list2|
        invariant 0 <= i <= |list2|
        invariant total == Total(list1[..Min(i, |list1|)], UnitsOf(id)) + Total(list2[..i], UnitsOf(id))
        invariant found ==> Has(list1, ById(id)) || Has(list2, ById(id))
        invariant !found ==> forall j :: 0 <= j < i ==> list2[j].id != id
        invariant !found ==> forall j :: 0 <= j < Min(i, |list1|) ==> list1[j].id != id
        invariant i == |list2| && list2 != [] ==> found
      {
        if i <= |list1| - 1 && |list1| != 0 {
          TotalStep(list1, i, UnitsOf(id));
          if list1[i].id == id {
            total := total + list1[i].quantity;
            found := true;
            assert Matches(ById(id), list1[i]);
          }
        }
        TotalStep(list2, i, UnitsOf(id));
        if list2[i].id == id {
          total := total + list2[i].quantity;
          found := true;
          assert Matches(ById(id), list2[i]);
        }
        if i == |list2| - 1 && !found {
          return Err(BeanBagIdNotRecognised);
        }
        i := i + 1;
      }
      assert list1[..|list1|] == list1 && list2[..i] == list2;
      return Ok(total);
    }

    /** beanBagsInStock(id). */
    method BeanBagsInStockOf(id: string) returns (result: Result<int, Error>)
      ensures result == InStockOf(Contents(), id)
    {
      var check := CheckId(id);
      if check.Fail? {
        return Err(check.error);
      }
      if |stockList| >= |reserveList| {
        result := TotalBeanBagsInStockOf(id, reserveList, stockList);
        assert result.Ok? ==> result.value == Total(stockList, UnitsOf(id)) + Total(reserveList, UnitsOf(id));
      } else {
        result := TotalBeanBagsInStockOf(id, stockList, reserveList);
      }
    }

    /** getNumberOfDifferentBeanBagsInStock: the length of the stock list,
        which is the number of ids only while they are distinct. */
    method NumberOfDifferentBeanBagsInStock() returns (n: int)
      ensures n == |stockList|
      ensures UniqueIds(stockList) ==> n == |IdSet(stockList)|
    {
      n := |stockList|;
      if UniqueIds(stockList) {
        DistinctIdsCount(stockList);
      }
    }

    /** getNumberOfSoldBeanBags. */
    method NumberOfSoldBeanBags() returns (total: int)
      ensures total == Total(soldList, Units)
    {
      total := 0;
      var i := 0;
      while i < |soldList|
        invariant 0 <= i <= |soldList|
        invariant total == Total(soldList[..i], Units)
      {
        TotalStep(soldList, i, Units);
        total := total + soldList[i].quantity;
        i := i + 1;
      }
      assert soldList[..i] == soldList;
    }

    /** getNumberOfSoldBeanBags(id). */
    method NumberOfSoldBeanBagsOf(id: string) returns (result: Result<int, Error>)
      ensures result == SoldUnitsOf(soldList, id)
    {
      var check := CheckId(id);
      if check.Fail? {
        return Err(check.error);
      }
      var total := 0;
      var i := 0;
      while i < |soldList|
        invariant 0 <= i <= |soldList|
        invariant total == Total(soldList[..i], UnitsOf(id))
        invariant i == |soldList| && soldList != [] ==> total != 0
      {
        TotalStep(soldList, i, UnitsOf(id));
        if soldList[i].id == id {
          total := total + soldList[i].quantity;
        }
        if i == |soldList| - 1 && total == 0 {
          assert soldList[..i + 1] == soldList;
          return Err(BeanBagIdNotRecognised);
        }
        i := i + 1;
      }
      assert soldList[..i] == soldList;
      return Ok(total);
    }

    /** getTotalPriceOfSoldBeanBags. */
    method TotalPriceOfSoldBeanBags() returns (total: int)
      ensures total == Total(soldList, Takings)
    {
      total := 0;
      var i := 0;
      while i < |soldList|
        invariant 0 <= i <= |soldList|
        invariant total == Total(soldList[..i], Takings)
      {
        TotalStep(soldList, i, Takings);
        total := total + soldList[i].quantity * soldList[i].price;
        i := i + 1;
      }
      assert soldList[..i] == soldList;
    }

    /** getTotalPriceOfSoldBeanBags(id): the sum is returned at the last
        index, so only an empty sold list is reported as unknown. */
    method TotalPriceOfSoldBeanBagsOf(id: string) returns (result: Result<int, Error>)
      ensures result == SoldTakingsOf(soldList, id)
    {
      var check := CheckId(id);
      if check.Fail? {
        return Err(check.error);
      }
      var total := 0;
      var i := 0;
      while i < |soldList|
        invariant 0 <= i <= |soldList| && (i < |soldList| || soldList == [])
        invariant total == Total(soldList[..i], TakingsOf(id))
      {
        TotalStep(soldList, i, TakingsOf(id));
        if soldList[i].id == id {
          total := total + soldList[i].quantity * soldList[i].price;
        }
        if i == |soldList| - 1 {
          assert soldList[..i + 1] == soldList;
          return Ok(total);
        }
        i := i + 1;
      }
      return Err(BeanBagIdNotRecognised);
    }

    /** getTotalPriceOfReservedBeanBags. */
    method TotalPriceOfReservedBeanBags() returns (total: int)
      ensures total == Total(reserveList, Takings)
    {
      total := 0;
      var i := 0;
      while i < |reserveList|
        invariant 0 <= i <= |reserveList|
        invariant total == Total(reserveList[..i], Takings)
      {
        TotalStep(reserveList, i, Takings);
        total := total + reserveList[i].quantity * reserveList[i].price;
        i := i + 1;
      }
      assert reserveList[..i] == reserveList;
    }

    /** getBeanBagDetails: the free text of the first stock record with the
        id, None when it was added without one. */
    method BeanBagDetails(id: string) returns (result: Result<Option<string>, Error>)
      ensures result == Details(stockList, id)
    {
      var check := CheckId(id);
      if check.Fail? {
        return Err(check.error);
      }
      var i := 0;
      while i < |stockList|
        invariant 0 <= i <= |stockList|
        invariant forall j :: 0 <= j < i ==> stockList[j].id != id
      {
        if stockList[i].id == id {
          return Ok(stockList[i].information);
        }
        i := i + 1;
      }
      return Err(BeanBagIdNotRecognised);
    }

    // ----- clearing

    /** empty. */
    method Empty()
      modifies this
      ensures Valid()
      ensures Contents() == State([], [], [])
    {
      stockList := EmptyList(stockList);
      reserveList := EmptyList(reserveList);
      soldList := EmptyList(soldList);
    }

    /** resetSaleAndCostTracking: stock and reservations are kept. */
    method ResetSaleAndCostTracking()
      requires Valid()
      modifies this
      ensures Valid()
      ensures Contents() == old(Contents()).(sold := [])
    {
      soldList := EmptyList(soldList);
    }

    /** emptyList: removes the last element until none is left. */
    static method EmptyList(list: seq<Record>) returns (emptied: seq<Record>)
      ensures emptied == []
    {
      emptied := list;
      while |emptied| != 0
        decreases |emptied|
      {
        emptied := emptied[..|emptied| - 1];
      }
    }
  }

  /** The digit isIDValid's loop stops at for a hexadecimal character is its value. */
  lemma HexValuesAt(c: char)
    ensures IsHexDigit(c) ==> HexValues[DigitValue(c)] == c
  {
  }

  function Min(a: int, b: int): (m: int)
    ensures m <= a && m <= b && (m == a || m == b)
  {
    if a <= b then a else b
  }
}
