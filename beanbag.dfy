/**
 * The record kept in every list of the store (src/beanbags/BeanBag.java).
 * A record is one wide object: which fields are meaningful depends on the
 * list it sits in (stock, reserved or sold).  Fields a constructor does not
 * set keep Java's defaults: 0 for numbers and None (null) for strings.
 */
module BeanBags {
  import opened Wrappers

  /** The value held by a BeanBag object, field for field. */
  datatype Record = Record(
    quantity: int,
    manufacturer: Option<string>,
    name: Option<string>,
    price: int,
    id: string,
    year: int,
    month: int,
    information: Option<string>,
    reservationNumber: int)

  /** A stock record without free text; its price is 0, the "not set" marker. */
  function StockRecord(num: int, manufacturer: string, name: string, id: string, year: int, month: int): Record
  {
    Record(num, Some(manufacturer), Some(name), 0, id, year, month, None, 0)
  }

  /** A stock record carrying free text; its price is 0, the "not set" marker. */
  function StockRecordWithInformation(num: int, manufacturer: string, name: string, id: string,
                                      year: int, month: int, information: string): Record
  {
    Record(num, Some(manufacturer), Some(name), 0, id, year, month, Some(information), 0)
  }

  /** A reservation: quantity, id, the price at reservation time and the token. */
  function ReservationRecord(num: int, id: string, price: int, reservationNumber: int): Record
  {
    Record(num, None, None, price, id, 0, 0, None, reservationNumber)
  }

  /** A sold-ledger entry: quantity, id and the price it was sold at. */
  function SoldRecord(num: int, id: string, price: int): Record
  {
    Record(num, None, None, price, id, 0, 0, None, 0)
  }

  /** A mutable bean bag object; Value() is its content as a Record. */
  class BeanBag {
    var quantity: int
    var manufacturer: Option<string>
    var name: Option<string>
    var price: int
    var id: string
    var year: int
    var month: int
    var information: Option<string>
    var reservationNumber: int

    function Value(): Record
      reads this
    {
      Record(quantity, manufacturer, name, price, id, year, month, information, reservationNumber)
    }

    /** The six-argument constructor: price, free text and token stay unset. */
    constructor Stock(num: int, manufacturer: string, name: string, id: string, year: int, month: int)
      ensures Value() == StockRecord(num, manufacturer, name, id, year, month)
      ensures GetPrice() == 0 && GetInformation() == None
    {
      this.quantity := num;
      this.manufacturer := Some(manufacturer);
      this.name := Some(name);
      this.price := 0;
      this.id := id;
      this.year := year;
      this.month := month;
      this.information := None;
      this.reservationNumber := 0;
    }

    /** The seven-argument constructor: as Stock, and the free text is kept. */
    constructor StockWithInformation(num: int, manufacturer: string, name: string, id: string,
                                     year: int, month: int, information: string)
      ensures Value() == StockRecordWithInformation(num, manufacturer, name, id, year, month, information)
      ensures Value() == StockRecord(num, manufacturer, name, id, year, month).(information := Some(information))
    {
      this.quantity := num;
      this.manufacturer := Some(manufacturer);
      this.name := Some(name);
      this.price := 0;
      this.id := id;
      this.year := year;
      this.month := month;
      this.information := Some(information);
      this.reservationNumber := 0;
    }

    /** The reservation constructor: only quantity, id, price and token are set. */
    constructor Reservation(num: int, id: string, price: int, reservationNumber: int)
      ensures Value() == ReservationRecord(num, id, price, reservationNumber)
      ensures GetManufacturer() == None && GetName() == None && GetInformation() == None
    {
      this.quantity := num;
      this.manufacturer := None;
      this.name := None;
      this.price := price;
      this.id := id;
      this.year := 0;
      this.month := 0;
      this.information := None;
      this.reservationNumber := reservationNumber;
    }

    /** The sold constructor: only quantity, id and price are set; the token stays 0. */
    constructor Sold(num: int, id: string, price: int)
      ensures Value() == SoldRecord(num, id, price)
      ensures GetReservationNumber() == 0 && GetManufacturer() == None && GetName() == None
    {
      this.quantity := num;
      this.manufacturer := None;
      this.name := None;
      this.price := price;
      this.id := id;
      this.year := 0;
      this.month := 0;
      this.information := None;
      this.reservationNumber := 0;
    }

    method SetQuantity(num: int)
      modifies this
      ensures GetQuantity() == num
      ensures Value() == old(Value()).(quantity := num)
    {
      quantity := num;
    }

    function GetQuantity(): int reads this { quantity }

    function GetManufacturer(): Option<string> reads this { manufacturer }

    function GetName(): Option<string> reads this { name }

    method SetPrice(price: int)
      modifies this
      ensures GetPrice() == price
      ensures Value() == old(Value()).(price := price)
    {
      this.price := price;
    }

    function GetPrice(): int reads this { price }

    method SetId(id: string)
      modifies this
      ensures GetId() == id
      ensures Value() == old(Value()).(id := id)
    {
      this.id := id;
    }

    function GetId(): string reads this { id }

    method SetYear(year: int)
      modifies this
      ensures Value() == old(Value()).(year := year)
    {
      this.year := year;
    }

    method SetMonth(month: int)
      modifies this
      ensures Value() == old(Value()).(month := month)
    {
      this.month := month;
    }

    function GetInformation(): Option<string> reads this { information }

    function GetReservationNumber(): int reads this { reservationNumber }
  }
}
