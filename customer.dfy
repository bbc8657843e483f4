/** A customer of the shop, holding at most one rental record: it asks the
    shop for cars on a basis named by a string and hands its record back to
    get the bill. */
module Customers {
  import opened Wrappers
  import opened Pricing
  import opened Shop

  /** The basis a rental-type string asks for, or `None` when it names none
      of the three. */
  function RentalTypeBasis(rentalType: string): (r: Option<Basis>)
    ensures r.Some? <==> rentalType in {"hourly", "daily", "weekly"}
    ensures r.Some? ==> Known(r.value)
    ensures rentalType == "hourly" ==> r == Some(Hourly)
    ensures rentalType == "daily" ==> r == Some(Daily)
    ensures rentalType == "weekly" ==> r == Some(Weekly)
  {
    if rentalType == "hourly" then Some(Hourly)
    else if rentalType == "daily" then Some(Daily)
    else if rentalType == "weekly" then Some(Weekly)
    else None
  }

  /** What a customer holds and what its shop has in stock. */
  datatype Desk = Desk(held: Option<RentalInfo>, stock: int)

  /** The desk after a request: an unknown type changes nothing; a known one
      stores whatever the shop's rent hands out, `None` included. */
  function AfterRequest(d: Desk, rentalType: string, c: Count, now: int): (d': Desk)
    ensures RentalTypeBasis(rentalType).None? ==> d' == d
    ensures RentalTypeBasis(rentalType).Some? ==>
      d'.held == RentRecord(RentalTypeBasis(rentalType).value, c, d.stock, now)
      && d'.stock == StockAfterReserve(c, d.stock)
  {
    match RentalTypeBasis(rentalType)
    case None => d
    case Some(b) => Desk(RentRecord(b, c, d.stock, now), StockAfterReserve(c, d.stock))
  }

  /** The bill of a return from a desk: 0 when nothing is held. */
  function ReturnBill(d: Desk, now: int): (bill: int)
    ensures d.held.None? ==> bill == 0
    ensures d.held.Some? && Settle(d.held.value, now).Success? ==> bill == Settle(d.held.value, now).value
    ensures d.held.Some? && Settle(d.held.value, now).Failure? ==> bill == 0
  {
    if d.held.None? then 0
    else
      var r := Settle(d.held.value, now);
      if r.Success? then r.value else 0
  }

  /** The desk after a return: nothing held, and the shop restocked when the
      bill was computed. */
  function AfterReturn(d: Desk, now: int): (d': Desk)
    ensures d'.held.None?
    ensures d.held.None? ==> d' == d
    ensures d.held.Some? ==> d'.stock == StockAfterReturn(d.stock, d.held.value, now)
  {
    if d.held.None? then d else Desk(None, StockAfterReturn(d.stock, d.held.value, now))
  }

  class Customer {
    /** The rental record held, if any. */
    var rentalInfo: Option<RentalInfo>

    constructor ()
      ensures rentalInfo == None
    {
      rentalInfo := None;
    }

    /** Asks `shop` for `c` cars on the basis `rentalType` names. */
    method RequestCar(rentalType: string, c: Count, shop: CarRental, now: int)
      modifies this, shop
      ensures Desk(rentalInfo, shop.stock)
              == AfterRequest(Desk(old(rentalInfo), old(shop.stock)), rentalType, c, now)
    {
      if rentalType == "hourly" {
        rentalInfo := shop.RentHourly(c, now);
      } else if rentalType == "daily" {
        rentalInfo := shop.RentDaily(c, now);
      } else if rentalType == "weekly" {
        rentalInfo := shop.RentWeekly(c, now);
      }
    }

    /** Hands the held record back to `shop` and forgets it. */
    method ReturnCar(shop: CarRental, now: int) returns (bill: int)
      modifies this, shop
      ensures bill == ReturnBill(Desk(old(rentalInfo), old(shop.stock)), now)
      ensures Desk(rentalInfo, shop.stock) == AfterReturn(Desk(old(rentalInfo), old(shop.stock)), now)
    {
      if rentalInfo.None? {
        return 0;
      }
      bill := shop.ReturnCars(rentalInfo.value, now);
      rentalInfo := None;
    }
  }

  /** A customer holding nothing who requests cars on a known basis, is
      served, and returns them within one period gets a bill of one unit per
      car, holds nothing again, and leaves the shop's stock as it was. */
  lemma RequestThenReturn(stock: int, rentalType: string, c: Count, rentedAt: int, returnedAt: int)
    requires RentalTypeBasis(rentalType).Some?
    requires ReserveRefusal(c, stock).None?
    requires returnedAt - rentedAt <= Period(RentalTypeBasis(rentalType).value)
    ensures var d := AfterRequest(Desk(None, stock), rentalType, c, rentedAt);
      d.held.Some? && d.stock == stock - c.n
      && ReturnBill(d, returnedAt) == Rate(RentalTypeBasis(rentalType).value) * c.n
      && AfterReturn(d, returnedAt) == Desk(None, stock)
  {
    RentThenReturn(RentalTypeBasis(rentalType).value, c, stock, rentedAt, returnedAt);
  }

  /** Because a return forgets the record, a second return bills 0 and
      changes nothing: a customer cannot restock the same cars twice. */
  lemma SecondReturnIsIdle(d: Desk, now1: int, now2: int)
    ensures ReturnBill(AfterReturn(d, now1), now2) == 0
    ensures AfterReturn(AfterReturn(d, now1), now2) == AfterReturn(d, now1)
  {
  }

  /** A refused request on a known basis overwrites the held record with
      `None`: a record held before is dropped and the shop's stock stays. */
  lemma RefusedRequestDropsRecord(held: RentalInfo, stock: int, rentalType: string, c: Count, now: int)
    requires RentalTypeBasis(rentalType).Some?
    requires ReserveRefusal(c, stock).Some?
    ensures AfterRequest(Desk(Some(held), stock), rentalType, c, now) == Desk(None, stock)
  {
  }
}
