/** The rental shop: its stock of cars, the validation of a rental request,
    the rental record it hands out and the bill it computes when cars come
    back. The pure functions give the meaning of each step; the class
    CarRental performs the steps on its `stock` field. */
module Shop {
  import opened Wrappers
  import opened Pricing

  /** A requested number of cars as the caller passed it: a genuine integer,
      or anything else (a boolean, a float, a string ...). */
  datatype Count = Integer(n: int) | NotAnInteger

  /** Why a rental request was refused. */
  datatype Refusal = InvalidCountType | NonPositiveCount | InsufficientStock(available: int)

  /** A rental record. A field is `None` when it is absent; a basis given as
      the empty string is absent too. A rental time is a number of seconds. */
  datatype RentalInfo = RentalInfo(rentalTime: Option<int>, basis: Option<Basis>, numCars: Option<int>)

  /** Why returning cars produced no bill. */
  datatype ReturnError = InvalidRentalInfo | UnknownBasis

  /** The validation of a requested count against the stock, checks taken in
      order: type, then positivity, then availability. `None` means the
      request passes. */
  function ReserveRefusal(c: Count, stock: int): (r: Option<Refusal>)
    ensures r.None? <==> c.Integer? && 1 <= c.n <= stock
    ensures c.NotAnInteger? ==> r == Some(InvalidCountType)
    ensures c.Integer? && c.n <= 0 ==> r == Some(NonPositiveCount)
    ensures c.Integer? && c.n > 0 && c.n > stock ==> r == Some(InsufficientStock(stock))
  {
    if c.NotAnInteger? then Some(InvalidCountType)
    else if c.n <= 0 then Some(NonPositiveCount)
    else if c.n > stock then Some(InsufficientStock(stock))
    else None
  }

  /** The stock after a reservation attempt. */
  function StockAfterReserve(c: Count, stock: int): (s: int)
    ensures ReserveRefusal(c, stock).None? ==> s == stock - c.n && 0 <= s < stock
    ensures ReserveRefusal(c, stock).Some? ==> s == stock
  {
    if ReserveRefusal(c, stock).None? then stock - c.n else stock
  }

  /** The record a rent on basis `b` hands out at time `now`, or `None` when
      the request is refused. */
  function RentRecord(b: Basis, c: Count, stock: int, now: int): (r: Option<RentalInfo>)
    ensures r.Some? <==> ReserveRefusal(c, stock).None?
    ensures r.Some? ==> r.value.basis == Some(b) && r.value.numCars == Some(c.n)
                        && r.value.rentalTime == Some(now) && Complete(r.value)
  {
    if ReserveRefusal(c, stock).None? then Some(RentalInfo(Some(now), Some(b), Some(c.n))) else None
  }

  /** A record whose three fields are present and truthy (a zero count is
      falsy). */
  predicate Complete(info: RentalInfo)
    ensures Complete(info) <==>
      info.rentalTime != None && info.basis != None && info.numCars !in {None, Some(0)}
  {
    info.rentalTime.Some? && info.basis.Some? && info.numCars.Some? && info.numCars.value != 0
  }

  /** The bill for returning the cars of `info` at time `now`. */
  function Settle(info: RentalInfo, now: int): (r: Result<int, ReturnError>)
    ensures r.Success? <==> Complete(info) && Known(info.basis.value)
    ensures !Complete(info) ==> r == Failure(InvalidRentalInfo)
    ensures Complete(info) && !Known(info.basis.value) ==> r == Failure(UnknownBasis)
    ensures r.Success? ==>
      r.value == Units(now - info.rentalTime.value, Period(info.basis.value))
                 * Rate(info.basis.value) * info.numCars.value
  {
    if !Complete(info) then Failure(InvalidRentalInfo)
    else if !Known(info.basis.value) then Failure(UnknownBasis)
    else Success(Units(now - info.rentalTime.value, Period(info.basis.value))
                 * Rate(info.basis.value) * info.numCars.value)
  }

  /** The stock after returning the cars of `info` at time `now`. */
  function StockAfterReturn(stock: int, info: RentalInfo, now: int): (s: int)
    ensures Settle(info, now).Success? ==> s == stock + info.numCars.value
    ensures Settle(info, now).Failure? ==> s == stock
  {
    if Settle(info, now).Success? then stock + info.numCars.value else stock
  }

  class CarRental {
    /** Cars currently available. Nothing keeps it non-negative: the
        constructor takes any integer. */
    var stock: int

    constructor (stock: int := 0)
      ensures this.stock == stock
    {
      this.stock := stock;
    }

    /** The available stock; nothing changes. */
    method DisplayStock() returns (s: int)
      ensures s == stock
    {
      s := stock;
    }

    /** Validates a request and, if it passes, takes the cars out of stock. */
    method ValidateAndReserve(c: Count) returns (ok: bool)
      modifies this
      ensures ok <==> ReserveRefusal(c, old(stock)).None?
      ensures stock == StockAfterReserve(c, old(stock))
      ensures ok ==> stock >= 0
    {
      if c.NotAnInteger? {
        return false;
      }
      if c.n <= 0 {
        return false;
      }
      if c.n > stock {
        return false;
      }
      stock := stock - c.n;
      return true;
    }

    method RentHourly(c: Count, now: int) returns (info: Option<RentalInfo>)
      modifies this
      ensures info == RentRecord(Hourly, c, old(stock), now)
      ensures stock == StockAfterReserve(c, old(stock))
    {
      var ok := ValidateAndReserve(c);
      if !ok {
        return None;
      }
      info := Some(RentalInfo(Some(now), Some(Hourly), Some(c.n)));
    }

    method RentDaily(c: Count, now: int) returns (info: Option<RentalInfo>)
      modifies this
      ensures info == RentRecord(Daily, c, old(stock), now)
      ensures stock == StockAfterReserve(c, old(stock))
    {
      var ok := ValidateAndReserve(c);
      if !ok {
        return None;
      }
      info := Some(RentalInfo(Some(now), Some(Daily), Some(c.n)));
    }

    method RentWeekly(c: Count, now: int) returns (info: Option<RentalInfo>)
      modifies this
      ensures info == RentRecord(Weekly, c, old(stock), now)
      ensures stock == StockAfterReserve(c, old(stock))
    {
      var ok := ValidateAndReserve(c);
      if !ok {
        return None;
      }
      info := Some(RentalInfo(Some(now), Some(Weekly), Some(c.n)));
    }

    /** Bills the return of the cars of `info` at time `now` and restocks them;
        an incomplete record or an unknown basis bills 0 and changes nothing. */
    method ReturnCars(info: RentalInfo, now: int) returns (bill: int)
      modifies this
      ensures bill == if Settle(info, now).Success? then Settle(info, now).value else 0
      ensures stock == StockAfterReturn(old(stock), info, now)
    {
      if info.rentalTime.None? || info.basis.None? || info.numCars.None? || info.numCars.value == 0 {
        return 0;
      }
      var elapsed := now - info.rentalTime.value;
      var units, rate;
      match info.basis.value {
        case Hourly =>
          units := Units(elapsed, HourSeconds);
          rate := HourlyRate;
        case Daily =>
          units := Units(elapsed, DaySeconds);
          rate := DailyRate;
        case Weekly =>
          units := Units(elapsed, WeekSeconds);
          rate := WeeklyRate;
        case Other =>
          return 0;
      }
      bill := units * rate * info.numCars.value;
      stock := stock + info.numCars.value;
    }
  }

  /** Renting and then returning the same record puts the stock back where it
      was; returning it within one period bills one unit per car. */
  lemma RentThenReturn(b: Basis, c: Count, stock: int, rentedAt: int, returnedAt: int)
    requires Known(b) && ReserveRefusal(c, stock).None?
    requires returnedAt - rentedAt <= Period(b)
    ensures RentRecord(b, c, stock, rentedAt).Some?
    ensures var info := RentRecord(b, c, stock, rentedAt).value;
      StockAfterReturn(StockAfterReserve(c, stock), info, returnedAt) == stock
      && Settle(info, returnedAt) == Success(Rate(b) * c.n)
  {
    AtMostOnePeriodIsOneUnit(returnedAt - rentedAt, Period(b));
  }

  /** An immediate return bills exactly rate times the number of cars. */
  lemma ImmediateReturn(b: Basis, c: Count, stock: int, now: int)
    requires Known(b) && ReserveRefusal(c, stock).None?
    ensures RentRecord(b, c, stock, now).Some?
    ensures Settle(RentRecord(b, c, stock, now).value, now) == Success(Rate(b) * c.n)
  {
    RentThenReturn(b, c, stock, now, now);
  }

  /** The shop keeps no note of returned records: returning the same record
      twice restocks its cars twice. */
  lemma ReturnTwiceRestocksTwice(stock: int, info: RentalInfo, now1: int, now2: int)
    requires Settle(info, now1).Success?
    ensures StockAfterReturn(StockAfterReturn(stock, info, now1), info, now2)
            == stock + 2 * info.numCars.value
  {
  }

  /** One rental request to the shop: the basis of the rent method called,
      the count passed to it and the time the clock reads during the call. */
  datatype Request = Request(basis: Basis, count: Count, at: int)

  /** One return to the shop: the record passed and the time the clock reads
      during the call. */
  datatype Return = Return(info: RentalInfo, at: int)

  /** The shop's stock together with the records it has handed out and not
      yet taken back. */
  datatype Ledger = Ledger(stock: int, outstanding: seq<RentalInfo>)

  /** Cars named by a sequence of records; an absent count names none. */
  function TotalCars(rs: seq<RentalInfo>): int
    decreases |rs|
  {
    if rs == [] then 0
    else (if rs[0].numCars.Some? then rs[0].numCars.value else 0) + TotalCars(rs[1..])
  }

  /** The shop after serving a sequence of requests in order, each at its own
      time and against the stock the previous ones left; refused requests
      hand out nothing. */
  function RentMany(reqs: seq<Request>, stock: int): Ledger
    decreases |reqs|
  {
    if reqs == [] then Ledger(stock, [])
    else
      var r := RentRecord(reqs[0].basis, reqs[0].count, stock, reqs[0].at);
      var rest := RentMany(reqs[1..], StockAfterReserve(reqs[0].count, stock));
      Ledger(rest.stock, (if r.Some? then [r.value] else []) + rest.outstanding)
  }

  /** The stock after a sequence of returns, each at its own time. */
  function ReturnAll(stock: int, rets: seq<Return>): int
    decreases |rets|
  {
    if rets == [] then stock
    else ReturnAll(StockAfterReturn(stock, rets[0].info, rets[0].at), rets[1..])
  }

  /** The records a sequence of returns hands back, in order. */
  function Records(rets: seq<Return>): (rs: seq<RentalInfo>)
    ensures |rs| == |rets| && forall j :: 0 <= j < |rets| ==> rs[j] == rets[j].info
  {
    seq(|rets|, j requires 0 <= j < |rets| => rets[j].info)
  }

  /** Renting conserves the fleet: the stock left plus the cars out on the
      handed-out records is the stock before, and every handed-out record is
      complete on a basis that was asked for. */
  lemma {:induction false} RentManyConserves(reqs: seq<Request>, stock: int)
    requires forall i :: 0 <= i < |reqs| ==> Known(reqs[i].basis)
    decreases |reqs|
    ensures var l := RentMany(reqs, stock);
      l.stock + TotalCars(l.outstanding) == stock
      && forall j :: 0 <= j < |l.outstanding| ==>
           Complete(l.outstanding[j]) && Known(l.outstanding[j].basis.value)
  {
    if reqs != [] {
      var r := RentRecord(reqs[0].basis, reqs[0].count, stock, reqs[0].at);
      var s := StockAfterReserve(reqs[0].count, stock);
      var rest := RentMany(reqs[1..], s);
      assert forall i :: 0 <= i < |reqs[1..]| ==> Known(reqs[1..][i].basis) by {
        forall i | 0 <= i < |reqs[1..]| ensures Known(reqs[1..][i].basis) {
          assert reqs[1..][i] == reqs[i + 1];
        }
      }
      RentManyConserves(reqs[1..], s);
      assert RentMany(reqs, stock)
             == Ledger(rest.stock, (if r.Some? then [r.value] else []) + rest.outstanding);
      if r.Some? {
        var out := [r.value] + rest.outstanding;
        assert s == stock - reqs[0].count.n;
        assert out[1..] == rest.outstanding;
        assert TotalCars(out) == reqs[0].count.n + TotalCars(rest.outstanding);
      } else {
        assert [] + rest.outstanding == rest.outstanding;
      }
    }
  }

  /** Returns of records that all bill, each at its own time, raise the stock
      by exactly the cars the records name. */
  lemma {:induction false} ReturnAllRestocks(stock: int, rets: seq<Return>)
    requires forall j :: 0 <= j < |rets| ==> Complete(rets[j].info) && Known(rets[j].info.basis.value)
    decreases |rets|
    ensures ReturnAll(stock, rets) == stock + TotalCars(Records(rets))
  {
    if rets != [] {
      assert forall j :: 0 <= j < |rets[1..]| ==>
               Complete(rets[1..][j].info) && Known(rets[1..][j].info.basis.value) by {
        forall j | 0 <= j < |rets[1..]|
          ensures Complete(rets[1..][j].info) && Known(rets[1..][j].info.basis.value)
        {
          assert rets[1..][j] == rets[j + 1];
        }
      }
      ReturnAllRestocks(StockAfterReturn(stock, rets[0].info, rets[0].at), rets[1..]);
      assert Records(rets)[1..] == Records(rets[1..]);
    }
  }

  /** Serving any sequence of requests, each at its own time, and then taking
      back every record handed out, each at its own time, restores the
      shop's stock. */
  lemma {:induction false} RentManyThenReturnAll(reqs: seq<Request>, stock: int, rets: seq<Return>)
    requires forall i :: 0 <= i < |reqs| ==> Known(reqs[i].basis)
    requires Records(rets) == RentMany(reqs, stock).outstanding
    ensures ReturnAll(RentMany(reqs, stock).stock, rets) == stock
  {
    var l := RentMany(reqs, stock);
    RentManyConserves(reqs, stock);
    forall j | 0 <= j < |rets|
      ensures Complete(rets[j].info) && Known(rets[j].info.basis.value)
    {
      assert rets[j].info == l.outstanding[j];
    }
    ReturnAllRestocks(l.stock, rets);
  }

  /** The worked scenario: stock 10, rent 3 daily, return 25 hours later:
      stock 7 while rented, bill 120, stock 10 again. */
  lemma DailyScenario(t: int)
    ensures StockAfterReserve(Integer(3), 10) == 7
    ensures RentRecord(Daily, Integer(3), 10, t) == Some(RentalInfo(Some(t), Some(Daily), Some(3)))
    ensures Settle(RentalInfo(Some(t), Some(Daily), Some(3)), t + 25 * HourSeconds) == Success(120)
    ensures StockAfterReturn(7, RentalInfo(Some(t), Some(Daily), Some(3)), t + 25 * HourSeconds) == 10
  {
    TwentyFiveHoursDaily();
  }
}
