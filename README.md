# Car rental shop, modelled in Dafny

This project models a one-location car-rental shop and its customers, after
`car_rental.py`. The shop (`CarRental`) keeps a stock of cars. It checks a
rental request in a fixed order: the count must be an integer, then at least
one, then no more than the stock. It hands out a rental record on an hourly,
daily or weekly basis. When the cars come back it bills them and restocks.
The bill is the number of billable units times the basis rate times the
number of cars. Billable units are the elapsed time divided by the basis
period, rounded up, and never fewer than one. A `Customer` holds at most one
rental record. It asks for a rental by a basis name, keeps what the shop
hands out, and on return passes its record back and forgets it.

Layout:
- `wrappers.dfy` (`Wrappers`): `Option` and `Result`.
- `pricing.dfy` (`Pricing`): the bases, rate and period constants, integer
  ceiling division, billable units, and the lemmas about them.
- `shop.dfy` (`Shop`): the count, the rental record and the shop's pure step
  functions with lemmas, and the class `CarRental`. `RentMany` and `ReturnAll`
  compose many rent and return calls, each with its own clock reading, to state
  that the fleet is conserved. Its methods change
  `stock` in place and are proved against those functions.
- `customer.dfy` (`Customers`): the class `Customer`, whose methods change
  `rentalInfo` and the shop's stock, the pure `Desk` steps they are proved
  against, and lemmas about a request/return cycle.

Modelling choices:
- Time is whole seconds. The clock is a `now` parameter of every operation
  that reads it, so each call reads one consistent time.
- A requested count is `Count`: `Integer(n)`, or `NotAnInteger` for anything
  else the caller might pass. That includes a boolean, which the code rejects
  on purpose.
- A rental record is `RentalInfo(rentalTime, basis, numCars)` with optional
  fields. A falsy field counts as absent. A basis given as the empty string is
  `None`. A basis given as any other unknown string is `Some(Other)`. A count
  of `Some(0)` is falsy. A timestamp is always truthy, so any `Some(t)` counts
  as present.
- The model follows the code where it departs from the intended design:
  - The shop does not remember returned records. Returning the same record
    twice restocks twice (`Shop.ReturnTwiceRestocksTwice`). Only the customer
    stops a second return, because it forgets its record
    (`Customers.SecondReturnIsIdle`).
  - A refused request on a known basis overwrites the customer's record with
    `None`. It does not leave the record unchanged
    (`Customers.RefusedRequestDropsRecord`).
  - Stock is not kept non-negative. The constructor takes any integer, and a
    hand-built record with a negative count lowers the stock on return. A
    successful reservation does leave the stock non-negative.

## Model

| member | source | states |
|---|---|---|
| `Pricing.Known` | car_rental.py:94-105 | the bases that are billed are exactly hourly, daily and weekly; every other basis takes the unknown-basis path |
| `Pricing.Period` | car_rental.py:94-102 | every known basis has a positive period in seconds |
| `Pricing.Rate` | car_rental.py:94-102 | every known basis has a positive rate per unit and car |
| `Pricing.Tariff` | car_rental.py:6-8 | (period, rate) is (3600, 5) hourly, (86400, 20) daily and (604800, 60) weekly |
| `Pricing.CeilDiv` | car_rental.py:94-102 | the result q is the ceiling of e / p: e <= q·p and (q − 1)·p < e |
| `Pricing.Units` | car_rental.py:94-102 | billable units are at least 1 and cover the elapsed time; above 1 there is no spare whole period |
| `Pricing.UnitsUnique` | car_rental.py:94-102 | only one count of periods k >= 1 covers the elapsed time without a spare whole period, and it is the billable units |
| `Pricing.UnitsLeast` | car_rental.py:94-102 | the billable units are the least count of periods, at least 1, that covers the elapsed time |
| `Pricing.UnitsMonotone` | car_rental.py:94-102 | a longer elapsed time never gives fewer billable units |
| `Pricing.AtMostOnePeriodIsOneUnit` | car_rental.py:94-102 | an elapsed time of at most one period, even zero or negative, bills exactly one unit |
| `Pricing.ExtraPeriodAddsUnit` | car_rental.py:94-102 | for a positive elapsed time, one more period adds exactly one billable unit |
| `Pricing.TwentyFiveHoursDaily` | car_rental.py:97-108 | 25 hours on the daily basis with 3 cars bills 120 |
| `Shop.ReserveRefusal` | car_rental.py:30-44 | the request passes iff the count is an integer with 1 <= n <= stock; a non-integer is refused for its type whatever the stock; a non-positive integer is refused for positivity whatever the stock; otherwise a count above the stock is refused for lack of stock |
| `Shop.StockAfterReserve` | car_rental.py:39-44 | a passing request lowers stock by exactly n and leaves it non-negative; a refused one leaves it unchanged |
| `Shop.RentRecord` | car_rental.py:46-68 | a rent hands out a record iff the request passes; the record has the method's basis, num_cars = n, the rent time, and all fields truthy |
| `Shop.Complete` | car_rental.py:85-87 | a record passes the presence check iff it has a rental time, a basis that is not absent or empty, and a count that is not absent or 0 |
| `Shop.Settle` | car_rental.py:80-108 | a return bills iff the record is complete and its basis known; missing or falsy fields (count 0 included) fail as invalid info, an unknown basis fails as such; the bill is units · rate · num_cars |
| `Shop.StockAfterReturn` | car_rental.py:103-109 | a billed return raises stock by exactly num_cars; a failed one leaves it unchanged |
| `Shop.CarRental.constructor` | car_rental.py:14-15 | the shop starts with the given stock, negative or not, and with 0 when none is given |
| `Shop.CarRental.DisplayStock` | car_rental.py:21-27 | returns the stock and changes nothing |
| `Shop.CarRental.ValidateAndReserve` | car_rental.py:30-44 | succeeds iff the checks pass; on success stock drops by n and is non-negative, and otherwise it is unchanged |
| `Shop.CarRental.RentHourly` | car_rental.py:46-52 | returns an hourly record of n cars stamped now, or None; stock as for a reservation |
| `Shop.CarRental.RentDaily` | car_rental.py:54-60 | returns a daily record of n cars stamped now, or None; stock as for a reservation |
| `Shop.CarRental.RentWeekly` | car_rental.py:62-68 | returns a weekly record of n cars stamped now, or None; stock as for a reservation |
| `Shop.CarRental.ReturnCars` | car_rental.py:71-112 | returns the settled bill, or 0 when the record is incomplete or its basis unknown; restocks num_cars only when billed |
| `Shop.RentThenReturn` | car_rental.py:39-109 | rent, then return the record within one period: stock is back where it started and the bill is rate · n |
| `Shop.ImmediateReturn` | car_rental.py:94-108 | returning a fresh record at once bills 1 · rate · n |
| `Shop.ReturnTwiceRestocksTwice` | car_rental.py:107-109 | the shop has no consumed flag, so a record returned twice restocks its cars twice |
| `Shop.RentManyConserves` | car_rental.py:39-68 | over any sequence of rent calls, each at its own clock reading, the stock left plus the cars on the handed-out records equals the stock before; every handed-out record is complete on a known basis |
| `Shop.ReturnAllRestocks` | car_rental.py:90-109 | returns of records that all bill, each at its own clock reading, raise the stock by exactly the total cars the records name |
| `Shop.RentManyThenReturnAll` | car_rental.py:43-109 | any sequence of rents, each at its own clock reading, followed by returns of exactly the records handed out, in that order and each at its own clock reading, restores the stock |
| `Shop.DailyScenario` | car_rental.py:54-109 | stock 10, rent 3 daily: stock 7 and a daily record of 3; return after 25 hours: bill 120 and stock 10 |
| `Customers.RentalTypeBasis` | car_rental.py:121-130 | only "hourly", "daily" and "weekly" name a basis, and each names its own |
| `Customers.AfterRequest` | car_rental.py:121-130 | an unknown rental type changes neither record nor stock; a known one stores the shop's rent result, None included, and reserves as the shop does |
| `Customers.ReturnBill` | car_rental.py:132-139 | with nothing held the bill is 0; otherwise it is the shop's bill for the held record, or 0 when the shop refuses the record |
| `Customers.AfterReturn` | car_rental.py:132-139 | afterwards nothing is held; with nothing held before, nothing changes; otherwise the shop restocks as its return does |
| `Customers.Customer.constructor` | car_rental.py:118-119 | a new customer holds no record |
| `Customers.Customer.RequestCar` | car_rental.py:121-130 | the customer's record and the shop's stock change as AfterRequest says |
| `Customers.Customer.ReturnCar` | car_rental.py:132-139 | the bill is ReturnBill, and the record and the stock change as AfterReturn says |
| `Customers.RequestThenReturn` | car_rental.py:121-139 | a customer holding nothing who is served and returns within one period pays rate · n, holds nothing again, and the stock is as before |
| `Customers.SecondReturnIsIdle` | car_rental.py:132-139 | after a return, a second return bills 0 and changes nothing |
| `Customers.RefusedRequestDropsRecord` | car_rental.py:123-128 | a refused request on a known basis replaces a held record with None and leaves the stock |

## Left out

- The printed messages are a side channel. They are not modelled, and neither are the texts that say which check failed. The check that fails is still modelled, as `Shop.Refusal`.
- `datetime.now()` and `timedelta` are not modelled. The clock is an integer `now` parameter, and elapsed time is an integer subtraction in seconds. The method `now` is not a separate member.
- Sub-second precision is not modelled. `total_seconds()` and the float division with `ceil` become integer ceiling division on whole seconds, and the float return value `0.0` becomes the integer 0.
- The two call shapes of `return_cars` are not modelled separately. The dict form and the keyword form both become one `RentalInfo` argument, whose fields are all `None` when nothing is passed.
- The fields of a rental record are typed: a time in seconds, a basis and an integer count. A record that a caller builds with a `rental_time` that is not a datetime would raise a `TypeError` when the elapsed time is computed. So would one whose `num_cars` is not a number, when the bill and stock are computed. Those crashes are not modelled.
- Runtime type inspection of the count is not modelled. The `NotAnInteger` case of `Count` stands for every value that is not a genuine integer.
- The `int(stock)` conversion in the constructor is not modelled. The constructor takes an integer.
- Concurrency and locking are not modelled, because the code is single-threaded.
