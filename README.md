# Ride-sharing object model in Dafny

A model of a small ride-sharing program (one C++ file, `cpp/main.cpp`):

- **Rides** have an id, a pickup and a dropoff location, a distance in miles
  and a stored fare. There are three ride classes, the base `Ride` and its
  subclasses `StandardRide` and `PremiumRide`. They differ only in the
  per-mile rate `fare()` charges and in the header their detail display
  starts with. `fare()` computes `distance * rate`, writes it into the ride's
  `fareAmount` field and returns it. The detail display calls `fare()`, so
  showing a ride also updates its stored fare.
- **Drivers** hold an append-only list of ride references (`addRide`). Their
  information display reports id, name, rating and the number of rides.
  When the list is non-empty it adds a "Completed Rides" section that shows
  every ride in list order.
- **Riders** hold an append-only list of requested rides (`requestRide`,
  which also prints a confirmation naming the ride's id). Their ride-history
  display has the same shape as the driver's.
- **The program entry** creates five rides and displays them. It assigns
  rides 101 and 201 to a driver and has a rider request rides 101, 201 and
  202. So two ride objects, 101 and 201, sit in both lists.

## How the model is laid out

- `ride_sharing.dfy`, module `RideSharing`:
  - the fare policy: `Variant`, `Rate` and `Label`;
  - the classes `Ride`, `Driver` and `Rider`;
  - the specification functions `FareOf`, `Describe` and `DescribeAll`;
  - `ShowAll`, the index loop over a ride list that the driver display, the
    rider display and the program entry all run;
  - the lemmas.
- `scenario.dfy`, module `Scenario`: the program entry as a concrete run.

Modelling decisions:

- The three C++ classes become one Dafny class `Ride` with a `const variant`.
  The subclass constructors only forward to the base constructor, and the
  overrides differ only in the rate and the header. A closed `Variant`
  datatype therefore gives the same dispatch.
- `rideId`, `pickupLocation`, `dropoffLocation` and `distance` are `const`
  fields, because no code assigns them after construction. `fareAmount` is
  the one mutable field of a ride. `Fare` and `Details` may modify only
  ``this`fareAmount``. The displays of a driver or rider may modify only the
  `fareAmount` of the rides in its list. They leave the driver or rider
  itself, and every other ride, untouched.
- Displays return what they report, as a record, instead of printing it:
  - `RideDetails` for one ride (header, id, pickup, dropoff, distance, fare);
  - `DriverInfo` for a driver;
  - `RiderInfo` for a rider;
  - `Notice` for a request confirmation.

  A detail section that the source leaves out when the list is empty is
  `None` in the record.
- Distances, rates and fares are `real`, so the model has no floating-point
  rounding. Not every distance in the program's run is exact as a `double`:
  3.2 (ride 102) is stored as 3.20000000000000017763... In `double`
  arithmetic, 3.2 * 10.00 rounds to exactly 32.0, so every fare the program
  prints equals the exact `real` fare the model computes.
- The code and its comments disagree about two rates. The comments at
  `cpp/main.cpp` lines 57 and 67 say $1.50 per mile for standard rides, but
  line 70 multiplies by 10.00. The comments at lines 85 and 94 say $3.00 per
  mile for premium rides, but line 97 multiplies by 15.00. The model follows
  the code: the rates are 5.0 (base), 10.00 (standard) and 15.00 (premium).
- The source validates nothing, and no member here adds a precondition. A
  negative distance gives a negative fare (the contract of `FareOf`). The rating is
  not range-checked, and ride ids need not be unique.

## Model

| member | source | states |
|---|---|---|
| `RideSharing.Rate` | cpp/main.cpp:32-99 | the per-mile rate of every class lies between the base rate 5.0 (line 35) and the premium rate 15.00 (line 97); the standard rate is 10.00 (line 70) |
| `RideSharing.Label` | cpp/main.cpp:40-108 | the detail header is "[Premium Ride]" exactly for premium rides and "[Standard Ride]" for every other ride, including the base ride |
| `RideSharing.Ride.constructor` | cpp/main.cpp:22-29 | id, pickup, dropoff and distance are stored unchanged, the stored fare starts at 0.0, and `GetRideId()` afterwards returns the given id |
| `RideSharing.Ride.GetRideId` | cpp/main.cpp:51 | the id the getter returns is the id the ride's detail display reports |
| `RideSharing.Ride.Fare` | cpp/main.cpp:32-37 | the result is distance times the variant's rate (5.0 here, 10.00 in the override at lines 68-72, 15.00 in the one at lines 95-99), `fareAmount` holds that result, and nothing but `fareAmount` is written |
| `RideSharing.Ride.Details` | cpp/main.cpp:40-48 | reports the variant's header, the ride's id, pickup, dropoff, distance and the fare recomputed at display time, and leaves that fare stored in the ride |
| `RideSharing.FareOf` | cpp/main.cpp:32-37 | the fare a ride's class charges for its distance has the sign of the distance: negative exactly when the distance is negative, zero exactly when it is zero, because distance is never validated |
| `RideSharing.Describe` | cpp/main.cpp:101-108 | a ride's detail display shows the premium header exactly for premium rides, the ride's own id, pickup, dropoff and distance, and the fare its class charges (the same shape at lines 42-47 and 76-81) |
| `RideSharing.DescribeAll` | cpp/main.cpp:146-150 | the detail listing of a ride list has exactly one entry per list position |
| `RideSharing.DescribeAllAt` | cpp/main.cpp:190-195 | the listing entry at position k is the details of the ride at position k, so the listing keeps list order and shows a ride listed twice twice |
| `RideSharing.ShowAll` | cpp/main.cpp:221-225 | showing each ride of a list in index order yields `DescribeAll` of the list, and afterwards every listed ride holds its variant's fare, aliased entries included; only those rides' `fareAmount` is written |
| `RideSharing.Driver.constructor` | cpp/main.cpp:122-127 | stores id, name and rating unchanged; the assigned-ride list starts empty |
| `RideSharing.Driver.AddRide` | cpp/main.cpp:130-133 | the new list is the old list with the ride appended; no ride object and no other driver field changes |
| `RideSharing.Driver.GetDriverInfo` | cpp/main.cpp:136-154 | reports the driver's id, name and rating, a total equal to the list length, and a completed-rides section that is present if and only if the list is non-empty and then lists every ride's details in attachment order |
| `RideSharing.Rider.constructor` | cpp/main.cpp:166-170 | stores id and name unchanged; the requested-ride list starts empty |
| `RideSharing.Rider.RequestRide` | cpp/main.cpp:173-177 | the new list is the old list with the ride appended, and the confirmation carries the rider's name and that ride's id |
| `RideSharing.Rider.ViewRides` | cpp/main.cpp:180-198 | reports the rider's id and name, a total equal to the list length, and a history section that is present if and only if the list is non-empty and then lists every ride's details in request order |
| `RideSharing.DescribeAllSnoc` | cpp/main.cpp:130-152 | appending a ride to a list extends its detail listing by exactly that ride's details at the end, so what `AddRide` or `RequestRide` attaches is reported last |
| `RideSharing.SharedRideSameDetails` | cpp/main.cpp:229-240 | a ride object that sits in two lists (a driver's and a rider's) is reported with identical details in both listings |
| `RideSharing.FareIsIdempotent` | cpp/main.cpp:32-37 | computing a ride's fare twice gives the same value both times, and that value is what stays stored |
| `Scenario.DriverPart` | cpp/main.cpp:228-233 | driver 1 "Priyanka" (rating 5.0), assigned two rides, ends with exactly those two rides in order and reports a total of 2 with both rides' details |
| `Scenario.RiderPart` | cpp/main.cpp:236-242 | rider 1 "Nick", requesting three rides, ends with exactly those in order, gets one confirmation per request with the ride's id, and reports a total of 3 with the three rides' details |
| `Scenario.Demonstration` | cpp/main.cpp:202-252 | the program's run: ride 101 (standard, 5.0 miles) costs 50, ride 102 costs 32, ride 201 (premium, 12.0) costs 180, ride 202 costs 112.5, ride 301 (base, 10.0) costs 50 under the standard header; the driver reports 2 rides and the rider 3; rides 101 and 201 are the same objects in both lists and each is reported identically by both |

## Left out

- Console output: the exact text, separator lines and blank lines the
  displays print are not modelled. The displays return the values they
  report.
- Floating point: `double` arithmetic is modelled by `real`, without rounding.
- Memory management: `new`/`delete` of rides and the virtual destructor have
  no counterpart in Dafny, where objects are garbage collected.
- Integer width: `rideID`, `driverID` and `riderID` are 32-bit C++ `int`
  fields, while the model's ids are unbounded `int`. Ids are only stored and
  reported, never computed with, so no overflow can arise.
