/** A ride-sharing object model: rides priced by a per-mile rate that depends
    on the ride's variant, drivers that accumulate the rides assigned to them
    and riders that accumulate the rides they request. Rides are shared by
    reference: the same Ride object may sit in a driver's list and in a
    rider's list at once. */
module RideSharing {

  datatype Option<T> = None | Some(value: T)

  /** The closed set of ride classes: the base ride and its two subclasses. */
  datatype Variant = Base | Standard | Premium

  /** Dollars charged per mile by each variant: no class charges less than
      the base ride or more than the premium ride. */
  function Rate(v: Variant): (r: real)
    ensures 5.0 <= r <= 15.00
  {
    match v
    case Base => 5.0
    case Standard => 10.00
    case Premium => 15.00
  }

  /** The header a ride's detail display starts with. The base ride reuses
      the standard header; only premium rides have their own. */
  function Label(v: Variant): (s: string)
    ensures s == "[Premium Ride]" <==> v == Premium
    ensures s == "[Standard Ride]" <==> v != Premium
  {
    match v
    case Base => "[Standard Ride]"
    case Standard => "[Standard Ride]"
    case Premium => "[Premium Ride]"
  }

  /** What one ride's detail display reports. */
  datatype RideDetails = RideDetails(
    header: string,
    rideId: int,
    pickup: string,
    dropoff: string,
    distance: real,
    fare: real)

  /** Confirmation that a rider has requested a ride. */
  datatype Notice = Requested(riderName: string, rideId: int)

  /** What a driver's information display reports. The completed-rides
      section is None when the driver has no rides: its header is then not
      shown at all. */
  datatype DriverInfo = DriverInfo(
    driverId: int,
    name: string,
    rating: real,
    totalRides: nat,
    completedRides: Option<seq<RideDetails>>)

  /** What a rider's ride-history display reports; as for DriverInfo, the
      history section is None when the rider has requested nothing. */
  datatype RiderInfo = RiderInfo(
    riderId: int,
    name: string,
    totalRides: nat,
    rideHistory: Option<seq<RideDetails>>)

  class Ride {
    const variant: Variant
    const rideId: int
    const pickupLocation: string
    const dropoffLocation: string
    const distance: real  // in miles; never validated, so it may be negative
    var fareAmount: real   // the last fare computed

    /** One constructor for all three classes: the subclass constructors
        only forward to the base one, so the class becomes `variant`. */
    constructor (variant: Variant, id: int, pickup: string, dropoff: string, dist: real)
      ensures this.variant == variant
      ensures GetRideId() == id
      ensures pickupLocation == pickup && dropoffLocation == dropoff
      ensures distance == dist
      ensures fareAmount == 0.0
    {
      this.variant := variant;
      rideId := id;
      pickupLocation := pickup;
      dropoffLocation := dropoff;
      distance := dist;
      fareAmount := 0.0;
    }

    /** The ride's id, as its detail display reports it. */
    function GetRideId(): (id: int)
      ensures id == Describe(this).rideId
    {
      rideId
    }

    /** Computes the fare for this ride's variant, stores it and returns it. */
    method Fare() returns (r: real)
      modifies this`fareAmount
      ensures r == distance * Rate(variant)
      ensures fareAmount == r
    {
      fareAmount := distance * Rate(variant);
      r := fareAmount;
    }

    /** The detail display: it recomputes (and so stores) the fare. */
    method Details() returns (d: RideDetails)
      modifies this`fareAmount
      ensures d == Describe(this)
      ensures fareAmount == d.fare
    {
      var fare := Fare();
      d := RideDetails(Label(variant), rideId, pickupLocation, dropoffLocation, distance, fare);
    }
  }

  /** The fare a ride's variant charges for its distance. Distance is never
      validated, so a negative distance gives a negative fare: the fare has
      the sign of the distance. */
  function FareOf(r: Ride): (f: real)
    ensures f < 0.0 <==> r.distance < 0.0
    ensures f == 0.0 <==> r.distance == 0.0
  {
    r.distance * Rate(r.variant)
  }

  /** What the detail display of `r` reports: the premium header exactly for
      premium rides, the ride's own id, locations and distance, and the fare
      its variant charges. */
  function Describe(r: Ride): (d: RideDetails)
    ensures d.header == "[Premium Ride]" <==> r.variant == Premium
    ensures d.rideId == r.rideId && d.pickup == r.pickupLocation && d.dropoff == r.dropoffLocation
    ensures d.distance == r.distance && d.fare == FareOf(r)
  {
    RideDetails(Label(r.variant), r.rideId, r.pickupLocation, r.dropoffLocation, r.distance, FareOf(r))
  }

  /** The detail displays of a list of rides, in list order. */
  function DescribeAll(rides: seq<Ride>): (ds: seq<RideDetails>)
    ensures |ds| == |rides|
  {
    if rides == [] then [] else [Describe(rides[0])] + DescribeAll(rides[1..])
  }

  /** Shows the detail of every ride in `rides`, in order, recomputing each
      ride's fare on the way. A ride listed twice is shown twice. */
  method ShowAll(rides: seq<Ride>) returns (ds: seq<RideDetails>)
    modifies rides`fareAmount
    ensures ds == DescribeAll(rides)
    ensures forall k :: 0 <= k < |rides| ==> rides[k].fareAmount == FareOf(rides[k])
  {
    ds := [];
    for i := 0 to |rides|
      invariant ds == DescribeAll(rides[..i])
      invariant forall k :: 0 <= k < i ==> rides[k].fareAmount == FareOf(rides[k])
    {
      var d := rides[i].Details();
      DescribeAllSnoc(rides[..i], rides[i]);
      assert rides[..i + 1] == rides[..i] + [rides[i]];
      ds := ds + [d];
    }
    assert rides[..|rides|] == rides;
  }

  class Driver {
    const driverId: int
    const name: string
    const rating: real  // meant to lie in 0..5; never checked
    var assignedRides: seq<Ride>

    constructor (id: int, driverName: string, driverRating: real)
      ensures driverId == id && name == driverName && rating == driverRating
      ensures assignedRides == []
    {
      driverId := id;
      name := driverName;
      rating := driverRating;
      assignedRides := [];
    }

    /** Appends `ride` to the assigned rides; no ride object is touched. */
    method AddRide(ride: Ride)
      modifies this`assignedRides
      ensures assignedRides == old(assignedRides) + [ride]
    {
      assignedRides := assignedRides + [ride];
    }

    /** The driver's information display. */
    method GetDriverInfo() returns (info: DriverInfo)
      modifies assignedRides`fareAmount
      ensures info.driverId == driverId && info.name == name && info.rating == rating
      ensures info.totalRides == |assignedRides|
      ensures info.completedRides.Some? <==> assignedRides != []
      ensures info.completedRides.Some? ==> info.completedRides.value == DescribeAll(assignedRides)
      ensures forall k :: 0 <= k < |assignedRides| ==> assignedRides[k].fareAmount == FareOf(assignedRides[k])
    {
      var completed := None;
      if assignedRides != [] {
        var ds := ShowAll(assignedRides);
        completed := Some(ds);
      }
      info := DriverInfo(driverId, name, rating, |assignedRides|, completed);
    }
  }

  class Rider {
    const riderId: int
    const name: string
    var requestedRides: seq<Ride>

    constructor (id: int, riderName: string)
      ensures riderId == id && name == riderName
      ensures requestedRides == []
    {
      riderId := id;
      name := riderName;
      requestedRides := [];
    }

    /** Appends `ride` to the requested rides and confirms the request. */
    method RequestRide(ride: Ride) returns (notice: Notice)
      modifies this`requestedRides
      ensures requestedRides == old(requestedRides) + [ride]
      ensures notice == Requested(name, ride.GetRideId())
    {
      requestedRides := requestedRides + [ride];
      notice := Requested(name, ride.GetRideId());
    }

    /** The rider's ride-history display. */
    method ViewRides() returns (info: RiderInfo)
      modifies requestedRides`fareAmount
      ensures info.riderId == riderId && info.name == name
      ensures info.totalRides == |requestedRides|
      ensures info.rideHistory.Some? <==> requestedRides != []
      ensures info.rideHistory.Some? ==> info.rideHistory.value == DescribeAll(requestedRides)
      ensures forall k :: 0 <= k < |requestedRides| ==> requestedRides[k].fareAmount == FareOf(requestedRides[k])
    {
      var history := None;
      if requestedRides != [] {
        var ds := ShowAll(requestedRides);
        history := Some(ds);
      }
      info := RiderInfo(riderId, name, |requestedRides|, history);
    }
  }

  // Properties of the specification functions.

  /** The listing entry at position k is the details of the ride at
      position k: the listing keeps list order, and a ride listed twice is
      shown twice. */
  lemma {:induction false} DescribeAllAt(rides: seq<Ride>, k: nat)
    requires k < |rides|
    ensures DescribeAll(rides)[k] == Describe(rides[k])
  {
    if k > 0 {
      DescribeAllAt(rides[1..], k - 1);
    }
  }

  /** Appending a ride to a list extends its detail listing by exactly that
      ride's details, at the end: attachment order is listing order. */
  lemma {:induction false} DescribeAllSnoc(rides: seq<Ride>, r: Ride)
    ensures DescribeAll(rides + [r]) == DescribeAll(rides) + [Describe(r)]
  {
    if rides != [] {
      assert (rides + [r])[1..] == rides[1..] + [r];
      DescribeAllSnoc(rides[1..], r);
    }
  }

  /** Computing a ride's fare a second time gives the first result again,
      and the stored fare is that value. */
  method FareIsIdempotent(ride: Ride) returns (first: real, second: real)
    modifies ride`fareAmount
    ensures first == second == FareOf(ride)
    ensures ride.fareAmount == second
  {
    first := ride.Fare();
    second := ride.Fare();
  }

  /** A ride referenced from two lists (a driver's and a rider's, say) is
      reported identically by both. */
  lemma SharedRideSameDetails(a: seq<Ride>, b: seq<Ride>, i: nat, j: nat)
    requires i < |a| && j < |b| && a[i] == b[j]
    ensures DescribeAll(a)[i] == DescribeAll(b)[j]
  {
    DescribeAllAt(a, i);
    DescribeAllAt(b, j);
  }
}
