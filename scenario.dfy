/** The demonstration run of the ride-sharing model: five rides are created
    and displayed, a driver is assigned two of them (rides 101 and 201), and
    a rider requests three (rides 101, 201 and 202), so two ride objects sit
    in both lists. */
module Scenario {
  import opened RideSharing

  /** The driver part of the run: driver 1 is assigned `a` and then `b`,
      and its information is displayed. */
  method DriverPart(a: Ride, b: Ride) returns (driver: Driver, info: DriverInfo)
    modifies a`fareAmount, b`fareAmount
    ensures fresh(driver) && driver.assignedRides == [a, b]
    ensures info == DriverInfo(1, "Priyanka", 5.0, 2, Some([Describe(a), Describe(b)]))
  {
    driver := new Driver(1, "Priyanka", 5.0);
    driver.AddRide(a);
    driver.AddRide(b);
    info := driver.GetDriverInfo();
    DescribeAllAt([a, b], 0);
    DescribeAllAt([a, b], 1);
    assert DescribeAll(driver.assignedRides) == [Describe(a), Describe(b)];
  }

  /** The rider part of the run: rider 1 requests `a`, `b` and `c`, and its
      ride history is displayed. */
  method RiderPart(a: Ride, b: Ride, c: Ride) returns (rider: Rider, notices: seq<Notice>, info: RiderInfo)
    modifies a`fareAmount, b`fareAmount, c`fareAmount
    ensures fresh(rider) && rider.requestedRides == [a, b, c]
    ensures notices == [Requested("Nick", a.rideId), Requested("Nick", b.rideId), Requested("Nick", c.rideId)]
    ensures info == RiderInfo(1, "Nick", 3, Some([Describe(a), Describe(b), Describe(c)]))
  {
    rider := new Rider(1, "Nick");
    var n1 := rider.RequestRide(a);
    var n2 := rider.RequestRide(b);
    var n3 := rider.RequestRide(c);
    notices := [n1, n2, n3];
    info := rider.ViewRides();
    DescribeAllAt([a, b, c], 0);
    DescribeAllAt([a, b, c], 1);
    DescribeAllAt([a, b, c], 2);
    assert DescribeAll(rider.requestedRides) == [Describe(a), Describe(b), Describe(c)];
  }

  /** The program's fixed sequence of steps, with what each display reports. */
  method Demonstration() returns (listing: seq<RideDetails>, driver: Driver, driverInfo: DriverInfo,
                                  rider: Rider, notices: seq<Notice>, riderInfo: RiderInfo)
    ensures listing == [
      RideDetails("[Standard Ride]", 101, "Mass Ave", "Broadway", 5.0, 50.0),
      RideDetails("[Standard Ride]", 102, "Cambridge", "Somerville", 3.2, 32.0),
      RideDetails("[Premium Ride]", 201, "Logan Airport", "Downtown", 12.0, 180.0),
      RideDetails("[Premium Ride]", 202, "South Boston", "Boston University", 7.5, 112.5),
      RideDetails("[Standard Ride]", 301, "Back Bay", "Seaport", 10.0, 50.0)]
    ensures driverInfo == DriverInfo(1, "Priyanka", 5.0, 2, Some([listing[0], listing[2]]))
    ensures notices == [Requested("Nick", 101), Requested("Nick", 201), Requested("Nick", 202)]
    ensures riderInfo == RiderInfo(1, "Nick", 3, Some([listing[0], listing[2], listing[3]]))
    ensures |driver.assignedRides| == 2 && |rider.requestedRides| == 3
    ensures driver.assignedRides[0] == rider.requestedRides[0]
    ensures driver.assignedRides[1] == rider.requestedRides[1]
  {
    var ride1 := new Ride(Standard, 101, "Mass Ave", "Broadway", 5.0);
    var ride2 := new Ride(Standard, 102, "Cambridge", "Somerville", 3.2);
    var ride3 := new Ride(Premium, 201, "Logan Airport", "Downtown", 12.0);
    var ride4 := new Ride(Premium, 202, "South Boston", "Boston University", 7.5);
    var ride5 := new Ride(Base, 301, "Back Bay", "Seaport", 10.0);

    var allRides := [ride1, ride2, ride3, ride4, ride5];
    listing := ShowAll(allRides);
    forall k | 0 <= k < |allRides| ensures listing[k] == Describe(allRides[k]) {
      DescribeAllAt(allRides, k);
    }
    assert listing == [Describe(ride1), Describe(ride2), Describe(ride3), Describe(ride4), Describe(ride5)];

    driver, driverInfo := DriverPart(ride1, ride3);
    rider, notices, riderInfo := RiderPart(ride1, ride3, ride4);
  }
}
