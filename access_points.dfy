/** Optional values, for the properties the game leaves `undefined`. */
module Options {
  datatype Option<T> = None | Some(value: T)
}

/** The simulated Wi-Fi access points and the player's view of them. */
module AccessPoints {
  import opened Options

  /** A position on the plane. */
  datatype Point = Point(x: real, y: real)

  /** Which of the two transfer speeds `speedAt` is asked for. */
  datatype Direction = Download | Upload

  /** An access point. Only its price changes after it is created: buying
      access sets it to 0. Whether a point is in range and how fast it is
      there are given as functions, since the geometry behind them is not
      part of this model. */
  class AccessPoint {
    const ssid: string
    /** The hash the typed password must match, if the network is protected. */
    const password: Option<string>
    const isInRange: Point -> bool
    const speedAt: (Point, Direction) -> real
    /** The price of using the network, if it has one. */
    var cost: Option<int>

    constructor (ssid: string, password: Option<string>, isInRange: Point -> bool,
                 speedAt: (Point, Direction) -> real, cost: Option<int>)
      ensures this.ssid == ssid && this.password == password
      ensures this.isInRange == isInRange && this.speedAt == speedAt
      ensures this.cost == cost
    {
      this.ssid := ssid;
      this.password := password;
      this.isInRange := isInRange;
      this.speedAt := speedAt;
      this.cost := cost;
    }
  }

  /** `getAccessPoints(point)`: the access points in range of `p`, in the
      order they are listed. */
  function GetAccessPoints(aps: seq<AccessPoint>, p: Point): (r: seq<AccessPoint>)
    ensures forall i :: 0 <= i < |r| ==> r[i] in aps && r[i].isInRange(p)
    ensures forall i :: 0 <= i < |aps| && aps[i].isInRange(p) ==> aps[i] in r
    ensures |r| <= |aps|
  {
    if aps == [] then []
    else (if aps[0].isInRange(p) then [aps[0]] else []) + GetAccessPoints(aps[1..], p)
  }

  /** Filtering a concatenation filters each part and keeps them in order;
      with `GetAccessPointsSingle` this says the result is the input with
      exactly the out-of-range points deleted. */
  lemma {:induction false} GetAccessPointsConcat(a: seq<AccessPoint>, b: seq<AccessPoint>, p: Point)
    ensures GetAccessPoints(a + b, p) == GetAccessPoints(a, p) + GetAccessPoints(b, p)
  {
    if a == [] {
      assert a + b == b;
    } else {
      assert (a + b)[1..] == a[1..] + b;
      GetAccessPointsConcat(a[1..], b, p);
    }
  }

  /** One access point is kept exactly when it is in range. */
  lemma GetAccessPointsSingle(a: AccessPoint, p: Point)
    ensures GetAccessPoints([a], p) == if a.isInRange(p) then [a] else []
  {
    assert [a][1..] == [];
  }

  /** Filtering the in-range points again removes nothing. */
  lemma {:induction false} GetAccessPointsIdempotent(aps: seq<AccessPoint>, p: Point)
    ensures GetAccessPoints(GetAccessPoints(aps, p), p) == GetAccessPoints(aps, p)
  {
    if aps != [] {
      var head := if aps[0].isInRange(p) then [aps[0]] else [];
      var tail := GetAccessPoints(aps[1..], p);
      GetAccessPointsConcat(head, tail, p);
      GetAccessPointsIdempotent(aps[1..], p);
      if aps[0].isInRange(p) {
        GetAccessPointsSingle(aps[0], p);
      }
    }
  }
}
