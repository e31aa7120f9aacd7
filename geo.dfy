/** The coordinate mapper: latitude/longitude on a sphere of a given radius to a
    3D point with Y as the polar axis, and back. */
module Geo {
  import opened Js

  type Positive = x: real | x > 0.0 witness 1.0

  /** The floating-point transcendental functions the mapper calls, supplied from
      outside: Math.sin, Math.cos, Math.atan2, and Math.acos applied to the quotient
      of its two arguments (the quotient by a zero radius is not a real number, so
      the division stays inside the injected function). `pi` stands for Math.PI. */
  datatype Trig = Trig(
    pi: Positive,
    sin: real -> real,
    cos: real -> real,
    acosOfQuotient: (real, real) -> real,
    atan2: (real, real) -> real)

  datatype Vec3 = Vec3(x: real, y: real, z: real)

  datatype LatLng = LatLng(lat: real, lng: real)

  /** A vector as the caller may hand it over: any component may fail to be a number. */
  datatype VectorValue = VectorValue(x: Value, y: Value, z: Value)

  function Lift(v: Vec3): VectorValue {
    VectorValue(Number(v.x), Number(v.y), Number(v.z))
  }

  // The linear parts of the mapper: degrees to the polar angle phi (measured from
  // the north pole) and to the azimuth theta, and back.

  function PhiOfLat(pi: real, lat: real): real { (90.0 - lat) * (pi / 180.0) }

  function ThetaOfLng(pi: real, lng: real): real { (lng + 180.0) * (pi / 180.0) }

  function LatOfPhi(pi: Positive, phi: real): real { 90.0 - phi * (180.0 / pi) }

  function LngOfTheta(pi: Positive, theta: real): real { theta * (180.0 / pi) - 180.0 }

  lemma DegreesRadiansCancel(pi: Positive, a: real)
    ensures a * (pi / 180.0) * (180.0 / pi) == a
    ensures a * (180.0 / pi) * (pi / 180.0) == a
  {
    assert (pi / 180.0) * (180.0 / pi) == 1.0;
  }

  /** Latitude and polar angle are inverse maps of each other. */
  lemma LatPhiInverse(pi: Positive, lat: real, phi: real)
    ensures LatOfPhi(pi, PhiOfLat(pi, lat)) == lat
    ensures PhiOfLat(pi, LatOfPhi(pi, phi)) == phi
  {
    DegreesRadiansCancel(pi, 90.0 - lat);
    DegreesRadiansCancel(pi, phi);
  }

  /** Longitude and azimuth are inverse maps of each other. */
  lemma LngThetaInverse(pi: Positive, lng: real, theta: real)
    ensures LngOfTheta(pi, ThetaOfLng(pi, lng)) == lng
    ensures ThetaOfLng(pi, LngOfTheta(pi, theta)) == theta
  {
    DegreesRadiansCancel(pi, lng + 180.0);
    DegreesRadiansCancel(pi, theta);
  }

  /** The spherical-to-Cartesian transform on numbers: x = -r sin(phi) cos(theta),
      y = r cos(phi), z = r sin(phi) sin(theta). */
  function SphereToCartesian(t: Trig, lat: real, lng: real, r: real): Vec3 {
    var phi := PhiOfLat(t.pi, lat);
    var theta := ThetaOfLng(t.pi, lng);
    Vec3(-(r * t.sin(phi) * t.cos(theta)), r * t.cos(phi), r * t.sin(phi) * t.sin(theta))
  }

  /** `latLngToVector3`: a non-number latitude or longitude counts as 0 and a
      non-number radius as 1; nothing guards a radius <= 0. */
  function LatLngToVector3(t: Trig, lat: Value, lng: Value, radius: Value): (p: Vec3) {
    SphereToCartesian(t, OrDefault(lat, 0.0), OrDefault(lng, 0.0), OrDefault(radius, 1.0))
  }

  /** Invalid input to the forward map behaves exactly like its default. */
  lemma ForwardDefaults(t: Trig, lat: Value, lng: Value, radius: Value)
    ensures LatLngToVector3(t, lat, lng, radius)
         == LatLngToVector3(t, Number(OrDefault(lat, 0.0)), Number(OrDefault(lng, 0.0)), Number(OrDefault(radius, 1.0)))
    ensures LatLngToVector3(t, NonNumber, NonNumber, NonNumber) == LatLngToVector3(t, Number(0.0), Number(0.0), Number(1.0))
  {
    assert OrDefault(Number(OrDefault(lat, 0.0)), 0.0) == OrDefault(lat, 0.0);
    assert OrDefault(Number(OrDefault(lng, 0.0)), 0.0) == OrDefault(lng, 0.0);
    assert OrDefault(Number(OrDefault(radius, 1.0)), 1.0) == OrDefault(radius, 1.0);
  }

  /** Y is the polar axis: the height of the point does not depend on the longitude,
      and the point scales linearly with the radius. */
  lemma PolarAxisIsY(t: Trig, lat: real, lng1: real, lng2: real, r: real)
    ensures LatLngToVector3(t, Number(lat), Number(lng1), Number(r)).y
         == LatLngToVector3(t, Number(lat), Number(lng2), Number(r)).y
    ensures LatLngToVector3(t, Number(lat), Number(lng1), Number(r))
         == Scale(r, LatLngToVector3(t, Number(lat), Number(lng1), Number(1.0)))
  {
  }

  function Scale(k: real, v: Vec3): Vec3 { Vec3(k * v.x, k * v.y, k * v.z) }

  /** True when the vector is present and every component is a number. */
  predicate WellFormed(v: Option<VectorValue>) {
    v.Some? && v.value.x.Number? && v.value.y.Number? && v.value.z.Number?
  }

  /** The polar angle and the raw azimuth `vector3ToLatLng` computes. */
  function PolarAngle(t: Trig, v: VectorValue, radius: Value): real
    requires v.y.Number?
  {
    t.acosOfQuotient(v.y.n, OrDefault(radius, 1.0))
  }

  function Azimuth(t: Trig, v: VectorValue): real
    requires v.x.Number? && v.z.Number?
  {
    t.atan2(v.z.n, -v.x.n)
  }

  /** `vector3ToLatLng` as the source writes it: lng = theta * 180 / pi - 180 with
      theta = atan2(z, -x), which lands in (-360, 0]. */
  function Vector3ToLatLngAsWritten(t: Trig, v: Option<VectorValue>, radius: Value): (g: LatLng)
    ensures !WellFormed(v) ==> g == LatLng(0.0, 0.0)
  {
    if !WellFormed(v) then LatLng(0.0, 0.0)
    else LatLng(LatOfPhi(t.pi, PolarAngle(t, v.value, radius)), LngOfTheta(t.pi, Azimuth(t, v.value)))
  }

  /** `vector3ToLatLng` with its longitude brought back into [-180, 180): atan2
      answers in (-pi, pi], so theta * 180 / pi - 180 lands in (-360, 0]. */
  function Vector3ToLatLng(t: Trig, v: Option<VectorValue>, radius: Value): (g: LatLng)
    ensures !WellFormed(v) ==> g == LatLng(0.0, 0.0)
    ensures WellFormed(v) ==> g.lat == Vector3ToLatLngAsWritten(t, v, radius).lat
    ensures var raw := Vector3ToLatLngAsWritten(t, v, radius).lng;
            WellFormed(v) ==> g.lng == (if raw < -180.0 then raw + 360.0 else raw)
  {
    if !WellFormed(v) then LatLng(0.0, 0.0)
    else
      var lng := LngOfTheta(t.pi, Azimuth(t, v.value));
      LatLng(LatOfPhi(t.pi, PolarAngle(t, v.value, radius)), if lng < -180.0 then lng + 360.0 else lng)
  }

  /** Both inverses treat a non-number radius as 1, like the forward map. */
  lemma InverseDefaults(t: Trig, v: Option<VectorValue>, radius: Value)
    ensures Vector3ToLatLngAsWritten(t, v, radius) == Vector3ToLatLngAsWritten(t, v, Number(OrDefault(radius, 1.0)))
    ensures Vector3ToLatLngAsWritten(t, v, NonNumber) == Vector3ToLatLngAsWritten(t, v, Number(1.0))
    ensures Vector3ToLatLng(t, v, radius) == Vector3ToLatLng(t, v, Number(OrDefault(radius, 1.0)))
    ensures Vector3ToLatLng(t, v, NonNumber) == Vector3ToLatLng(t, v, Number(1.0))
  {
  }

  /** The angle in (-pi, pi] that names the same direction as a in [0, 2 pi). */
  function PrincipalAngle(pi: real, a: real): real { if a <= pi then a else a - 2.0 * pi }

  /** The hypothesis on the injected functions that the round trip rests on; it is
      assumed by the lemmas below, not derived. At the point p the forward map
      produces for (lat, lng) on a sphere of radius r, away from the poles
      (r sin phi > 0), exact arc cosine and arc tangent would give
      acos(p.y / r) = acos(cos phi) = phi because phi lies in [0, pi], and
      atan2(p.z, -p.x) = atan2(k sin theta, k cos theta) with k = r sin phi > 0,
      the principal value of theta. */
  predicate InvertsAt(t: Trig, lat: real, lng: real, r: real) {
    var phi := PhiOfLat(t.pi, lat);
    var theta := ThetaOfLng(t.pi, lng);
    var p := LatLngToVector3(t, Number(lat), Number(lng), Number(r));
    && r * t.sin(phi) > 0.0
    && t.acosOfQuotient(p.y, r) == phi
    && t.atan2(p.z, -p.x) == PrincipalAngle(t.pi, theta)
  }

  /** The as-written inverse moves every eastern longitude by a full turn: a point
      mapped from longitude lng in (0, 180) comes back with longitude lng - 360. */
  lemma AsWrittenShiftsEasternLongitudes(t: Trig, lat: real, lng: real, r: real)
    requires 0.0 < lng < 180.0
    requires InvertsAt(t, lat, lng, r)
    ensures Vector3ToLatLngAsWritten(t, Some(Lift(LatLngToVector3(t, Number(lat), Number(lng), Number(r)))), Number(r))
         == LatLng(lat, lng - 360.0)
  {
    var theta := ThetaOfLng(t.pi, lng);
    LatPhiInverse(t.pi, lat, 0.0);
    assert theta > t.pi by {
      DegreesRadiansCancel(t.pi, lng + 180.0);
      assert theta * (180.0 / t.pi) == lng + 180.0;
    }
    LngThetaInverse(t.pi, lng, 0.0);
    assert LngOfTheta(t.pi, theta - 2.0 * t.pi) == lng - 360.0 by {
      assert (theta - 2.0 * t.pi) * (180.0 / t.pi) == theta * (180.0 / t.pi) - 360.0;
    }
  }

  /** ... while every western longitude in [-180, 0] comes back unchanged. */
  lemma AsWrittenKeepsWest(t: Trig, lat: real, lng: real, r: real)
    requires -180.0 <= lng <= 0.0
    requires InvertsAt(t, lat, lng, r)
    ensures Vector3ToLatLngAsWritten(t, Some(Lift(LatLngToVector3(t, Number(lat), Number(lng), Number(r)))), Number(r))
         == LatLng(lat, lng)
  {
    var theta := ThetaOfLng(t.pi, lng);
    LatPhiInverse(t.pi, lat, 0.0);
    LngThetaInverse(t.pi, lng, 0.0);
    DegreesRadiansCancel(t.pi, lng + 180.0);
    assert theta * (180.0 / t.pi) == lng + 180.0;
  }

  /** Round trip of the corrected inverse: every latitude strictly between the poles
      and every longitude in [-180, 180) comes back unchanged. */
  lemma RoundTrip(t: Trig, lat: real, lng: real, r: real)
    requires -180.0 <= lng < 180.0
    requires InvertsAt(t, lat, lng, r)
    ensures Vector3ToLatLng(t, Some(Lift(LatLngToVector3(t, Number(lat), Number(lng), Number(r)))), Number(r))
         == LatLng(lat, lng)
  {
    var theta := ThetaOfLng(t.pi, lng);
    LatPhiInverse(t.pi, lat, 0.0);
    LngThetaInverse(t.pi, lng, 0.0);
    DegreesRadiansCancel(t.pi, lng + 180.0);
    assert theta * (180.0 / t.pi) == lng + 180.0;
    if theta > t.pi {
      assert (theta - 2.0 * t.pi) * (180.0 / t.pi) == theta * (180.0 / t.pi) - 360.0;
    }
  }
}
