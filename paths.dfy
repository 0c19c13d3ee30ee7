/**
 * The request paths of the two observation lookups, relative to the API
 * endpoint: `feed/<station>/` (or `feed/here/` for the station nearest to the
 * caller's IP address) and `feed/geo:<lat>;<lon>/`. Coordinates arrive here
 * already formatted as text.
 */
module Paths {
  import opened Wrappers

  /** The station PHP's `??` falls back to when no station is given. */
  const NearestStation := "here"

  /** The target between `feed/` and the closing `/` of a feed path, if it has that shape. */
  function FeedTarget(path: string): (t: Option<string>)
    ensures t.Some? ==> path == "feed/" + t.value + "/"
  {
    if |path| >= 6 && path[..5] == "feed/" && path[|path| - 1] == '/' then
      Some(path[5..|path| - 1])
    else
      None
  }

  /** The position of the first occurrence of `c` in `s`. */
  function IndexOf(s: string, c: char): (r: Option<nat>)
    ensures r.None? <==> c !in s
    ensures r.Some? ==> r.value < |s| && s[r.value] == c && c !in s[..r.value]
  {
    if s == [] then None
    else if s[0] == c then Some(0)
    else match IndexOf(s[1..], c)
      case Some(i) => (assert s[..i + 1] == [s[0]] + s[1..][..i]; Some(i + 1))
      case None => None
  }

  /** Reads a `geo:<lat>;<lon>` target back into its two coordinates, split at the first `;`. */
  function GeoCoordinates(target: string): Option<(string, string)>
  {
    if |target| >= 4 && target[..4] == "geo:" then
      var rest := target[4..];
      match IndexOf(rest, ';')
      case Some(i) => Some((rest[..i], rest[i + 1..]))
      case None => None
    else
      None
  }

  /**
   * The path `getObservationByStation` requests. Its target reads back as the
   * given station, or as `here` when none is given; an empty station name is
   * not replaced, since only a missing one is.
   */
  function StationPath(station: Option<string>): (path: string)
    ensures FeedTarget(path) == Some(if station.Some? then station.value else NearestStation)
  {
    var target := if station.Some? then station.value else NearestStation;
    assert ("feed/" + target + "/")[5..|target| + 5] == target;
    "feed/" + target + "/"
  }

  /**
   * The path `getObservationByGeoLocation` requests. When the latitude text
   * holds no `;`, the coordinates read back unchanged.
   */
  function GeoPath(latitude: string, longitude: string): (path: string)
    ensures ';' !in latitude ==>
      FeedTarget(path).Some? && GeoCoordinates(FeedTarget(path).value) == Some((latitude, longitude))
  {
    var target := "geo:" + latitude + ";" + longitude;
    assert ("feed/" + target + "/")[5..|target| + 5] == target;
    assert ';' !in latitude ==> GeoCoordinates(target) == Some((latitude, longitude)) by {
      if ';' !in latitude { GeoRoundTrip(latitude, longitude); }
    }
    "feed/" + target + "/"
  }

  lemma GeoRoundTrip(latitude: string, longitude: string)
    requires ';' !in latitude
    ensures GeoCoordinates("geo:" + latitude + ";" + longitude) == Some((latitude, longitude))
  {
    var rest := ("geo:" + latitude + ";" + longitude)[4..];
    assert rest == latitude + ";" + longitude;
    IndexOfAfter(latitude, ';', longitude);
    assert rest[..|latitude|] == latitude;
    assert rest[|latitude| + 1..] == longitude;
  }

  lemma {:induction false} IndexOfAfter(prefix: string, c: char, suffix: string)
    requires c !in prefix
    ensures IndexOf(prefix + [c] + suffix, c) == Some(|prefix|)
    decreases |prefix|
  {
    if prefix != [] {
      assert (prefix + [c] + suffix)[1..] == prefix[1..] + [c] + suffix;
      IndexOfAfter(prefix[1..], c, suffix);
    }
  }

  /** Different station names are requested under different paths. */
  lemma StationPathInjective(a: string, b: string)
    ensures StationPath(Some(a)) == StationPath(Some(b)) <==> a == b
  {
  }

  /** Leaving the station out requests the same path as naming the station `here`. */
  lemma OmittedStationIsHere()
    ensures StationPath(None) == StationPath(Some(NearestStation))
  {
  }

  /**
   * A station whose name has the `geo:` form is requested under exactly the
   * path of the corresponding coordinate lookup: the two lookups share one
   * path space.
   */
  lemma GeoNamedStationCollides(latitude: string, longitude: string)
    ensures StationPath(Some("geo:" + latitude + ";" + longitude)) == GeoPath(latitude, longitude)
  {
  }
}
