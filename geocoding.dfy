/** The response parser of the geocoder and the cache-only distance between two addresses. */
module Geocoding {
  import opened Wrappers
  import opened Locations

  /** One entry of the provider's `featureMember` list, reduced to its `Point.pos` text,
      which the provider writes as "<lon> <lat>". */
  datatype Candidate = Candidate(pos: string)

  function Count(s: string, c: char): nat {
    if s == [] then 0 else (if s[0] == c then 1 else 0) + Count(s[1..], c)
  }

  /** Python's `s.split(sep)` for a one-character separator: every occurrence separates, so
      neighbouring separators give empty parts. */
  function Split(s: string, sep: char): (parts: seq<string>)
    ensures |parts| == Count(s, sep) + 1
    ensures forall k :: 0 <= k < |parts| ==> sep !in parts[k]
  {
    if s == [] then [""]
    else
      var rest := Split(s[1..], sep);
      if s[0] == sep then [""] + rest else [[s[0]] + rest[0]] + rest[1..]
  }

  /** `sep.join(parts)`. */
  function Join(parts: seq<string>, sep: char): string
    requires |parts| >= 1
  {
    if |parts| == 1 then parts[0] else parts[0] + [sep] + Join(parts[1..], sep)
  }

  lemma {:induction false} SplitPrefix(a: string, b: string, sep: char)
    requires sep !in a
    ensures Split(a + b, sep) == [a + Split(b, sep)[0]] + Split(b, sep)[1..]
  {
    if a != [] {
      var s, rest := a + b, Split(b, sep);
      SplitPrefix(a[1..], b, sep);
      assert s[0] == a[0] != sep;
      assert s[1..] == a[1..] + b;
      assert Split(s, sep) == [[s[0]] + Split(s[1..], sep)[0]] + Split(s[1..], sep)[1..];
      assert Split(s[1..], sep) == [a[1..] + rest[0]] + rest[1..];
      assert [a[0]] + a[1..] == a;
      assert [a[0]] + (a[1..] + rest[0]) == a + rest[0];
      assert Split(s, sep) == [[a[0]] + (a[1..] + rest[0])] + rest[1..];
    } else {
      var rest := Split(b, sep);
      assert a + b == b && a + rest[0] == rest[0];
      assert rest == [rest[0]] + rest[1..];
    }
  }

  /** Splitting what was joined gives back the parts, when no part holds the separator. */
  lemma {:induction false} SplitJoin(parts: seq<string>, sep: char)
    requires |parts| >= 1
    requires forall k :: 0 <= k < |parts| ==> sep !in parts[k]
    ensures Split(Join(parts, sep), sep) == parts
  {
    if |parts| == 1 {
      SplitPrefix(parts[0], [], sep);
      assert parts[0] + [] == parts[0];
    } else {
      var tail := Join(parts[1..], sep);
      SplitJoin(parts[1..], sep);
      SplitPrefix(parts[0], [sep] + tail, sep);
      assert parts[0] + [sep] + tail == parts[0] + ([sep] + tail);
      assert ([sep] + tail)[1..] == tail;
      assert Split([sep] + tail, sep) == [""] + parts[1..];
      assert parts[0] + "" == parts[0];
      assert parts == [parts[0]] + parts[1..];
    }
  }

  /** Joining what was split gives back the text. */
  lemma {:induction false} JoinSplit(s: string, sep: char)
    ensures Join(Split(s, sep), sep) == s
  {
    if s != [] {
      JoinSplit(s[1..], sep);
      assert s == [s[0]] + s[1..];
    }
  }

  /** `lon, lat = pos.split(" ")`: exactly one space, or the unpacking raises ValueError. */
  function ParsePos(pos: string): (r: Result<(string, string)>)
    ensures r.Ok? <==> Count(pos, ' ') == 1
    ensures r.Raise? ==> r.exc == ValueError
    ensures r.Ok? ==> r.value.0 + " " + r.value.1 == pos
  {
    var parts := Split(pos, ' ');
    JoinSplit(pos, ' ');
    if |parts| == 2 then Ok((parts[0], parts[1])) else Raise(ValueError)
  }

  /** `fetch_coordinates` after the HTTP call: no candidate gives None, otherwise the first
      candidate's pos is parsed and the pair comes back as (lat, lon). */
  function FetchCoordinates(found: seq<Candidate>): (r: Result<Option<(string, string)>>)
    ensures r == Ok(None) <==> found == []
    ensures r.Raise? ==> r.exc == ValueError
  {
    if found == [] then Ok(None)
    else
      match ParsePos(found[0].pos)
      case Ok((lon, lat)) => Ok(Some((lat, lon)))
      case Raise(e) => Raise(e)
  }

  /** Only the most relevant (first) candidate matters. */
  lemma FirstCandidateOnly(c: Candidate, rest: seq<Candidate>)
    ensures FetchCoordinates([c] + rest) == FetchCoordinates([c])
  {
  }

  /** A pos "<lon> <lat>" whose two parts hold no space parses to (lat, lon): the order is swapped. */
  lemma PosRoundTrip(lon: string, lat: string, rest: seq<Candidate>)
    requires ' ' !in lon && ' ' !in lat
    ensures FetchCoordinates([Candidate(lon + " " + lat)] + rest) == Ok(Some((lat, lon)))
  {
    SplitJoin([lon, lat], ' ');
    assert Join([lon, lat], ' ') == lon + " " + lat by {
      assert Join([lon, lat][1..], ' ') == lat;
    }
  }

  /** A pos that does not consist of exactly two space-separated parts is an error. */
  lemma MalformedPos(pos: string, rest: seq<Candidate>)
    requires |Split(pos, ' ')| != 2
    ensures FetchCoordinates([Candidate(pos)] + rest) == Raise(ValueError)
  {
  }

  /** A cache entry's coordinates as `__str__` prints them are in the provider's order, so
      feeding them to the parser gives back (latitude text, longitude text). */
  lemma DisplayedCoordinatesParse(l: Location, fmt: real -> string)
    requires ' ' !in fmt(l.longitude) && ' ' !in fmt(l.latitude)
    ensures FetchCoordinates([Candidate(CoordinatesText(l, fmt))]) == Ok(Some((fmt(l.latitude), fmt(l.longitude))))
  {
    PosRoundTrip(fmt(l.longitude), fmt(l.latitude), []);
    assert [Candidate(CoordinatesText(l, fmt))] + [] == [Candidate(CoordinatesText(l, fmt))];
  }

  /** (latitude, longitude), the argument order of the geodesic distance. */
  type Coordinates = (real, real)

  function CoordinatesOf(l: Location): Coordinates {
    (l.latitude, l.longitude)
  }

  /** `calculate_distance`: both addresses are looked up in the cache only; a missing one
      raises DoesNotExist (the fetch fallback is commented out in the source). `dist` stands
      for the ellipsoidal distance in kilometres. */
  function CalculateDistance(cache: map<string, Location>, orderAddress: string, restaurantAddress: string,
                             dist: (Coordinates, Coordinates) -> real): (r: Result<real>)
    ensures r.Ok? <==> orderAddress in cache && restaurantAddress in cache
    ensures r.Raise? ==> r.exc == DoesNotExist
  {
    if orderAddress !in cache then Raise(DoesNotExist)
    else if restaurantAddress !in cache then Raise(DoesNotExist)
    else Ok(dist(CoordinatesOf(cache[orderAddress]), CoordinatesOf(cache[restaurantAddress])))
  }

  /** The distance depends only on the cached coordinates of the two addresses. */
  lemma DistanceDependsOnlyOnCoordinates(c1: map<string, Location>, c2: map<string, Location>,
                                         a: string, b: string, dist: (Coordinates, Coordinates) -> real)
    requires a in c1 && a in c2 && b in c1 && b in c2
    requires CoordinatesOf(c1[a]) == CoordinatesOf(c2[a]) && CoordinatesOf(c1[b]) == CoordinatesOf(c2[b])
    ensures CalculateDistance(c1, a, b, dist) == CalculateDistance(c2, a, b, dist)
    ensures CalculateDistance(c1, a, b, dist) == Ok(dist(CoordinatesOf(c1[a]), CoordinatesOf(c1[b])))
  {
  }
}
