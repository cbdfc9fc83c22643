/**
 * Bounding boxes as the adapters write them: four numbers, always in the
 * order minLng, minLat, maxLng, maxLat, joined by commas. Numbers are reals;
 * JavaScript's number-to-string conversion is the parameter `show`.
 */
module Bbox {
  import opened Wrappers
  import opened Text

  datatype Box = Box(minLng: real, minLat: real, maxLng: real, maxLat: real)

  /** The whole world in EPSG:4326 degrees. */
  const WORLD: Box := Box(-180.0, -90.0, 180.0, 90.0)

  predicate WellOrdered(b: Box)
  {
    b.minLng <= b.maxLng && b.minLat <= b.maxLat
  }

  /** A zero-area box. */
  predicate Degenerate(b: Box)
  {
    b.minLng == b.maxLng && b.minLat == b.maxLat
  }

  /** The square of half-side `buffer` around the point (lat, lng). */
  function FromPoint(lat: real, lng: real, buffer: real): (b: Box)
    ensures (b.minLng + b.maxLng) / 2.0 == lng && (b.minLat + b.maxLat) / 2.0 == lat
    ensures b.maxLng - b.minLng == 2.0 * buffer && b.maxLat - b.minLat == 2.0 * buffer
    ensures buffer >= 0.0 ==> WellOrdered(b)
    ensures buffer == 0.0 ==> Degenerate(b) && b.minLng == lng && b.minLat == lat
  {
    Box(lng - buffer, lat - buffer, lng + buffer, lat + buffer)
  }

  /** `${minLng},${minLat},${maxLng},${maxLat}`. */
  function Serialize(b: Box, show: real -> string): string
  {
    Join([show(b.minLng), show(b.minLat), show(b.maxLng), show(b.maxLat)], ',')
  }

  /** `createBboxFromPoint` of the WFS adapter. */
  function CreateBboxFromPoint(lat: real, lng: real, buffer: real, show: real -> string): string
  {
    Serialize(FromPoint(lat, lng, buffer), show)
  }

  /** `createBbox` of the WMS adapter: the four extrema as given, unchecked. */
  function CreateBbox(minLng: real, minLat: real, maxLng: real, maxLat: real, show: real -> string): string
  {
    Serialize(Box(minLng, minLat, maxLng, maxLat), show)
  }

  /**
   * The text of the number `x` contains no comma, and `parse` reads it back
   * exactly (what a conforming server does with that field). Stated per value:
   * no printer of finitely many characters reads back every real.
   */
  predicate ReadsBack(show: real -> string, parse: string -> Option<real>, x: real)
  {
    ',' !in show(x) && parse(show(x)) == Some(x)
  }

  /** Each of the box's four fields reads back. */
  predicate BoxReadsBack(show: real -> string, parse: string -> Option<real>, b: Box)
  {
    ReadsBack(show, parse, b.minLng) && ReadsBack(show, parse, b.minLat)
    && ReadsBack(show, parse, b.maxLng) && ReadsBack(show, parse, b.maxLat)
  }

  /** Reads a bbox parameter the way a server does; `None` unless four numbers. */
  function ParseBox(s: string, parse: string -> Option<real>): Option<Box>
  {
    var f := Split(s, ',');
    if |f| != 4 then None
    else
      match (parse(f[0]), parse(f[1]), parse(f[2]), parse(f[3]))
      case (Some(a), Some(b), Some(c), Some(d)) => Some(Box(a, b, c, d))
      case _ => None
  }

  /** The serialised form is the four fields' texts, comma-joined, in wire order. */
  lemma SerializeFields(b: Box, show: real -> string)
    requires ',' !in show(b.minLng) && ',' !in show(b.minLat)
    requires ',' !in show(b.maxLng) && ',' !in show(b.maxLat)
    ensures Split(Serialize(b, show), ',') == [show(b.minLng), show(b.minLat), show(b.maxLng), show(b.maxLat)]
  {
    var parts := [show(b.minLng), show(b.minLat), show(b.maxLng), show(b.maxLat)];
    assert Separable(parts, ',');
    SplitJoin(parts, ',');
  }

  /** Round trip: a server reading the string recovers the same four numbers. */
  lemma SerializeRoundTrip(b: Box, show: real -> string, parse: string -> Option<real>)
    requires BoxReadsBack(show, parse, b)
    ensures ParseBox(Serialize(b, show), parse) == Some(b)
  {
    SerializeFields(b, show);
  }

  /**
   * The point box's text is exactly lng-b, lat-b, lng+b, lat+b in that order,
   * and a server reads those four numbers back whenever each of them reads back.
   */
  lemma CreateBboxFromPointFields(lat: real, lng: real, buffer: real, show: real -> string, parse: string -> Option<real>)
    requires forall x :: ',' !in show(x)
    ensures Split(CreateBboxFromPoint(lat, lng, buffer, show), ',')
         == [show(lng - buffer), show(lat - buffer), show(lng + buffer), show(lat + buffer)]
    ensures BoxReadsBack(show, parse, FromPoint(lat, lng, buffer)) ==>
              ParseBox(CreateBboxFromPoint(lat, lng, buffer, show), parse)
              == Some(Box(lng - buffer, lat - buffer, lng + buffer, lat + buffer))
  {
    SerializeFields(FromPoint(lat, lng, buffer), show);
    if BoxReadsBack(show, parse, FromPoint(lat, lng, buffer)) {
      SerializeRoundTrip(FromPoint(lat, lng, buffer), show, parse);
    }
  }

  /**
   * `createBbox` never checks min <= max: reversed extrema are passed through
   * and read back in the order given.
   */
  lemma CreateBboxPassesThrough(minLng: real, minLat: real, maxLng: real, maxLat: real,
                                show: real -> string, parse: string -> Option<real>)
    requires BoxReadsBack(show, parse, Box(minLng, minLat, maxLng, maxLat))
    ensures ParseBox(CreateBbox(minLng, minLat, maxLng, maxLat, show), parse)
         == Some(Box(minLng, minLat, maxLng, maxLat))
    ensures Split(CreateBbox(minLng, minLat, maxLng, maxLat, show), ',')
         == [show(minLng), show(minLat), show(maxLng), show(maxLat)]
  {
    SerializeRoundTrip(Box(minLng, minLat, maxLng, maxLat), show, parse);
    SerializeFields(Box(minLng, minLat, maxLng, maxLat), show);
  }

  /**
   * The per-value premise can hold: a printer and parser that know the four
   * numbers of the world box read each of them back.
   */
  lemma WorldReadsBack()
    ensures exists show: real -> string, parse: string -> Option<real> :: BoxReadsBack(show, parse, WORLD)
  {
    var show: real -> string := x => if x < 0.0 then "-" + (if x == -180.0 then "180" else "90")
                                    else if x == 180.0 then "180" else "90";
    var parse: string -> Option<real> := t =>
      if t == "-180" then Some(-180.0) else if t == "-90" then Some(-90.0)
      else if t == "180" then Some(180.0) else Some(90.0);
    assert show(-180.0) == "-180" && show(-90.0) == "-90" && show(180.0) == "180" && show(90.0) == "90";
    assert BoxReadsBack(show, parse, WORLD);
  }

  /** The two builders agree: a point box is the extrema box of its corners. */
  lemma PointBoxIsExtremaBox(lat: real, lng: real, buffer: real, show: real -> string)
    ensures CreateBboxFromPoint(lat, lng, buffer, show)
         == CreateBbox(lng - buffer, lat - buffer, lng + buffer, lat + buffer, show)
  {
  }
}
