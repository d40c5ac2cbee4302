/**
 * The detection side of the cell, over the contours the image library
 * extracts: the strict area band, bounding-box centroids, the three display
 * zones, the readiness test, the pixel-to-world offsets and cropping.
 * A contour is abstracted to its area and its bounding rectangle.
 */
module CameraFxns {
  import opened Selection

  datatype Point = Point(x: real, y: real)

  /** What the image library reports of one contour: its area and bounding rectangle. */
  datatype Contour = Contour(area: real, x: int, y: int, w: int, h: int)

  datatype Zone = NotYetReachable | PastReachable | Reachable

  /** The circle `find_items` draws for one item: its centre, its zone colour and its class colour. */
  datatype Marker = Marker(center: Point, zone: Zone, goodItem: bool)

  const AREA_LOW := 500.0
  const AREA_HIGH := 800.0
  const ZONE_X_LOW := 323.0
  const ZONE_X_HIGH := 780.0
  const ZONE_Y_LOW := 30.0
  const ZONE_Y_HIGH := 185.0
  const READY_X := 640.0

  /** Only contours strictly inside the area band are items. */
  predicate InAreaBand(c: Contour) {
    AREA_LOW < c.area && c.area < AREA_HIGH
  }

  /** The centre of a contour's bounding box. */
  function Centroid(c: Contour): (p: Point)
    ensures p.x - c.x as real == (c.x + c.w) as real - p.x
    ensures p.y - c.y as real == (c.y + c.h) as real - p.y
  {
    Point(c.x as real + 0.5 * (c.w as real), c.y as real + 0.5 * (c.h as real))
  }

  /** The display zone of an item; it only chooses a colour. */
  function ZoneOf(p: Point): (z: Zone)
    ensures z == NotYetReachable <==> p.x <= ZONE_X_LOW
    ensures z == PastReachable <==>
              ZONE_X_LOW < p.x && (ZONE_X_HIGH < p.x || p.y <= ZONE_Y_LOW || ZONE_Y_HIGH <= p.y)
    ensures z == Reachable <==>
              ZONE_X_LOW < p.x <= ZONE_X_HIGH && ZONE_Y_LOW < p.y < ZONE_Y_HIGH
  {
    if p.x <= ZONE_X_LOW then NotYetReachable
    else if p.x > ZONE_X_HIGH || p.y <= ZONE_Y_LOW || p.y >= ZONE_Y_HIGH then PastReachable
    else Reachable
  }

  lemma ZoningExamples()
    ensures ZoneOf(Point(323.0, 100.0)) == NotYetReachable
    ensures ZoneOf(Point(323.0, 500.0)) == NotYetReachable
    ensures ZoneOf(Point(324.0, 100.0)) == Reachable
    ensures ZoneOf(Point(324.0, 20.0)) == PastReachable
    ensures ZoneOf(Point(781.0, 100.0)) == PastReachable
  {
  }

  /** The coordinates `find_items` returns: the centroids of the contours in the band, in order. */
  function Detections(contours: seq<Contour>): (r: seq<Point>)
    ensures |r| <= |contours|
  {
    if |contours| == 0 then []
    else
      var last := contours[|contours| - 1];
      Detections(contours[..|contours| - 1]) + (if InAreaBand(last) then [Centroid(last)] else [])
  }

  /**
   * One coordinate per contour in the area band, in contour order: the j-th
   * coordinate is the centroid of the j-th contour that lies in the band.
   */
  lemma {:induction false} DetectionsAreBandCentroids(contours: seq<Contour>)
    ensures var idx := Kept(InAreaBand, contours);
      && |Detections(contours)| == |idx|
      && forall j :: 0 <= j < |idx| ==> Detections(contours)[j] == Centroid(contours[idx[j]])
  {
    if |contours| > 0 {
      var init := contours[..|contours| - 1];
      DetectionsAreBandCentroids(init);
      assert forall i :: 0 <= i < |init| ==> init[i] == contours[i];
    }
  }

  /** A single contour is an item iff its area is strictly between 500 and 800. */
  lemma AreaBand(c: Contour)
    ensures Detections([c]) == (if 500.0 < c.area < 800.0 then [Centroid(c)] else [])
  {
    assert [c][..0] == [];
  }

  lemma AreaBandExamples(x: int, y: int, w: int, h: int)
    ensures Detections([Contour(500.0, x, y, w, h)]) == []
    ensures |Detections([Contour(501.0, x, y, w, h)])| == 1
    ensures |Detections([Contour(799.0, x, y, w, h)])| == 1
    ensures Detections([Contour(800.0, x, y, w, h)]) == []
  {
    AreaBand(Contour(500.0, x, y, w, h));
    AreaBand(Contour(501.0, x, y, w, h));
    AreaBand(Contour(799.0, x, y, w, h));
    AreaBand(Contour(800.0, x, y, w, h));
  }

  /**
   * find_items: the item centres of one mask, and the circles drawn for them.
   * The coordinates depend on neither the class nor the zone.
   */
  method FindItems(contours: seq<Contour>, goodItem: bool) returns (coords: seq<Point>, marks: seq<Marker>)
    ensures coords == Detections(contours)
    ensures |marks| == |coords|
    ensures forall i :: 0 <= i < |marks| ==> marks[i] == Marker(coords[i], ZoneOf(coords[i]), goodItem)
  {
    coords, marks := [], [];
    for n := 0 to |contours|
      invariant coords == Detections(contours[..n])
      invariant |marks| == |coords|
      invariant forall i :: 0 <= i < |marks| ==> marks[i] == Marker(coords[i], ZoneOf(coords[i]), goodItem)
    {
      assert contours[..n + 1][..n] == contours[..n];
      var area := contours[n].area;
      if AREA_LOW < area && area < AREA_HIGH {
        var loc := Centroid(contours[n]);
        coords := coords + [loc];
        marks := marks + [Marker(loc, ZoneOf(loc), goodItem)];
      }
    }
    assert contours[..|contours|] == contours;
  }

  /** Some item of `coords` has reached the ready line x >= 640. */
  function AnyAtReadyLine(coords: seq<Point>): (r: bool)
    ensures r <==> exists i :: 0 <= i < |coords| && coords[i].x >= READY_X
  {
    if |coords| == 0 then false
    else coords[0].x >= READY_X || AnyAtReadyLine(coords[1..])
  }

  /** Either list holds an item at or past the ready line. */
  predicate Ready(imgCoords: seq<Point>, imgCoordsBad: seq<Point>) {
    AnyAtReadyLine(imgCoords) || AnyAtReadyLine(imgCoordsBad)
  }

  /** Readiness does not depend on the order of the items nor on which list holds them. */
  lemma ReadinessIgnoresOrderAndClass(g: seq<Point>, b: seq<Point>, g': seq<Point>, b': seq<Point>)
    requires multiset(g + b) == multiset(g' + b')
    ensures Ready(g, b) == Ready(g', b')
  {
    forall s: seq<Point>, t: seq<Point> | multiset(s) == multiset(t) && AnyAtReadyLine(s)
      ensures AnyAtReadyLine(t)
    {
      var i :| 0 <= i < |s| && s[i].x >= READY_X;
      assert s[i] in multiset(t);
      var k :| 0 <= k < |t| && t[k] == s[i];
    }
    forall s: seq<Point>, t: seq<Point> | AnyAtReadyLine(s + t)
      ensures AnyAtReadyLine(s) || AnyAtReadyLine(t)
    {
      var i :| 0 <= i < |s + t| && (s + t)[i].x >= READY_X;
      if i >= |s| {
        assert t[i - |s|] == (s + t)[i];
      }
    }
    forall s: seq<Point>, t: seq<Point> | AnyAtReadyLine(s) || AnyAtReadyLine(t)
      ensures AnyAtReadyLine(s + t)
    {
      if AnyAtReadyLine(s) {
        var i :| 0 <= i < |s| && s[i].x >= READY_X;
        assert (s + t)[i] == s[i];
      } else {
        var i :| 0 <= i < |t| && t[i].x >= READY_X;
        assert (s + t)[|s| + i] == t[i];
      }
    }
  }

  lemma NothingSeenIsNotReady()
    ensures !Ready([], [])
  {
  }

  /** wait_for_items: scan the good list, then the bad list, for an item at x >= 640. */
  method WaitForItems(imgCoords: seq<Point>, imgCoordsBad: seq<Point>) returns (ready: bool)
    ensures ready == Ready(imgCoords, imgCoordsBad)
  {
    for i := 0 to |imgCoords|
      invariant forall k :: 0 <= k < i ==> imgCoords[k].x < READY_X
    {
      if imgCoords[i].x >= READY_X {
        return true;
      }
    }
    for i := 0 to |imgCoordsBad|
      invariant forall k :: 0 <= k < i ==> imgCoordsBad[k].x < READY_X
    {
      if imgCoordsBad[i].x >= READY_X {
        return true;
      }
    }
    return false;
  }

  /**
   * Pixel to world: `project` is the homography projection (matrix product
   * and normalisation), then the class's fixed offset is added.
   */
  function ConvertPixToWorld(project: Point -> Point, p: Point, good: bool): (r: Point)
    ensures r.x == project(p).x - (if good then 15.0 else 17.0)
    ensures r.y == project(p).y + (if good then 8.0 else 7.0)
  {
    var w := project(p);
    if good then Point(w.x - 15.0, w.y + 8.0) else Point(w.x - 17.0, w.y + 7.0)
  }

  // Cropping, with the slicing rules of Python and numpy

  function Min(a: int, b: int): int {
    if a <= b then a else b
  }

  /** A slice bound, normalised: negative counts from the end, then clamped to [0, n]. */
  function SliceBound(n: nat, i: int): (r: nat)
    ensures r <= n
    ensures 0 <= i ==> r == Min(i, n)
  {
    if i < 0 then (if i + n < 0 then 0 else i + n)
    else if i > n then n
    else i
  }

  /** `s[start:stop]` */
  function Slice<T>(s: seq<T>, start: int, stop: int): (r: seq<T>)
    ensures |r| <= |s|
    ensures 0 <= start <= stop <= |s| ==> r == s[start..stop]
  {
    var lo := SliceBound(|s|, start);
    var hi := SliceBound(|s|, stop);
    if hi <= lo then [] else s[lo..hi]
  }

  /**
   * `img[y:y+h, x:x+w]`. For non-negative arguments: rows y..y+h-1 and
   * columns x..x+w-1, each range cut off at the edge of the image.
   */
  function CropImg<P>(img: seq<seq<P>>, x: int := 0, y: int := 374, w: int := 1190, h: int := 208)
    : (r: seq<seq<P>>)
    ensures 0 <= y && 0 <= h ==> |r| == (if |img| <= y then 0 else Min(y + h, |img|) - y)
    ensures 0 <= x && 0 <= y && 0 <= w && 0 <= h ==>
      forall i :: 0 <= i < |r| ==>
        r[i] == (if |img[y + i]| <= x then [] else img[y + i][x..Min(x + w, |img[y + i]|)])
  {
    var rows := Slice(img, y, y + h);
    seq(|rows|, i requires 0 <= i < |rows| => Slice(rows[i], x, x + w))
  }

  /** The default crop of a large enough frame: rows 374..581 and columns 0..1189, the belt. */
  lemma DefaultCrop<P>(img: seq<seq<P>>)
    requires |img| >= 582
    requires forall i :: 0 <= i < |img| ==> |img[i]| >= 1190
    ensures |CropImg(img)| == 208
    ensures forall i :: 0 <= i < 208 ==> CropImg(img)[i] == img[374 + i][..1190]
  {
  }
}
