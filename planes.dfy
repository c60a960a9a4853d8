/**
 * `Plane` of AOC19-11.js (AOC19-13.js has the same class without `data`):
 * a sparse grid of point objects, created on first request, indexed by row
 * then column, listed in order of creation, with the bounding box of every
 * coordinate requested so far (which always includes the origin).
 */
module Planes {
  import opened Wrappers

  /**
   * A point object `{ x: x, y: y }`. The programs attach one mutable
   * property to it: `color` (the hull robot) or `value` (the arcade screen);
   * None is undefined.
   */
  class Point {
    const x: int
    const y: int
    var color: Option<int>
    var value: Option<int>

    constructor (x: int, y: int)
      ensures this.x == x && this.y == y && color == None && value == None
    {
      this.x := x;
      this.y := y;
      color := None;
      value := None;
    }
  }

  /** `Math.min` on integers. */
  function Min(a: int, b: int): int {
    if a < b then a else b
  }

  /** `Math.max` on integers. */
  function Max(a: int, b: int): int {
    if a > b then a else b
  }

  /** The coordinates (x, y) that hold a point in a row-then-column index. */
  function Keys(points: map<int, map<int, Point>>): set<(int, int)> {
    set y, x | y in points && x in points[y] :: (x, y)
  }

  /** `points.get(y)?.get(x)`. */
  function Find(points: map<int, map<int, Point>>, x: int, y: int): Option<Point> {
    if y in points && x in points[y] then Some(points[y][x]) else None
  }

  /** The index with `entry` stored at (x, y), its row created if missing. */
  function Insert(points: map<int, map<int, Point>>, x: int, y: int, entry: Point): map<int, map<int, Point>> {
    var row: map<int, Point> := if y in points then points[y] else map[];
    points[y := row[x := entry]]
  }

  /** After storing at (x, y), that coordinate finds the entry and every other one finds what it found before. */
  lemma InsertFind(points: map<int, map<int, Point>>, x: int, y: int, entry: Point, a: int, b: int)
    ensures Find(Insert(points, x, y, entry), a, b) == if (a, b) == (x, y) then Some(entry) else Find(points, a, b)
  {
  }

  /** A coordinate is a key exactly when it finds a point. */
  lemma KeysFind(points: map<int, map<int, Point>>, x: int, y: int)
    ensures (x, y) in Keys(points) <==> Find(points, x, y).Some?
  {
    if Find(points, x, y).Some? {
      assert y in points && x in points[y];
    }
  }

  /** Storing at a new coordinate adds exactly that coordinate to the keys. */
  lemma InsertKeys(points: map<int, map<int, Point>>, x: int, y: int, entry: Point)
    ensures Keys(Insert(points, x, y, entry)) == Keys(points) + {(x, y)}
  {
    var after := Insert(points, x, y, entry);
    forall c | c in Keys(after)
      ensures c in Keys(points) + {(x, y)}
    {
      KeysFind(after, c.0, c.1);
      InsertFind(points, x, y, entry, c.0, c.1);
      KeysFind(points, c.0, c.1);
    }
    forall c | c in Keys(points) + {(x, y)}
      ensures c in Keys(after)
    {
      KeysFind(after, c.0, c.1);
      InsertFind(points, x, y, entry, c.0, c.1);
      KeysFind(points, c.0, c.1);
    }
  }

  /** Every point of the index is one of `repr`. */
  ghost predicate Held(points: map<int, map<int, Point>>, repr: set<Point>) {
    forall a, b :: Find(points, a, b).Some? ==> Find(points, a, b).value in repr
  }

  /** The `color` property of every point of the index that is one of `repr`, by coordinate. */
  function Colors(points: map<int, map<int, Point>>, repr: set<Point>): map<(int, int), Option<int>>
    reads repr
  {
    map c: (int, int) | c in Keys(points) && c.1 in points && c.0 in points[c.1] && points[c.1][c.0] in repr
      :: points[c.1][c.0].color
  }

  /** The `value` property of every point of the index that is one of `repr`, by coordinate. */
  function Values(points: map<int, map<int, Point>>, repr: set<Point>): map<(int, int), Option<int>>
    reads repr
  {
    map c: (int, int) | c in Keys(points) && c.1 in points && c.0 in points[c.1] && points[c.1][c.0] in repr
      :: points[c.1][c.0].value
  }

  /**
   * When `repr` holds every point of the index, the colour and value maps
   * have a coordinate exactly when it finds a point, and give that point's properties.
   */
  lemma PropertiesFind(points: map<int, map<int, Point>>, repr: set<Point>, x: int, y: int)
    requires Held(points, repr)
    ensures (x, y) in Colors(points, repr) <==> Find(points, x, y).Some?
    ensures (x, y) in Values(points, repr) <==> Find(points, x, y).Some?
    ensures Find(points, x, y).Some? ==>
              Colors(points, repr)[(x, y)] == Find(points, x, y).value.color &&
              Values(points, repr)[(x, y)] == Find(points, x, y).value.value
  {
    if (x, y) in Colors(points, repr) {
      var b, a :| b in points && a in points[b] && (a, b) == (x, y);
    }
    if (x, y) in Values(points, repr) {
      var b, a :| b in points && a in points[b] && (a, b) == (x, y);
    }
    if Find(points, x, y).Some? {
      KeysFind(points, x, y);
    }
  }

  /** Storing a point that is not yet held at a new coordinate keeps every point held once it is added. */
  lemma InsertHeld(points: map<int, map<int, Point>>, repr: set<Point>, x: int, y: int, entry: Point)
    requires Held(points, repr)
    ensures Held(Insert(points, x, y, entry), repr + {entry})
  {
    forall a, b | Find(Insert(points, x, y, entry), a, b).Some?
      ensures Find(Insert(points, x, y, entry), a, b).value in repr + {entry}
    {
      InsertFind(points, x, y, entry, a, b);
    }
  }

  /**
   * Storing a point that is not yet held at a new coordinate, and holding it,
   * adds its colour there and changes no other coordinate's.
   */
  lemma InsertColors(points: map<int, map<int, Point>>, repr: set<Point>, x: int, y: int, entry: Point)
    requires Held(points, repr) && entry !in repr && Find(points, x, y).None?
    ensures Colors(Insert(points, x, y, entry), repr + {entry}) == Colors(points, repr)[(x, y) := entry.color]
  {
    var after := Insert(points, x, y, entry);
    var expected := Colors(points, repr)[(x, y) := entry.color];
    InsertHeld(points, repr, x, y, entry);
    forall c
      ensures c in Colors(after, repr + {entry}) <==> c in expected
      ensures c in expected ==> Colors(after, repr + {entry})[c] == expected[c]
    {
      InsertFind(points, x, y, entry, c.0, c.1);
      PropertiesFind(after, repr + {entry}, c.0, c.1);
      PropertiesFind(points, repr, c.0, c.1);
    }
  }

  /**
   * Storing a point that is not yet held at a new coordinate, and holding it,
   * adds its value there and changes no other coordinate's.
   */
  lemma InsertValues(points: map<int, map<int, Point>>, repr: set<Point>, x: int, y: int, entry: Point)
    requires Held(points, repr) && entry !in repr && Find(points, x, y).None?
    ensures Values(Insert(points, x, y, entry), repr + {entry}) == Values(points, repr)[(x, y) := entry.value]
  {
    var after := Insert(points, x, y, entry);
    var expected := Values(points, repr)[(x, y) := entry.value];
    InsertHeld(points, repr, x, y, entry);
    forall c
      ensures c in Values(after, repr + {entry}) <==> c in expected
      ensures c in expected ==> Values(after, repr + {entry})[c] == expected[c]
    {
      InsertFind(points, x, y, entry, c.0, c.1);
      PropertiesFind(after, repr + {entry}, c.0, c.1);
      PropertiesFind(points, repr, c.0, c.1);
    }
  }

  /** Storing twice under one key keeps the second value. */
  lemma UpdateTwice<K, V>(m: map<K, V>, k: K, first: V, second: V)
    ensures m[k := first][k := second] == m[k := second]
  {
  }

  /** Every point in the index sits at its own coordinate. */
  ghost predicate Indexed(points: map<int, map<int, Point>>) {
    forall a, b :: Find(points, a, b).Some? ==> Find(points, a, b).value.x == a && Find(points, a, b).value.y == b
  }

  /** `data` lists each point of the index exactly once. */
  ghost predicate Listed(points: map<int, map<int, Point>>, data: seq<Point>) {
    (forall a, b :: Find(points, a, b).Some? ==> Find(points, a, b).value in data) &&
    (forall i :: 0 <= i < |data| ==> Find(points, data[i].x, data[i].y) == Some(data[i])) &&
    |data| == |Keys(points)|
  }

  /** Every coordinate of the index lies in the box [xMin, xMax] × [yMin, yMax]. */
  ghost predicate Bounded(points: map<int, map<int, Point>>, xMin: int, xMax: int, yMin: int, yMax: int) {
    forall a, b :: Find(points, a, b).Some? ==> xMin <= a <= xMax && yMin <= b <= yMax
  }

  /**
   * Storing a new point at a coordinate the index lacks, appending it to the
   * list and widening the box to the coordinate keeps all three properties.
   */
  lemma InsertKeepsIndex(points: map<int, map<int, Point>>, data: seq<Point>, x: int, y: int, entry: Point,
                         xMin: int, xMax: int, yMin: int, yMax: int)
    requires Indexed(points) && Listed(points, data) && Bounded(points, xMin, xMax, yMin, yMax)
    requires Find(points, x, y).None? && entry.x == x && entry.y == y
    ensures Indexed(Insert(points, x, y, entry)) && Listed(Insert(points, x, y, entry), data + [entry])
    ensures Bounded(Insert(points, x, y, entry),
                    Min(x, xMin), Max(x, xMax), Min(y, yMin), Max(y, yMax))
  {
    var after := Insert(points, x, y, entry);
    forall a, b
      ensures Find(after, a, b) == if (a, b) == (x, y) then Some(entry) else Find(points, a, b)
    {
      InsertFind(points, x, y, entry, a, b);
    }
    InsertListed(points, data, x, y, entry);
  }

  /** Storing a new point at a coordinate the index lacks and appending it to the list keeps the list exact. */
  lemma InsertListed(points: map<int, map<int, Point>>, data: seq<Point>, x: int, y: int, entry: Point)
    requires Listed(points, data)
    requires Find(points, x, y).None? && entry.x == x && entry.y == y
    ensures Listed(Insert(points, x, y, entry), data + [entry])
  {
    var after := Insert(points, x, y, entry);
    var longer := data + [entry];
    forall a, b | Find(after, a, b).Some?
      ensures Find(after, a, b).value in longer
    {
      InsertFind(points, x, y, entry, a, b);
    }
    forall i | 0 <= i < |longer|
      ensures Find(after, longer[i].x, longer[i].y) == Some(longer[i])
    {
      InsertFind(points, x, y, entry, longer[i].x, longer[i].y);
      if i < |data| {
        assert longer[i] == data[i];
      }
    }
    KeysFind(points, x, y);
    InsertKeys(points, x, y, entry);
  }

  /** `point.color = c` on a held point of an index: that coordinate's colour changes and nothing else does. */
  method SetColor(points: map<int, map<int, Point>>, ghost repr: set<Point>, point: Point, c: Option<int>)
    requires Indexed(points) && Held(points, repr) && Find(points, point.x, point.y) == Some(point)
    modifies point
    ensures Colors(points, repr) == old(Colors(points, repr))[(point.x, point.y) := c]
    ensures Values(points, repr) == old(Values(points, repr))
  {
    ghost var before := Colors(points, repr);
    point.color := c;
    var expected := before[(point.x, point.y) := c];
    forall k
      ensures k in Colors(points, repr) <==> k in expected
      ensures k in expected ==> Colors(points, repr)[k] == expected[k]
    {
      PropertiesFind(points, repr, k.0, k.1);
      if k in expected && k != (point.x, point.y) {
        assert points[k.1][k.0].x == k.0 && points[k.1][k.0].y == k.1;
      }
    }
  }

  /** `point.value = v` on a held point of an index: that coordinate's value changes and nothing else does. */
  method SetValue(points: map<int, map<int, Point>>, ghost repr: set<Point>, point: Point, v: Option<int>)
    requires Indexed(points) && Held(points, repr) && Find(points, point.x, point.y) == Some(point)
    modifies point
    ensures Values(points, repr) == old(Values(points, repr))[(point.x, point.y) := v]
    ensures Colors(points, repr) == old(Colors(points, repr))
  {
    ghost var before := Values(points, repr);
    point.value := v;
    var expected := before[(point.x, point.y) := v];
    forall k
      ensures k in Values(points, repr) <==> k in expected
      ensures k in expected ==> Values(points, repr)[k] == expected[k]
    {
      PropertiesFind(points, repr, k.0, k.1);
      if k in expected && k != (point.x, point.y) {
        assert points[k.1][k.0].x == k.0 && points[k.1][k.0].y == k.1;
      }
    }
  }

  class Plane {
    var data: seq<Point>
    var points: map<int, map<int, Point>>
    const domain: array<int>
    const range: array<int>
    /** The point objects this plane has created. */
    ghost var Repr: set<Point>

    /** The coordinates (x, y) that have a point. */
    function Coordinates(): set<(int, int)>
      reads this
    {
      Keys(points)
    }

    /** `points.get(y)?.get(x)`. */
    function Lookup(x: int, y: int): Option<Point>
      reads this
    {
      Find(points, x, y)
    }

    ghost predicate Valid()
      reads this, domain, range
    {
      domain.Length == 2 && range.Length == 2 && domain != range &&
      Indexed(points) && Listed(points, data) && Held(points, Repr) &&
      Bounded(points, domain[0], domain[1], range[0], range[1]) &&
      // the bounds include the origin
      domain[0] <= 0 <= domain[1] && range[0] <= 0 <= range[1]
    }

    /** `new Plane()`: no points, bounds [0, 0] on both axes. */
    constructor ()
      ensures Valid() && fresh(domain) && fresh(range)
      ensures data == [] && points == map[] && Coordinates() == {} && Repr == {}
      ensures GetDomain() == (0, 0) && GetRange() == (0, 0)
    {
      data := [];
      points := map[];
      Repr := {};
      domain := new int[2](_ => 0);
      range := new int[2](_ => 0);
    }

    /** `getDomain()`: the smallest and largest x requested. */
    function GetDomain(): (int, int)
      reads this, domain
      requires domain.Length == 2
    {
      (domain[0], domain[1])
    }

    /** `getRange()`: the smallest and largest y requested. */
    function GetRange(): (int, int)
      reads this, range
      requires range.Length == 2
    {
      (range[0], range[1])
    }

    /** `_createPoint(x, y)`: widens the bounds to include (x, y) and makes a new point there. */
    method CreatePoint(x: int, y: int) returns (entry: Point)
      requires domain.Length == 2 && range.Length == 2 && domain != range
      modifies domain, range
      ensures fresh(entry) && entry.x == x && entry.y == y && entry.color == None && entry.value == None
      ensures GetDomain() == (Min(old(domain[0]), x), Max(old(domain[1]), x))
      ensures GetRange() == (Min(old(range[0]), y), Max(old(range[1]), y))
    {
      domain[0] := Min(x, domain[0]);
      domain[1] := Max(x, domain[1]);
      range[0] := Min(y, range[0]);
      range[1] := Max(y, range[1]);
      entry := new Point(x, y);
    }

    /** The part of `getPoint(x, y)` for a coordinate without a point. */
    method AddPoint(x: int, y: int) returns (entry: Point)
      requires Valid() && Lookup(x, y).None?
      modifies this, domain, range
      ensures Valid()
      ensures fresh(entry) && entry.x == x && entry.y == y && entry.color == None && entry.value == None
      ensures points == Insert(old(points), x, y, entry) && data == old(data) + [entry]
      ensures Repr == old(Repr) + {entry}
      ensures Coordinates() == old(Coordinates()) + {(x, y)}
      ensures GetDomain() == (Min(old(domain[0]), x), Max(old(domain[1]), x))
      ensures GetRange() == (Min(old(range[0]), y), Max(old(range[1]), y))
      ensures Colors(points, Repr) == old(Colors(points, Repr))[(x, y) := None]
      ensures Values(points, Repr) == old(Values(points, Repr))[(x, y) := None]
    {
      var row: map<int, Point> := if y in points then points[y] else map[];
      ghost var xMin, xMax, yMin, yMax := domain[0], domain[1], range[0], range[1];
      ghost var start, listed := points, data;
      entry := CreatePoint(x, y);
      points := points[y := row[x := entry]];
      data := data + [entry];
      Repr := Repr + {entry};
      assert unchanged(old(Repr));
      InsertKeepsIndex(start, listed, x, y, entry, xMin, xMax, yMin, yMax);
      InsertHeld(start, old(Repr), x, y, entry);
      InsertKeys(start, x, y, entry);
      InsertColors(start, old(Repr), x, y, entry);
      InsertValues(start, old(Repr), x, y, entry);
    }

    /**
     * `getPoint(x, y)`: the point already at (x, y), with nothing changed, or
     * else a new point there, appended to `data`, with the bounds widened.
     */
    method GetPoint(x: int, y: int) returns (entry: Point)
      requires Valid()
      modifies this, domain, range
      ensures Valid()
      ensures Lookup(x, y) == Some(entry) && entry.x == x && entry.y == y
      ensures GetDomain() == (Min(old(domain[0]), x), Max(old(domain[1]), x))
      ensures GetRange() == (Min(old(range[0]), y), Max(old(range[1]), y))
      ensures old(Lookup(x, y)).Some? ==>
                entry == old(Lookup(x, y)).value && points == old(points) && data == old(data)
      ensures old(Lookup(x, y)).None? ==>
                fresh(entry) && entry.color == None && entry.value == None &&
                points == Insert(old(points), x, y, entry) && data == old(data) + [entry]
      ensures Repr == old(Repr) + {entry}
      ensures entry in old(Repr) || fresh(entry)
      ensures Colors(points, Repr) ==
                if old(Lookup(x, y)).Some? then old(Colors(points, Repr)) else old(Colors(points, Repr))[(x, y) := None]
      ensures Values(points, Repr) ==
                if old(Lookup(x, y)).Some? then old(Values(points, Repr)) else old(Values(points, Repr))[(x, y) := None]
    {
      var row: map<int, Point> := if y in points then points[y] else map[];
      if x in row {
        entry := row[x];
        assert Find(points, x, y) == Some(entry);
      } else {
        ghost var start := points;
        entry := AddPoint(x, y);
        InsertFind(start, x, y, entry, x, y);
      }
    }
  }
}
