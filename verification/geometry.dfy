/**
 * The geometry text codec of models.go: a point is written as well-known text
 * (`POINT(lng lat)`) and read back from the store's `x,y` form; a polygon's
 * vertices are written as `POLYGON((x1 y1,...,xn yn))`.
 *
 * Floating point is kept abstract. `%f` formatting is a parameter `fmt`, of
 * which only one thing is assumed (FmtClean): its output holds none of the
 * characters well-known text uses as delimiters. `strconv.ParseFloat` is a
 * parameter `parse` that, like the Go function, always returns a value and,
 * possibly, an error.
 */
module Geometry {
  import opened Wrappers
  import opened Strings

  /** A float64: finite values as reals (rounding is not modelled) and the three non-finite values. */
  datatype Num = Finite(r: real) | NaN | PosInf | NegInf

  predicate Delimiter(c: char)
  {
    c == ',' || c == ' ' || c == '(' || c == ')'
  }

  predicate Clean(s: string)
  {
    forall c :: c in s ==> !Delimiter(c)
  }

  /** What `%f` guarantees about its output, also for NaN and the infinities. */
  ghost predicate FmtClean(fmt: Num -> string)
  {
    forall x :: Clean(fmt(x))
  }

  /** `strconv.ParseFloat`'s failure kinds (`strconv.ErrSyntax`, `strconv.ErrRange`). */
  datatype ParseErr = ErrSyntax | ErrRange

  /** What `strconv.ParseFloat(s, 64)` returns: a value (0 on a syntax error, ±Inf on a range error) and maybe an error. */
  datatype Parsed = Parsed(value: Num, err: Option<ParseErr>)

  /** The kinds of value a database driver hands to `Scan` (`driver.Value`, plus nil). */
  datatype DbValue =
    | Nil
    | Int64(i: int)
    | Float64(x: Num)
    | Bool(b: bool)
    | Bytes(bytes: seq<bv8>)
    | Text(s: string)
    | Time(unixNanos: int)

  /** The errors `Scan` returns. */
  datatype ScanError =
    | InvalidPoint(value: DbValue)               // "invalid Point: %v"
    | InvalidPointFormat(text: string)           // "invalid Point format: %s"
    | BadNumber(num: string, reason: ParseErr)   // the *strconv.NumError itself

  /** The two coordinates of a point, as values. */
  datatype Coords = Coords(latitude: Num, longitude: Num)

  datatype ScanResult = ScanResult(after: Coords, err: Option<ScanError>)

  /**
   * What `Scan` does to a point's coordinates and what it returns. A nil value,
   * a value that is not a string, and a string that does not split into exactly
   * two fields leave the point alone; ScanTwoFields says what happens otherwise.
   */
  function ScanOutcome(before: Coords, value: DbValue, parse: string -> Parsed): (r: ScanResult)
    ensures value.Nil? ==> r == ScanResult(before, None)
    ensures !value.Nil? && !value.Text? ==> r == ScanResult(before, Some(InvalidPoint(value)))
    ensures value.Text? && Count(value.s, ',') != 1 ==>
              r == ScanResult(before, Some(InvalidPointFormat(value.s)))
    ensures r.err.None? ==> value.Nil? || (value.Text? && Count(value.s, ',') == 1)
  {
    match value
    case Nil => ScanResult(before, None)
    case Text(s) =>
      var parts := Split(s, ',');
      if |parts| != 2 then ScanResult(before, Some(InvalidPointFormat(s)))
      else
        var first := parse(parts[0]);
        var afterFirst := before.(longitude := first.value);
        if first.err.Some? then ScanResult(afterFirst, Some(BadNumber(parts[0], first.err.value)))
        else
          var second := parse(parts[1]);
          var afterSecond := afterFirst.(latitude := second.value);
          if second.err.Some? then ScanResult(afterSecond, Some(BadNumber(parts[1], second.err.value)))
          else ScanResult(afterSecond, None)
    case _ => ScanResult(before, Some(InvalidPoint(value)))
  }

  /**
   * Scanning `a,b`: the longitude is always overwritten by the parse of `a`, even
   * when that parse fails; the latitude is overwritten by the parse of `b` only
   * when `a` parsed, and then even when `b` fails. The error is the first failed
   * parse's, naming the field it failed on.
   */
  lemma ScanTwoFields(before: Coords, a: string, b: string, parse: string -> Parsed)
    requires ',' !in a && ',' !in b
    ensures var r, first, second := ScanOutcome(before, Text(a + "," + b), parse), parse(a), parse(b);
      && r.after.longitude == first.value
      && r.after.latitude == (if first.err.None? then second.value else before.latitude)
      && (r.err.None? <==> first.err.None? && second.err.None?)
      && (first.err.Some? ==> r.err == Some(BadNumber(a, first.err.value)))
      && (first.err.None? && second.err.Some? ==> r.err == Some(BadNumber(b, second.err.value)))
  {
    SplitAtFirst(a, b, ',');
    SplitNoSeparator(b, ',');
    assert a + "," + b == a + [','] + b;
  }

  /** A point whose coordinates `Scan` overwrites in place. */
  class Point {
    var latitude: Num
    var longitude: Num

    constructor (latitude: Num, longitude: Num)
      ensures this.latitude == latitude && this.longitude == longitude
    {
      this.latitude := latitude;
      this.longitude := longitude;
    }

    /**
     * The point as well-known text, longitude first: `POINT(` and `)` around two
     * fields separated by one space. With `%f` output that holds no delimiter the
     * text reads back as the longitude's text, then the latitude's, and holds no
     * comma. It never fails, so the Go error result is left out.
     */
    function Value(fmt: Num -> string): (text: string)
      reads this
      ensures |text| >= 8 && text[..6] == "POINT(" && text[|text| - 1] == ')'
      ensures FmtClean(fmt) ==> Split(text[6..|text| - 1], ' ') == [fmt(longitude), fmt(latitude)]
      ensures FmtClean(fmt) ==> ',' !in text
    {
      var x, y := fmt(longitude), fmt(latitude);
      var text := "POINT(" + x + " " + y + ")";
      assert text[6..|text| - 1] == x + " " + y;
      SpaceSeparatedPair(x, y);
      text
    }

    /** Decodes the store's `x,y` text into this point; see ScanOutcome. */
    method Scan(value: DbValue, parse: string -> Parsed) returns (err: Option<ScanError>)
      modifies this
      ensures ScanResult(Coords(latitude, longitude), err)
              == ScanOutcome(Coords(old(latitude), old(longitude)), value, parse)
    {
      if value.Nil? {
        return None;
      }
      if !value.Text? {
        return Some(InvalidPoint(value));
      }
      var strValue := value.s;
      var parts := Split(strValue, ',');
      if |parts| != 2 {
        return Some(InvalidPointFormat(strValue));
      }
      var first := parse(parts[0]);
      longitude := first.value;
      if first.err.Some? {
        return Some(BadNumber(parts[0], first.err.value));
      }
      var second := parse(parts[1]);
      latitude := second.value;
      if second.err.Some? {
        return Some(BadNumber(parts[1], second.err.value));
      }
      return None;
    }
  }

  /** Two clean fields joined by a space split back into those fields and hold no comma. */
  lemma SpaceSeparatedPair(x: string, y: string)
    ensures Clean(x) && Clean(y) ==> Split(x + " " + y, ' ') == [x, y] && ',' !in x + " " + y
  {
    if Clean(x) && Clean(y) {
      assert x + " " + y == Join([x, y], ' ');
      SplitJoin([x, y], ' ');
    }
  }

  /** What `Value` writes is never accepted by `Scan`: it holds no comma, so no round trip exists. */
  lemma ScanRejectsValue(p: Point, fmt: Num -> string, parse: string -> Parsed, before: Coords)
    requires FmtClean(fmt)
    ensures ScanOutcome(before, Text(p.Value(fmt)), parse)
            == ScanResult(before, Some(InvalidPointFormat(p.Value(fmt))))
  {
    CountZero(p.Value(fmt), ',');
  }

  /** A polygon's vertices: at least one, each with at least an x and a y. */
  predicate WellFormedVertices(vertices: seq<seq<Num>>)
  {
    |vertices| > 0 && forall i :: 0 <= i < |vertices| ==> |vertices[i]| >= 2
  }

  /** One vertex as `x y`; entries past the second are ignored. */
  function VertexText(vertex: seq<Num>, fmt: Num -> string): string
    requires |vertex| >= 2
  {
    fmt(vertex[0]) + " " + fmt(vertex[1])
  }

  function VertexTexts(vertices: seq<seq<Num>>, fmt: Num -> string): (texts: seq<string>)
    requires forall i :: 0 <= i < |vertices| ==> |vertices[i]| >= 2
    ensures |texts| == |vertices|
    ensures forall i :: 0 <= i < |vertices| ==> texts[i] == VertexText(vertices[i], fmt)
  {
    if |vertices| == 0 then [] else [VertexText(vertices[0], fmt)] + VertexTexts(vertices[1..], fmt)
  }

  /** The polygon as well-known text: the vertices in order, comma-separated, ring not closed. */
  function PolygonWkt(vertices: seq<seq<Num>>, fmt: Num -> string): string
    requires WellFormedVertices(vertices)
  {
    "POLYGON((" + Join(VertexTexts(vertices, fmt), ',') + "))"
  }

  /** Each piece followed by a separator: what the loop of `createPolygonWKT` accumulates. */
  function Terminated(parts: seq<string>, sep: char): string
  {
    if |parts| == 0 then "" else parts[0] + [sep] + Terminated(parts[1..], sep)
  }

  lemma {:induction false} TerminatedSnoc(parts: seq<string>, last: string, sep: char)
    ensures Terminated(parts + [last], sep) == Terminated(parts, sep) + last + [sep]
  {
    if |parts| == 0 {
      assert parts + [last] == [last];
    } else {
      assert (parts + [last])[1..] == parts[1..] + [last];
      TerminatedSnoc(parts[1..], last, sep);
    }
  }

  lemma {:induction false} TerminatedJoin(parts: seq<string>, sep: char)
    requires |parts| >= 1
    ensures Terminated(parts, sep) == Join(parts, sep) + [sep]
  {
    if |parts| > 1 {
      TerminatedJoin(parts[1..], sep);
    }
  }

  /**
   * `createPolygonWKT`: appends `x y,` per vertex, drops the trailing comma and
   * wraps the result. An empty list (the slice `[:len-1]` is out of range) and a
   * vertex with fewer than two entries (index out of range) make the Go code panic.
   */
  method CreatePolygonWkt(vertices: seq<seq<Num>>, fmt: Num -> string) returns (wkt: string)
    requires WellFormedVertices(vertices)
    ensures wkt == PolygonWkt(vertices, fmt)
  {
    var acc := "";
    for i := 0 to |vertices|
      invariant acc == Terminated(VertexTexts(vertices[..i], fmt), ',')
    {
      var vertex := vertices[i];
      assert vertices[..i + 1] == vertices[..i] + [vertex];
      assert VertexTexts(vertices[..i + 1], fmt) == VertexTexts(vertices[..i], fmt) + [VertexText(vertex, fmt)];
      TerminatedSnoc(VertexTexts(vertices[..i], fmt), VertexText(vertex, fmt), ',');
      acc := acc + fmt(vertex[0]) + " " + fmt(vertex[1]) + ",";
    }
    assert vertices[..|vertices|] == vertices;
    TerminatedJoin(VertexTexts(vertices, fmt), ',');
    wkt := "POLYGON((" + acc[..|acc| - 1] + "))";
  }

  /**
   * The polygon text reads back as its vertices: between `POLYGON((` and `))`
   * the comma-separated fields are the vertices in order, each splitting on its
   * one space into x then y, and the list does not end in a comma.
   */
  lemma PolygonWktDecodes(vertices: seq<seq<Num>>, fmt: Num -> string)
    requires WellFormedVertices(vertices) && FmtClean(fmt)
    ensures var wkt := PolygonWkt(vertices, fmt);
      && |wkt| >= 11 && wkt[..9] == "POLYGON((" && wkt[|wkt| - 2..] == "))"
      && var inner := wkt[9..|wkt| - 2];
      && Split(inner, ',') == VertexTexts(vertices, fmt)
      && inner[|inner| - 1] != ','
      && forall i :: 0 <= i < |vertices| ==>
           Split(VertexTexts(vertices, fmt)[i], ' ') == [fmt(vertices[i][0]), fmt(vertices[i][1])]
  {
    var texts := VertexTexts(vertices, fmt);
    forall i | 0 <= i < |vertices|
      ensures ',' !in texts[i]
      ensures Split(texts[i], ' ') == [fmt(vertices[i][0]), fmt(vertices[i][1])]
    {
      var x, y := fmt(vertices[i][0]), fmt(vertices[i][1]);
      assert Clean(x) && Clean(y);
      SpaceSeparatedPair(x, y);
    }
    SplitJoin(texts, ',');
    var wkt := PolygonWkt(vertices, fmt);
    var inner := Join(texts, ',');
    assert wkt[9..|wkt| - 2] == inner;
    assert Split(inner, ',') == texts;
    assert inner == Join(Split(inner, ','), ',');
    LastOfJoin(texts, ',');
  }

  /** The last character of a join is the last piece's (or the separator, when that piece is empty). */
  lemma {:induction false} LastOfJoin(parts: seq<string>, sep: char)
    requires |parts| >= 1 && |parts[|parts| - 1]| > 0
    ensures |Join(parts, sep)| > 0
    ensures Join(parts, sep)[|Join(parts, sep)| - 1] == parts[|parts| - 1][|parts[|parts| - 1]| - 1]
  {
    if |parts| > 1 {
      LastOfJoin(parts[1..], sep);
    }
  }

  /** The text holds exactly one comma fewer than there are vertices. */
  lemma PolygonWktCommas(vertices: seq<seq<Num>>, fmt: Num -> string)
    requires WellFormedVertices(vertices) && FmtClean(fmt)
    ensures Count(PolygonWkt(vertices, fmt), ',') == |vertices| - 1
  {
    var texts := VertexTexts(vertices, fmt);
    forall i | 0 <= i < |texts| ensures ',' !in texts[i] {
      assert Clean(fmt(vertices[i][0])) && Clean(fmt(vertices[i][1]));
    }
    JoinCount(texts, ',');
    var inner := Join(texts, ',');
    CountAppend("POLYGON((", inner, ',');
    CountAppend("POLYGON((" + inner, "))", ',');
  }

  /** A single vertex gives a degenerate but well-formed ring with no comma. */
  lemma PolygonWktSingleVertex(vertex: seq<Num>, fmt: Num -> string)
    requires |vertex| >= 2
    ensures PolygonWkt([vertex], fmt) == "POLYGON((" + fmt(vertex[0]) + " " + fmt(vertex[1]) + "))"
  {
  }
}
