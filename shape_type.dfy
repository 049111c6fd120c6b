/** The `ShapeType` enumeration: the closed set of annotation shape kinds, its
    string form (`str` of a member is its value) and construction from a value
    (`ShapeType("...")`, which raises `ValueError` for any other string). */
module ShapeTypes {
  import opened Wrappers

  datatype ShapeType = Rectangle | Ellipse | Polygon

  /** `str(member)`: the member's literal value. */
  function ToString(t: ShapeType): (s: string)
    ensures |s| > 0
    ensures t.Rectangle? ==> s == "RECTANGLE"
    ensures t.Ellipse? ==> s == "ELLIPSE"
    ensures t.Polygon? ==> s == "POLYGON"
  {
    match t
    case Rectangle => "RECTANGLE"
    case Ellipse => "ELLIPSE"
    case Polygon => "POLYGON"
  }

  /** `ShapeType(value)`: the member whose value is `s`, or `ValueError`. */
  function Parse(s: string): (r: Result<ShapeType>)
    ensures r.Err? ==> r.error == ValueError
  {
    if s == "RECTANGLE" then Ok(Rectangle)
    else if s == "ELLIPSE" then Ok(Ellipse)
    else if s == "POLYGON" then Ok(Polygon)
    else Err(ValueError)
  }

  /** Every shape type, as a set. */
  function AllShapeTypes(): set<ShapeType> { {Rectangle, Ellipse, Polygon} }

  /** There are exactly three shape types. */
  lemma ExactlyThreeShapeTypes(t: ShapeType)
    ensures t in AllShapeTypes()
    ensures |AllShapeTypes()| == 3
  {
    assert Rectangle != Ellipse && Ellipse != Polygon && Rectangle != Polygon;
  }

  /** Printing a member and parsing the text gives the member back. */
  lemma ParseToString(t: ShapeType)
    ensures Parse(ToString(t)) == Ok(t)
  {
  }

  /** Parsing succeeds only on the value of a member, and that member prints as the
      parsed text: `ToString` and `Parse` are inverse on the three literals. */
  lemma ToStringParse(s: string, t: ShapeType)
    requires Parse(s) == Ok(t)
    ensures ToString(t) == s
  {
  }

  /** Distinct members have distinct values. */
  lemma ToStringInjective(t: ShapeType, u: ShapeType)
    requires ToString(t) == ToString(u)
    ensures t == u
  {
    ParseToString(t);
    ParseToString(u);
  }

  /** Any text other than the three values is rejected, e.g. "CIRCLE" or "polygon". */
  lemma ParseRejectsOtherText(s: string)
    requires s != "RECTANGLE" && s != "ELLIPSE" && s != "POLYGON"
    ensures Parse(s) == Err(ValueError)
  {
  }

  lemma ParseExamples()
    ensures Parse("RECTANGLE") == Ok(Rectangle)
    ensures ToString(Polygon) == "POLYGON"
    ensures Parse("CIRCLE") == Err(ValueError)
  {
  }
}
