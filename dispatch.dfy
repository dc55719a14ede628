/**
 * `convertArray`: the batch conversion that picks one of the six conversions by the
 * key "from_to" and maps it over a sequence of points.
 */
module Dispatch {
  import opened Wrappers
  import opened Geo
  import Converter

  /** The three coordinate systems. */
  datatype CoordType = Gps84 | Gcj02 | Bd09

  /** The tag a caller passes for each system. */
  function Name(t: CoordType): string {
    match t
    case Gps84 => "gps84"
    case Gcj02 => "gcj02"
    case Bd09 => "bd09"
  }

  /** Reads a tag back; any other string names no system. */
  function ParseType(s: string): (r: Option<CoordType>)
    ensures r.Some? ==> Name(r.value) == s
    ensures forall t :: Name(t) == s ==> r == Some(t)
  {
    if s == "gps84" then Some(Gps84)
    else if s == "gcj02" then Some(Gcj02)
    else if s == "bd09" then Some(Bd09)
    else None
  }

  /** The six conversion methods that `methodMap` binds, by name. */
  datatype Method = Gps84ToGcj02 | Gps84ToBd09 | Gcj02ToGps84 | Gcj02ToBd09 | Bd09ToGps84 | Bd09ToGcj02 {

    /** The system a method converts from, as its name says. */
    function From(): CoordType {
      match this
      case Gps84ToGcj02 | Gps84ToBd09 => Gps84
      case Gcj02ToGps84 | Gcj02ToBd09 => Gcj02
      case Bd09ToGps84 | Bd09ToGcj02 => Bd09
    }

    /** The system a method converts to, as its name says. */
    function To(): CoordType {
      match this
      case Gcj02ToGps84 | Bd09ToGps84 => Gps84
      case Gps84ToGcj02 | Bd09ToGcj02 => Gcj02
      case Gps84ToBd09 | Gcj02ToBd09 => Bd09
    }
  }

  /** Calls the bound method on one point's `lng` and `lat`. */
  function Apply(m: JsMath, c: Method, p: Point): Point {
    match c
    case Gps84ToGcj02 => Converter.Gps84ToGcj02(m, p.lng, p.lat)
    case Gps84ToBd09 => Converter.Gps84ToBd09(m, p.lng, p.lat)
    case Gcj02ToGps84 => Converter.Gcj02ToGps84(m, p.lng, p.lat)
    case Gcj02ToBd09 => Converter.Gcj02ToBd09(m, p.lng, p.lat)
    case Bd09ToGps84 => Converter.Bd09ToGps84(m, p.lng, p.lat)
    case Bd09ToGcj02 => Converter.Bd09ToGcj02(m, p.lng, p.lat)
  }

  /** The own properties of the object literal `methodMap`. */
  function MethodMap(): map<string, Method> {
    map[
      "gps84_gcj02" := Gps84ToGcj02,
      "gps84_bd09" := Gps84ToBd09,
      "gcj02_gps84" := Gcj02ToGps84,
      "gcj02_bd09" := Gcj02ToBd09,
      "bd09_gps84" := Bd09ToGps84,
      "bd09_gcj02" := Bd09ToGcj02
    ]
  }

  /** `methodKey`: the two tags joined by an underscore. */
  function MethodKey(from: string, to: string): (key: string)
    ensures |key| == |from| + 1 + |to|
    ensures key[|from|] == '_'
    ensures key[..|from|] == from && key[|from| + 1..] == to
  {
    from + "_" + to
  }

  /** Joining two underscore-free strings with an underscore can be undone. */
  lemma KeySplitsUniquely(from: string, to: string, a: string, b: string)
    requires '_' !in a && '_' !in b
    requires MethodKey(from, to) == MethodKey(a, b)
    ensures from == a && to == b
  {
  }

  /** No tag contains the separator. */
  lemma NamesHaveNoSeparator(t: CoordType)
    ensures '_' !in Name(t)
  {
  }

  /** The key of each ordered pair of distinct systems is the literal key `methodMap` uses. */
  lemma KeyOfPair(f: CoordType, t: CoordType)
    requires f != t
    ensures MethodKey(Name(f), Name(t)) in MethodMap()
    ensures MethodMap()[MethodKey(Name(f), Name(t))].From() == f
    ensures MethodMap()[MethodKey(Name(f), Name(t))].To() == t
  {
    match (f, t)
    case (Gps84, Gcj02) => assert MethodKey("gps84", "gcj02") == "gps84_gcj02";
    case (Gps84, Bd09) => assert MethodKey("gps84", "bd09") == "gps84_bd09";
    case (Gcj02, Gps84) => assert MethodKey("gcj02", "gps84") == "gcj02_gps84";
    case (Gcj02, Bd09) => assert MethodKey("gcj02", "bd09") == "gcj02_bd09";
    case (Bd09, Gps84) => assert MethodKey("bd09", "gps84") == "bd09_gps84";
    case (Bd09, Gcj02) => assert MethodKey("bd09", "gcj02") == "bd09_gcj02";
  }

  /**
   * The table holds exactly one entry per ordered pair of distinct systems, under the
   * key that joins their tags, bound to the method with that pair in its name.
   */
  lemma MethodMapEntries()
    ensures forall f, t :: f != t ==>
      && MethodKey(Name(f), Name(t)) in MethodMap()
      && MethodMap()[MethodKey(Name(f), Name(t))].From() == f
      && MethodMap()[MethodKey(Name(f), Name(t))].To() == t
    ensures forall key :: key in MethodMap() ==>
      exists f, t :: f != t && key == MethodKey(Name(f), Name(t))
  {
    forall f, t | f != t
      ensures MethodKey(Name(f), Name(t)) in MethodMap()
      ensures MethodMap()[MethodKey(Name(f), Name(t))].From() == f
      ensures MethodMap()[MethodKey(Name(f), Name(t))].To() == t
    {
      KeyOfPair(f, t);
    }
    forall key | key in MethodMap()
      ensures exists f, t :: f != t && key == MethodKey(Name(f), Name(t))
    {
      var c := MethodMap()[key];
      KeyOfPair(c.From(), c.To());
    }
  }

  /** A key is in the table exactly when it joins two distinct tags. */
  lemma {:induction false} KeyInMethodMapIff(from: string, to: string)
    ensures MethodKey(from, to) in MethodMap()
            <==> from != to && ParseType(from).Some? && ParseType(to).Some?
    ensures MethodKey(from, to) in MethodMap() ==>
            && Name(MethodMap()[MethodKey(from, to)].From()) == from
            && Name(MethodMap()[MethodKey(from, to)].To()) == to
  {
    MethodMapEntries();
    var key := MethodKey(from, to);
    if key in MethodMap() {
      var f, t :| f != t && key == MethodKey(Name(f), Name(t));
      NamesHaveNoSeparator(f);
      NamesHaveNoSeparator(t);
      KeySplitsUniquely(from, to, Name(f), Name(t));
    }
  }

  /** `methodMap[methodKey]`, own properties only. */
  function Lookup(from: string, to: string): (r: Option<Method>)
    ensures r.Some? <==> from != to && ParseType(from).Some? && ParseType(to).Some?
    ensures r.Some? ==> Name(r.value.From()) == from && Name(r.value.To()) == to
  {
    KeyInMethodMapIff(from, to);
    var key := MethodKey(from, to);
    if key in MethodMap() then Some(MethodMap()[key]) else None
  }

  /** What `convertArray` can throw. */
  datatype Error =
    | UnsupportedConversion(from: string, to: string)
    | NotAFunction(key: string)
  {
    /** The message of the `Error` that `convertArray` itself throws. */
    function Message(): string
      requires UnsupportedConversion?
    {
      UnsupportedMessage(from, to)
    }
  }

  const UnsupportedPrefix: string := "不支持的转换类型: "

  /** The message of the unsupported-conversion error; it names both tags. */
  function UnsupportedMessage(from: string, to: string): (msg: string)
    ensures |msg| == |UnsupportedPrefix| + |from| + 4 + |to|
    ensures msg[..|UnsupportedPrefix|] == UnsupportedPrefix
    ensures msg[|UnsupportedPrefix|..|UnsupportedPrefix| + |from|] == from
    ensures msg[|UnsupportedPrefix| + |from|..|UnsupportedPrefix| + |from| + 4] == " -> "
    ensures msg[|msg| - |to|..] == to
  {
    UnsupportedPrefix + from + " -> " + to
  }

  /** `coords.map((coord) => convertMethod(coord.lng, coord.lat))`. */
  function MapPoints(m: JsMath, c: Method, coords: seq<Point>): (r: seq<Point>)
    ensures |r| == |coords|
    ensures forall i :: 0 <= i < |coords| ==> r[i] == Apply(m, c, coords[i])
  {
    seq(|coords|, i requires 0 <= i < |coords| => Apply(m, c, coords[i]))
  }

  /**
   * An independent statement of what a batch conversion between two known systems
   * does to one point: a match on the pair, the identity on the diagonal.
   */
  function Convert(m: JsMath, from: CoordType, to: CoordType, p: Point): Point {
    match (from, to)
    case (Gps84, Gcj02) => Converter.Gps84ToGcj02(m, p.lng, p.lat)
    case (Gps84, Bd09) => Converter.Gps84ToBd09(m, p.lng, p.lat)
    case (Gcj02, Gps84) => Converter.Gcj02ToGps84(m, p.lng, p.lat)
    case (Gcj02, Bd09) => Converter.Gcj02ToBd09(m, p.lng, p.lat)
    case (Bd09, Gps84) => Converter.Bd09ToGps84(m, p.lng, p.lat)
    case (Bd09, Gcj02) => Converter.Bd09ToGcj02(m, p.lng, p.lat)
    case _ => p
  }

  /** Each method converts between the two systems its name says. */
  lemma ApplyIsConvert(m: JsMath, c: Method)
    ensures c.From() != c.To()
    ensures forall p :: Apply(m, c, p) == Convert(m, c.From(), c.To(), p)
  {
  }

  /**
   * `convertArray`, with the lookup restricted to the six own entries of the table.
   * The lookup and its check come before any point is converted, so a failing call
   * returns no points at all.
   */
  function ConvertArray(m: JsMath, coords: seq<Point>, from: string, to: string)
    : (r: Result<seq<Point>, Error>)
    ensures from == to ==> r == Success(coords)
    ensures r.Failure? <==> from != to && (ParseType(from).None? || ParseType(to).None?)
    ensures r.Failure? ==> r.error == UnsupportedConversion(from, to)
    ensures from != to && r.Success? ==>
      && ParseType(from).Some? && ParseType(to).Some?
      && |r.value| == |coords|
      && forall i :: 0 <= i < |coords| ==>
           r.value[i] == Convert(m, ParseType(from).value, ParseType(to).value, coords[i])
  {
    if from == to then Success(coords)
    else match Lookup(from, to)
      case None => Failure(UnsupportedConversion(from, to))
      case Some(convertMethod) =>
        ApplyIsConvert(m, convertMethod);
        Success(MapPoints(m, convertMethod, coords))
  }

  /**
   * A failing `convertArray` throws the error whose message names both tags, the
   * source tag first.
   */
  lemma ConvertArrayFailureMessage(m: JsMath, coords: seq<Point>, from: string, to: string)
    requires ConvertArray(m, coords, from, to).Failure?
    ensures ConvertArray(m, coords, from, to).error.UnsupportedConversion?
    ensures ConvertArray(m, coords, from, to).error.Message() == UnsupportedMessage(from, to)
    ensures ConvertArray(m, coords, from, to).error.Message()
            == UnsupportedPrefix + from + " -> " + to
  {
  }

  /**
   * For any two of the three systems, including the same one twice, `convertArray`
   * succeeds and converts every point, in order, as the reference says.
   */
  lemma {:induction false} ConvertArrayMatchesReference(m: JsMath, coords: seq<Point>, f: CoordType, t: CoordType)
    ensures ConvertArray(m, coords, Name(f), Name(t))
            == Success(seq(|coords|, i requires 0 <= i < |coords| => Convert(m, f, t, coords[i])))
  {
    var expected := seq(|coords|, i requires 0 <= i < |coords| => Convert(m, f, t, coords[i]));
    var r := ConvertArray(m, coords, Name(f), Name(t));
    if f == t {
      assert expected == coords;
    } else {
      assert ParseType(Name(f)) == Some(f) && ParseType(Name(t)) == Some(t);
      assert r.value == expected;
    }
  }

  /** Converting a batch GPS84 -> BD09 equals converting it GPS84 -> GCJ02 and then GCJ02 -> BD09. */
  lemma {:induction false} BatchGps84ToBd09Composes(m: JsMath, coords: seq<Point>)
    ensures ConvertArray(m, coords, "gps84", "gcj02").Success?
    ensures ConvertArray(m, coords, "gps84", "bd09")
            == ConvertArray(m, ConvertArray(m, coords, "gps84", "gcj02").value, "gcj02", "bd09")
  {
    ConvertArrayMatchesReference(m, coords, Gps84, Gcj02);
    ConvertArrayMatchesReference(m, coords, Gps84, Bd09);
    var mid := ConvertArray(m, coords, "gps84", "gcj02").value;
    ConvertArrayMatchesReference(m, mid, Gcj02, Bd09);
    var direct := ConvertArray(m, coords, "gps84", "bd09").value;
    var twoStep := ConvertArray(m, mid, "gcj02", "bd09").value;
    forall i | 0 <= i < |coords| ensures direct[i] == twoStep[i] {
      Converter.Gps84ToBd09Composes(m, coords[i].lng, coords[i].lat);
    }
    assert direct == twoStep;
  }

  /** Converting a batch BD09 -> GPS84 equals converting it BD09 -> GCJ02 and then GCJ02 -> GPS84. */
  lemma {:induction false} BatchBd09ToGps84Composes(m: JsMath, coords: seq<Point>)
    ensures ConvertArray(m, coords, "bd09", "gcj02").Success?
    ensures ConvertArray(m, coords, "bd09", "gps84")
            == ConvertArray(m, ConvertArray(m, coords, "bd09", "gcj02").value, "gcj02", "gps84")
  {
    ConvertArrayMatchesReference(m, coords, Bd09, Gcj02);
    ConvertArrayMatchesReference(m, coords, Bd09, Gps84);
    var mid := ConvertArray(m, coords, "bd09", "gcj02").value;
    ConvertArrayMatchesReference(m, mid, Gcj02, Gps84);
    var direct := ConvertArray(m, coords, "bd09", "gps84").value;
    var twoStep := ConvertArray(m, mid, "gcj02", "gps84").value;
    forall i | 0 <= i < |coords| ensures direct[i] == twoStep[i] {
      Converter.Bd09ToGps84Composes(m, coords[i].lng, coords[i].lat);
    }
    assert direct == twoStep;
  }

  // ---------------------------------------------------------------------------
  // The lookup as written: `methodMap[methodKey]` on an object literal

  /**
   * The names `methodMap` inherits from `Object.prototype`. Each of them holds a
   * truthy value, so reading it passes the `!convertMethod` test.
   */
  const ObjectPrototypeNames: set<string> := {
    "constructor", "hasOwnProperty", "isPrototypeOf", "propertyIsEnumerable",
    "toLocaleString", "toString", "valueOf", "__proto__",
    "__defineGetter__", "__defineSetter__", "__lookupGetter__", "__lookupSetter__"
  }

  /** What a property read on `methodMap` finds. */
  datatype Property = Own(bound: Method) | Inherited(name: string)

  /** No own key of `methodMap` shadows an inherited name. */
  lemma OwnAndInheritedDisjoint()
    ensures MethodMap().Keys !! ObjectPrototypeNames
  {
  }

  /** `methodMap[key]`: own properties first, then those of `Object.prototype`. */
  function GetProperty(key: string): (r: Option<Property>)
    ensures r == None <==> key !in MethodMap() && key !in ObjectPrototypeNames
    ensures key in MethodMap() ==> r == Some(Own(MethodMap()[key]))
    ensures key !in MethodMap() && key in ObjectPrototypeNames ==> r == Some(Inherited(key))
  {
    if key in MethodMap() then Some(Own(MethodMap()[key]))
    else if key in ObjectPrototypeNames then Some(Inherited(key))
    else None
  }

  /**
   * `convertArray` exactly as written. An inherited name passes the check; calling
   * what it holds throws a TypeError at the first point (`__proto__` holds an object,
   * and the four accessor helpers reject an undefined receiver), so an empty batch
   * comes back empty and any other batch fails with that TypeError.
   */
  function ConvertArrayAsWritten(m: JsMath, coords: seq<Point>, from: string, to: string)
    : (r: Result<seq<Point>, Error>)
    ensures MethodKey(from, to) !in ObjectPrototypeNames ==> r == ConvertArray(m, coords, from, to)
    ensures from != to && MethodKey(from, to) in ObjectPrototypeNames ==>
      r == if coords == [] then Success([]) else Failure(NotAFunction(MethodKey(from, to)))
  {
    OwnAndInheritedDisjoint();
    if from == to then Success(coords)
    else match GetProperty(MethodKey(from, to))
      case None => Failure(UnsupportedConversion(from, to))
      case Some(Own(convertMethod)) => Success(MapPoints(m, convertMethod, coords))
      case Some(Inherited(name)) =>
        if coords == [] then Success([]) else Failure(NotAFunction(name))
  }

  /** Only inherited names with an underscore can be produced as a key. */
  lemma ReachableInheritedNames(from: string, to: string)
    requires MethodKey(from, to) in ObjectPrototypeNames
    ensures MethodKey(from, to) in
      {"__proto__", "__defineGetter__", "__defineSetter__", "__lookupGetter__", "__lookupSetter__"}
  {
  }

  /** With the tags the type declarations allow, the lookup as written is the corrected one. */
  lemma AsWrittenAgreesOnDeclaredTypes(m: JsMath, coords: seq<Point>, f: CoordType, t: CoordType)
    ensures ConvertArrayAsWritten(m, coords, Name(f), Name(t)) == ConvertArray(m, coords, Name(f), Name(t))
  {
  }

  /**
   * The lookup as written lets the unsupported pair ("_", "proto__") through: the key
   * is "__proto__", so an empty batch succeeds and a non-empty one throws a TypeError
   * instead of the unsupported-conversion error the corrected lookup raises.
   */
  lemma ProtoKeyEscapesCheck(m: JsMath, p: Point)
    ensures ParseType("_") == None && ParseType("proto__") == None
    ensures ConvertArrayAsWritten(m, [], "_", "proto__") == Success([])
    ensures ConvertArrayAsWritten(m, [p], "_", "proto__") == Failure(NotAFunction("__proto__"))
    ensures ConvertArray(m, [], "_", "proto__") == Failure(UnsupportedConversion("_", "proto__"))
    ensures ConvertArray(m, [p], "_", "proto__") == Failure(UnsupportedConversion("_", "proto__"))
  {
    assert MethodKey("_", "proto__") == "__proto__";
  }
}
