/** PHP scalar values and the `settype` casts the client applies to them. */
module PhpValues {
  import opened Wrappers
  import opened PhpText

  /** A PHP scalar: string, integer, boolean, float (as a finite decimal) or null. */
  datatype Value = VStr(s: string) | VInt(i: int) | VBool(b: bool) | VFloat(f: Decimal) | VNull

  /** The four cast targets `settype` is given by the client. */
  datatype PhpType = Integer | String | Boolean | Float

  /** The type's name as `settype` spells it, and as the wire type tag carries it. */
  function TypeName(t: PhpType): string
  {
    match t
    case Integer => "integer"
    case String => "string"
    case Boolean => "boolean"
    case Float => "float"
  }

  /** The tags that name a cast target. */
  const CastTags: set<string> := {"integer", "string", "boolean", "float"}

  /** The cast target a wire type tag names, if it names one. */
  function CastTarget(tag: Option<string>): (r: Option<PhpType>)
    ensures r.Some? <==> tag.Some? && tag.value in CastTags
    ensures r.Some? ==> TypeName(r.value) == tag.value
  {
    if tag == Some("integer") then Some(Integer)
    else if tag == Some("string") then Some(String)
    else if tag == Some("boolean") then Some(Boolean)
    else if tag == Some("float") then Some(Float)
    else None
  }

  predicate HasType(v: Value, t: PhpType)
  {
    match t
    case Integer => v.VInt?
    case String => v.VStr?
    case Boolean => v.VBool?
    case Float => v.VFloat?
  }

  function Abs(n: int): nat
  {
    if n < 0 then -n else n
  }

  /** The digits of n written in at least `width` places, zero-filled on the left. */
  function ZeroPadded(n: nat, width: nat): (r: string)
    ensures |r| >= width
  {
    var digits := NatText(n);
    if |digits| < width then seq(width - |digits|, _ => '0') + digits else digits
  }

  /** The text PHP writes for a float equal to `d`: the integer part, then
      the fraction digits without trailing zeros, if any remain. */
  function DecimalText(d: Decimal): string
    decreases d.scale
  {
    if d.scale == 0 then IntText(d.units)
    else if d.units % 10 == 0 then DecimalText(Decimal(d.units / 10, d.scale - 1))
    else PointText(d.units < 0, Abs(d.units), d.scale)
  }

  /** The text of `±m / 10^scale`: the digits of m, zero-filled to more
      than `scale` places, with the point set before the last `scale`. */
  function PointText(negative: bool, m: nat, scale: nat): string
  {
    var digits := ZeroPadded(m, scale + 1);
    var point := |digits| - scale;
    (if negative then "-" else "") + digits[..point] + "." + digits[point..]
  }

  /** `(int)` of a float: truncation toward zero. PHP leaves values outside
      the `int` range undefined; they are taken as 0 here. */
  function DecimalToInt(d: Decimal): (r: int)
    ensures InIntRange(r)
  {
    var q := Abs(d.units) / Pow10(d.scale);
    var t := if d.units < 0 then -q else q;
    if InIntRange(t) then t else 0
  }

  function ToInt(v: Value): int
  {
    match v
    case VStr(s) => LeadingInt(s)
    case VInt(i) => i
    case VBool(b) => if b then 1 else 0
    case VFloat(d) => DecimalToInt(d)
    case VNull => 0
  }

  function ToStr(v: Value): string
  {
    match v
    case VStr(s) => s
    case VInt(i) => IntText(i)
    case VBool(b) => if b then "1" else ""
    case VFloat(d) => DecimalText(d)
    case VNull => ""
  }

  /** PHP's falsy scalars: "", "0", 0, 0.0, false and null. */
  function ToBool(v: Value): bool
  {
    match v
    case VStr(s) => s != "" && s != "0"
    case VInt(i) => i != 0
    case VBool(b) => b
    case VFloat(d) => d.units != 0
    case VNull => false
  }

  function ToFloat(v: Value): Decimal
  {
    match v
    case VStr(s) => LeadingDecimal(s)
    case VInt(i) => Decimal(i, 0)
    case VBool(b) => Decimal(if b then 1 else 0, 0)
    case VFloat(d) => d
    case VNull => Decimal(0, 0)
  }

  /** `settype($v, TypeName(t))`: the result has type t, and a value that
      already has type t is left as it is. */
  function Cast(v: Value, t: PhpType): (r: Value)
    ensures HasType(r, t)
    ensures HasType(v, t) ==> r == v
  {
    match t
    case Integer => VInt(ToInt(v))
    case String => VStr(ToStr(v))
    case Boolean => VBool(ToBool(v))
    case Float => VFloat(ToFloat(v))
  }

  /** The wire text `strval(intval($b))` gives a boolean is "1" or "0", and
      casting that text back to boolean recovers the boolean. */
  lemma BooleanWireForm(b: bool)
    ensures Cast(Cast(VBool(b), Integer), String) == VStr(if b then "1" else "0")
    ensures Cast(VStr(if b then "1" else "0"), Boolean) == VBool(b)
  {
    assert NatText(1) == "1";
    assert NatText(0) == "0";
  }

  /** An integer in range survives being written as text and read back. */
  lemma IntegerTextRoundTrip(n: int)
    requires InIntRange(n)
    ensures Cast(Cast(VInt(n), String), Integer) == VInt(n)
  {
    IntTextRoundTrip(n);
  }
}
