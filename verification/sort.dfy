/**
  The package sorting function: validate the four arguments in order, then
  decide from volume, dimensions and mass which stack the package goes to.
 */
module Sorter {
  import opened Package

  /** One argument together with the parameter it was passed for. */
  datatype Field = Field(param: Param, arg: Arg)

  /** Why an argument was refused: the type check or the sign check failed. */
  datatype Violation = NotNumber(param: Param) | Negative(param: Param)

  /** What `sort` yields: a stack, a TypeError or a ValueError naming a parameter. */
  datatype Outcome = Ok(category: Category) | TypeErr(param: Param) | ValueErr(param: Param)

  /** Volume threshold (cubic cm) at and above which a package is bulky. */
  const VolumeLimit: real := 1000000.0
  /** Single-dimension threshold (cm) at and above which a package is bulky. */
  const DimensionLimit: real := 150.0
  /** Mass threshold (kg) at and above which a package is heavy. */
  const MassLimit: real := 20.0

  /**
    Validation of one argument: the type is checked before the sign, so a
    non-number is always a type violation and only a number can be negative.
   */
  function Check(f: Field): (v: Option<Violation>)
    ensures v.None? <==> Valid(f.arg)
    ensures v.Some? ==> v.value.param == f.param
    ensures v == Some(NotNumber(f.param)) <==> f.arg.NonNum?
    ensures v == Some(Negative(f.param)) <==> f.arg.Num? && f.arg.value < 0.0
  {
    if f.arg.NonNum? then Some(NotNumber(f.param))
    else if f.arg.value < 0.0 then Some(Negative(f.param))
    else None
  }

  /** Every field before position `n` passes validation. */
  predicate ValidBefore(fields: seq<Field>, n: int)
    requires 0 <= n <= |fields|
  {
    forall j :: 0 <= j < n ==> Valid(fields[j].arg)
  }

  /**
    The validation loop: visit the fields in order and stop at the first one
    that fails. No violation means every field is valid; a violation is the
    one reported by the first failing field, every field before it being valid.
   */
  function FirstViolation(fields: seq<Field>): (v: Option<Violation>)
    ensures v.None? <==> ValidBefore(fields, |fields|)
    ensures v.Some? ==> exists i :: 0 <= i < |fields| && ValidBefore(fields, i) && Check(fields[i]) == v
  {
    if |fields| == 0 then None
    else if Check(fields[0]).Some? then Check(fields[0])
    else
      var rest := FirstViolation(fields[1..]);
      assert forall j :: 1 <= j < |fields| ==> fields[j] == fields[1..][j - 1];
      rest
  }

  /** The four arguments of a call, labelled with their parameters, in validation order. */
  function Fields(width: Arg, height: Arg, length: Arg, mass: Arg): (fs: seq<Field>)
    ensures |fs| == 4
    ensures forall p :: fs[Index(p)] == Field(p, ArgOf(p, width, height, length, mass))
  {
    [Field(Width, width), Field(Height, height), Field(Length, length), Field(Mass, mass)]
  }

  /** The argument passed for parameter `p`. */
  function ArgOf(p: Param, width: Arg, height: Arg, length: Arg, mass: Arg): Arg
  {
    match p
    case Width => width
    case Height => height
    case Length => length
    case Mass => mass
  }

  /** Every parameter validated before `p` received a valid argument. */
  predicate EarlierValid(p: Param, width: Arg, height: Arg, length: Arg, mass: Arg)
  {
    forall q :: Index(q) < Index(p) ==> Valid(ArgOf(q, width, height, length, mass))
  }

  /**
    The fields before parameter `p`'s position are all valid exactly when
    every parameter validated before `p` received a valid argument.
   */
  lemma ValidBeforeFields(width: Arg, height: Arg, length: Arg, mass: Arg, p: Param)
    ensures ValidBefore(Fields(width, height, length, mass), Index(p))
        <==> EarlierValid(p, width, height, length, mass)
  {
    var fs := Fields(width, height, length, mass);
    if EarlierValid(p, width, height, length, mass) {
      forall j | 0 <= j < Index(p)
        ensures Valid(fs[j].arg)
      {
        assert fs[Index(ParamAt(j))] == fs[j];
      }
    }
  }

  /** The package's volume; a flat package (some dimension zero) has none. */
  function Volume(width: real, height: real, length: real): (v: real)
    ensures width >= 0.0 && height >= 0.0 && length >= 0.0 ==> v >= 0.0
    ensures width == 0.0 || height == 0.0 || length == 0.0 ==> v == 0.0
  {
    width * height * length
  }

  /** The largest of the three dimensions. */
  function MaxDimension(width: real, height: real, length: real): (d: real)
    ensures d >= width && d >= height && d >= length
    ensures d == width || d == height || d == length
  {
    if width >= height && width >= length then width
    else if height >= length then height
    else length
  }

  /**
    Bulky: volume at or above the volume limit, or some dimension at or above
    the dimension limit, that is, the largest dimension reaches it.
   */
  predicate IsBulky(width: real, height: real, length: real)
    ensures IsBulky(width, height, length)
        <==> Volume(width, height, length) >= VolumeLimit || MaxDimension(width, height, length) >= DimensionLimit
  {
    || Volume(width, height, length) >= VolumeLimit
    || width >= DimensionLimit
    || height >= DimensionLimit
    || length >= DimensionLimit
  }

  /** Heavy: mass at or above the mass limit. */
  predicate IsHeavy(mass: real)
  {
    mass >= MassLimit
  }

  /**
    The dispatch, in the source's precedence: both conditions reject, exactly
    one sends the package to the special stack, neither to the standard one.
   */
  function Classify(width: real, height: real, length: real, mass: real): (c: Category)
    ensures c == Rejected <==> IsBulky(width, height, length) && IsHeavy(mass)
    ensures c == Special <==> IsBulky(width, height, length) != IsHeavy(mass)
    ensures c == Standard <==> !IsBulky(width, height, length) && !IsHeavy(mass)
  {
    var bulky := IsBulky(width, height, length);
    var heavy := IsHeavy(mass);
    if bulky && heavy then Rejected
    else if bulky || heavy then Special
    else Standard
  }

  /**
    `sort(width, height, length, mass)`: validation first, then
    classification of the (now known valid) measurements.
   */
  function Sort(width: Arg, height: Arg, length: Arg, mass: Arg): (r: Outcome)
    ensures r.Ok? <==> Valid(width) && Valid(height) && Valid(length) && Valid(mass)
    ensures r.TypeErr? ==>
      && ArgOf(r.param, width, height, length, mass).NonNum?
      && EarlierValid(r.param, width, height, length, mass)
    ensures r.ValueErr? ==>
      && ArgOf(r.param, width, height, length, mass).Num?
      && ArgOf(r.param, width, height, length, mass).value < 0.0
      && EarlierValid(r.param, width, height, length, mass)
  {
    var fs := Fields(width, height, length, mass);
    assert Valid(width) && Valid(height) && Valid(length) && Valid(mass) ==> ValidBefore(fs, 4) by {
      if Valid(width) && Valid(height) && Valid(length) && Valid(mass) {
        ValidBeforeFields(width, height, length, mass, Mass);
        assert fs[3] == Field(Mass, mass);
      }
    }
    match FirstViolation(fs)
    case Some(v) =>
      var i :| 0 <= i < |fs| && ValidBefore(fs, i) && Check(fs[i]) == Some(v);
      assert fs[Index(ParamAt(i))] == fs[i];
      ValidBeforeFields(width, height, length, mass, ParamAt(i));
      if v.NotNumber? then TypeErr(v.param) else ValueErr(v.param)
    case None =>
      assert Valid(ArgOf(Width, width, height, length, mass));
      assert Valid(ArgOf(Height, width, height, length, mass));
      assert Valid(ArgOf(Length, width, height, length, mass));
      assert Valid(ArgOf(Mass, width, height, length, mass));
      Ok(Classify(width.value, height.value, length.value, mass.value))
  }

  /** The text `sort` returns, or the error it raises. */
  function SortLabel(width: Arg, height: Arg, length: Arg, mass: Arg): (r: Option<string>)
    ensures r.Some? <==> Sort(width, height, length, mass).Ok?
    ensures r.Some? ==> ParseLabel(r.value) == Some(Sort(width, height, length, mass).category)
  {
    match Sort(width, height, length, mass)
    case Ok(c) => LabelRoundTrip(c); Some(Label(c))
    case _ => None
  }
}
