/**
  Properties of the package sorter: the order in which arguments are
  validated, the characterisation of each stack, the inclusive thresholds,
  symmetry in the three dimensions and monotonicity in every measurement.
 */
module SortProperties {
  import opened Package
  import opened Sorter

  // ---------------------------------------------------------------------------
  // Validation order
  // ---------------------------------------------------------------------------

  /**
    At the level of the argument list: once every field before position `i`
    is valid and field `i` fails, field `i` decides the violation, whatever
    follows it.
   */
  lemma {:induction false} FirstFailureDecides(fields: seq<Field>, i: nat)
    requires i < |fields|
    requires ValidBefore(fields, i)
    requires Check(fields[i]).Some?
    ensures FirstViolation(fields) == Check(fields[i])
  {
    if i > 0 {
      assert Valid(fields[0].arg);
      assert fields[1..][i - 1] == fields[i];
      assert ValidBefore(fields[1..], i - 1) by {
        forall j | 0 <= j < i - 1
          ensures Valid(fields[1..][j].arg)
        {
          assert fields[1..][j] == fields[j + 1];
        }
      }
      FirstFailureDecides(fields[1..], i - 1);
    }
  }

  /**
    A TypeError names `p` exactly when the argument for `p` is not a number and
    every earlier parameter is valid: the type check of `p` is the first
    check that fails.
   */
  lemma TypeErrIff(width: Arg, height: Arg, length: Arg, mass: Arg, p: Param)
    ensures Sort(width, height, length, mass) == TypeErr(p)
        <==> ArgOf(p, width, height, length, mass).NonNum? && EarlierValid(p, width, height, length, mass)
  {
    var a := ArgOf(p, width, height, length, mass);
    if a.NonNum? && EarlierValid(p, width, height, length, mass) {
      SortFailsAt(width, height, length, mass, p);
    }
  }

  /**
    A ValueError names `p` exactly when the argument for `p` is a negative
    number and every earlier parameter is valid. A negative value is never
    coerced into a measurement.
   */
  lemma ValueErrIff(width: Arg, height: Arg, length: Arg, mass: Arg, p: Param)
    ensures Sort(width, height, length, mass) == ValueErr(p)
        <==> && ArgOf(p, width, height, length, mass).Num?
             && ArgOf(p, width, height, length, mass).value < 0.0
             && EarlierValid(p, width, height, length, mass)
  {
    var a := ArgOf(p, width, height, length, mass);
    if a.Num? && a.value < 0.0 && EarlierValid(p, width, height, length, mass) {
      SortFailsAt(width, height, length, mass, p);
    }
  }

  /** When `p` is the first invalid parameter, `Sort` reports `p`, with the kind its check found. */
  lemma SortFailsAt(width: Arg, height: Arg, length: Arg, mass: Arg, p: Param)
    requires !Valid(ArgOf(p, width, height, length, mass))
    requires EarlierValid(p, width, height, length, mass)
    ensures ArgOf(p, width, height, length, mass).NonNum? ==> Sort(width, height, length, mass) == TypeErr(p)
    ensures ArgOf(p, width, height, length, mass).Num? ==> Sort(width, height, length, mass) == ValueErr(p)
  {
    var r := Sort(width, height, length, mass);
    assert !r.Ok? by {
      match p
      case Width => assert !Valid(width);
      case Height => assert !Valid(height);
      case Length => assert !Valid(length);
      case Mass => assert !Valid(mass);
    }
    // The reported parameter is neither earlier than `p` (those are valid)
    // nor later than `p` (then `p` would have to be valid).
    assert Index(r.param) == Index(p);
    ParamIndexRoundTrip(r.param);
    ParamIndexRoundTrip(p);
  }

  /**
    The first failing parameter wins: once `Sort` reports an error for `p`,
    arguments for parameters after `p` cannot change the outcome.
   */
  lemma FirstFailureWins(width: Arg, height: Arg, length: Arg, mass: Arg,
                         width': Arg, height': Arg, length': Arg, mass': Arg)
    requires !Sort(width, height, length, mass).Ok?
    requires forall q :: Index(q) <= Index(Sort(width, height, length, mass).param) ==>
               ArgOf(q, width, height, length, mass) == ArgOf(q, width', height', length', mass')
    ensures Sort(width', height', length', mass') == Sort(width, height, length, mass)
  {
    var p := Sort(width, height, length, mass).param;
    assert EarlierValid(p, width', height', length', mass') by {
      forall q | Index(q) < Index(p)
        ensures Valid(ArgOf(q, width', height', length', mass'))
      {
        assert ArgOf(q, width, height, length, mass) == ArgOf(q, width', height', length', mass');
      }
    }
    assert ArgOf(p, width, height, length, mass) == ArgOf(p, width', height', length', mass');
    SortFailsAt(width', height', length', mass', p);
  }

  // ---------------------------------------------------------------------------
  // Dispatch
  // ---------------------------------------------------------------------------

  /**
    Totality: four non-negative numbers always produce a stack, and that
    stack is the classification of the four measurements.
   */
  lemma SortTotal(width: real, height: real, length: real, mass: real)
    requires width >= 0.0 && height >= 0.0 && length >= 0.0 && mass >= 0.0
    ensures Sort(Num(width), Num(height), Num(length), Num(mass)) == Ok(Classify(width, height, length, mass))
  {
    var r := Sort(Num(width), Num(height), Num(length), Num(mass));
    assert r.Ok?;
  }

  /**
    An independent reading of the dispatch: the severity of the chosen stack
    is the number of handling conditions (bulky, heavy) the package meets.
   */
  lemma SeverityCountsConditions(width: real, height: real, length: real, mass: real)
    ensures Severity(Classify(width, height, length, mass))
         == (if IsBulky(width, height, length) then 1 else 0) + (if IsHeavy(mass) then 1 else 0)
  {
  }

  // ---------------------------------------------------------------------------
  // Inclusive thresholds
  // ---------------------------------------------------------------------------

  /** Reaching any threshold exactly already triggers its condition. */
  lemma ThresholdsInclusive(width: real, height: real, length: real, mass: real)
    ensures Volume(width, height, length) == VolumeLimit ==> IsBulky(width, height, length)
    ensures width == DimensionLimit || height == DimensionLimit || length == DimensionLimit
            ==> IsBulky(width, height, length)
    ensures mass == MassLimit ==> IsHeavy(mass)
  {
  }

  /** A single dimension at the limit makes a package bulky even when its volume is zero. */
  lemma FlatPackageStillBulky(width: real)
    requires width >= DimensionLimit
    ensures Volume(width, 0.0, 0.0) == 0.0
    ensures IsBulky(width, 0.0, 0.0)
    ensures Classify(width, 0.0, 0.0, 0.0) == Special
  {
  }

  /** Below every threshold the package goes to the standard stack. */
  lemma BelowThresholdsIsStandard(width: real, height: real, length: real, mass: real)
    requires Volume(width, height, length) < VolumeLimit
    requires width < DimensionLimit && height < DimensionLimit && length < DimensionLimit
    requires mass < MassLimit
    ensures Classify(width, height, length, mass) == Standard
  {
  }

  // ---------------------------------------------------------------------------
  // Symmetry in the dimensions
  // ---------------------------------------------------------------------------

  /**
    Classification depends on the three dimensions only as an unordered
    collection: a rotation and a swap generate every permutation.
   */
  lemma ClassifySymmetric(width: real, height: real, length: real, mass: real)
    ensures Classify(height, length, width, mass) == Classify(width, height, length, mass)
    ensures Classify(height, width, length, mass) == Classify(width, height, length, mass)
  {
    assert Volume(height, length, width) == Volume(width, height, length);
    assert Volume(height, width, length) == Volume(width, height, length);
  }

  /**
    Permuting the three dimension arguments never changes whether `sort`
    succeeds, nor the stack it chooses when it does.
   */
  lemma SortSymmetric(width: Arg, height: Arg, length: Arg, mass: Arg)
    ensures Sort(height, length, width, mass).Ok? <==> Sort(width, height, length, mass).Ok?
    ensures Sort(height, width, length, mass).Ok? <==> Sort(width, height, length, mass).Ok?
    ensures Sort(width, height, length, mass).Ok? ==>
      && Sort(height, length, width, mass) == Sort(width, height, length, mass)
      && Sort(height, width, length, mass) == Sort(width, height, length, mass)
  {
    if Sort(width, height, length, mass).Ok? {
      ClassifySymmetric(width.value, height.value, length.value, mass.value);
      SortTotal(width.value, height.value, length.value, mass.value);
      SortTotal(height.value, length.value, width.value, mass.value);
      SortTotal(height.value, width.value, length.value, mass.value);
    }
  }

  // ---------------------------------------------------------------------------
  // Monotonicity
  // ---------------------------------------------------------------------------

  /** Scaling a non-negative factor up never shrinks a product with a non-negative factor. */
  lemma MulMonotone(a: real, a': real, b: real)
    requires 0.0 <= a <= a'
    requires 0.0 <= b
    ensures a * b <= a' * b
    ensures b * a <= b * a'
  {
  }

  /** Growing both non-negative factors never shrinks their product. */
  lemma ProductMonotone(a: real, a': real, b: real, b': real)
    requires 0.0 <= a <= a'
    requires 0.0 <= b <= b'
    ensures 0.0 <= a * b <= a' * b'
  {
    MulMonotone(a, a', b);
    MulMonotone(b, b', a');
    MulMonotone(0.0, a, b);
  }

  /** Volume never decreases when the dimensions grow. */
  lemma VolumeMonotone(width: real, height: real, length: real, width': real, height': real, length': real)
    requires 0.0 <= width <= width'
    requires 0.0 <= height <= height'
    requires 0.0 <= length <= length'
    ensures Volume(width, height, length) <= Volume(width', height', length')
  {
    ProductMonotone(width, width', height, height');
    ProductMonotone(width * height, width' * height', length, length');
  }

  /**
    Growing any measurements never undoes a condition: a bulky package stays
    bulky, a heavy one stays heavy, so the stack's severity never drops.
   */
  lemma ClassifyMonotone(width: real, height: real, length: real, mass: real,
                         width': real, height': real, length': real, mass': real)
    requires 0.0 <= width <= width'
    requires 0.0 <= height <= height'
    requires 0.0 <= length <= length'
    requires 0.0 <= mass <= mass'
    ensures IsBulky(width, height, length) ==> IsBulky(width', height', length')
    ensures IsHeavy(mass) ==> IsHeavy(mass')
    ensures Severity(Classify(width, height, length, mass)) <= Severity(Classify(width', height', length', mass'))
  {
    VolumeMonotone(width, height, length, width', height', length');
    SeverityCountsConditions(width, height, length, mass);
    SeverityCountsConditions(width', height', length', mass');
  }

  /**
    Raising measurements of a valid package: REJECTED stays REJECTED, and a
    package off the standard stack never returns to it.
   */
  lemma SortMonotone(width: real, height: real, length: real, mass: real,
                     width': real, height': real, length': real, mass': real)
    requires 0.0 <= width <= width'
    requires 0.0 <= height <= height'
    requires 0.0 <= length <= length'
    requires 0.0 <= mass <= mass'
    ensures var before := Sort(Num(width), Num(height), Num(length), Num(mass));
            var after := Sort(Num(width'), Num(height'), Num(length'), Num(mass'));
            && before.Ok? && after.Ok?
            && Severity(before.category) <= Severity(after.category)
            && (before == Ok(Rejected) ==> after == Ok(Rejected))
            && (before != Ok(Standard) ==> after != Ok(Standard))
  {
    SortTotal(width, height, length, mass);
    SortTotal(width', height', length', mass');
    ClassifyMonotone(width, height, length, mass, width', height', length', mass');
  }
}
