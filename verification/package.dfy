/**
  The vocabulary of the package sorter: the four parameters a package is
  measured by, the arguments a caller may pass for them, and the three stacks
  a package can be sent to, together with their textual labels.
 */
module Package {

  datatype Option<+T> = None | Some(value: T)

  /** The four parameters of `sort`, in the order the validation visits them. */
  datatype Param = Width | Height | Length | Mass

  /** Position of a parameter in the argument list (and in the validation order). */
  function Index(p: Param): (i: nat)
    ensures i < 4
  {
    match p
    case Width => 0
    case Height => 1
    case Length => 2
    case Mass => 3
  }

  /** The parameter at a given position; the inverse of `Index`. */
  function ParamAt(i: nat): (p: Param)
    requires i < 4
    ensures Index(p) == i
  {
    if i == 0 then Width
    else if i == 1 then Height
    else if i == 2 then Length
    else Mass
  }

  /** The name an error reports for a parameter. */
  function ParamName(p: Param): string
  {
    match p
    case Width => "width"
    case Height => "height"
    case Length => "length"
    case Mass => "mass"
  }

  /** Recovers a parameter from the name an error reports. */
  function ParseParamName(s: string): (r: Option<Param>)
    ensures r.Some? ==> ParamName(r.value) == s
  {
    if s == "width" then Some(Width)
    else if s == "height" then Some(Height)
    else if s == "length" then Some(Length)
    else if s == "mass" then Some(Mass)
    else None
  }

  /**
    An argument as the caller passes it: a number (an int or a float, both
    measured exactly here) or a value of some other type, known only by the
    name of its type.
   */
  datatype Arg = Num(value: real) | NonNum(typeName: string)

  /** An argument that passes validation: a number that is not negative. */
  predicate Valid(a: Arg)
  {
    a.Num? && a.value >= 0.0
  }

  /** The three stacks a package can be dispatched to. */
  datatype Category = Standard | Special | Rejected

  /** The text `sort` returns for each stack. */
  function Label(c: Category): string
  {
    match c
    case Standard => "STANDARD"
    case Special => "SPECIAL"
    case Rejected => "REJECTED"
  }

  /** Recovers a stack from its label; any other text is not a stack. */
  function ParseLabel(s: string): (r: Option<Category>)
    ensures r.Some? ==> Label(r.value) == s
  {
    if s == "STANDARD" then Some(Standard)
    else if s == "SPECIAL" then Some(Special)
    else if s == "REJECTED" then Some(Rejected)
    else None
  }

  /**
    How many of the two handling conditions (bulky, heavy) a stack stands
    for: none for STANDARD, one for SPECIAL, both for REJECTED.
   */
  function Severity(c: Category): (n: nat)
    ensures n <= 2
  {
    match c
    case Standard => 0
    case Special => 1
    case Rejected => 2
  }

  lemma ParamNameRoundTrip(p: Param)
    ensures ParseParamName(ParamName(p)) == Some(p)
  {
  }

  lemma ParamIndexRoundTrip(p: Param)
    ensures ParamAt(Index(p)) == p
  {
  }

  lemma LabelRoundTrip(c: Category)
    ensures ParseLabel(Label(c)) == Some(c)
  {
  }

  /** Distinct stacks have distinct labels, so the text identifies the stack. */
  lemma LabelInjective(c: Category, d: Category)
    ensures Label(c) == Label(d) <==> c == d
  {
  }
}
