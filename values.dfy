/**
 * The engine's dynamically typed `Value`: its arithmetic (`add`, `sub`, `mul`,
 * `div`, `neg`), its text and float views, and descent along a dotted path.
 */
module Values {
  import opened Diag
  import opened Numbers
  import opened Paths

  /** The six tags of a value. */
  datatype Kind = StringKind | IntegerKind | FloatKind | BooleanKind | ArrayKind | ObjectKind

  predicate IsNumber(k: Kind) { k == IntegerKind || k == FloatKind }

  /** Integer with Integer stays Integer; a Float on either side makes the result Float. */
  function Promote(l: Kind, r: Kind): Kind
  {
    if l == FloatKind || r == FloatKind then FloatKind else IntegerKind
  }

  /**
   * The typing rules of `+`: numbers mix and promote; an Array next to a number
   * stands for its length; two Arrays concatenate; a String joined with a String or
   * a number gives a String. Every other pairing has no meaning.
   */
  function AddKind(l: Kind, r: Kind): Option<Kind>
  {
    if IsNumber(l) && IsNumber(r) then Some(Promote(l, r))
    else if IsNumber(l) && r == ArrayKind then Some(l)
    else if l == ArrayKind && IsNumber(r) then Some(r)
    else if l == ArrayKind && r == ArrayKind then Some(ArrayKind)
    else if (l == StringKind || IsNumber(l)) && (r == StringKind || IsNumber(r)) then Some(StringKind)
    else None
  }

  /** `-`: numbers mix and promote, and a number minus an Array subtracts its length. */
  function SubKind(l: Kind, r: Kind): Option<Kind>
  {
    if IsNumber(l) && IsNumber(r) then Some(Promote(l, r))
    else if IsNumber(l) && r == ArrayKind then Some(l)
    else None
  }

  /** `*`: defined on numbers only. */
  function MulKind(l: Kind, r: Kind): Option<Kind>
  {
    if IsNumber(l) && IsNumber(r) then Some(Promote(l, r)) else None
  }

  /** `/`: defined on numbers only, and always a Float. */
  function DivKind(l: Kind, r: Kind): Option<Kind>
  {
    if IsNumber(l) && IsNumber(r) then Some(FloatKind) else None
  }

  /** Unary minus: numbers and Booleans. */
  function NegKind(k: Kind): Option<Kind>
  {
    if IsNumber(k) || k == BooleanKind then Some(k) else None
  }

  /** The error an operator reports for a pairing it does not define. */
  function Invalid(operation: string): Error
  {
    Message("invalid operation: " + operation)
  }

  predicate IsInvalidOperation(e: Error)
  {
    |e.text| >= 19 && e.text[..19] == "invalid operation: "
  }

  datatype Value =
    | String(s: string)
    | Integer(i: int)
    | Float(f: F64)
    | Boolean(b: bool)
    | Array(items: seq<Value>)
    | Object(fields: map<string, Value>)
  {
    function Tag(): Kind
    {
      match this
      case String(_) => StringKind
      case Integer(_) => IntegerKind
      case Float(_) => FloatKind
      case Boolean(_) => BooleanKind
      case Array(_) => ArrayKind
      case Object(_) => ObjectKind
    }

    /** `as_f64`: the number itself, a String read as a float (0.0 when unreadable), 0.0 otherwise. */
    function AsF64(): (r: F64)
      ensures Tag() in {BooleanKind, ArrayKind, ObjectKind} ==> r == Zero
    {
      match this
      case Float(x) => x
      case Integer(n) => FromInt(n)
      case String(t) => Parsed(t)
      case _ => Zero
    }

    /** `as_str`: the text of a String or a number, "" for the other kinds. */
    function AsStr(): (r: string)
      ensures Tag() in {BooleanKind, ArrayKind, ObjectKind} ==> r == ""
      ensures Integer? ==> r == IntText(i)
    {
      match this
      case String(t) => t
      case Float(x) => FloatText(x)
      case Integer(n) => IntText(n)
      case _ => ""
    }

    /** `add`. */
    function Add(rhs: Value): (r: Result<Value>)
      ensures r.Ok? <==> AddKind(Tag(), rhs.Tag()).Some?
      ensures r.Ok? ==> r.value.Tag() == AddKind(Tag(), rhs.Tag()).value
      ensures r.Err? ==> IsInvalidOperation(r.error)
    {
      match this
      case Integer(l) => (
        match rhs
        case Integer(x) => Ok(Integer(l + x))
        case Float(x) => Ok(Float(Sum(FromInt(l), x)))
        case String(x) => Ok(String(IntText(l) + x))
        case Array(a) => Ok(Integer(l + |a|))
        case Object(_) => Err(Invalid("integer + object"))
        case Boolean(_) => Err(Invalid("integer + boolean")))
      case Float(l) => (
        match rhs
        case Integer(x) => Ok(Float(Sum(l, FromInt(x))))
        case Float(x) => Ok(Float(Sum(l, x)))
        case String(x) => Ok(String(FloatText(l) + x))
        case Array(a) => Ok(Float(Sum(l, FromInt(|a|))))
        case Object(_) => Err(Invalid("float + object"))
        case Boolean(_) => Err(Invalid("float + boolean")))
      case String(l) => (
        match rhs
        case Integer(x) => Ok(String(l + IntText(x)))
        case Float(x) => Ok(String(l + FloatText(x)))
        case String(x) => Ok(String(l + x))
        case Array(_) => Err(Invalid("string + array"))
        case Object(_) => Err(Invalid("string + object"))
        case Boolean(_) => Err(Invalid("string + boolean")))
      case Array(l) => (
        match rhs
        case Integer(x) => Ok(Integer(|l| + x))
        case Float(x) => Ok(Float(Sum(FromInt(|l|), x)))
        case Array(x) => Ok(Array(l + x))
        case Object(_) => Err(Invalid("array + object"))
        case Boolean(_) => Err(Invalid("array + boolean"))
        case String(_) => Err(Invalid("array + string")))
      case Boolean(_) => Err(Invalid("boolean + _"))
      case Object(_) => Err(Invalid("object + _"))
    }

    /** `sub`. */
    function Sub(rhs: Value): (r: Result<Value>)
      ensures r.Ok? <==> SubKind(Tag(), rhs.Tag()).Some?
      ensures r.Ok? ==> r.value.Tag() == SubKind(Tag(), rhs.Tag()).value
      ensures r.Err? ==> IsInvalidOperation(r.error)
    {
      match this
      case Integer(l) => (
        match rhs
        case Integer(x) => Ok(Integer(l - x))
        case Float(x) => Ok(Float(Difference(FromInt(l), x)))
        case String(_) => Err(Invalid("integer - string"))
        case Array(a) => Ok(Integer(l - |a|))
        case Object(_) => Err(Invalid("integer - object"))
        case Boolean(_) => Err(Invalid("integer - boolean")))
      case Float(l) => (
        match rhs
        case Integer(x) => Ok(Float(Difference(l, FromInt(x))))
        case Float(x) => Ok(Float(Difference(l, x)))
        case String(_) => Err(Invalid("float - string"))
        case Array(a) => Ok(Float(Difference(l, FromInt(|a|))))
        case Object(_) => Err(Invalid("float - object"))
        case Boolean(_) => Err(Invalid("float - boolean")))
      case String(_) => Err(Invalid("string - _"))
      case Boolean(_) => Err(Invalid("boolean - _"))
      case Object(_) => Err(Invalid("object - _"))
      case Array(_) => Err(Invalid("array - _"))
    }

    /** `neg`. */
    function Neg(): (r: Result<Value>)
      ensures r.Ok? <==> NegKind(Tag()).Some?
      ensures r.Ok? ==> r.value.Tag() == Tag()
      ensures r.Err? ==> IsInvalidOperation(r.error)
    {
      match this
      case Integer(n) => Ok(Integer(-n))
      case Float(x) => Ok(Float(Negated(x)))
      case Boolean(p) => Ok(Boolean(!p))
      case String(_) => Err(Invalid("-string"))
      case Array(_) => Err(Invalid("-array"))
      case Object(_) => Err(Invalid("-object"))
    }

    /** `div`. */
    function Div(rhs: Value): (r: Result<Value>)
      ensures r.Ok? <==> DivKind(Tag(), rhs.Tag()).Some?
      ensures r.Ok? ==> r.value.Float?
      ensures r.Err? ==> IsInvalidOperation(r.error)
    {
      match this
      case Integer(l) => (
        match rhs
        case Integer(x) => Ok(Float(Quotient(FromInt(l), FromInt(x))))
        case Float(x) => Ok(Float(Quotient(FromInt(l), x)))
        case String(_) => Err(Invalid("integer / string"))
        case Boolean(_) => Err(Invalid("integer / boolean"))
        case Array(_) => Err(Invalid("integer / array"))
        case Object(_) => Err(Invalid("integer / object")))
      case Float(l) => (
        match rhs
        case Integer(x) => Ok(Float(Quotient(l, FromInt(x))))
        case Float(x) => Ok(Float(Quotient(l, x)))
        case String(_) => Err(Invalid("float / string"))
        case Boolean(_) => Err(Invalid("float / boolean"))
        case Array(_) => Err(Invalid("float / array"))
        case Object(_) => Err(Invalid("float / object")))
      case String(_) => Err(Invalid("string / _"))
      case Boolean(_) => Err(Invalid("boolean / _"))
      case Array(_) => Err(Invalid("array / _"))
      case Object(_) => Err(Invalid("object / _"))
    }

    /** `mul` (whose messages for a non-number on the left read `/`, as in the source). */
    function Mul(rhs: Value): (r: Result<Value>)
      ensures r.Ok? <==> MulKind(Tag(), rhs.Tag()).Some?
      ensures r.Ok? ==> r.value.Tag() == MulKind(Tag(), rhs.Tag()).value
      ensures r.Err? ==> IsInvalidOperation(r.error)
    {
      match this
      case Integer(l) => (
        match rhs
        case Integer(x) => Ok(Integer(l * x))
        case Float(x) => Ok(Float(Product(FromInt(l), x)))
        case String(_) => Err(Invalid("integer * string"))
        case Boolean(_) => Err(Invalid("integer * boolean"))
        case Array(_) => Err(Invalid("integer * array"))
        case Object(_) => Err(Invalid("integer * object")))
      case Float(l) => (
        match rhs
        case Integer(x) => Ok(Float(Product(l, FromInt(x))))
        case Float(x) => Ok(Float(Product(l, x)))
        case String(_) => Err(Invalid("float * string"))
        case Boolean(_) => Err(Invalid("float * boolean"))
        case Array(_) => Err(Invalid("float * array"))
        case Object(_) => Err(Invalid("float * object")))
      case String(_) => Err(Invalid("string / _"))
      case Boolean(_) => Err(Invalid("boolean / _"))
      case Array(_) => Err(Invalid("array / _"))
      case Object(_) => Err(Invalid("object / _"))
    }

    /**
     * `resolve`: descend from this value along the pieces a path cursor at `pos`
     * still yields; an Object is entered by key, an Array by a decimal index.
     */
    function Resolve(path: string, pos: nat): (r: Option<Value>)
      requires pos <= |path|
      ensures NextPiece(path, pos).0.None? ==> r == Some(this)
      ensures NextPiece(path, pos).0.Some? && Tag() !in {ObjectKind, ArrayKind} ==> r.None?
      decreases |path| - pos
    {
      match NextPiece(path, pos)
      case (None, _) => Some(this)
      case (Some(name), next) => (
        match this
        case Object(m) => if name in m then m[name].Resolve(path, next) else None
        case Array(a) => (
          match ParseInt(name, 0, USIZE_MAX)
          case Some(index) => if index < |a| then a[index].Resolve(path, next) else None
          case None => None)
        case _ => None)
    }
  }

  /**
   * One step into a value by a path segment: an Object's entry under that key, or
   * an Array's element at the index the segment spells in decimal; nothing for a
   * missing key, a segment that is not a number, an index past the end, or a
   * scalar value.
   */
  function Child(v: Value, segment: string): (r: Option<Value>)
    ensures r.Some? <==>
      || (v.Object? && segment in v.fields)
      || (v.Array? && ParseInt(segment, 0, USIZE_MAX).Some? && ParseInt(segment, 0, USIZE_MAX).value < |v.items|)
  {
    match v
    case Object(m) => if segment in m then Some(m[segment]) else None
    case Array(a) =>
      var index := ParseInt(segment, 0, USIZE_MAX);
      if index.Some? && index.value < |a| then Some(a[index.value]) else None
    case _ => None
  }

  /** Follow a list of segments from `v`, one `Child` step each. */
  function Walk(v: Value, segments: seq<string>): Option<Value>
  {
    if segments == [] then Some(v)
    else match Child(v, segments[0])
      case None => None
      case Some(c) => Walk(c, segments[1..])
  }

  lemma {:induction false} ResolveFollowsPieces(v: Value, path: string, pos: nat)
    requires pos <= |path|
    ensures v.Resolve(path, pos) == Walk(v, Pieces(path, pos))
    decreases |path| - pos
  {
    match NextPiece(path, pos)
    case (None, _) =>
    case (Some(name), next) =>
      var ps := Pieces(path, pos);
      assert ps[0] == name && ps[1..] == Pieces(path, next);
      match Child(v, name)
      case None =>
      case Some(c) => ResolveFollowsPieces(c, path, next);
  }

  /** `resolve` from a fresh cursor walks exactly the segments of the dotted path. */
  lemma {:induction false} ResolveFollowsSegments(v: Value, path: string)
    ensures v.Resolve(path, 0) == Walk(v, Segments(path))
  {
    ResolveFollowsPieces(v, path, 0);
    PiecesAreSegments(path, 0);
    assert path[0..] == path;
  }

  /**
   * `Value::resolve` run against a live `PathSplitter`, which it advances; the
   * result is the one `Resolve` describes for the cursor's starting position.
   */
  method ResolveAlong(v: Value, p: PathSplitter) returns (r: Option<Value>)
    requires p.Valid()
    modifies p
    ensures p.Valid()
    ensures r == v.Resolve(p.path, old(p.pos))
    decreases |p.path| - p.pos
  {
    var name := p.Next();
    match name
    case None =>
      r := Some(v);
    case Some(key) =>
      match v
      case Object(m) =>
        if key in m {
          r := ResolveAlong(m[key], p);
        } else {
          r := None;
        }
      case Array(a) =>
        var index := ParseInt(key, 0, USIZE_MAX);
        if index.Some? && index.value < |a| {
          r := ResolveAlong(a[index.value], p);
        } else {
          r := None;
        }
      case _ =>
        r := None;
  }

  // ---- Facts about the arithmetic tables ----

  /** `div` gives a Float whatever numbers it is given; `+`, `-`, `*` keep two Integers Integer. */
  lemma {:induction false} NumericResultKinds(l: Value, r: Value)
    requires IsNumber(l.Tag()) && IsNumber(r.Tag())
    ensures l.Div(r).Ok? && l.Div(r).value.Float?
    ensures l.Integer? && r.Integer? ==> l.Add(r).value.Integer? && l.Sub(r).value.Integer? && l.Mul(r).value.Integer?
    ensures l.Float? || r.Float? ==> l.Add(r).value.Float? && l.Sub(r).value.Float? && l.Mul(r).value.Float?
  {
  }

  /** Two Arrays add to their concatenation, left elements first. */
  lemma {:induction false} AddArrays(a: seq<Value>, b: seq<Value>)
    ensures Array(a).Add(Array(b)) == Ok(Array(a + b))
    ensures |Array(a).Add(Array(b)).value.items| == |a| + |b|
  {
  }

  /** Next to a number, an Array counts as its length under `+` (both sides) and on the right of `-`. */
  lemma {:induction false} ArrayActsAsLength(n: int, x: F64, a: seq<Value>)
    ensures Integer(n).Add(Array(a)) == Ok(Integer(n + |a|))
    ensures Array(a).Add(Integer(n)) == Ok(Integer(|a| + n))
    ensures Integer(n).Sub(Array(a)) == Ok(Integer(n - |a|))
    ensures Float(x).Add(Array(a)) == Ok(Float(Sum(x, FromInt(|a|))))
    ensures Array(a).Add(Float(x)) == Ok(Float(Sum(FromInt(|a|), x)))
    ensures Float(x).Sub(Array(a)) == Ok(Float(Difference(x, FromInt(|a|))))
  {
  }

  /** The pairings every operator refuses. */
  lemma {:induction false} RefusedPairings(l: Value, r: Value)
    ensures l.Array? ==> l.Sub(r).Err? && l.Mul(r).Err? && l.Div(r).Err?
    ensures r.Array? ==> l.Mul(r).Err? && l.Div(r).Err?
    ensures l.Boolean? || l.Object? || r.Object? ==> l.Add(r).Err? && l.Sub(r).Err? && l.Mul(r).Err? && l.Div(r).Err?
    ensures l.String? || r.String? ==> l.Sub(r).Err? && l.Mul(r).Err? && l.Div(r).Err?
    ensures (l.String? && r.Tag() in {ArrayKind, ObjectKind, BooleanKind}) || (r.String? && l.Tag() in {ArrayKind, ObjectKind, BooleanKind}) ==> l.Add(r).Err?
  {
  }

  /** Negating twice gives back an Integer or a Boolean; String, Array and Object cannot be negated. */
  lemma {:induction false} NegTwice(v: Value)
    ensures v.Integer? || v.Boolean? ==> v.Neg().Ok? && v.Neg().value.Neg() == Ok(v)
    ensures v.Tag() in {StringKind, ArrayKind, ObjectKind} ==> v.Neg().Err?
  {
  }

  /** Integer addition does not depend on operand order. */
  /** `+` with a String on either side concatenates, the other operand turned into its text. */
  lemma {:induction false} AddConcatenates(s: string, t: string, n: int, x: F64)
    ensures String(s).Add(String(t)) == Ok(String(s + t))
    ensures String(s).Add(Integer(n)) == Ok(String(s + IntText(n)))
    ensures Integer(n).Add(String(s)) == Ok(String(IntText(n) + s))
    ensures String(s).Add(Float(x)) == Ok(String(s + FloatText(x)))
    ensures Float(x).Add(String(s)) == Ok(String(FloatText(x) + s))
  {
  }

  /** Chained concatenation: `"a" + 1 + 2` is `"a12"`, not `"a3"`. */
  lemma {:induction false} ConcatenationExample()
    ensures String("a").Add(Integer(1)).value.Add(Integer(2)) == Ok(String("a12"))
  {
    assert DigitChar(1) == '1' && DigitChar(2) == '2';
    assert IntText(1) == "1" && IntText(2) == "2";
    assert "a" + IntText(1) == "a1";
    assert "a1" + IntText(2) == "a12";
  }

  /** Integer operands give the integer sum, difference and product. */
  lemma {:induction false} IntegerArithmetic(a: int, b: int)
    ensures Integer(a).Add(Integer(b)) == Ok(Integer(a + b))
    ensures Integer(a).Sub(Integer(b)) == Ok(Integer(a - b))
    ensures Integer(a).Mul(Integer(b)) == Ok(Integer(a * b))
  {
  }

  lemma {:induction false} AddIntegersCommutes(a: int, b: int)
    ensures Integer(a).Add(Integer(b)) == Integer(b).Add(Integer(a))
  {
  }
}
