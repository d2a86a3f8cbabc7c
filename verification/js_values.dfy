/**
 * The JavaScript comparisons the rule engine applies to instance-variable
 * values and rule literals: `==`, `<`, `>`, `<=`, `>=`. A string that is not
 * empty converts to NaN here (numeric strings are not parsed).
 */
module JsValues {
  import opened Wrappers
  import opened Types

  /** `Number(v)`; `None` is NaN. */
  function ToNumber(v: Value): (r: Option<real>)
    ensures v.Num? ==> r == Some(v.n)
    ensures v.Bool? ==> r == Some(if v.b then 1.0 else 0.0)
    ensures v.Undefined? ==> r.None?
    ensures v.Str? && v.s == "" ==> r == Some(0.0)
    ensures v.Str? && v.s != "" ==> r.None?
  {
    match v
    case Undefined => None
    case Num(n) => Some(n)
    case Bool(b) => Some(if b then 1.0 else 0.0)
    case Str(s) => if s == "" then Some(0.0) else None
  }

  /** `a == b`. */
  predicate LooseEquals(a: Value, b: Value) {
    if a.Undefined? || b.Undefined? then a.Undefined? && b.Undefined?
    else if a.Str? && b.Str? then a.s == b.s
    else if a.Bool? && b.Bool? then a.b == b.b
    else
      var x := ToNumber(a);
      var y := ToNumber(b);
      x.Some? && y.Some? && x.value == y.value
  }

  /** Code-unit order on strings, as `<` compares two strings. */
  predicate StrLess(a: string, b: string) {
    if a == [] then b != []
    else if b == [] then false
    else if a[0] != b[0] then a[0] < b[0]
    else StrLess(a[1..], b[1..])
  }

  /** `a < b`. */
  predicate Less(a: Value, b: Value) {
    if a.Str? && b.Str? then StrLess(a.s, b.s)
    else
      var x := ToNumber(a);
      var y := ToNumber(b);
      x.Some? && y.Some? && x.value < y.value
  }

  /** `a <= b`: false whenever either side is NaN. */
  predicate LessEq(a: Value, b: Value) {
    if a.Str? && b.Str? then !StrLess(b.s, a.s)
    else
      var x := ToNumber(a);
      var y := ToNumber(b);
      x.Some? && y.Some? && x.value <= y.value
  }

  /** The comparison named by a rule's `operator` ("=", ">", "<", ">=", "<=");
      any other operator never matches. */
  predicate Compare(op: string, a: Value, b: Value) {
    if op == "=" then LooseEquals(a, b)
    else if op == ">" then Less(b, a)
    else if op == "<" then Less(a, b)
    else if op == ">=" then LessEq(b, a)
    else if op == "<=" then LessEq(a, b)
    else false
  }

  /** Loose equality is symmetric. */
  lemma LooseEqualsSymmetric(a: Value, b: Value)
    ensures LooseEquals(a, b) == LooseEquals(b, a)
  {
  }

  /** On two numbers every operator is the real comparison it names. */
  lemma CompareNumbers(op: string, x: real, y: real)
    ensures Compare(op, Num(x), Num(y)) ==
      (if op == "=" then x == y else if op == ">" then x > y else if op == "<" then x < y
       else if op == ">=" then x >= y else if op == "<=" then x <= y else false)
  {
  }

  /** String order is strict: irreflexive, and at most one direction holds. */
  lemma {:induction false} StrLessStrict(a: string, b: string)
    ensures !StrLess(a, a)
    ensures !(StrLess(a, b) && StrLess(b, a))
    decreases |a|
  {
    if a != [] {
      StrLessStrict(a[1..], a[1..]);
      if b != [] && a[0] == b[0] {
        StrLessStrict(a[1..], b[1..]);
      }
    }
  }

  /** Two different strings are ordered one way or the other. */
  lemma {:induction false} StrLessTotal(a: string, b: string)
    requires a != b
    ensures StrLess(a, b) || StrLess(b, a)
    decreases |a|
  {
    if a != [] && b != [] && a[0] == b[0] {
      assert a == [a[0]] + a[1..] && b == [b[0]] + b[1..];
      StrLessTotal(a[1..], b[1..]);
    }
  }

  /** For two strings `>=` is "`>` or equal", as for numbers. */
  lemma GreaterEqIsGreaterOrEqual(a: string, b: string)
    ensures Compare(">=", Str(a), Str(b)) <==> Compare(">", Str(a), Str(b)) || a == b
  {
    StrLessStrict(a, b);
    if a != b {
      StrLessTotal(a, b);
    }
  }

  /** An undefined value never satisfies `<`, `>`, `<=` or `>=`. */
  lemma UndefinedIncomparable(op: string, v: Value)
    requires op != "="
    ensures !Compare(op, Undefined, v) && !Compare(op, v, Undefined)
  {
  }
}
