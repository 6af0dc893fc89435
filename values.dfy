/**
 * The schema-less values that flow through a run: the workflow state, tool
 * configurations and the literals of conditional edges.  A Python value is
 * modelled as a tagged union, together with the parts of Python's semantics
 * the engine and the tools rely on: `==`, the ordering operators (which can
 * raise TypeError), `str`/`repr`, and the exceptions those operations raise.
 */
module Values {

  datatype Option<+T> = None | Some(value: T) {
    function GetOr(default: T): T {
      match this
      case Some(v) => v
      case None => default
    }
  }

  /** A Python exception, by class, with what `str(e)` renders for it. */
  datatype Exception =
    | KeyError(key: string)
    | TypeError(message: string)
    | AttributeError(message: string)
  {
    /** `str(e)`: a KeyError shows the repr of its argument, the others their message. */
    function Text(): string {
      match this
      case KeyError(k) => Repr(k)
      case TypeError(m) => m
      case AttributeError(m) => m
    }
  }

  /** Either a value or the exception raised while computing it. */
  datatype Result<+T> = Ok(value: T) | Err(error: Exception) {
    predicate IsFailure() {
      Err?
    }

    function PropagateFailure<U>(): Result<U>
      requires Err?
    {
      Err(error)
    }

    function Extract(): T
      requires Ok?
    {
      value
    }
  }

  /** A JSON-like Python value: None, bool, int, str or list. */
  datatype Value =
    | Null
    | Bool(b: bool)
    | Int(i: int)
    | Str(s: string)
    | List(items: seq<Value>)

  /** The workflow state (and a node's config): a dict from string keys to values. */
  type State = map<string, Value>

  /** `d.get(key, default)` */
  function Get(d: State, key: string, default: Value): Value {
    if key in d then d[key] else default
  }

  /** Python's `type(v).__name__`, used in the messages of TypeError. */
  function TypeName(v: Value): string {
    match v
    case Null => "NoneType"
    case Bool(_) => "bool"
    case Int(_) => "int"
    case Str(_) => "str"
    case List(_) => "list"
  }

  /** bool is a subclass of int in Python: both take part in arithmetic and ordering. */
  predicate IsNumber(v: Value) {
    v.Bool? || v.Int?
  }

  function NumberOf(v: Value): int
    requires IsNumber(v)
  {
    match v
    case Bool(b) => if b then 1 else 0
    case Int(i) => i
  }

  /** Python's `a == b` on these values; it never raises. */
  predicate Equal(a: Value, b: Value)
    decreases a
  {
    if a.Null? && b.Null? then true
    else if IsNumber(a) && IsNumber(b) then NumberOf(a) == NumberOf(b)
    else if a.Str? && b.Str? then a.s == b.s
    else if a.List? && b.List? then
      |a.items| == |b.items| && forall k :: 0 <= k < |a.items| ==> Equal(a.items[k], b.items[k])
    else false
  }

  lemma {:induction false} EqualSymmetric(a: Value, b: Value)
    ensures Equal(a, b) == Equal(b, a)
    decreases a
  {
    if a.List? && b.List? && |a.items| == |b.items| {
      forall k | 0 <= k < |a.items|
        ensures Equal(a.items[k], b.items[k]) == Equal(b.items[k], a.items[k])
      {
        EqualSymmetric(a.items[k], b.items[k]);
      }
    }
  }

  lemma {:induction false} EqualReflexive(a: Value)
    ensures Equal(a, a)
    decreases a
  {
    if a.List? {
      forall k | 0 <= k < |a.items|
        ensures Equal(a.items[k], a.items[k])
      {
        EqualReflexive(a.items[k]);
      }
    }
  }

  /** The four ordering operators `<`, `<=`, `>`, `>=`. */
  datatype OrderOp = Lt | Le | Gt | Ge {
    function Symbol(): string {
      match this
      case Lt => "<"
      case Le => "<="
      case Gt => ">"
      case Ge => ">="
    }

    predicate Holds(x: int, y: int) {
      match this
      case Lt => x < y
      case Le => x <= y
      case Gt => x > y
      case Ge => x >= y
    }
  }

  /** The first index at or after `k` where two strings differ, or the shorter length. */
  function CharMismatch(x: string, y: string, k: nat): (r: nat)
    requires k <= |x| && k <= |y|
    ensures k <= r <= |x| && r <= |y|
    ensures forall j :: k <= j < r ==> x[j] == y[j]
    ensures r < |x| && r < |y| ==> x[r] != y[r]
    decreases |x| - k
  {
    if k == |x| || k == |y| || x[k] != y[k] then k else CharMismatch(x, y, k + 1)
  }

  /** The first index at or after `k` where two lists hold unequal items, or the shorter length. */
  function ItemMismatch(xs: seq<Value>, ys: seq<Value>, k: nat): (r: nat)
    requires k <= |xs| && k <= |ys|
    ensures k <= r <= |xs| && r <= |ys|
    ensures forall j :: k <= j < r ==> Equal(xs[j], ys[j])
    ensures r < |xs| && r < |ys| ==> !Equal(xs[r], ys[r])
    decreases |xs| - k
  {
    if k == |xs| || k == |ys| || !Equal(xs[k], ys[k]) then k else ItemMismatch(xs, ys, k + 1)
  }

  /**
   * Python's `a OP b` for an ordering operator.  Numbers (bool and int)
   * compare by value; strings compare code point by code point, then by
   * length; lists compare their first unequal items, then their lengths.
   * Any other pairing -- None on either side, a string against a number,
   * and so on -- raises TypeError.
   */
  function Compare(op: OrderOp, a: Value, b: Value): (r: Result<bool>)
    ensures r.Err? ==> r.error.TypeError?
    decreases a
  {
    if IsNumber(a) && IsNumber(b) then
      Ok(op.Holds(NumberOf(a), NumberOf(b)))
    else if a.Str? && b.Str? then
      var i := CharMismatch(a.s, b.s, 0);
      if i < |a.s| && i < |b.s| then Ok(op.Holds(a.s[i] as int, b.s[i] as int))
      else Ok(op.Holds(|a.s|, |b.s|))
    else if a.List? && b.List? then
      var i := ItemMismatch(a.items, b.items, 0);
      if i < |a.items| && i < |b.items| then Compare(op, a.items[i], b.items[i])
      else Ok(op.Holds(|a.items|, |b.items|))
    else
      Err(TypeError("'" + op.Symbol() + "' not supported between instances of '"
                    + TypeName(a) + "' and '" + TypeName(b) + "'"))
  }

  /** Two results agree on whether they raise and, when they do not, on their value. */
  predicate SameOutcome(r: Result<bool>, r': Result<bool>) {
    r.Ok? == r'.Ok? && (r.Ok? ==> r.value == r'.value)
  }

  lemma CharMismatchSymmetric(x: string, y: string)
    ensures CharMismatch(x, y, 0) == CharMismatch(y, x, 0)
  {
  }

  lemma ItemMismatchSymmetric(xs: seq<Value>, ys: seq<Value>)
    ensures ItemMismatch(xs, ys, 0) == ItemMismatch(ys, xs, 0)
  {
    var i, j := ItemMismatch(xs, ys, 0), ItemMismatch(ys, xs, 0);
    if i < j {
      EqualSymmetric(xs[i], ys[i]);
    } else if j < i {
      EqualSymmetric(ys[j], xs[j]);
    }
  }

  /** The pairs of operators that swap into each other when the operands are swapped. */
  predicate Converse(op: OrderOp, op': OrderOp) {
    (op, op') == (Gt, Lt) || (op, op') == (Ge, Le)
  }

  /** Two strings compare at their first differing character, or else by length, in either order. */
  lemma StrConverse(op: OrderOp, op': OrderOp, x: string, y: string)
    requires Converse(op, op')
    ensures SameOutcome(Compare(op, Str(y), Str(x)), Compare(op', Str(x), Str(y)))
  {
    CharMismatchSymmetric(x, y);
  }

  /** Two lists compare at the first index where their items differ, or else by length. */
  lemma ListComparesAt(op: OrderOp, a: Value, b: Value, i: nat)
    requires a.List? && b.List? && i == ItemMismatch(a.items, b.items, 0)
    ensures i < |a.items| && i < |b.items| ==> Compare(op, a, b) == Compare(op, a.items[i], b.items[i])
    ensures !(i < |a.items| && i < |b.items|) ==> Compare(op, a, b) == Ok(op.Holds(|a.items|, |b.items|))
  {
  }

  lemma {:induction false} ListConverse(op: OrderOp, op': OrderOp, a: Value, b: Value)
    requires Converse(op, op') && a.List? && b.List?
    ensures SameOutcome(Compare(op, b, a), Compare(op', a, b))
    decreases a, 0
  {
    ItemMismatchSymmetric(a.items, b.items);
    var i := ItemMismatch(a.items, b.items, 0);
    ListComparesAt(op, b, a, i);
    ListComparesAt(op', a, b, i);
    if i < |a.items| && i < |b.items| {
      CompareConverse(op, op', a.items[i], b.items[i]);
    }
  }

  /**
   * `b > a` behaves exactly as `a < b`, and `b >= a` as `a <= b`: they raise
   * on the same operands and otherwise give the same answer.
   */
  lemma {:induction false} CompareConverse(op: OrderOp, op': OrderOp, a: Value, b: Value)
    requires Converse(op, op')
    ensures SameOutcome(Compare(op, b, a), Compare(op', a, b))
    decreases a, 1
  {
    if IsNumber(a) && IsNumber(b) {
    } else if a.Str? && b.Str? {
      StrConverse(op, op', a.s, b.s);
    } else if a.List? && b.List? {
      ListConverse(op, op', a, b);
    } else {
      UnorderedRaises(op, b, a);
      UnorderedRaises(op', a, b);
    }
  }

  /** For strings, `x <= y` holds exactly when `x < y` or `x == y`. */
  lemma StrLeIsLtOrEqual(x: string, y: string)
    ensures Compare(Le, Str(x), Str(y)) == Ok(Compare(Lt, Str(x), Str(y)).value || x == y)
  {
    var i := CharMismatch(x, y, 0);
    if !(i < |x| && i < |y|) && |x| == |y| {
      assert x == y;
    }
  }

  /** Operands of no common orderable kind raise under `<=` as under `<`. */
  lemma UnorderedRaises(op: OrderOp, a: Value, b: Value)
    requires !(IsNumber(a) && IsNumber(b)) && !(a.Str? && b.Str?) && !(a.List? && b.List?)
    ensures Compare(op, a, b).Err?
  {
  }

  lemma {:induction false} ListLeIsLtOrEqual(a: Value, b: Value)
    requires a.List? && b.List?
    ensures Compare(Le, a, b).Ok? == Compare(Lt, a, b).Ok?
    ensures Compare(Lt, a, b).Ok? ==>
              Compare(Le, a, b).value == (Compare(Lt, a, b).value || Equal(a, b))
    decreases a, 0
  {
    var i := ItemMismatch(a.items, b.items, 0);
    ListComparesAt(Le, a, b, i);
    ListComparesAt(Lt, a, b, i);
    if i < |a.items| && i < |b.items| {
      CompareLeIsLtOrEqual(a.items[i], b.items[i]);
    }
  }

  /**
   * Whether an ordering comparison raises depends only on the operands, and
   * `a <= b` holds exactly when `a < b` or `a == b`.
   */
  lemma {:induction false} CompareLeIsLtOrEqual(a: Value, b: Value)
    ensures Compare(Le, a, b).Ok? == Compare(Lt, a, b).Ok?
    ensures Compare(Lt, a, b).Ok? ==>
              Compare(Le, a, b).value == (Compare(Lt, a, b).value || Equal(a, b))
    decreases a, 1
  {
    if a.Str? && b.Str? {
      StrLeIsLtOrEqual(a.s, b.s);
    } else if a.List? && b.List? {
      ListLeIsLtOrEqual(a, b);
    } else if !(IsNumber(a) && IsNumber(b)) {
      UnorderedRaises(Le, a, b);
      UnorderedRaises(Lt, a, b);
    }
  }

  /** Whether an ordering comparison raises does not depend on the operator. */
  lemma {:induction false} CompareRaisesRegardlessOfOperator(op: OrderOp, op': OrderOp, a: Value, b: Value)
    ensures Compare(op, a, b).Ok? == Compare(op', a, b).Ok?
    decreases a
  {
    if a.List? && b.List? {
      var i := ItemMismatch(a.items, b.items, 0);
      if i < |a.items| && i < |b.items| {
        CompareRaisesRegardlessOfOperator(op, op', a.items[i], b.items[i]);
      }
    }
  }

  /** Operands Python can order are ordered totally: exactly one of `a < b`, `a == b`, `a > b`. */
  lemma {:induction false} CompareTrichotomy(a: Value, b: Value)
    requires Compare(Lt, a, b).Ok?
    ensures Compare(Gt, a, b).Ok?
    ensures Compare(Lt, a, b).value || Equal(a, b) || Compare(Gt, a, b).value
    ensures !(Compare(Lt, a, b).value && Equal(a, b))
    ensures !(Compare(Gt, a, b).value && Equal(a, b))
    ensures !(Compare(Lt, a, b).value && Compare(Gt, a, b).value)
    decreases a
  {
    CompareRaisesRegardlessOfOperator(Lt, Gt, a, b);
    if a.Str? && b.Str? {
      var i := CharMismatch(a.s, b.s, 0);
      if !(i < |a.s| && i < |b.s|) && |a.s| == |b.s| {
        assert a.s == b.s;
      }
    } else if a.List? && b.List? {
      var i := ItemMismatch(a.items, b.items, 0);
      if i < |a.items| && i < |b.items| {
        CompareTrichotomy(a.items[i], b.items[i]);
      } else if |a.items| == |b.items| {
        assert Equal(a, b);
      }
    }
  }

  /** The decimal digits of a natural number. */
  function NatText(n: nat): (r: string)
    ensures |r| > 0 && forall k :: 0 <= k < |r| ==> '0' <= r[k] <= '9'
  {
    var d := ['0' + (n % 10) as char];
    if n < 10 then d else NatText(n / 10) + d
  }

  /** `str(n)` for an int. */
  function IntText(n: int): string {
    if n < 0 then "-" + NatText(-n) else NatText(n)
  }

  /**
   * `repr(s)` for a string: single quotes unless the text holds a single
   * quote and no double quote; backslash, the chosen quote, newline, carriage
   * return and tab are escaped.
   */
  function Repr(s: string): string {
    var q := if '\'' in s && '"' !in s then '"' else '\'';
    [q] + Escape(s, q) + [q]
  }

  function Escape(s: string, q: char): string {
    if s == [] then []
    else
      var c := s[0];
      var e := if c == q || c == '\\' then ['\\', c]
               else if c == '\n' then "\\n"
               else if c == '\r' then "\\r"
               else if c == '\t' then "\\t"
               else [c];
      e + Escape(s[1..], q)
  }

  /** `str(v)`; the items of a list are shown by their repr. */
  function Text(v: Value): string
    decreases v, 1
  {
    match v
    case Null => "None"
    case Bool(b) => if b then "True" else "False"
    case Int(i) => IntText(i)
    case Str(s) => s
    case List(xs) => "[" + ItemsText(v, 0) + "]"
  }

  /** The items of list `v` from index `k` on, each by its repr, separated by ", ". */
  function ItemsText(v: Value, k: nat): string
    requires v.List? && k <= |v.items|
    decreases v, 0, |v.items| - k
  {
    if k == |v.items| then ""
    else
      var x := v.items[k];
      var shown := if x.Str? then Repr(x.s) else Text(x);
      (if k == 0 then "" else ", ") + shown + ItemsText(v, k + 1)
  }
}
