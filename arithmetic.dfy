/**
 * The integer operators behind the numeric builtins shared by both
 * evaluator variants: the five comparison functors, the six folding
 * functors, and the two loops that apply them to a list of numbers.
 * Integers are unbounded: the 32-bit `int` of the functors is not modelled.
 */
module Arithmetic {
  import opened Errors

  /** The comparison functors `Greater`, `Less`, `GreaterEqual`, `LessEqual`, `Equal`. */
  datatype Relation = Greater | Less | GreaterEqual | LessEqual | Equal

  predicate Holds(rel: Relation, a: int, b: int) {
    match rel
    case Greater => a > b
    case Less => a < b
    case GreaterEqual => a >= b
    case LessEqual => a <= b
    case Equal => a == b
  }

  /** The relation holds between every element and the next; vacuous for fewer than two. */
  predicate AllAdjacent(rel: Relation, ns: seq<int>) {
    forall k | 1 <= k < |ns| :: Holds(rel, ns[k - 1], ns[k])
  }

  /** The second loop of `Compare`: stop at the first neighbouring pair that fails. */
  method AdjacentHold(rel: Relation, ns: seq<int>) returns (f: bool)
    ensures f == AllAdjacent(rel, ns)
  {
    f := true;
    var i := 1;
    while i < |ns|
      invariant 1 <= i <= |ns| || |ns| == 0
      invariant forall k | 1 <= k < i && k < |ns| :: Holds(rel, ns[k - 1], ns[k])
    {
      if !Holds(rel, ns[i - 1], ns[i]) {
        f := false;
        break;
      }
      i := i + 1;
    }
  }

  /** The folding functors `Sum`, `Mul`, `Minus`, `Devide`, `Max`, `Min`. */
  datatype Operator = Sum | Mul | Minus | Divide | Max | Min

  /**
   * C++ integer division, which truncates toward zero (Dafny's own `/` is
   * Euclidean): the quotient's magnitude is that of the exact quotient
   * rounded down, and the remainder takes the dividend's sign.
   */
  function TruncDiv(a: int, b: int): (q: int)
    requires b != 0
    ensures var r := a - q * b;
      (if r < 0 then -r else r) < (if b < 0 then -b else b) &&
      (r == 0 || (r < 0 <==> a < 0))
  {
    var q := (if a < 0 then -a else a) / (if b < 0 then -b else b);
    if (a < 0) == (b < 0) then q else -q
  }

  /** One step of a fold; division by zero has no defined result. */
  function ApplyOp(op: Operator, a: int, b: int): Result<int> {
    match op
    case Sum => Ok(a + b)
    case Mul => Ok(a * b)
    case Minus => Ok(a - b)
    case Divide => if b == 0 then Stuck(UndefinedBehaviour) else Ok(TruncDiv(a, b))
    case Max => Ok(if a >= b then a else b)
    case Min => Ok(if a <= b then a else b)
  }

  /** `acc` combined with `ns[i]`, `ns[i + 1]`, ... in turn, from the left. */
  function FoldFrom(op: Operator, acc: int, ns: seq<int>, i: nat): Result<int>
    requires i <= |ns|
    decreases |ns| - i
  {
    if i == |ns| then Ok(acc)
    else
      match ApplyOp(op, acc, ns[i])
      case Ok(next) => FoldFrom(op, next, ns, i + 1)
      case Raise(e) => Raise(e)
      case Stuck(w) => Stuck(w)
  }

  /** The accumulating loop of `DefFirst` and `NotDefFirst`, from index `start`. */
  method Fold(op: Operator, init: int, ns: seq<int>, start: nat) returns (r: Result<int>)
    requires start <= |ns|
    ensures r == FoldFrom(op, init, ns, start)
  {
    var ret := init;
    var i := start;
    while i < |ns|
      invariant start <= i <= |ns|
      invariant FoldFrom(op, ret, ns, i) == FoldFrom(op, init, ns, start)
    {
      var step := ApplyOp(op, ret, ns[i]);
      if !step.Ok? {
        return step;
      }
      ret := step.value;
      i := i + 1;
    }
    r := Ok(ret);
  }

  // ---------------------------------------------------------------------
  // What the folds compute

  function SumOf(ns: seq<int>): int {
    if ns == [] then 0 else ns[0] + SumOf(ns[1..])
  }

  function ProductOf(ns: seq<int>): int {
    if ns == [] then 1 else ns[0] * ProductOf(ns[1..])
  }

  lemma {:induction false} FoldSum(acc: int, ns: seq<int>, i: nat)
    requires i <= |ns|
    ensures FoldFrom(Sum, acc, ns, i) == Ok(acc + SumOf(ns[i..]))
    decreases |ns| - i
  {
    if i < |ns| {
      FoldSum(acc + ns[i], ns, i + 1);
      assert ns[i..][1..] == ns[i + 1..];
    }
  }

  lemma {:induction false} FoldProduct(acc: int, ns: seq<int>, i: nat)
    requires i <= |ns|
    ensures FoldFrom(Mul, acc, ns, i) == Ok(acc * ProductOf(ns[i..]))
    decreases |ns| - i
  {
    if i < |ns| {
      FoldProduct(acc * ns[i], ns, i + 1);
      assert ns[i..][1..] == ns[i + 1..];
      assert acc * ns[i] * ProductOf(ns[i + 1..]) == acc * (ns[i] * ProductOf(ns[i + 1..]));
    }
  }

  /** `+` folds from 0 to the sum of its operands. */
  lemma PlusIsSum(ns: seq<int>)
    ensures FoldFrom(Sum, 0, ns, 0) == Ok(SumOf(ns))
  {
    FoldSum(0, ns, 0);
    assert ns[0..] == ns;
  }

  /** `*` folds from 1 to the product of its operands. */
  lemma TimesIsProduct(ns: seq<int>)
    ensures FoldFrom(Mul, 1, ns, 0) == Ok(ProductOf(ns))
  {
    FoldProduct(1, ns, 0);
    assert ns[0..] == ns;
  }

  /** `-` subtracts every later operand from the first. */
  lemma MinusSubtractsRest(ns: seq<int>)
    requires |ns| > 0
    ensures FoldFrom(Minus, ns[0], ns, 1) == Ok(ns[0] - SumOf(ns[1..]))
  {
    FoldMinus(ns[0], ns, 1);
  }

  lemma {:induction false} FoldMinus(acc: int, ns: seq<int>, i: nat)
    requires i <= |ns|
    ensures FoldFrom(Minus, acc, ns, i) == Ok(acc - SumOf(ns[i..]))
    decreases |ns| - i
  {
    if i < |ns| {
      FoldMinus(acc - ns[i], ns, i + 1);
      assert ns[i..][1..] == ns[i + 1..];
    }
  }

  /** `max` over its operands is the greatest of them. */
  lemma {:induction false} FoldMax(acc: int, ns: seq<int>, i: nat)
    requires i <= |ns|
    ensures var r := FoldFrom(Max, acc, ns, i);
      r.Ok? && (r.value == acc || exists k | i <= k < |ns| :: r.value == ns[k]) &&
      acc <= r.value && forall k | i <= k < |ns| :: ns[k] <= r.value
    decreases |ns| - i
  {
    if i < |ns| {
      FoldMax(if acc >= ns[i] then acc else ns[i], ns, i + 1);
    }
  }

  /** `min` over its operands is the least of them. */
  lemma {:induction false} FoldMin(acc: int, ns: seq<int>, i: nat)
    requires i <= |ns|
    ensures var r := FoldFrom(Min, acc, ns, i);
      r.Ok? && (r.value == acc || exists k | i <= k < |ns| :: r.value == ns[k]) &&
      r.value <= acc && forall k | i <= k < |ns| :: r.value <= ns[k]
    decreases |ns| - i
  {
    if i < |ns| {
      FoldMin(if acc <= ns[i] then acc else ns[i], ns, i + 1);
    }
  }

  lemma MaxIsGreatest(ns: seq<int>)
    requires |ns| > 0
    ensures var r := FoldFrom(Max, ns[0], ns, 1);
      r.Ok? && r.value in ns && forall k | 0 <= k < |ns| :: ns[k] <= r.value
  {
    FoldMax(ns[0], ns, 1);
  }

  lemma MinIsLeast(ns: seq<int>)
    requires |ns| > 0
    ensures var r := FoldFrom(Min, ns[0], ns, 1);
      r.Ok? && r.value in ns && forall k | 0 <= k < |ns| :: r.value <= ns[k]
  {
    FoldMin(ns[0], ns, 1);
  }

  /** `/` fails only when a later operand is zero. */
  lemma {:induction false} FoldDivideDefined(acc: int, ns: seq<int>, i: nat)
    requires i <= |ns|
    ensures FoldFrom(Divide, acc, ns, i).Ok? <==> forall k | i <= k < |ns| :: ns[k] != 0
    ensures !FoldFrom(Divide, acc, ns, i).Ok? ==> FoldFrom(Divide, acc, ns, i) == Stuck(UndefinedBehaviour)
    decreases |ns| - i
  {
    if i < |ns| && ns[i] != 0 {
      FoldDivideDefined(TruncDiv(acc, ns[i]), ns, i + 1);
    }
  }

  /**
   * The index operand of `list-ref` and `list-tail` converted to `size_t`:
   * a negative value becomes larger than any list length, so it is out of range.
   */
  predicate IndexBelow(index: int, bound: nat) { 0 <= index < bound }

  function AbsInt(n: int): (r: nat)
    ensures r == n || r == -n
  {
    if n < 0 then -n else n
  }
}
