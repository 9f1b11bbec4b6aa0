/**
 * The basic evaluator: symbols evaluate to themselves, and a pair whose
 * head names one of 27 builtins applies that builtin to its operand list.
 * Values are never changed in place, so evaluation is a function on
 * `Datum`; the methods below follow the C++ functors loop for loop and are
 * proved to compute exactly that function.
 */
module BasicScheme {
  import opened Errors
  import opened Options
  import opened Lexer
  import opened Reader
  import opened Arithmetic
  import opened BasicObject

  const True: Datum := Sym("#t")
  const False: Datum := Sym("#f")

  /** The fresh `#t` or `#f` symbol a predicate returns. */
  function Bool(b: bool): Datum { if b then True else False }

  /** The run-time type tags; `Is` on the null pointer is false for every tag. */
  datatype Tag = NumberTag | SymbolTag | CellTag

  predicate Is(d: Datum, t: Tag) {
    match d
    case Nil => false
    case Num(_) => t == NumberTag
    case Sym(_) => t == SymbolTag
    case Pair(_, _) => t == CellTag
  }

  /** `IsListOfT<T>`: every element carries the tag. */
  predicate IsListOf(list: seq<Datum>, t: Tag) { forall k | 0 <= k < |list| :: Is(list[k], t) }

  method IsListOfT(list: seq<Datum>, t: Tag) returns (ret: bool)
    ensures ret == IsListOf(list, t)
  {
    ret := true;
    for i := 0 to |list|
      invariant ret == IsListOf(list[..i], t)
    {
      if !Is(list[i], t) {
        ret := false;
      }
      assert list[..i + 1] == list[..i] + [list[i]];
    }
    assert list[..|list|] == list;
  }

  // ---------------------------------------------------------------------
  // Flattening an operand list

  /** What `CellToVector` can be given without an unchecked cast going wrong. */
  predicate Walkable(d: Datum) { d.Nil? || d.Pair? }

  /**
   * `CellToVector`: the cars along the chain of cdrs, then a non-null
   * final cdr as one more element.  So `(a . b)` and `(a b)` flatten alike.
   */
  function Flatten(d: Datum): (xs: seq<Datum>)
    requires Walkable(d)
    ensures forall k | 0 <= k < |xs| :: xs[k] < d
    ensures d.Pair? ==> |xs| > 0 && xs[0] == d.car
  {
    match d
    case Nil => []
    case Pair(first, rest) =>
      [first] + (if rest.Pair? then Flatten(rest) else if rest == Nil then [] else [rest])
  }

  method CellToVector(list: Datum) returns (ret: seq<Datum>)
    requires Walkable(list)
    ensures ret == Flatten(list)
  {
    ret := [];
    if list == Nil {
      return;
    }
    var cur := list;
    while cur.cdr.Pair?
      invariant cur.Pair? && ret + Flatten(cur) == Flatten(list)
      decreases cur
    {
      assert Flatten(cur) == [cur.car] + Flatten(cur.cdr);
      assert ret + Flatten(cur) == (ret + [cur.car]) + Flatten(cur.cdr);
      ret := ret + [cur.car];
      cur := cur.cdr;
    }
    assert Flatten(cur) == [cur.car] + (if cur.cdr == Nil then [] else [cur.cdr]);
    ret := ret + [cur.car];
    if cur.cdr != Nil {
      ret := ret + [cur.cdr];
    }
  }

  /** The final cdr reached by following cdrs while they are pairs. */
  function LastCdr(d: Datum): Datum
    requires d.Pair?
  {
    if d.cdr.Pair? then LastCdr(d.cdr) else d.cdr
  }

  /** The walk in `CheckList`. */
  method WalkToLastCell(li: Datum) returns (last: Datum)
    requires li.Pair?
    ensures last.Pair? && last.cdr == LastCdr(li) && !last.cdr.Pair?
  {
    last := li;
    while last.cdr.Pair?
      invariant last.Pair? && LastCdr(last) == LastCdr(li)
      decreases last
    {
      last := last.cdr;
    }
  }

  // ---------------------------------------------------------------------
  // The function table

  /** The functor types of `k_functions`. */
  datatype Builtin =
    | IsNumberFn | CompareFn(rel: Relation) | DefFirstFn(op: Operator) | NotDefFirstFn(op: Operator)
    | AbsFn | QuoteFn | IsBooleanFn | NotFn | AndFn | OrFn | PairFn | NullFn | CheckListFn
    | ConsFn | CarFn | CdrFn | MakeListFn | ListRefFn | ListTailFn

  const Functions: map<string, Builtin> := map[
    "number?" := IsNumberFn,
    ">" := CompareFn(Greater), "<" := CompareFn(Less), ">=" := CompareFn(GreaterEqual),
    "<=" := CompareFn(LessEqual), "=" := CompareFn(Equal),
    "+" := DefFirstFn(Sum), "*" := DefFirstFn(Mul),
    "-" := NotDefFirstFn(Minus), "/" := NotDefFirstFn(Divide),
    "max" := NotDefFirstFn(Max), "min" := NotDefFirstFn(Min),
    "abs" := AbsFn, "quote" := QuoteFn, "boolean?" := IsBooleanFn, "not" := NotFn,
    "and" := AndFn, "or" := OrFn, "pair?" := PairFn, "null?" := NullFn, "list?" := CheckListFn,
    "cons" := ConsFn, "car" := CarFn, "cdr" := CdrFn, "list" := MakeListFn,
    "list-ref" := ListRefFn, "list-tail" := ListTailFn]

  // ---------------------------------------------------------------------
  // Evaluation

  /** `Execute`: numbers and symbols (bound or not) to themselves, pairs by their head. */
  function Eval(d: Datum): Result<Datum>
    decreases d, 3
  {
    match d
    case Nil => Stuck(UndefinedBehaviour)
    case Num(_) => Ok(d)
    case Sym(_) => Ok(d)
    case Pair(first, second) =>
      if first == Nil || !first.Sym? || first.name !in Functions then Raise(RuntimeError)
      else if second != Nil && !second.Pair? then Raise(RuntimeError)
      else Apply(Functions[first.name], second)
  }

  /** Calling a functor on the (unevaluated) operand chain. */
  function Apply(f: Builtin, obj: Datum): Result<Datum>
    requires Walkable(obj)
    decreases obj, 2
  {
    match f
    case IsNumberFn => IsNumberSpec(obj)
    case CompareFn(rel) => CompareSpec(rel, obj)
    case DefFirstFn(op) => DefFirstSpec(op, obj)
    case NotDefFirstFn(op) => NotDefFirstSpec(op, obj)
    case AbsFn => AbsSpec(obj)
    case QuoteFn => QuoteSpec(obj)
    case IsBooleanFn => IsBooleanSpec(obj)
    case NotFn => NotSpec(obj)
    case AndFn => ShortCircuit(Flatten(obj), 0, Nil, false, obj)
    case OrFn => ShortCircuit(Flatten(obj), 0, Nil, true, obj)
    case PairFn => PairSpec(obj)
    case NullFn => NullSpec(obj)
    case CheckListFn => CheckListSpec(obj)
    case ConsFn => ConsSpec(obj)
    case CarFn => CarSpec(obj)
    case CdrFn => CdrSpec(obj)
    case MakeListFn => Ok(obj)
    case ListRefFn => ListRefSpec(obj)
    case ListTailFn => ListTailSpec(obj)
  }

  /** The evaluate-everything loop, with the null check of the numeric functors. */
  function EvalChecked(list: seq<Datum>, i: nat, acc: seq<Datum>, obj: Datum): Result<seq<Datum>>
    requires i <= |list| && forall k | 0 <= k < |list| :: list[k] < obj
    decreases obj, 0, |list| - i
  {
    if i == |list| then Ok(acc)
    else if list[i] == Nil then Raise(RuntimeError)
    else
      var v :- Eval(list[i]);
      EvalChecked(list, i + 1, acc + [v], obj)
  }

  /** The loop of `number?`, which evaluates every operand and forgets the results. */
  function EvalEach(list: seq<Datum>, i: nat, obj: Datum): Result<()>
    requires i <= |list| && forall k | 0 <= k < |list| :: list[k] < obj
    decreases obj, 0, |list| - i
  {
    if i == |list| then Ok(())
    else
      var v :- Eval(list[i]);
      EvalEach(list, i + 1, obj)
  }

  /**
   * The loop of `and` (`stop` false) and `or` (`stop` true): evaluate in
   * order and answer the stop value at the first operand that evaluates to
   * it; with no operands answer the other truth value, and otherwise the
   * last operand's value.
   */
  function ShortCircuit(list: seq<Datum>, i: nat, last: Datum, stop: bool, obj: Datum): Result<Datum>
    requires i <= |list| && forall k | 0 <= k < |list| :: list[k] < obj
    decreases obj, 0, |list| - i
  {
    if i == |list| then Ok(if |list| == 0 then Bool(!stop) else last)
    else
      var v :- Eval(list[i]);
      if v == Bool(stop) then Ok(Bool(stop)) else ShortCircuit(list, i + 1, v, stop, obj)
  }

  function Values(vals: seq<Datum>): (ns: seq<int>)
    requires IsListOf(vals, NumberTag)
    ensures |ns| == |vals| && forall k | 0 <= k < |vals| :: vals[k] == Num(ns[k])
  {
    seq(|vals|, k requires 0 <= k < |vals| => vals[k].value)
  }

  function IsNumberSpec(obj: Datum): Result<Datum>
    requires Walkable(obj)
    decreases obj, 1
  {
    var list := Flatten(obj);
    var done :- EvalEach(list, 0, obj);
    Ok(Bool(IsListOf(list, NumberTag) && |list| == 1))
  }

  function CompareSpec(rel: Relation, obj: Datum): Result<Datum>
    requires Walkable(obj)
    decreases obj, 1
  {
    var vals :- EvalChecked(Flatten(obj), 0, [], obj);
    if !IsListOf(vals, NumberTag) then Raise(RuntimeError)
    else Ok(Bool(AllAdjacent(rel, Values(vals))))
  }

  function DefFirstSpec(op: Operator, obj: Datum): Result<Datum>
    requires Walkable(obj)
    decreases obj, 1
  {
    var vals :- EvalChecked(Flatten(obj), 0, [], obj);
    if !IsListOf(vals, NumberTag) then Raise(RuntimeError)
    else
      var n :- FoldFrom(op, if op == Sum then 0 else 1, Values(vals), 0);
      Ok(Num(n))
  }

  function NotDefFirstSpec(op: Operator, obj: Datum): Result<Datum>
    requires Walkable(obj)
    decreases obj, 1
  {
    var vals :- EvalChecked(Flatten(obj), 0, [], obj);
    if !IsListOf(vals, NumberTag) || |vals| == 0 then Raise(RuntimeError)
    else
      var n :- FoldFrom(op, vals[0].value, Values(vals), 1);
      Ok(Num(n))
  }

  function AbsSpec(obj: Datum): Result<Datum>
    requires Walkable(obj)
    decreases obj, 1
  {
    var vals :- EvalChecked(Flatten(obj), 0, [], obj);
    if !IsListOf(vals, NumberTag) || |vals| != 1 then Raise(RuntimeError)
    else Ok(Num(AbsInt(vals[0].value)))
  }

  function QuoteSpec(obj: Datum): Result<Datum>
    requires Walkable(obj)
  {
    var list := Flatten(obj);
    if |list| != 1 then Raise(RuntimeError) else Ok(list[0])
  }

  function IsBooleanSpec(obj: Datum): Result<Datum>
    requires Walkable(obj)
  {
    var list := Flatten(obj);
    Ok(Bool(|list| == 1 && (list[0] == True || list[0] == False)))
  }

  function NotSpec(obj: Datum): Result<Datum>
    requires Walkable(obj)
  {
    var list := Flatten(obj);
    if |list| != 1 then Raise(RuntimeError) else Ok(Bool(list[0] == False))
  }

  function PairSpec(obj: Datum): Result<Datum>
    requires Walkable(obj)
    decreases obj, 1
  {
    var list := Flatten(obj);
    if |list| != 1 then Raise(RuntimeError)
    else
      var v :- Eval(list[0]);
      if !Walkable(v) then Stuck(UndefinedBehaviour) else Ok(Bool(|Flatten(v)| == 2))
  }

  function NullSpec(obj: Datum): Result<Datum>
    requires Walkable(obj)
    decreases obj, 1
  {
    var list := Flatten(obj);
    if |list| != 1 then Raise(RuntimeError)
    else
      var v :- Eval(list[0]);
      Ok(Bool(v == Nil))
  }

  function CheckListSpec(obj: Datum): Result<Datum>
    requires Walkable(obj)
    decreases obj, 1
  {
    var list := Flatten(obj);
    if |list| != 1 then Raise(RuntimeError)
    else
      var li :- Eval(list[0]);
      if li == Nil then Ok(True)
      else if !li.Pair? then Stuck(UndefinedBehaviour)
      else Ok(Bool(LastCdr(li) == Nil))
  }

  function ConsSpec(obj: Datum): Result<Datum>
    requires Walkable(obj)
  {
    var list := Flatten(obj);
    if |list| != 2 then Raise(RuntimeError) else Ok(Pair(list[0], list[1]))
  }

  function CarSpec(obj: Datum): Result<Datum>
    requires Walkable(obj)
    decreases obj, 1
  {
    var list := Flatten(obj);
    if |list| != 1 then Raise(RuntimeError)
    else
      var v :- Eval(list[0]);
      if !Walkable(v) then Stuck(UndefinedBehaviour)
      else if |Flatten(v)| == 0 then Raise(RuntimeError)
      else Ok(Flatten(v)[0])
  }

  function CdrSpec(obj: Datum): Result<Datum>
    requires Walkable(obj)
    decreases obj, 1
  {
    var list := Flatten(obj);
    if |list| != 1 then Raise(RuntimeError)
    else
      var li :- Eval(list[0]);
      if !li.Pair? then Raise(RuntimeError) else Ok(li.cdr)
  }

  function ListRefSpec(obj: Datum): Result<Datum>
    requires Walkable(obj)
    decreases obj, 1
  {
    var list := Flatten(obj);
    if |list| != 2 || !list[0].Pair? || !list[1].Num? then Raise(RuntimeError)
    else
      var index := list[1].value;
      var v :- Eval(list[0]);
      if !Walkable(v) then Stuck(UndefinedBehaviour)
      else if !IndexBelow(index, |Flatten(v)|) then Raise(RuntimeError)
      else Ok(Flatten(v)[index])
  }

  function ListTailSpec(obj: Datum): Result<Datum>
    requires Walkable(obj)
    decreases obj, 1
  {
    var list := Flatten(obj);
    if |list| != 2 || !list[0].Pair? || !list[1].Num? then Raise(RuntimeError)
    else
      var index := list[1].value;
      var v :- Eval(list[0]);
      if !Walkable(v) then Stuck(UndefinedBehaviour)
      else if !IndexBelow(index, |Flatten(v)| + 1) then Raise(RuntimeError)
      else BuildList(Flatten(v)[index..], 0)
  }

  /** How `Run` prints a result: `()` for null, a pair in brackets, anything else as is. */
  function Print(v: Datum): string {
    if v == Nil then "()" else if v.Pair? then "(" + ToString(v) + ")" else ToString(v)
  }

  /**
   * `Interpreter::Run`: construct the tokenizer (reading the first token),
   * read one expression, reject leftover tokens and an empty expression,
   * evaluate and print.
   */
  function RunSpec(s: string): Result<string> {
    var (st0, r0) := Step(s, TState(0, None));
    if !r0.Ok? then Raise(SyntaxError)
    else
      var (st1, r1) := ReadSpec(s, st0);
      var obj :- r1;
      if !AtEnd(s, st1) then Raise(SyntaxError)
      else if obj == Nil then Raise(RuntimeError)
      else
        var v :- Eval(obj);
        Ok(Print(v))
  }

  // ---------------------------------------------------------------------
  // The functors, as the C++ writes them

  method Execute(d: Datum) returns (r: Result<Datum>)
    ensures r == Eval(d)
    decreases d, 3
  {
    match d
    case Nil => r := Stuck(UndefinedBehaviour);
    case Num(_) => r := Ok(d);
    case Sym(_) => r := Ok(d);
    case Pair(first, second) =>
      if first == Nil || !first.Sym? {
        return Raise(RuntimeError);
      }
      if first.name !in Functions {
        return Raise(RuntimeError);
      }
      if second != Nil && !second.Pair? {
        return Raise(RuntimeError);
      }
      r := Call(Functions[first.name], second);
  }

  method Call(f: Builtin, obj: Datum) returns (r: Result<Datum>)
    requires Walkable(obj)
    ensures r == Apply(f, obj)
    decreases obj, 2
  {
    match f
    case IsNumberFn => r := IsNumber(obj);
    case CompareFn(rel) => r := Compare(rel, obj);
    case DefFirstFn(op) => r := DefFirst(op, obj);
    case NotDefFirstFn(op) => r := NotDefFirst(op, obj);
    case AbsFn => r := Abs(obj);
    case QuoteFn =>
      var list := CellToVector(obj);
      r := if |list| != 1 then Raise(RuntimeError) else Ok(list[0]);
    case IsBooleanFn =>
      var list := CellToVector(obj);
      r := Ok(Bool(|list| == 1 && (list[0] == True || list[0] == False)));
    case NotFn =>
      var list := CellToVector(obj);
      r := if |list| != 1 then Raise(RuntimeError) else Ok(Bool(list[0] == False));
    case AndFn => r := AndOr(obj, false);
    case OrFn => r := AndOr(obj, true);
    case PairFn => r := IsPair(obj);
    case NullFn => r := IsNull(obj);
    case CheckListFn => r := CheckList(obj);
    case ConsFn =>
      var list := CellToVector(obj);
      r := if |list| != 2 then Raise(RuntimeError) else Ok(Pair(list[0], list[1]));
    case CarFn => r := Car(obj);
    case CdrFn => r := Cdr(obj);
    case MakeListFn => r := Ok(obj);
    case ListRefFn => r := ListRef(obj);
    case ListTailFn => r := ListTail(obj);
  }

  /** The loop that evaluates every operand, failing on a null one. */
  method EvaluateChecked(list: seq<Datum>, obj: Datum) returns (r: Result<seq<Datum>>)
    requires forall k | 0 <= k < |list| :: list[k] < obj
    ensures r == EvalChecked(list, 0, [], obj)
    decreases obj, 0
  {
    var vals: seq<Datum> := [];
    for i := 0 to |list|
      invariant |vals| == i
      invariant EvalChecked(list, i, vals, obj) == EvalChecked(list, 0, [], obj)
    {
      if list[i] == Nil {
        return Raise(RuntimeError);
      }
      var v :- Execute(list[i]);
      vals := vals + [v];
    }
    r := Ok(vals);
  }

  method IsNumber(obj: Datum) returns (r: Result<Datum>)
    requires Walkable(obj)
    ensures r == IsNumberSpec(obj)
    decreases obj, 1
  {
    var list := CellToVector(obj);
    for i := 0 to |list|
      invariant EvalEach(list, i, obj) == EvalEach(list, 0, obj)
    {
      var v := Execute(list[i]);
      if !v.Ok? {
        return v.PropagateFailure();
      }
    }
    var numbers := IsListOfT(list, NumberTag);
    r := Ok(Bool(numbers && |list| == 1));
  }

  method Compare(rel: Relation, obj: Datum) returns (r: Result<Datum>)
    requires Walkable(obj)
    ensures r == CompareSpec(rel, obj)
    decreases obj, 1
  {
    var list := CellToVector(obj);
    var vals :- EvaluateChecked(list, obj);
    var numbers := IsListOfT(vals, NumberTag);
    if !numbers {
      return Raise(RuntimeError);
    }
    var f := AdjacentHold(rel, Values(vals));
    r := Ok(Bool(f));
  }

  method DefFirst(op: Operator, obj: Datum) returns (r: Result<Datum>)
    requires Walkable(obj)
    ensures r == DefFirstSpec(op, obj)
    decreases obj, 1
  {
    var list := CellToVector(obj);
    var vals :- EvaluateChecked(list, obj);
    var numbers := IsListOfT(vals, NumberTag);
    if !numbers {
      return Raise(RuntimeError);
    }
    var n :- Fold(op, if op == Sum then 0 else 1, Values(vals), 0);
    r := Ok(Num(n));
  }

  method NotDefFirst(op: Operator, obj: Datum) returns (r: Result<Datum>)
    requires Walkable(obj)
    ensures r == NotDefFirstSpec(op, obj)
    decreases obj, 1
  {
    var list := CellToVector(obj);
    var vals :- EvaluateChecked(list, obj);
    var numbers := IsListOfT(vals, NumberTag);
    if !numbers {
      return Raise(RuntimeError);
    }
    if |vals| == 0 {
      return Raise(RuntimeError);
    }
    var n :- Fold(op, vals[0].value, Values(vals), 1);
    r := Ok(Num(n));
  }

  method Abs(obj: Datum) returns (r: Result<Datum>)
    requires Walkable(obj)
    ensures r == AbsSpec(obj)
    decreases obj, 1
  {
    var list := CellToVector(obj);
    var vals :- EvaluateChecked(list, obj);
    var numbers := IsListOfT(vals, NumberTag);
    if !numbers || |vals| != 1 {
      return Raise(RuntimeError);
    }
    r := Ok(Num(AbsInt(vals[0].value)));
  }

  /** `And` with `stop` false, `Or` with `stop` true. */
  method AndOr(obj: Datum, stop: bool) returns (r: Result<Datum>)
    requires Walkable(obj)
    ensures r == ShortCircuit(Flatten(obj), 0, Nil, stop, obj)
    decreases obj, 1
  {
    var list := CellToVector(obj);
    var last := Nil;
    for i := 0 to |list|
      invariant ShortCircuit(list, i, last, stop, obj) == ShortCircuit(list, 0, Nil, stop, obj)
    {
      var v :- Execute(list[i]);
      if v == Bool(stop) {
        return Ok(Bool(stop));
      }
      last := v;
    }
    if |list| == 0 {
      return Ok(Bool(!stop));
    }
    r := Ok(last);
  }

  method IsPair(obj: Datum) returns (r: Result<Datum>)
    requires Walkable(obj)
    ensures r == PairSpec(obj)
    decreases obj, 1
  {
    var list := CellToVector(obj);
    if |list| != 1 {
      return Raise(RuntimeError);
    }
    var v :- Execute(list[0]);
    if !Walkable(v) {
      return Stuck(UndefinedBehaviour);
    }
    list := CellToVector(v);
    r := Ok(Bool(|list| == 2));
  }

  method IsNull(obj: Datum) returns (r: Result<Datum>)
    requires Walkable(obj)
    ensures r == NullSpec(obj)
    decreases obj, 1
  {
    var list := CellToVector(obj);
    if |list| != 1 {
      return Raise(RuntimeError);
    }
    var v :- Execute(list[0]);
    r := Ok(Bool(v == Nil));
  }

  method CheckList(obj: Datum) returns (r: Result<Datum>)
    requires Walkable(obj)
    ensures r == CheckListSpec(obj)
    decreases obj, 1
  {
    var list := CellToVector(obj);
    if |list| != 1 {
      return Raise(RuntimeError);
    }
    var li :- Execute(list[0]);
    if li == Nil {
      return Ok(True);
    }
    if !li.Pair? {
      return Stuck(UndefinedBehaviour);
    }
    var last := WalkToLastCell(li);
    r := Ok(Bool(last.cdr == Nil));
  }

  method Car(obj: Datum) returns (r: Result<Datum>)
    requires Walkable(obj)
    ensures r == CarSpec(obj)
    decreases obj, 1
  {
    var list := CellToVector(obj);
    if |list| != 1 {
      return Raise(RuntimeError);
    }
    var v :- Execute(list[0]);
    if !Walkable(v) {
      return Stuck(UndefinedBehaviour);
    }
    list := CellToVector(v);
    if |list| == 0 {
      return Raise(RuntimeError);
    }
    r := Ok(list[0]);
  }

  method Cdr(obj: Datum) returns (r: Result<Datum>)
    requires Walkable(obj)
    ensures r == CdrSpec(obj)
    decreases obj, 1
  {
    var list := CellToVector(obj);
    if |list| != 1 {
      return Raise(RuntimeError);
    }
    var li :- Execute(list[0]);
    if !li.Pair? {
      return Raise(RuntimeError);
    }
    r := Ok(li.cdr);
  }

  method ListRef(obj: Datum) returns (r: Result<Datum>)
    requires Walkable(obj)
    ensures r == ListRefSpec(obj)
    decreases obj, 1
  {
    var list := CellToVector(obj);
    if |list| != 2 || !list[0].Pair? || !list[1].Num? {
      return Raise(RuntimeError);
    }
    var index := list[1].value;
    var v :- Execute(list[0]);
    if !Walkable(v) {
      return Stuck(UndefinedBehaviour);
    }
    list := CellToVector(v);
    if !IndexBelow(index, |list|) {
      return Raise(RuntimeError);
    }
    r := Ok(list[index]);
  }

  method ListTail(obj: Datum) returns (r: Result<Datum>)
    requires Walkable(obj)
    ensures r == ListTailSpec(obj)
    decreases obj, 1
  {
    var list := CellToVector(obj);
    if |list| != 2 || !list[0].Pair? || !list[1].Num? {
      return Raise(RuntimeError);
    }
    var index := list[1].value;
    var v :- Execute(list[0]);
    if !Walkable(v) {
      return Stuck(UndefinedBehaviour);
    }
    list := CellToVector(v);
    if !IndexBelow(index, |list| + 1) {
      return Raise(RuntimeError);
    }
    assert ListTailSpec(obj) == BuildList(list[index..], 0);
    var ret: seq<Datum> := [];
    for i := index to |list|
      invariant ret == list[index..i]
    {
      ret := ret + [list[i]];
    }
    assert ret == list[index..];
    r := BuildList(ret, 0);
  }

  /** `Interpreter::Run`. */
  method Run(str: string) returns (r: Result<string>)
    ensures r == RunSpec(str)
  {
    var tokenizer, started := NewTokenizer(str);
    if !started.Ok? {
      return Raise(SyntaxError);
    }
    var obj :- Read(tokenizer);
    if !tokenizer.IsEnd() {
      return Raise(SyntaxError);
    }
    if obj == Nil {
      return Raise(RuntimeError);
    }
    var v :- Execute(obj);
    r := Ok(Print(v));
  }
}
