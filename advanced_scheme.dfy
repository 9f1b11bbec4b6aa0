/**
 * What the advanced evaluator computes, as functions from the state of
 * the globals (heap, frames, `curr`) to the new state and a result.  The
 * state is returned on failure too: a `define` that ran before an error
 * stays in effect.  Recursion through `Execute` is bounded by `fuel`.
 */
module AdvancedScheme {
  import opened Errors
  import opened Options
  import opened Lexer
  import opened Reader
  import opened Arithmetic
  import opened AdvancedObject

  /** The failure of `r`, at another result type. */
  function Lift<T, U>(r: Result<T>): (r': Result<U>)
    requires !r.Ok?
    ensures !r'.Ok? && (r'.Raise? <==> r.Raise?) && (r.Raise? ==> r'.error == r.error) && (r.Stuck? ==> r'.why == r.why)
  {
    if r.Raise? then Raise(r.error) else Stuck(r.why)
  }

  // ---------------------------------------------------------------------
  // Operand lists

  /**
   * The loop of `CellToVector` from the cell at `p`: the car of every cell
   * whose cdr is again a cell, then the last cell's car (null included)
   * and its cdr when that is not null.  `steps` is how many more cells the
   * walk may move on to: a walk that has passed one more cell than the heap
   * holds has met a cell twice, and there the source loops forever.
   */
  function Walk(h: seq<Obj>, p: Ptr, steps: nat, acc: seq<Ptr>): (r: Result<seq<Ptr>>)
    ensures r.Ok? || r == Stuck(UndefinedBehaviour) || r == Stuck(Diverges)
    ensures r.Ok? ==> |r.value| > |acc| && r.value[..|acc|] == acc
    decreases steps
  {
    if !Is(h, p, CellType) then Stuck(UndefinedBehaviour)
    else
      var c := h[p.addr];
      if Is(h, c.second, CellType) then
        if steps == 0 then Stuck(Diverges)
        else
          var r := Walk(h, c.second, steps - 1, acc + [c.first]);
          assert r.Ok? ==> r.value[..|acc|] == (r.value[..|acc| + 1])[..|acc|];
          r
      else Ok(acc + [c.first] + (if c.second.Null? then [] else [c.second]))
  }

  /** `CellToVector`: null is the empty list; anything but a cell is undefined behaviour. */
  function CellToVector(h: seq<Obj>, p: Ptr): (r: Result<seq<Ptr>>)
    ensures r.Ok? || r == Stuck(UndefinedBehaviour) || r == Stuck(Diverges)
    ensures p.Null? ==> r == Ok([])
    ensures p.Ref? && r.Ok? ==> |r.value| > 0
  {
    if p.Null? then Ok([]) else Walk(h, p, |h|, [])
  }

  /** `IsListOfT`: every element is an object of type `t` (so none is null). */
  predicate AllOfType(h: seq<Obj>, list: seq<Ptr>, t: TypeObject) {
    forall k | 0 <= k < |list| :: Is(h, list[k], t)
  }

  function NumberValues(h: seq<Obj>, vals: seq<Ptr>): (ns: seq<int>)
    requires AllOfType(h, vals, NumberType)
    ensures |ns| == |vals| && forall k | 0 <= k < |vals| :: h[vals[k].addr] == Number(ns[k])
  {
    seq(|vals|, k requires 0 <= k < |vals| => h[vals[k].addr].val)
  }

  /** `make_shared` of a result. */
  function Answer(m: Machine, o: Obj): (out: (Machine, Result<Ptr>))
    ensures out.0 == m.(heap := m.heap + [o]) && out.1 == Ok(Ref(|m.heap|))
  {
    var (m1, p) := Alloc(m, o);
    (m1, Ok(p))
  }

  /** The symbol `#t` or `#f`. */
  function Bool(b: bool): Obj {
    Symbol(if b then "#t" else "#f")
  }

  /** A pointer to `#t` or `#f`. */
  predicate IsBoolSymbol(h: seq<Obj>, p: Ptr) {
    IsSymbolNamed(h, p, "#t") || IsSymbolNamed(h, p, "#f")
  }

  /** The bindings of the current frame. */
  function CurrVars(m: Machine): map<string, Ptr>
    requires CurrValid(m)
  {
    m.scopes[m.curr.value].vars
  }

  /** `curr->vars_[name] = v`. */
  function Bind(m: Machine, name: string, v: Ptr): (m': Machine)
    requires CurrValid(m)
    ensures CurrValid(m') && CurrVars(m') == CurrVars(m)[name := v]
    ensures m'.heap == m.heap && m'.curr == m.curr && |m'.scopes| == |m.scopes| && m'.lambdas == m.lambdas
    ensures forall k | 0 <= k < |m.scopes| && k != m.curr.value :: m'.scopes[k] == m.scopes[k]
  {
    var c := m.curr.value;
    m.(scopes := m.scopes[c := m.scopes[c].(vars := m.scopes[c].vars[name := v])])
  }

  // ---------------------------------------------------------------------
  // The table

  /** The functors of `k_functions`. */
  datatype Builtin =
    | IsNumberFn | CompareFn(rel: Relation) | DefFirstFn(op: Operator) | NotDefFirstFn(op: Operator)
    | AbsFn | QuoteFn | IsBooleanFn | NotFn | AndFn | OrFn | PairFn | NullFn | CheckListFn
    | ConsFn | CarFn | CdrFn | MakeListFn | ListRefFn | ListTailFn | IsSymbolFn
    | DefineFn | SetFn | IfFn | SetCarFn | MakeLambdaFn | SetCdrFn

  const Functions: map<string, Builtin> := map[
    "number?" := IsNumberFn,
    ">" := CompareFn(Greater), "<" := CompareFn(Less), ">=" := CompareFn(GreaterEqual),
    "<=" := CompareFn(LessEqual), "=" := CompareFn(Equal),
    "+" := DefFirstFn(Sum), "*" := DefFirstFn(Mul),
    "-" := NotDefFirstFn(Minus), "/" := NotDefFirstFn(Divide),
    "max" := NotDefFirstFn(Max), "min" := NotDefFirstFn(Min),
    "abs" := AbsFn, "quote" := QuoteFn, "boolean?" := IsBooleanFn, "not" := NotFn,
    "and" := AndFn, "or" := OrFn, "pair?" := PairFn, "null?" := NullFn, "list?" := CheckListFn,
    "cons" := ConsFn, "car" := CarFn, "cdr" := CdrFn, "list" := MakeListFn,
    "list-ref" := ListRefFn, "list-tail" := ListTailFn, "symbol?" := IsSymbolFn,
    "define" := DefineFn, "set!" := SetFn, "if" := IfFn,
    "set-car!" := SetCarFn, "set-cdr!" := SetCdrFn, "lambda" := MakeLambdaFn
  ]

  // ---------------------------------------------------------------------
  // Evaluation

  /**
   * `Execute` of the object at `p`.  A number and the symbols `#t`, `#f`
   * evaluate to clones; any other symbol to its binding in the current
   * frame (the very object bound, not a copy), with a name error when it
   * has none; a cell as an application; a lambda by running its body.
   * Calling through null is undefined behaviour, and so is a lookup while
   * `curr` is null.
   */
  function Eval(m: Machine, p: Ptr, fuel: nat): (Machine, Result<Ptr>)
    decreases fuel, 0
  {
    if !(p.Ref? && p.addr < |m.heap|) then (m, Stuck(UndefinedBehaviour))
    else
      match m.heap[p.addr]
      case Number(_) =>
        var (m1, q) := Clone(m, p.addr);
        (m1, Ok(q))
      case Symbol(name) =>
        if name == "#f" || name == "#t" then
          var (m1, q) := Clone(m, p.addr);
          (m1, Ok(q))
        else if !CurrValid(m) then (m, Stuck(UndefinedBehaviour))
        else if name !in CurrVars(m) then (m, Raise(NameError))
        else (m, Ok(CurrVars(m)[name]))
      case Cell(first, second) =>
        if fuel == 0 then (m, Stuck(OutOfFuel)) else ExecuteCell(m, first, second, fuel - 1)
      case Lambda(body, _, scope) =>
        if fuel == 0 then (m, Stuck(OutOfFuel)) else LambdaExecute(m, body, scope, fuel - 1)
  }

  /** The head `(lambda ...)` of an immediately applied lambda. */
  predicate IsLambdaForm(h: seq<Obj>, p: Ptr) {
    Is(h, p, CellType) && IsSymbolNamed(h, h[p.addr].first, "lambda")
  }

  /**
   * `Cell::Execute`.  A null head is a runtime error.  A head that is
   * itself a `(lambda ...)` form has its arguments flattened (and never
   * used), is turned into a lambda and run.  Otherwise the head must be a
   * symbol naming a functor and the operands null or a cell; `define`
   * answers its own head symbol.
   */
  function ExecuteCell(m: Machine, first: Ptr, second: Ptr, fuel: nat): (Machine, Result<Ptr>)
    decreases fuel, 5
  {
    if first.Null? then (m, Raise(RuntimeError))
    else if IsLambdaForm(m.heap, first) then
      var args := CellToVector(m.heap, second);
      if !args.Ok? then (m, Lift(args))
      else
        var l := LambdaParts(m.heap, first);
        if !l.Ok? then (m, Lift(l))
        else
          var (m1, _) := Alloc(m, l.value);
          LambdaExecute(m1, l.value.body, l.value.scope, fuel)
    else if !Is(m.heap, first, SymbolType) then (m, Raise(RuntimeError))
    else
      var name := m.heap[first.addr].name;
      if name !in Functions then (m, Raise(RuntimeError))
      else if second.Ref? && !Is(m.heap, second, CellType) then (m, Raise(RuntimeError))
      else if name == "define" then
        var (m1, r) := Apply(Functions[name], m, second, fuel);
        if !r.Ok? then (m1, r) else (m1, Ok(first))
      else Apply(Functions[name], m, second, fuel)
  }

  /** A functor called on the unevaluated operand chain `obj`. */
  function Apply(f: Builtin, m: Machine, obj: Ptr, fuel: nat): (Machine, Result<Ptr>)
    decreases fuel, 4
  {
    match f
    case IsNumberFn => TypeTestSpec(NumberType, m, obj, fuel)
    case CompareFn(rel) => CompareSpec(rel, m, obj, fuel)
    case DefFirstFn(op) => DefFirstSpec(op, m, obj, fuel)
    case NotDefFirstFn(op) => NotDefFirstSpec(op, m, obj, fuel)
    case AbsFn => AbsSpec(m, obj, fuel)
    case QuoteFn => QuoteSpec(m, obj)
    case IsBooleanFn => IsBooleanSpec(m, obj)
    case NotFn => NotSpec(m, obj)
    case AndFn => ShortCircuitSpec(false, m, obj, fuel)
    case OrFn => ShortCircuitSpec(true, m, obj, fuel)
    case PairFn => PairSpec(m, obj, fuel)
    case NullFn => NullSpec(m, obj, fuel)
    case CheckListFn => CheckListSpec(m, obj, fuel)
    case ConsFn => ConsSpec(m, obj)
    case CarFn => CarCdrSpec(true, m, obj, fuel)
    case CdrFn => CarCdrSpec(false, m, obj, fuel)
    case MakeListFn => (m, Ok(obj))
    case ListRefFn => ListRefSpec(m, obj, fuel)
    case ListTailFn => ListTailSpec(m, obj, fuel)
    case IsSymbolFn => TypeTestSpec(SymbolType, m, obj, fuel)
    case DefineFn => DefineSpec(m, obj, fuel)
    case SetFn => SetSpec(m, obj, fuel)
    case IfFn => IfSpec(m, obj, fuel)
    case SetCarFn => SetCarSpec(m, obj, fuel)
    case MakeLambdaFn => MakeLambdaSpec(m, obj)
    case SetCdrFn => SetCdrSpec(m, obj, fuel)
  }

  /**
   * The loop that evaluates every operand in place, with `acc` holding the
   * values of `list[..i]`; a null operand is a runtime error.
   */
  function EvalChecked(m: Machine, list: seq<Ptr>, i: nat, acc: seq<Ptr>, fuel: nat): (Machine, Result<seq<Ptr>>)
    requires i <= |list|
    decreases fuel, 1, |list| - i
  {
    if i == |list| then (m, Ok(acc))
    else if list[i].Null? then (m, Raise(RuntimeError))
    else
      var (m1, v) := Eval(m, list[i], fuel);
      if !v.Ok? then (m1, Lift(v)) else EvalChecked(m1, list, i + 1, acc + [v.value], fuel)
  }

  /** Flatten the operands and evaluate them all. */
  function Operands(m: Machine, obj: Ptr, fuel: nat): (Machine, Result<seq<Ptr>>)
    decreases fuel, 2
  {
    var l := CellToVector(m.heap, obj);
    if !l.Ok? then (m, Lift(l)) else EvalChecked(m, l.value, 0, [], fuel)
  }

  /** `number?` and `symbol?`: exactly one operand, whose value has the type. */
  function TypeTestSpec(t: TypeObject, m: Machine, obj: Ptr, fuel: nat): (Machine, Result<Ptr>)
    decreases fuel, 3
  {
    var (m1, r) := Operands(m, obj, fuel);
    if !r.Ok? then (m1, Lift(r))
    else Answer(m1, Bool(AllOfType(m1.heap, r.value, t) && |r.value| == 1))
  }

  function CompareSpec(rel: Relation, m: Machine, obj: Ptr, fuel: nat): (Machine, Result<Ptr>)
    decreases fuel, 3
  {
    var (m1, r) := Operands(m, obj, fuel);
    if !r.Ok? then (m1, Lift(r))
    else if !AllOfType(m1.heap, r.value, NumberType) then (m1, Raise(RuntimeError))
    else Answer(m1, Bool(AllAdjacent(rel, NumberValues(m1.heap, r.value))))
  }

  function DefFirstSpec(op: Operator, m: Machine, obj: Ptr, fuel: nat): (Machine, Result<Ptr>)
    decreases fuel, 3
  {
    var (m1, r) := Operands(m, obj, fuel);
    if !r.Ok? then (m1, Lift(r))
    else if !AllOfType(m1.heap, r.value, NumberType) then (m1, Raise(RuntimeError))
    else
      var n := FoldFrom(op, if op == Sum then 0 else 1, NumberValues(m1.heap, r.value), 0);
      if !n.Ok? then (m1, Lift(n)) else Answer(m1, Number(n.value))
  }

  function NotDefFirstSpec(op: Operator, m: Machine, obj: Ptr, fuel: nat): (Machine, Result<Ptr>)
    decreases fuel, 3
  {
    var (m1, r) := Operands(m, obj, fuel);
    if !r.Ok? then (m1, Lift(r))
    else if !AllOfType(m1.heap, r.value, NumberType) || |r.value| == 0 then (m1, Raise(RuntimeError))
    else
      var ns := NumberValues(m1.heap, r.value);
      var n := FoldFrom(op, ns[0], ns, 1);
      if !n.Ok? then (m1, Lift(n)) else Answer(m1, Number(n.value))
  }

  function AbsSpec(m: Machine, obj: Ptr, fuel: nat): (Machine, Result<Ptr>)
    decreases fuel, 3
  {
    var (m1, r) := Operands(m, obj, fuel);
    if !r.Ok? then (m1, Lift(r))
    else if !AllOfType(m1.heap, r.value, NumberType) || |r.value| != 1 then (m1, Raise(RuntimeError))
    else Answer(m1, Number(AbsInt(m1.heap[r.value[0].addr].val)))
  }

  /** `quote`: the single operand itself, unevaluated. */
  function QuoteSpec(m: Machine, obj: Ptr): (Machine, Result<Ptr>) {
    var l := CellToVector(m.heap, obj);
    if !l.Ok? then (m, Lift(l))
    else if |l.value| != 1 then (m, Raise(RuntimeError))
    else (m, Ok(l.value[0]))
  }

  /** `boolean?`: the unevaluated operand is the symbol `#t` or `#f`. */
  function IsBooleanSpec(m: Machine, obj: Ptr): (Machine, Result<Ptr>) {
    var l := CellToVector(m.heap, obj);
    if !l.Ok? then (m, Lift(l))
    else Answer(m, Bool(|l.value| == 1 && IsBoolSymbol(m.heap, l.value[0])))
  }

  /** `not`: `#t` exactly for the unevaluated operand `#f`. */
  function NotSpec(m: Machine, obj: Ptr): (Machine, Result<Ptr>) {
    var l := CellToVector(m.heap, obj);
    if !l.Ok? then (m, Lift(l))
    else if |l.value| != 1 then (m, Raise(RuntimeError))
    else Answer(m, Bool(IsSymbolNamed(m.heap, l.value[0], "#f")))
  }

  /**
   * The loop of `and` (`stop` false) and `or` (`stop` true): evaluate in
   * order, answering a new `#f` (`#t`) at the first value that is that
   * symbol; `last` is the latest value.  There is no null check, so a null
   * operand is a call through null.
   */
  function ShortCircuit(m: Machine, list: seq<Ptr>, i: nat, last: Ptr, stop: bool, fuel: nat): (Machine, Result<Ptr>)
    requires i <= |list|
    decreases fuel, 1, |list| - i
  {
    if i == |list| then
      if |list| == 0 then Answer(m, Bool(!stop)) else (m, Ok(last))
    else
      var (m1, v) := Eval(m, list[i], fuel);
      if !v.Ok? then (m1, v)
      else if IsSymbolNamed(m1.heap, v.value, if stop then "#t" else "#f") then Answer(m1, Bool(stop))
      else ShortCircuit(m1, list, i + 1, v.value, stop, fuel)
  }

  function ShortCircuitSpec(stop: bool, m: Machine, obj: Ptr, fuel: nat): (Machine, Result<Ptr>)
    decreases fuel, 3
  {
    var l := CellToVector(m.heap, obj);
    if !l.Ok? then (m, Lift(l)) else ShortCircuit(m, l.value, 0, Null, stop, fuel)
  }

  /** `pair?`: the operand's value flattens to exactly two elements. */
  function PairSpec(m: Machine, obj: Ptr, fuel: nat): (Machine, Result<Ptr>)
    decreases fuel, 3
  {
    var l := CellToVector(m.heap, obj);
    if !l.Ok? then (m, Lift(l))
    else if |l.value| != 1 then (m, Raise(RuntimeError))
    else
      var (m1, v) := Eval(m, l.value[0], fuel);
      if !v.Ok? then (m1, v)
      else
        var l2 := CellToVector(m1.heap, v.value);
        if !l2.Ok? then (m1, Lift(l2)) else Answer(m1, Bool(|l2.value| == 2))
  }

  /** `null?`: the operand's value is null. */
  function NullSpec(m: Machine, obj: Ptr, fuel: nat): (Machine, Result<Ptr>)
    decreases fuel, 3
  {
    var l := CellToVector(m.heap, obj);
    if !l.Ok? then (m, Lift(l))
    else if |l.value| != 1 then (m, Raise(RuntimeError))
    else
      var (m1, v) := Eval(m, l.value[0], fuel);
      if !v.Ok? then (m1, v) else Answer(m1, Bool(v.value.Null?))
  }

  /** The loop of `list?`: move along the cdrs while they are cells; the bound is as in `Walk`. */
  function LastCell(h: seq<Obj>, p: Ptr, steps: nat): (r: Result<Ptr>)
    ensures r.Ok? ==> Is(h, r.value, CellType) && !Is(h, h[r.value.addr].second, CellType)
    decreases steps
  {
    if !Is(h, p, CellType) then Stuck(UndefinedBehaviour)
    else if Is(h, h[p.addr].second, CellType) then
      if steps == 0 then Stuck(Diverges) else LastCell(h, h[p.addr].second, steps - 1)
    else Ok(p)
  }

  /** `list?`: the operand's value is null or a chain of cells ending in null. */
  function CheckListSpec(m: Machine, obj: Ptr, fuel: nat): (Machine, Result<Ptr>)
    decreases fuel, 3
  {
    var l := CellToVector(m.heap, obj);
    if !l.Ok? then (m, Lift(l))
    else if |l.value| != 1 then (m, Raise(RuntimeError))
    else
      var (m1, v) := Eval(m, l.value[0], fuel);
      if !v.Ok? then (m1, v)
      else if v.value.Null? then Answer(m1, Bool(true))
      else
        var last := LastCell(m1.heap, v.value, |m1.heap|);
        if !last.Ok? then (m1, Lift(last))
        else Answer(m1, Bool(m1.heap[last.value.addr].second.Null?))
  }

  /** `cons`: a new cell of the two unevaluated operands. */
  function ConsSpec(m: Machine, obj: Ptr): (Machine, Result<Ptr>) {
    var l := CellToVector(m.heap, obj);
    if !l.Ok? then (m, Lift(l))
    else if |l.value| != 2 then (m, Raise(RuntimeError))
    else Answer(m, Cell(l.value[0], l.value[1]))
  }

  /**
   * `car` (`car` true) and `cdr`: one non-null operand, whose value must
   * be a cell; the answer is that cell's car or cdr.  The operand chain is
   * cast unchecked, so `(car)` is a call through null.
   */
  function CarCdrSpec(car: bool, m: Machine, obj: Ptr, fuel: nat): (Machine, Result<Ptr>)
    decreases fuel, 3
  {
    var c := AsCell(m.heap, obj);
    if !c.Ok? then (m, Lift(c))
    else if c.value.first.Null? || c.value.second.Ref? then (m, Raise(RuntimeError))
    else
      var (m1, li) := Eval(m, c.value.first, fuel);
      if !li.Ok? then (m1, li)
      else if !Is(m1.heap, li.value, CellType) then (m1, Raise(RuntimeError))
      else (m1, Ok(if car then m1.heap[li.value.addr].first else m1.heap[li.value.addr].second))
  }

  /**
   * The operands of `list-ref` and `list-tail`: exactly two, the first
   * written as a form (a cell) and the second as a number literal; then
   * the list is the flattened value of the form.
   */
  function IndexedList(m: Machine, obj: Ptr, fuel: nat): (out: (Machine, Result<(seq<Ptr>, int)>))
    decreases fuel, 2
  {
    var l := CellToVector(m.heap, obj);
    if !l.Ok? then (m, Lift(l))
    else if |l.value| != 2 then (m, Raise(RuntimeError))
    else if !Is(m.heap, l.value[0], CellType) || !Is(m.heap, l.value[1], NumberType) then (m, Raise(RuntimeError))
    else
      var index := m.heap[l.value[1].addr].val;
      var (m1, v) := Eval(m, l.value[0], fuel);
      if !v.Ok? then (m1, Lift(v))
      else
        var l2 := CellToVector(m1.heap, v.value);
        if !l2.Ok? then (m1, Lift(l2)) else (m1, Ok((l2.value, index)))
  }

  function ListRefSpec(m: Machine, obj: Ptr, fuel: nat): (Machine, Result<Ptr>)
    decreases fuel, 3
  {
    var (m1, r) := IndexedList(m, obj, fuel);
    if !r.Ok? then (m1, Lift(r))
    else
      var (list, index) := r.value;
      if !IndexBelow(index, |list|) then (m1, Raise(RuntimeError)) else (m1, Ok(list[index]))
  }

  /**
   * `BuildList` of the reader, over objects in the heap: new cells for the
   * elements from `pos` on, with the same rule for a dot symbol.
   */
  function BuildListAt(m: Machine, list: seq<Ptr>, pos: nat): (out: (Machine, Result<Ptr>))
    requires pos <= |list|
    ensures out.0.scopes == m.scopes && out.0.curr == m.curr && out.0.lambdas == m.lambdas
    ensures |m.heap| <= |out.0.heap| && out.0.heap[..|m.heap|] == m.heap
    decreases |list| - pos
  {
    if pos == |list| then (m, Ok(Null))
    else if IsSymbolNamed(m.heap, list[pos], DotName) then
      if pos != 0 && pos == |list| - 2 then (m, Ok(list[|list| - 1])) else (m, Raise(SyntaxError))
    else
      var (m1, rest) := BuildListAt(m, list, pos + 1);
      if !rest.Ok? then (m1, rest)
      else
        var out := Answer(m1, Cell(list[pos], rest.value));
        assert out.0.heap[..|m1.heap|] == m1.heap;
        out
  }

  function ListTailSpec(m: Machine, obj: Ptr, fuel: nat): (Machine, Result<Ptr>)
    decreases fuel, 3
  {
    var (m1, r) := IndexedList(m, obj, fuel);
    if !r.Ok? then (m1, Lift(r))
    else
      var (list, index) := r.value;
      if !IndexBelow(index, |list| + 1) then (m1, Raise(RuntimeError)) else BuildListAt(m1, list[index..], 0)
  }

  /**
   * `define`: two operands, the first a symbol, the second non-null; the
   * value of the second is bound to the name in the frame that is current
   * once it has been evaluated.
   */
  function DefineSpec(m: Machine, obj: Ptr, fuel: nat): (Machine, Result<Ptr>)
    decreases fuel, 3
  {
    var l := CellToVector(m.heap, obj);
    if !l.Ok? then (m, Lift(l))
    else if |l.value| != 2 || !Is(m.heap, l.value[0], SymbolType) then (m, Raise(SyntaxError))
    else if l.value[1].Null? then (m, Raise(RuntimeError))
    else
      var name := m.heap[l.value[0].addr].name;
      var (m1, v) := Eval(m, l.value[1], fuel);
      if !v.Ok? then (m1, v)
      else if !CurrValid(m1) then (m1, Stuck(UndefinedBehaviour))
      else (Bind(m1, name, v.value), Ok(Null))
  }

  /**
   * `set!`: as `define`, but a name that the current frame does not bind is
   * a name error, raised before the value is evaluated.
   */
  function SetSpec(m: Machine, obj: Ptr, fuel: nat): (Machine, Result<Ptr>)
    decreases fuel, 3
  {
    var l := CellToVector(m.heap, obj);
    if !l.Ok? then (m, Lift(l))
    else if |l.value| != 2 || !Is(m.heap, l.value[0], SymbolType) then (m, Raise(SyntaxError))
    else
      var name := m.heap[l.value[0].addr].name;
      if !CurrValid(m) then (m, Stuck(UndefinedBehaviour))
      else if name !in CurrVars(m) then (m, Raise(NameError))
      else if l.value[1].Null? then (m, Raise(RuntimeError))
      else
        var (m1, v) := Eval(m, l.value[1], fuel);
        if !v.Ok? then (m1, v)
        else if !CurrValid(m1) then (m1, Stuck(UndefinedBehaviour))
        else (Bind(m1, name, v.value), Ok(Null))
  }

  /**
   * `if`: two or three operands, else a syntax error; the condition must
   * evaluate to `#t` or `#f`, else a syntax error; only the chosen branch is
   * evaluated, and a false condition without an else branch gives null.
   */
  function IfSpec(m: Machine, obj: Ptr, fuel: nat): (Machine, Result<Ptr>)
    decreases fuel, 3
  {
    var l := CellToVector(m.heap, obj);
    if !l.Ok? then (m, Lift(l))
    else
      var list := l.value;
      if |list| != 2 && |list| != 3 then (m, Raise(SyntaxError))
      else if list[0].Null? then (m, Raise(RuntimeError))
      else
        var (m1, c) := Eval(m, list[0], fuel);
        if !c.Ok? then (m1, c)
        else if !IsBoolSymbol(m1.heap, c.value) then (m1, Raise(SyntaxError))
        else if IsSymbolNamed(m1.heap, c.value, "#t") then
          if list[1].Null? then (m1, Raise(RuntimeError)) else Eval(m1, list[1], fuel)
        else if |list| == 2 then (m1, Ok(Null))
        else if list[2].Null? then (m1, Raise(RuntimeError))
        else Eval(m1, list[2], fuel)
  }

  /**
   * `set-car!`: evaluate every operand, then make the second value the car
   * of the first.  Neither the count nor the first value's type is checked:
   * fewer than two operands, or a first value that is not a cell, is
   * undefined behaviour.  The second value goes through an unchecked
   * cast to a cell as well, but it is only stored, as an object pointer,
   * so it is stored whatever its class.
   */
  function SetCarSpec(m: Machine, obj: Ptr, fuel: nat): (Machine, Result<Ptr>)
    decreases fuel, 3
  {
    var (m1, r) := Operands(m, obj, fuel);
    if !r.Ok? then (m1, Lift(r))
    else if |r.value| < 2 || !Is(m1.heap, r.value[0], CellType) then (m1, Stuck(UndefinedBehaviour))
    else (m1.(heap := SetFirst(m1.heap, r.value[0].addr, r.value[1])), Ok(Null))
  }

  /**
   * `set-cdr!`: evaluate the first operand, then the second, and make the
   * second value the cdr of the first; the operand chain and the first
   * value are cast unchecked, and later operands are ignored.
   */
  function SetCdrSpec(m: Machine, obj: Ptr, fuel: nat): (Machine, Result<Ptr>)
    decreases fuel, 3
  {
    var c := AsCell(m.heap, obj);
    if !c.Ok? then (m, Lift(c))
    else
      var (m1, f) := Eval(m, c.value.first, fuel);
      if !f.Ok? then (m1, f)
      else
        var c1 := AsCell(m1.heap, obj);
        if !c1.Ok? then (m1, Lift(c1))
        else
          var c2 := AsCell(m1.heap, c1.value.second);
          if !c2.Ok? then (m1, Lift(c2))
          else
            var (m2, s) := Eval(m1, c2.value.first, fuel);
            if !s.Ok? then (m2, s)
            else if !Is(m2.heap, f.value, CellType) then (m2, Stuck(UndefinedBehaviour))
            else (m2.(heap := SetSecond(m2.heap, f.value.addr, s.value)), Ok(Null))
  }

  /** The parameter names of a `lambda`: each element's `ToString`. */
  function Names(h: seq<Obj>, args: seq<Ptr>, i: nat, acc: seq<string>): Result<seq<string>>
    requires i <= |args|
    decreases |args| - i
  {
    if i == |args| then Ok(acc)
    else
      var t :- ToString(h, args[i]);
      Names(h, args, i + 1, acc + [t])
  }

  /**
   * The lambda `MakeLambda` builds from the list it is given: at least two
   * elements, else a syntax error; the second must be a cell, else a
   * syntax error; the second's elements give the names and the elements
   * from the third on the body.  The frame is left null.
   */
  function LambdaParts(h: seq<Obj>, obj: Ptr): (r: Result<Obj>)
    ensures r.Ok? ==> r.value.Lambda? && r.value.scope.None?
  {
    var list :- CellToVector(h, obj);
    if |list| < 2 || !Is(h, list[1], CellType) then Raise(SyntaxError)
    else
      var args :- CellToVector(h, list[1]);
      var vars :- Names(h, args, 0, []);
      Ok(LambdaOf(list[2..], vars))
  }

  function MakeLambdaSpec(m: Machine, obj: Ptr): (Machine, Result<Ptr>) {
    var l := LambdaParts(m.heap, obj);
    if !l.Ok? then (m, Lift(l)) else Answer(m, l.value)
  }

  /** The loop of `Lambda::Execute` over every body expression but the last. */
  function RunBody(m: Machine, body: seq<Ptr>, i: nat, fuel: nat): (Machine, Result<()>)
    requires i < |body|
    decreases fuel, 1, |body| - i
  {
    if i == |body| - 1 then (m, Ok(()))
    else
      var (m1, v) := Eval(m, body[i], fuel);
      if !v.Ok? then (m1, Lift(v)) else RunBody(m1, body, i + 1, fuel)
  }

  /**
   * `Lambda::Execute`: make the lambda's frame current, evaluate the body
   * in order, answer the last value and make the parent of the then
   * current frame current.  An empty body is undefined behaviour (the loop
   * bound `size() - 1` wraps round), and so is leaving while `curr` is null.
   */
  function LambdaExecute(m: Machine, body: seq<Ptr>, scope: Option<nat>, fuel: nat): (Machine, Result<Ptr>)
    decreases fuel, 3
  {
    var m0 := m.(curr := scope);
    if |body| == 0 then (m0, Stuck(UndefinedBehaviour))
    else
      var (m1, r1) := RunBody(m0, body, 0, fuel);
      if !r1.Ok? then (m1, Lift(r1))
      else
        var (m2, ret) := Eval(m1, body[|body| - 1], fuel);
        if !ret.Ok? then (m2, ret)
        else if !CurrValid(m2) then (m2, Stuck(UndefinedBehaviour))
        else (m2.(curr := m2.scopes[m2.curr.value].prev), ret)
  }

  // ---------------------------------------------------------------------
  // The interpreter

  /**
   * `Interpreter::Run`: read one expression as the basic variant does,
   * put its objects in the heap, evaluate it and print the value: `()` for
   * null, a cell in brackets, anything else as is.
   */
  function RunSpec(m: Machine, s: string, fuel: nat): (Machine, Result<string>) {
    var (st0, r0) := Step(s, TState(0, None));
    if !r0.Ok? then (m, Raise(SyntaxError))
    else
      var (st1, r1) := ReadSpec(s, st0);
      if !r1.Ok? then (m, Lift(r1))
      else if !AtEnd(s, st1) then (m, Raise(SyntaxError))
      else if r1.value == Nil then (m, Raise(RuntimeError))
      else
        var (h1, p) := Load(m.heap, r1.value);
        var (m2, v) := Eval(m.(heap := h1), p, fuel);
        if !v.Ok? then (m2, Lift(v)) else (m2, PrintValue(m2.heap, v.value))
  }

  /** How `Run` prints a value: `()` for null, a cell in brackets, anything else as is. */
  function PrintValue(h: seq<Obj>, v: Ptr): Result<string> {
    if v.Null? then Ok("()")
    else
      var t :- ToString(h, v);
      if Is(h, v, CellType) then Ok("(" + t + ")") else Ok(t)
  }

  /** Constructing an `Interpreter`: the `lambdas` table and the current frame's bindings are cleared. */
  function Reset(m: Machine): (m': Machine)
    requires CurrValid(m)
    ensures CurrValid(m') && CurrVars(m') == map[] && m'.lambdas == map[]
    ensures m'.heap == m.heap && m'.curr == m.curr && |m'.scopes| == |m.scopes|
    ensures m'.scopes[m.curr.value].prev == m.scopes[m.curr.value].prev
    ensures forall k | 0 <= k < |m.scopes| && k != m.curr.value :: m'.scopes[k] == m.scopes[k]
  {
    var c := m.curr.value;
    m.(lambdas := map[], scopes := m.scopes[c := m.scopes[c].(vars := map[])])
  }
}
