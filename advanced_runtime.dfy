/**
 * The advanced evaluator as the stateful program it is: the globals
 * (`curr`, `lambdas`) and the objects reachable through `shared_ptr`s are
 * the fields of one `Runtime`, and every functor, every `Execute` and every
 * loop of the evaluator is a method that changes them.  Each method is
 * proved to leave the state and give the result that the functions of
 * `AdvancedScheme` describe, so that the laws proved there hold of the
 * program.
 */
module AdvancedRuntime {
  import opened Errors
  import opened Options
  import opened Lexer
  import opened Reader
  import opened Arithmetic
  import opened AdvancedObject
  import opened AdvancedScheme

  class Runtime {
    /** Every object allocated so far, by address. */
    var heap: seq<Obj>
    /** Every frame allocated so far, by index. */
    var scopes: seq<Scope>
    /** The global `curr`. */
    var curr: Option<nat>
    /** The global `lambdas`. */
    var lambdas: map<string, Ptr>

    function State(): Machine
      reads this
    {
      Machine(heap, scopes, curr, lambdas)
    }

    /** The initialisers of the globals: `curr` holds one fresh frame, `lambdas` is empty. */
    constructor ()
      ensures State() == Initial
    {
      heap := [];
      scopes := [EmptyScope];
      curr := Some(0);
      lambdas := map[];
    }

    /** What the `Interpreter` constructor does to the globals. */
    method Clear()
      requires CurrValid(State())
      modifies this
      ensures State() == Reset(old(State()))
    {
      lambdas := map[];
      scopes := scopes[curr.value := scopes[curr.value].(vars := map[])];
    }

    // -------------------------------------------------------------------
    // Objects

    /** `make_shared`. */
    method MakeShared(o: Obj) returns (p: Ptr)
      modifies this
      ensures (State(), p) == Alloc(old(State()), o)
    {
      p := Ref(|heap|);
      heap := heap + [o];
    }

    /** `Clone` of the object at `a`; a lambda's clone gets a fresh frame whose parent is `curr`. */
    method Clone(a: nat) returns (p: Ptr)
      requires a < |heap|
      modifies this
      ensures (State(), p) == AdvancedObject.Clone(old(State()), a)
    {
      match heap[a]
      case Number(v) => p := MakeShared(Number(v));
      case Symbol(name) => p := MakeShared(Symbol(name));
      case Cell(first, second) => p := MakeShared(Cell(first, second));
      case Lambda(_, _, _) =>
        var s := |scopes|;
        scopes := scopes + [Scope(curr, map[])];
        p := MakeShared(Lambda([], [], Some(s)));
    }

    /** `curr->vars_[name] = v`. */
    method Bind(name: string, v: Ptr)
      requires CurrValid(State())
      modifies this
      ensures State() == AdvancedScheme.Bind(old(State()), name, v)
    {
      var c := curr.value;
      scopes := scopes[c := scopes[c].(vars := scopes[c].vars[name := v])];
    }

    /** The objects the reader allocates for a tree it has read. */
    method Load(d: Datum) returns (p: Ptr)
      modifies this
      ensures (heap, p) == AdvancedObject.Load(old(heap), d)
      ensures scopes == old(scopes) && curr == old(curr) && lambdas == old(lambdas)
      decreases d
    {
      match d
      case Nil => p := Null;
      case Num(v) => p := MakeShared(Number(v));
      case Sym(name) => p := MakeShared(Symbol(name));
      case Pair(a, b) =>
        var pa := Load(a);
        var pb := Load(b);
        p := MakeShared(Cell(pa, pb));
    }

    // -------------------------------------------------------------------
    // Operand lists

    /**
     * `CellToVector`: collect the cars along the cdr chain and the last
     * cell's cdr; a walk that has passed more cells than the heap holds
     * is going round a cycle.
     */
    method CellToVector(list: Ptr) returns (r: Result<seq<Ptr>>)
      ensures r == AdvancedScheme.CellToVector(heap, list)
    {
      if list.Null? {
        return Ok([]);
      }
      if !Is(heap, list, CellType) {
        assert Walk(heap, list, |heap|, []) == Stuck(UndefinedBehaviour);
        return Stuck(UndefinedBehaviour);
      }
      var ret: seq<Ptr> := [];
      var cur := list;
      var steps: nat := |heap|;
      while Is(heap, heap[cur.addr].second, CellType)
        invariant Is(heap, cur, CellType)
        invariant Walk(heap, cur, steps, ret) == Walk(heap, list, |heap|, [])
        decreases steps
      {
        if steps == 0 {
          assert Walk(heap, cur, steps, ret) == Stuck(Diverges);
          return Stuck(Diverges);
        }
        ret := ret + [heap[cur.addr].first];
        cur := heap[cur.addr].second;
        steps := steps - 1;
      }
      var c := heap[cur.addr];
      assert Walk(heap, cur, steps, ret) == Ok(ret + [c.first] + (if c.second.Null? then [] else [c.second]));
      ret := ret + [c.first];
      if c.second.Ref? {
        ret := ret + [c.second];
      } else {
        assert ret + [] == ret;
      }
      r := Ok(ret);
    }

    /** `IsListOfT`: looks at every element, without stopping early. */
    method IsListOfT(list: seq<Ptr>, t: TypeObject) returns (b: bool)
      ensures b == AllOfType(heap, list, t)
    {
      b := true;
      var i := 0;
      while i < |list|
        invariant i <= |list|
        invariant b == forall k | 0 <= k < i :: Is(heap, list[k], t)
      {
        if !Is(heap, list[i], t) {
          b := false;
        }
        i := i + 1;
      }
    }

    /** The parameter-name loop of `MakeLambda`. */
    method Names(args: seq<Ptr>) returns (r: Result<seq<string>>)
      ensures r == AdvancedScheme.Names(heap, args, 0, [])
    {
      var vars: seq<string> := [];
      var i := 0;
      while i < |args|
        invariant i <= |args|
        invariant AdvancedScheme.Names(heap, args, i, vars) == AdvancedScheme.Names(heap, args, 0, [])
      {
        var t := ToString(heap, args[i]);
        if !t.Ok? {
          return Lift(t);
        }
        vars := vars + [t.value];
        i := i + 1;
      }
      r := Ok(vars);
    }

    /** The reader's `BuildList`, over objects already in the heap. */
    method BuildList(list: seq<Ptr>, pos: nat) returns (r: Result<Ptr>)
      requires pos <= |list|
      modifies this
      ensures (State(), r) == BuildListAt(old(State()), list, pos)
      decreases |list| - pos
    {
      if pos == |list| {
        return Ok(Null);
      }
      if IsSymbolNamed(heap, list[pos], DotName) {
        if pos != 0 && pos == |list| - 2 {
          return Ok(list[|list| - 1]);
        }
        return Raise(SyntaxError);
      }
      var rest := BuildList(list, pos + 1);
      if !rest.Ok? {
        return rest;
      }
      var p := MakeShared(Cell(list[pos], rest.value));
      r := Ok(p);
    }

    // -------------------------------------------------------------------
    // Evaluation

    /** `Execute`, dispatched on the object's class. */
    method Execute(p: Ptr, fuel: nat) returns (r: Result<Ptr>)
      modifies this
      ensures (State(), r) == Eval(old(State()), p, fuel)
      decreases fuel, 0
    {
      if !(p.Ref? && p.addr < |heap|) {
        return Stuck(UndefinedBehaviour);
      }
      match heap[p.addr]
      case Number(_) =>
        var q := Clone(p.addr);
        r := Ok(q);
      case Symbol(name) =>
        if name == "#f" || name == "#t" {
          var q := Clone(p.addr);
          r := Ok(q);
        } else if !CurrValid(State()) {
          r := Stuck(UndefinedBehaviour);
        } else if name !in scopes[curr.value].vars {
          r := Raise(NameError);
        } else {
          r := Ok(scopes[curr.value].vars[name]);
        }
      case Cell(first, second) =>
        if fuel == 0 {
          r := Stuck(OutOfFuel);
        } else {
          r := ExecuteCell(first, second, fuel - 1);
        }
      case Lambda(body, _, scope) =>
        if fuel == 0 {
          r := Stuck(OutOfFuel);
        } else {
          r := LambdaExecute(body, scope, fuel - 1);
        }
    }

    /** `Cell::Execute` of the cell whose car is `first` and cdr `second`. */
    method ExecuteCell(first: Ptr, second: Ptr, fuel: nat) returns (r: Result<Ptr>)
      modifies this
      ensures (State(), r) == AdvancedScheme.ExecuteCell(old(State()), first, second, fuel)
      decreases fuel, 5
    {
      if first.Null? {
        return Raise(RuntimeError);
      }
      if IsLambdaForm(heap, first) {
        var arguments := CellToVector(second);
        if !arguments.Ok? {
          return Lift(arguments);
        }
        ghost var m := State();
        var lmbd := MakeLambda(first);
        if !lmbd.Ok? {
          return Lift(lmbd);
        }
        assert heap[lmbd.value.addr] == LambdaParts(m.heap, first).value;
        r := LambdaExecute(heap[lmbd.value.addr].body, heap[lmbd.value.addr].scope, fuel);
        return;
      }
      if !Is(heap, first, SymbolType) {
        return Raise(RuntimeError);
      }
      var name := heap[first.addr].name;
      if name !in Functions {
        return Raise(RuntimeError);
      }
      if second.Ref? && !Is(heap, second, CellType) {
        return Raise(RuntimeError);
      }
      if name == "define" {
        var d := Call(Functions[name], second, fuel);
        if !d.Ok? {
          return d;
        }
        return Ok(first);
      }
      r := Call(Functions[name], second, fuel);
    }

    /** `(*k_functions[name])(obj)`. */
    method Call(f: Builtin, obj: Ptr, fuel: nat) returns (r: Result<Ptr>)
      modifies this
      ensures (State(), r) == Apply(f, old(State()), obj, fuel)
      decreases fuel, 4
    {
      match f
      case IsNumberFn => r := IsType(NumberType, obj, fuel);
      case CompareFn(rel) => r := Compare(rel, obj, fuel);
      case DefFirstFn(op) => r := DefFirst(op, obj, fuel);
      case NotDefFirstFn(op) => r := NotDefFirst(op, obj, fuel);
      case AbsFn => r := Abs(obj, fuel);
      case QuoteFn => r := Quote(obj);
      case IsBooleanFn => r := IsBoolean(obj);
      case NotFn => r := Not(obj);
      case AndFn => r := AndOr(false, obj, fuel);
      case OrFn => r := AndOr(true, obj, fuel);
      case PairFn => r := Pair(obj, fuel);
      case NullFn => r := IsNull(obj, fuel);
      case CheckListFn => r := CheckList(obj, fuel);
      case ConsFn => r := Cons(obj);
      case CarFn => r := CarOrCdr(true, obj, fuel);
      case CdrFn => r := CarOrCdr(false, obj, fuel);
      case MakeListFn => r := Ok(obj);
      case ListRefFn => r := ListRef(obj, fuel);
      case ListTailFn => r := ListTail(obj, fuel);
      case IsSymbolFn => r := IsType(SymbolType, obj, fuel);
      case DefineFn => r := Define(obj, fuel);
      case SetFn => r := Set(obj, fuel);
      case IfFn => r := If(obj, fuel);
      case SetCarFn => r := SetCar(obj, fuel);
      case MakeLambdaFn => r := MakeLambda(obj);
      case SetCdrFn => r := SetCdr(obj, fuel);
    }

    /** The loop that replaces every operand by its value, refusing a null one. */
    method EvaluateAll(list: seq<Ptr>, fuel: nat) returns (r: Result<seq<Ptr>>)
      modifies this
      ensures (State(), r) == EvalChecked(old(State()), list, 0, [], fuel)
      decreases fuel, 1
    {
      var vals: seq<Ptr> := [];
      var i := 0;
      while i < |list|
        invariant i <= |list|
        invariant EvalChecked(State(), list, i, vals, fuel) == EvalChecked(old(State()), list, 0, [], fuel)
      {
        if list[i].Null? {
          return Raise(RuntimeError);
        }
        var v := Execute(list[i], fuel);
        if !v.Ok? {
          return Lift(v);
        }
        vals := vals + [v.value];
        i := i + 1;
      }
      r := Ok(vals);
    }

    /** `CellToVector` of the operand chain followed by `EvaluateAll`. */
    method Operands(obj: Ptr, fuel: nat) returns (r: Result<seq<Ptr>>)
      modifies this
      ensures (State(), r) == AdvancedScheme.Operands(old(State()), obj, fuel)
      decreases fuel, 2
    {
      var list := CellToVector(obj);
      if !list.Ok? {
        return Lift(list);
      }
      r := EvaluateAll(list.value, fuel);
    }

    /** A fresh `#t` or `#f`. */
    method Answer(o: Obj) returns (r: Result<Ptr>)
      modifies this
      ensures (State(), r) == AdvancedScheme.Answer(old(State()), o)
    {
      var p := MakeShared(o);
      r := Ok(p);
    }

    // -------------------------------------------------------------------
    // The functors

    /** `IsNumber` (`t` the number type) and `IsSymbol`. */
    method IsType(t: TypeObject, obj: Ptr, fuel: nat) returns (r: Result<Ptr>)
      modifies this
      ensures (State(), r) == TypeTestSpec(t, old(State()), obj, fuel)
      decreases fuel, 3
    {
      var list := Operands(obj, fuel);
      if !list.Ok? {
        return Lift(list);
      }
      var all := IsListOfT(list.value, t);
      r := Answer(Bool(all && |list.value| == 1));
    }

    method Compare(rel: Relation, obj: Ptr, fuel: nat) returns (r: Result<Ptr>)
      modifies this
      ensures (State(), r) == CompareSpec(rel, old(State()), obj, fuel)
      decreases fuel, 3
    {
      var list := Operands(obj, fuel);
      if !list.Ok? {
        return Lift(list);
      }
      var numbers := IsListOfT(list.value, NumberType);
      if !numbers {
        return Raise(RuntimeError);
      }
      var f := AdjacentHold(rel, NumberValues(heap, list.value));
      r := Answer(Bool(f));
    }

    method DefFirst(op: Operator, obj: Ptr, fuel: nat) returns (r: Result<Ptr>)
      modifies this
      ensures (State(), r) == DefFirstSpec(op, old(State()), obj, fuel)
      decreases fuel, 3
    {
      var list := Operands(obj, fuel);
      if !list.Ok? {
        return Lift(list);
      }
      var numbers := IsListOfT(list.value, NumberType);
      if !numbers {
        return Raise(RuntimeError);
      }
      var ret := Fold(op, if op == Sum then 0 else 1, NumberValues(heap, list.value), 0);
      if !ret.Ok? {
        return Lift(ret);
      }
      r := Answer(Number(ret.value));
    }

    method NotDefFirst(op: Operator, obj: Ptr, fuel: nat) returns (r: Result<Ptr>)
      modifies this
      ensures (State(), r) == NotDefFirstSpec(op, old(State()), obj, fuel)
      decreases fuel, 3
    {
      var list := Operands(obj, fuel);
      if !list.Ok? {
        return Lift(list);
      }
      var numbers := IsListOfT(list.value, NumberType);
      if !numbers {
        return Raise(RuntimeError);
      }
      if |list.value| == 0 {
        return Raise(RuntimeError);
      }
      var ns := NumberValues(heap, list.value);
      var ret := Fold(op, ns[0], ns, 1);
      if !ret.Ok? {
        return Lift(ret);
      }
      r := Answer(Number(ret.value));
    }

    method Abs(obj: Ptr, fuel: nat) returns (r: Result<Ptr>)
      modifies this
      ensures (State(), r) == AbsSpec(old(State()), obj, fuel)
      decreases fuel, 3
    {
      var list := Operands(obj, fuel);
      if !list.Ok? {
        return Lift(list);
      }
      var numbers := IsListOfT(list.value, NumberType);
      if !numbers {
        return Raise(RuntimeError);
      }
      if |list.value| != 1 {
        return Raise(RuntimeError);
      }
      r := Answer(Number(AbsInt(heap[list.value[0].addr].val)));
    }

    method Quote(obj: Ptr) returns (r: Result<Ptr>)
      ensures r == QuoteSpec(State(), obj).1
    {
      var list := CellToVector(obj);
      if !list.Ok? {
        return Lift(list);
      }
      if |list.value| != 1 {
        return Raise(RuntimeError);
      }
      r := Ok(list.value[0]);
    }

    method IsBoolean(obj: Ptr) returns (r: Result<Ptr>)
      modifies this
      ensures (State(), r) == IsBooleanSpec(old(State()), obj)
    {
      var list := CellToVector(obj);
      if !list.Ok? {
        return Lift(list);
      }
      var b := false;
      if |list.value| == 1 {
        var symbols := IsListOfT(list.value, SymbolType);
        b := symbols && (heap[list.value[0].addr].name == "#t" || heap[list.value[0].addr].name == "#f");
      }
      r := Answer(Bool(b));
    }

    method Not(obj: Ptr) returns (r: Result<Ptr>)
      modifies this
      ensures (State(), r) == NotSpec(old(State()), obj)
    {
      var list := CellToVector(obj);
      if !list.Ok? {
        return Lift(list);
      }
      if |list.value| != 1 {
        return Raise(RuntimeError);
      }
      var symbols := IsListOfT(list.value, SymbolType);
      r := Answer(Bool(symbols && heap[list.value[0].addr].name == "#f"));
    }

    /** `And` (`stop` false) and `Or` (`stop` true). */
    method AndOr(stop: bool, obj: Ptr, fuel: nat) returns (r: Result<Ptr>)
      modifies this
      ensures (State(), r) == ShortCircuitSpec(stop, old(State()), obj, fuel)
      decreases fuel, 3
    {
      var l := CellToVector(obj);
      if !l.Ok? {
        return Lift(l);
      }
      var list := l.value;
      ghost var m0 := State();
      var last := Null;
      var i := 0;
      while i < |list|
        invariant i <= |list|
        invariant ShortCircuit(State(), list, i, last, stop, fuel) == ShortCircuit(m0, list, 0, Null, stop, fuel)
      {
        var v := Execute(list[i], fuel);
        if !v.Ok? {
          return v;
        }
        if IsSymbolNamed(heap, v.value, if stop then "#t" else "#f") {
          r := Answer(Bool(stop));
          return;
        }
        last := v.value;
        i := i + 1;
      }
      if |list| == 0 {
        r := Answer(Bool(!stop));
        return;
      }
      r := Ok(last);
    }

    method Pair(obj: Ptr, fuel: nat) returns (r: Result<Ptr>)
      modifies this
      ensures (State(), r) == PairSpec(old(State()), obj, fuel)
      decreases fuel, 3
    {
      var list := CellToVector(obj);
      if !list.Ok? {
        return Lift(list);
      }
      if |list.value| != 1 {
        return Raise(RuntimeError);
      }
      var v := Execute(list.value[0], fuel);
      if !v.Ok? {
        return v;
      }
      var elements := CellToVector(v.value);
      if !elements.Ok? {
        return Lift(elements);
      }
      r := Answer(Bool(|elements.value| == 2));
    }

    /** The `Null` functor, `null?`. */
    method IsNull(obj: Ptr, fuel: nat) returns (r: Result<Ptr>)
      modifies this
      ensures (State(), r) == NullSpec(old(State()), obj, fuel)
      decreases fuel, 3
    {
      var list := CellToVector(obj);
      if !list.Ok? {
        return Lift(list);
      }
      if |list.value| != 1 {
        return Raise(RuntimeError);
      }
      var v := Execute(list.value[0], fuel);
      if !v.Ok? {
        return v;
      }
      r := Answer(Bool(v.value.Null?));
    }

    method CheckList(obj: Ptr, fuel: nat) returns (r: Result<Ptr>)
      modifies this
      ensures (State(), r) == CheckListSpec(old(State()), obj, fuel)
      decreases fuel, 3
    {
      var list := CellToVector(obj);
      if !list.Ok? {
        return Lift(list);
      }
      if |list.value| != 1 {
        return Raise(RuntimeError);
      }
      var v := Execute(list.value[0], fuel);
      if !v.Ok? {
        return v;
      }
      if v.value.Null? {
        r := Answer(Bool(true));
        return;
      }
      var li := v.value;
      if !Is(heap, li, CellType) {
        return Stuck(UndefinedBehaviour);
      }
      var steps: nat := |heap|;
      while Is(heap, heap[li.addr].second, CellType)
        invariant Is(heap, li, CellType)
        invariant LastCell(heap, li, steps) == LastCell(heap, v.value, |heap|)
        decreases steps
      {
        if steps == 0 {
          return Stuck(Diverges);
        }
        li := heap[li.addr].second;
        steps := steps - 1;
      }
      r := Answer(Bool(heap[li.addr].second.Null?));
    }

    method Cons(obj: Ptr) returns (r: Result<Ptr>)
      modifies this
      ensures (State(), r) == ConsSpec(old(State()), obj)
    {
      var list := CellToVector(obj);
      if !list.Ok? {
        return Lift(list);
      }
      if |list.value| != 2 {
        return Raise(RuntimeError);
      }
      r := Answer(Cell(list.value[0], list.value[1]));
    }

    /** `Car` (`car` true) and `Cdr`. */
    method CarOrCdr(car: bool, obj: Ptr, fuel: nat) returns (r: Result<Ptr>)
      modifies this
      ensures (State(), r) == CarCdrSpec(car, old(State()), obj, fuel)
      decreases fuel, 3
    {
      if !Is(heap, obj, CellType) {
        return Stuck(UndefinedBehaviour);
      }
      if heap[obj.addr].first.Null? || heap[obj.addr].second.Ref? {
        return Raise(RuntimeError);
      }
      var li := Execute(heap[obj.addr].first, fuel);
      if !li.Ok? {
        return li;
      }
      if !Is(heap, li.value, CellType) {
        return Raise(RuntimeError);
      }
      r := Ok(if car then heap[li.value.addr].first else heap[li.value.addr].second);
    }

    /** The shared head of `ListRef` and `ListTail`. */
    method IndexedOperands(obj: Ptr, fuel: nat) returns (r: Result<(seq<Ptr>, int)>)
      modifies this
      ensures (State(), r) == IndexedList(old(State()), obj, fuel)
      decreases fuel, 2
    {
      var list := CellToVector(obj);
      if !list.Ok? {
        return Lift(list);
      }
      if |list.value| != 2 {
        return Raise(RuntimeError);
      }
      if !Is(heap, list.value[0], CellType) || !Is(heap, list.value[1], NumberType) {
        return Raise(RuntimeError);
      }
      var index := heap[list.value[1].addr].val;
      var v := Execute(list.value[0], fuel);
      if !v.Ok? {
        return Lift(v);
      }
      var elements := CellToVector(v.value);
      if !elements.Ok? {
        return Lift(elements);
      }
      r := Ok((elements.value, index));
    }

    method ListRef(obj: Ptr, fuel: nat) returns (r: Result<Ptr>)
      modifies this
      ensures (State(), r) == ListRefSpec(old(State()), obj, fuel)
      decreases fuel, 3
    {
      var l := IndexedOperands(obj, fuel);
      if !l.Ok? {
        return Lift(l);
      }
      var (list, index) := l.value;
      if !IndexBelow(index, |list|) {
        return Raise(RuntimeError);
      }
      r := Ok(list[index]);
    }

    method ListTail(obj: Ptr, fuel: nat) returns (r: Result<Ptr>)
      modifies this
      ensures (State(), r) == ListTailSpec(old(State()), obj, fuel)
      decreases fuel, 3
    {
      var l := IndexedOperands(obj, fuel);
      if !l.Ok? {
        return Lift(l);
      }
      var (list, index) := l.value;
      if !IndexBelow(index, |list| + 1) {
        return Raise(RuntimeError);
      }
      var ret: seq<Ptr> := [];
      var i := index;
      while i < |list|
        invariant index <= i <= |list|
        invariant ret == list[index..i]
      {
        ret := ret + [list[i]];
        i := i + 1;
      }
      assert ret == list[index..];
      r := BuildList(ret, 0);
    }

    method Define(obj: Ptr, fuel: nat) returns (r: Result<Ptr>)
      modifies this
      ensures (State(), r) == DefineSpec(old(State()), obj, fuel)
      decreases fuel, 3
    {
      var list := CellToVector(obj);
      if !list.Ok? {
        return Lift(list);
      }
      if |list.value| != 2 || !Is(heap, list.value[0], SymbolType) {
        return Raise(SyntaxError);
      }
      if list.value[1].Null? {
        return Raise(RuntimeError);
      }
      var name := heap[list.value[0].addr].name;
      var v := Execute(list.value[1], fuel);
      if !v.Ok? {
        return v;
      }
      if !CurrValid(State()) {
        return Stuck(UndefinedBehaviour);
      }
      Bind(name, v.value);
      r := Ok(Null);
    }

    method Set(obj: Ptr, fuel: nat) returns (r: Result<Ptr>)
      modifies this
      ensures (State(), r) == SetSpec(old(State()), obj, fuel)
      decreases fuel, 3
    {
      var list := CellToVector(obj);
      if !list.Ok? {
        return Lift(list);
      }
      if |list.value| != 2 || !Is(heap, list.value[0], SymbolType) {
        return Raise(SyntaxError);
      }
      var name := heap[list.value[0].addr].name;
      if !CurrValid(State()) {
        return Stuck(UndefinedBehaviour);
      }
      if name !in scopes[curr.value].vars {
        return Raise(NameError);
      }
      if list.value[1].Null? {
        return Raise(RuntimeError);
      }
      var v := Execute(list.value[1], fuel);
      if !v.Ok? {
        return v;
      }
      if !CurrValid(State()) {
        return Stuck(UndefinedBehaviour);
      }
      Bind(name, v.value);
      r := Ok(Null);
    }

    method If(obj: Ptr, fuel: nat) returns (r: Result<Ptr>)
      modifies this
      ensures (State(), r) == IfSpec(old(State()), obj, fuel)
      decreases fuel, 3
    {
      var l := CellToVector(obj);
      if !l.Ok? {
        return Lift(l);
      }
      var list := l.value;
      if |list| != 2 && |list| != 3 {
        return Raise(SyntaxError);
      }
      if list[0].Null? {
        return Raise(RuntimeError);
      }
      var c := Execute(list[0], fuel);
      if !c.Ok? {
        return c;
      }
      if !IsBoolSymbol(heap, c.value) {
        return Raise(SyntaxError);
      }
      if heap[c.value.addr].name == "#t" {
        if list[1].Null? {
          return Raise(RuntimeError);
        }
        r := Execute(list[1], fuel);
      } else if |list| == 2 {
        r := Ok(Null);
      } else if list[2].Null? {
        r := Raise(RuntimeError);
      } else {
        r := Execute(list[2], fuel);
      }
    }

    method SetCar(obj: Ptr, fuel: nat) returns (r: Result<Ptr>)
      modifies this
      ensures (State(), r) == SetCarSpec(old(State()), obj, fuel)
      decreases fuel, 3
    {
      var list := Operands(obj, fuel);
      if !list.Ok? {
        return Lift(list);
      }
      if |list.value| < 2 || !Is(heap, list.value[0], CellType) {
        return Stuck(UndefinedBehaviour);
      }
      heap := SetFirst(heap, list.value[0].addr, list.value[1]);
      r := Ok(Null);
    }

    method SetCdr(obj: Ptr, fuel: nat) returns (r: Result<Ptr>)
      modifies this
      ensures (State(), r) == SetCdrSpec(old(State()), obj, fuel)
      decreases fuel, 3
    {
      if !Is(heap, obj, CellType) {
        return Stuck(UndefinedBehaviour);
      }
      var first := Execute(heap[obj.addr].first, fuel);
      if !first.Ok? {
        return first;
      }
      if !Is(heap, obj, CellType) || !Is(heap, heap[obj.addr].second, CellType) {
        return Stuck(UndefinedBehaviour);
      }
      var second := Execute(heap[heap[obj.addr].second.addr].first, fuel);
      if !second.Ok? {
        return second;
      }
      if !Is(heap, first.value, CellType) {
        return Stuck(UndefinedBehaviour);
      }
      heap := SetSecond(heap, first.value.addr, second.value);
      r := Ok(Null);
    }

    method MakeLambda(obj: Ptr) returns (r: Result<Ptr>)
      modifies this
      ensures (State(), r) == MakeLambdaSpec(old(State()), obj)
    {
      var list := CellToVector(obj);
      if !list.Ok? {
        return Lift(list);
      }
      if |list.value| < 2 || !Is(heap, list.value[1], CellType) {
        return Raise(SyntaxError);
      }
      var args := CellToVector(list.value[1]);
      if !args.Ok? {
        return Lift(args);
      }
      var body: seq<Ptr> := [];
      var i := 2;
      while i < |list.value|
        invariant 2 <= i <= |list.value|
        invariant body == list.value[2..i]
      {
        body := body + [list.value[i]];
        i := i + 1;
      }
      assert body == list.value[2..];
      var vars := Names(args.value);
      if !vars.Ok? {
        return Lift(vars);
      }
      r := Answer(LambdaOf(body, vars.value));
    }

    /** `Lambda::Execute` of a lambda with this body and frame. */
    method LambdaExecute(body: seq<Ptr>, scope: Option<nat>, fuel: nat) returns (r: Result<Ptr>)
      modifies this
      ensures (State(), r) == AdvancedScheme.LambdaExecute(old(State()), body, scope, fuel)
      decreases fuel, 3
    {
      curr := scope;
      if |body| == 0 {
        return Stuck(UndefinedBehaviour);
      }
      ghost var m0 := State();
      var i := 0;
      while i < |body| - 1
        invariant i < |body|
        invariant RunBody(State(), body, i, fuel) == RunBody(m0, body, 0, fuel)
      {
        var v := Execute(body[i], fuel);
        if !v.Ok? {
          return Lift(v);
        }
        i := i + 1;
      }
      var ret := Execute(body[|body| - 1], fuel);
      if !ret.Ok? {
        return ret;
      }
      if !CurrValid(State()) {
        return Stuck(UndefinedBehaviour);
      }
      curr := scopes[curr.value].prev;
      r := ret;
    }
  }

  /** An `Interpreter` adds no state of its own: it works on the globals. */
  class Interpreter {
    const rt: Runtime

    /** Clears `lambdas` and the current frame's bindings. */
    constructor (rt: Runtime)
      requires CurrValid(rt.State())
      modifies rt
      ensures this.rt == rt && rt.State() == Reset(old(rt.State()))
    {
      this.rt := rt;
      new;
      rt.Clear();
    }

    /** `Run`: read one expression, evaluate it and print its value. */
    method Run(str: string, fuel: nat) returns (r: Result<string>)
      modifies rt
      ensures (rt.State(), r) == RunSpec(old(rt.State()), str, fuel)
    {
      var tokenizer, started := NewTokenizer(str);
      if !started.Ok? {
        return Raise(SyntaxError);
      }
      var obj := Read(tokenizer);
      if !obj.Ok? {
        return Lift(obj);
      }
      if !tokenizer.IsEnd() {
        return Raise(SyntaxError);
      }
      if obj.value == Nil {
        return Raise(RuntimeError);
      }
      var p := rt.Load(obj.value);
      var v := rt.Execute(p, fuel);
      if !v.Ok? {
        return Lift(v);
      }
      r := PrintValue(rt.heap, v.value);
    }
  }
}
