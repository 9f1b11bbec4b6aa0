/**
 * What the advanced evaluator does, proved about its specification: the
 * walks along a chain of cells end exactly when the chain does, a tree
 * the reader loaded flattens and prints as in the basic variant, and the
 * laws of the individual forms (arithmetic, `quote`, `cons`, `if`,
 * `define`, `set!`, `set-car!`, lambdas) over the heap.
 */
module AdvancedLaws {
  import opened Errors
  import opened Options
  import opened Lexer
  import opened Reader
  import opened Arithmetic
  import opened AdvancedObject
  import opened AdvancedScheme
  import BasicObject
  import BasicScheme
  import BasicLaws

  // ---------------------------------------------------------------------
  // Chains of cells

  /** Where `n` moves to the cdr lead from `p`; null once a non-cell has been passed. */
  function Succ(h: seq<Obj>, p: Ptr, n: nat): Ptr
    decreases n
  {
    if n == 0 then p
    else if Is(h, p, CellType) then Succ(h, h[p.addr].second, n - 1)
    else Null
  }

  /** The chain of cdrs from `p` never reaches anything but a cell. */
  ghost predicate Endless(h: seq<Obj>, p: Ptr) {
    forall n: nat :: Is(h, Succ(h, p, n), CellType)
  }

  lemma {:induction false} SuccAdd(h: seq<Obj>, p: Ptr, i: nat, t: nat)
    ensures Succ(h, p, i + t) == Succ(h, Succ(h, p, i), t)
    decreases i
  {
    if i > 0 {
      if Is(h, p, CellType) {
        SuccAdd(h, h[p.addr].second, i - 1, t);
      } else if t > 0 {
        assert !Is(h, Null, CellType);
      }
    }
  }

  /** A walk that gives up has seen `steps + 2` cells in a row. */
  lemma {:induction false} DivergedWalkSawCells(h: seq<Obj>, p: Ptr, steps: nat, acc: seq<Ptr>)
    requires Walk(h, p, steps, acc) == Stuck(Diverges)
    ensures forall n: nat | n <= steps + 1 :: Is(h, Succ(h, p, n), CellType)
    decreases steps
  {
    var next := h[p.addr].second;
    if steps > 0 {
      DivergedWalkSawCells(h, next, steps - 1, acc + [h[p.addr].first]);
    }
    forall n: nat | n <= steps + 1
      ensures Is(h, Succ(h, p, n), CellType)
    {
      if n > 0 {
        assert Succ(h, p, n) == Succ(h, next, n - 1);
      }
    }
  }

  /** Among `n + 1` values below `n`, two are equal. */
  lemma {:induction false} Pigeonhole(f: seq<nat>, n: nat)
    requires |f| > n > 0 && forall k | 0 <= k < |f| :: f[k] < n
    ensures exists i, j :: 0 <= i < j < |f| && f[i] == f[j]
    decreases n
  {
    if n == 1 {
      assert f[0] == f[1];
    } else {
      var v := f[|f| - 1];
      if exists i :: 0 <= i < |f| - 1 && f[i] == v {
        var i :| 0 <= i < |f| - 1 && f[i] == v;
        assert f[i] == f[|f| - 1];
      } else {
        var g := seq(|f| - 1, k requires 0 <= k < |f| - 1 => if f[k] == n - 1 then v else f[k]);
        Pigeonhole(g, n - 1);
        var i, j :| 0 <= i < j < |g| && g[i] == g[j];
        assert f[i] == f[j];
      }
    }
  }

  /** Once the chain repeats a pointer it goes round for ever. */
  lemma {:induction false} CellsRecur(h: seq<Obj>, p: Ptr, i: nat, j: nat, n: nat)
    requires i < j && Succ(h, p, i) == Succ(h, p, j)
    requires forall k: nat | k <= j :: Is(h, Succ(h, p, k), CellType)
    ensures Is(h, Succ(h, p, n), CellType)
    decreases n
  {
    if n > j {
      var t := n - j;
      SuccAdd(h, p, i, t);
      SuccAdd(h, p, j, t);
      assert Succ(h, p, n) == Succ(h, p, i + t);
      CellsRecur(h, p, i, j, i + t);
    }
  }

  lemma {:induction false} EndlessWalkDiverges(h: seq<Obj>, p: Ptr, steps: nat, acc: seq<Ptr>)
    requires Endless(h, p)
    ensures Walk(h, p, steps, acc) == Stuck(Diverges)
    decreases steps
  {
    assert Succ(h, p, 0) == p;
    var next := h[p.addr].second;
    assert Succ(h, p, 1) == next;
    if steps > 0 {
      forall n: nat
        ensures Is(h, Succ(h, next, n), CellType)
      {
        assert Succ(h, p, n + 1) == Succ(h, next, n);
      }
      EndlessWalkDiverges(h, next, steps - 1, acc + [h[p.addr].first]);
    }
  }

  /**
   * The bound on `Walk` is exact: the walk `CellToVector` makes gives up
   * exactly when the loop of the source would never end.
   */
  lemma WalkDivergesIffEndless(h: seq<Obj>, p: Ptr, acc: seq<Ptr>)
    ensures Walk(h, p, |h|, acc) == Stuck(Diverges) <==> Endless(h, p)
  {
    if Walk(h, p, |h|, acc) == Stuck(Diverges) {
      DivergedWalkSawCells(h, p, |h|, acc);
      var f := seq(|h| + 1, k requires 0 <= k < |h| + 1 => Succ(h, p, k).addr);
      assert Is(h, Succ(h, p, 0), CellType);
      Pigeonhole(f, |h|);
      var i, j :| 0 <= i < j < |f| && f[i] == f[j];
      assert Succ(h, p, i) == Succ(h, p, j);
      forall n: nat
        ensures Is(h, Succ(h, p, n), CellType)
      {
        CellsRecur(h, p, i, j, n);
      }
    }
    if Endless(h, p) {
      EndlessWalkDiverges(h, p, |h|, acc);
    }
  }

  lemma {:induction false} LastCellLikeWalk(h: seq<Obj>, p: Ptr, steps: nat, acc: seq<Ptr>)
    ensures LastCell(h, p, steps) == Stuck(Diverges) <==> Walk(h, p, steps, acc) == Stuck(Diverges)
    decreases steps
  {
    if Is(h, p, CellType) && Is(h, h[p.addr].second, CellType) && steps > 0 {
      LastCellLikeWalk(h, h[p.addr].second, steps - 1, acc + [h[p.addr].first]);
    }
  }

  /** So does the walk of `list?`. */
  lemma LastCellDivergesIffEndless(h: seq<Obj>, p: Ptr)
    ensures LastCell(h, p, |h|) == Stuck(Diverges) <==> Endless(h, p)
  {
    LastCellLikeWalk(h, p, |h|, []);
    WalkDivergesIffEndless(h, p, []);
  }

  // ---------------------------------------------------------------------
  // Trees the reader loaded

  /** The number of cells along the cdrs. */
  function Spine(d: Datum): nat {
    if d.Pair? then 1 + Spine(d.cdr) else 0
  }

  /** A tree has a last cell, so its chain is not endless. */
  lemma {:induction false} RepresentedChainEnds(h: seq<Obj>, p: Ptr, d: Datum)
    requires Represents(h, p, d)
    ensures !Is(h, Succ(h, p, Spine(d)), CellType)
    decreases d
  {
    if d.Pair? {
      RepresentedChainEnds(h, h[p.addr].second, d.cdr);
    }
  }

  lemma {:induction false} WalkOfRepresented(h: seq<Obj>, p: Ptr, d: Datum, steps: nat, acc: seq<Ptr>)
    requires Represents(h, p, d) && d.Pair? && Walk(h, p, steps, acc) != Stuck(Diverges)
    ensures var r := Walk(h, p, steps, acc); var xs := BasicScheme.Flatten(d);
      r.Ok? && |r.value| == |acc| + |xs| && r.value[..|acc|] == acc &&
      forall k | 0 <= k < |xs| :: Represents(h, r.value[|acc| + k], xs[k])
    decreases d
  {
    var c := h[p.addr];
    if d.cdr.Pair? {
      var r := Walk(h, c.second, steps - 1, acc + [c.first]);
      WalkOfRepresented(h, c.second, d.cdr, steps - 1, acc + [c.first]);
      assert r.value[..|acc| + 1] == acc + [c.first];
      assert r.value[|acc|] == c.first;
      var xs := BasicScheme.Flatten(d);
      assert xs == [d.car] + BasicScheme.Flatten(d.cdr);
      forall k | 0 <= k < |xs|
        ensures Represents(h, r.value[|acc| + k], xs[k])
      {
        if k > 0 {
          assert r.value[|acc| + k] == r.value[|acc + [c.first]| + (k - 1)];
        }
      }
    }
  }

  /**
   * `CellToVector` of a loaded tree gives one object per element of the
   * basic variant's `CellToVector`, each representing that element, so a
   * dotted tail counts as one more element here too.
   */
  lemma CellToVectorOfRepresented(h: seq<Obj>, p: Ptr, d: Datum)
    requires Represents(h, p, d) && BasicScheme.Walkable(d)
    ensures var r := CellToVector(h, p); var xs := BasicScheme.Flatten(d);
      r.Ok? && |r.value| == |xs| && forall k | 0 <= k < |xs| :: Represents(h, r.value[k], xs[k])
  {
    if d.Pair? {
      RepresentedChainEnds(h, p, d);
      WalkDivergesIffEndless(h, p, []);
      WalkOfRepresented(h, p, d, |h|, []);
    }
  }

  /** The operand chain of a form: `Chain(xs, Nil)` is the list `xs`. */
  lemma OperandsOfChain(h: seq<Obj>, p: Ptr, xs: seq<Datum>)
    requires Represents(h, p, Chain(xs, Nil))
    ensures var r := CellToVector(h, p);
      r.Ok? && |r.value| == |xs| && forall k | 0 <= k < |xs| :: Represents(h, r.value[k], xs[k])
  {
    BasicLaws.FlattenChain(xs);
    CellToVectorOfRepresented(h, p, Chain(xs, Nil));
  }

  /**
   * A value that represents a tree is printed by `Run` as the basic
   * variant prints that tree, provided the tree is no deeper than the heap.
   */
  lemma PrintOfRepresented(h: seq<Obj>, v: Ptr, d: Datum)
    requires Represents(h, v, d) && Height(d) <= |h| + 1
    ensures PrintValue(h, v) == Ok(BasicScheme.Print(d))
  {
    if d != Nil {
      ToStringOfRepresented(h, v, d, |h|);
    }
  }

  /**
   * Addresses of cells with a non-null car, each the car or the cdr of
   * the one before: the cells the printer recurses through in turn.
   */
  predicate PrintPath(h: seq<Obj>, path: seq<nat>) {
    |path| > 0 &&
    (forall k | 0 <= k < |path| :: path[k] < |h| && h[path[k]].Cell? && h[path[k]].first.Ref?) &&
    forall k | 0 <= k < |path| - 1 :: Ref(path[k + 1]) == h[path[k]].first || Ref(path[k + 1]) == h[path[k]].second
  }

  /** A print that gives up at `depth` has recursed through `depth + 1` cells. */
  lemma {:induction false} DivergedPrintPath(h: seq<Obj>, p: Ptr, depth: nat) returns (path: seq<nat>)
    requires ToStringAt(h, p, depth) == Stuck(Diverges)
    ensures |path| == depth + 1 && path[0] == p.addr && PrintPath(h, path)
    decreases depth
  {
    var c := h[p.addr];
    if depth == 0 {
      path := [p.addr];
    } else {
      var a := ToStringAt(h, c.first, depth - 1);
      var next := if a.Ok? then c.second else c.first;
      assert ToStringAt(h, next, depth - 1) == Stuck(Diverges);
      var rest := DivergedPrintPath(h, next, depth - 1);
      path := [p.addr] + rest;
      assert forall k | 1 <= k < |path| :: path[k] == rest[k - 1];
    }
  }

  /**
   * A `Diverges` from printing is sound: the printer's recursion meets a
   * cell that it is already inside, so in the source it never returns.
   */
  lemma PrintDivergesOnRepeat(h: seq<Obj>, p: Ptr) returns (path: seq<nat>, i: nat, j: nat)
    requires ToString(h, p) == Stuck(Diverges)
    ensures PrintPath(h, path) && path[0] == p.addr && i < j < |path| && path[i] == path[j]
  {
    path := DivergedPrintPath(h, p, |h|);
    Pigeonhole(path, |h|);
    i, j :| 0 <= i < j < |path| && path[i] == path[j];
  }

  // ---------------------------------------------------------------------
  // Literals and forms

  /** `m'` is `m` with objects added to the heap and nothing else changed. */
  predicate Grows(m: Machine, m': Machine) {
    |m.heap| <= |m'.heap| && m'.heap[..|m.heap|] == m.heap &&
    m'.scopes == m.scopes && m'.curr == m.curr && m'.lambdas == m.lambdas
  }

  /** The result is a new object `o`, and only the heap has grown. */
  predicate Fresh(m: Machine, m': Machine, r: Result<Ptr>, o: Obj) {
    Grows(m, m') && r.Ok? && r.value.Ref? && |m.heap| <= r.value.addr < |m'.heap| && m'.heap[r.value.addr] == o
  }

  /** A number evaluates to a copy of itself at a fresh address. */
  lemma EvalNumber(m: Machine, p: Ptr, v: int, fuel: nat)
    requires Represents(m.heap, p, Num(v))
    ensures Eval(m, p, fuel) == (m.(heap := m.heap + [Number(v)]), Ok(Ref(|m.heap|)))
  {
  }

  /**
   * Any other symbol than `#t` and `#f` evaluates to the object its name
   * is bound to in the current frame, not a copy; a name the current frame
   * does not bind is a name error even when an enclosing frame binds it.
   */
  lemma EvalSymbol(m: Machine, p: Ptr, x: string, fuel: nat)
    requires Represents(m.heap, p, Sym(x)) && x != "#t" && x != "#f" && CurrValid(m)
    ensures Eval(m, p, fuel) == (m, if x in CurrVars(m) then Ok(CurrVars(m)[x]) else Raise(NameError))
  {
  }

  /** A form naming a functor other than `define` is that functor applied to its operand chain. */
  lemma EvalFormAt(m: Machine, p: Ptr, name: string, xs: seq<Datum>, fuel: nat)
    requires Represents(m.heap, p, BasicLaws.Form(name, xs)) && name in Functions && name != "define" && fuel > 0
    ensures Represents(m.heap, m.heap[p.addr].second, Chain(xs, Nil))
    ensures Eval(m, p, fuel) == Apply(Functions[name], m, m.heap[p.addr].second, fuel - 1)
  {
    var c := m.heap[p.addr];
    assert IsSymbolNamed(m.heap, c.first, name);
    assert !IsLambdaForm(m.heap, c.first);
    if xs != [] {
      assert Is(m.heap, c.second, CellType);
    }
  }

  /** Number literals as operands: each is copied, and the copies hold the same values. */
  lemma {:induction false} EvalCheckedNumbers(m: Machine, list: seq<Ptr>, i: nat, acc: seq<Ptr>, ns: seq<int>, fuel: nat)
    requires i <= |list| == |ns| && forall k | i <= k < |list| :: Represents(m.heap, list[k], Num(ns[k]))
    requires AllOfType(m.heap, acc, NumberType)
    ensures var (m', r) := EvalChecked(m, list, i, acc, fuel);
      Grows(m, m') && |m'.heap| == |m.heap| + |list| - i && r.Ok? &&
      AllOfType(m'.heap, r.value, NumberType) && NumberValues(m'.heap, r.value) == NumberValues(m.heap, acc) + ns[i..]
    decreases |list| - i
  {
    if i < |list| {
      var h := m.heap;
      var m1 := m.(heap := h + [Number(ns[i])]);
      EvalNumber(m, list[i], ns[i], fuel);
      var acc1 := acc + [Ref(|h|)];
      assert AllOfType(m1.heap, acc1, NumberType) by {
        forall k | 0 <= k < |acc1|
          ensures Is(m1.heap, acc1[k], NumberType)
        {
          if k < |acc| {
            assert acc1[k] == acc[k] && m1.heap[acc[k].addr] == h[acc[k].addr];
          }
        }
      }
      assert NumberValues(m1.heap, acc1) == NumberValues(h, acc) + [ns[i]] by {
        var a := NumberValues(m1.heap, acc1);
        var b := NumberValues(h, acc) + [ns[i]];
        assert |a| == |b|;
        forall k | 0 <= k < |a|
          ensures a[k] == b[k]
        {
          if k < |acc| {
            assert m1.heap[acc[k].addr] == h[acc[k].addr];
          }
        }
      }
      forall k | i + 1 <= k < |list|
        ensures Represents(m1.heap, list[k], Num(ns[k]))
      {
        assert m1.heap[list[k].addr] == h[list[k].addr];
      }
      EvalCheckedNumbers(m1, list, i + 1, acc1, ns, fuel);
      var (m', r) := EvalChecked(m1, list, i + 1, acc1, fuel);
      assert m'.heap[..|h|] == h by {
        assert m'.heap[..|m1.heap|] == m1.heap;
        assert m1.heap[..|h|] == h;
      }
      assert ns[i..] == [ns[i]] + ns[i + 1..];
    }
  }

  /** The operands of a form of number literals evaluate to copies holding those numbers. */
  lemma OperandsOfNumbers(m: Machine, obj: Ptr, ns: seq<int>, fuel: nat)
    requires Represents(m.heap, obj, Chain(BasicLaws.Nums(ns), Nil))
    ensures var (m', r) := Operands(m, obj, fuel);
      Grows(m, m') && r.Ok? && AllOfType(m'.heap, r.value, NumberType) && NumberValues(m'.heap, r.value) == ns
  {
    OperandsOfChain(m.heap, obj, BasicLaws.Nums(ns));
    var list := CellToVector(m.heap, obj).value;
    EvalCheckedNumbers(m, list, 0, [], ns, fuel);
    assert ns[0..] == ns;
  }

  /** `+` and `*` over number literals: a new number holding the fold, when the fold is defined. */
  lemma DefFirstOfNumbers(op: Operator, m: Machine, obj: Ptr, ns: seq<int>, fuel: nat)
    requires Represents(m.heap, obj, Chain(BasicLaws.Nums(ns), Nil))
    ensures var (m', r) := Apply(DefFirstFn(op), m, obj, fuel);
      var n := FoldFrom(op, if op == Sum then 0 else 1, ns, 0);
      n.Ok? ==> Fresh(m, m', r, Number(n.value))
  {
    OperandsOfNumbers(m, obj, ns, fuel);
  }

  /**
   * `-`, `/`, `max` and `min` over number literals: none is a runtime error;
   * otherwise a new number holding the fold from the first, or the fold's failure.
   */
  lemma NotDefFirstOfNumbers(op: Operator, m: Machine, obj: Ptr, ns: seq<int>, fuel: nat)
    requires Represents(m.heap, obj, Chain(BasicLaws.Nums(ns), Nil))
    ensures var (m', r) := Apply(NotDefFirstFn(op), m, obj, fuel);
      if ns == [] then r == Raise(RuntimeError)
      else
        var n := FoldFrom(op, ns[0], ns, 1);
        (n.Ok? ==> Fresh(m, m', r, Number(n.value))) && (n.Stuck? ==> r == Stuck(n.why))
  {
    OperandsOfNumbers(m, obj, ns, fuel);
  }

  /** `+` answers a new number, the sum of its operands. */
  lemma EvalSum(m: Machine, p: Ptr, ns: seq<int>, fuel: nat)
    requires Represents(m.heap, p, BasicLaws.Form("+", BasicLaws.Nums(ns))) && fuel > 0
    ensures var (m', r) := Eval(m, p, fuel); Fresh(m, m', r, Number(SumOf(ns)))
  {
    EvalFormAt(m, p, "+", BasicLaws.Nums(ns), fuel);
    assert Functions["+"] == DefFirstFn(Sum);
    DefFirstOfNumbers(Sum, m, m.heap[p.addr].second, ns, fuel - 1);
    PlusIsSum(ns);
  }

  /** `*` answers a new number, the product of its operands. */
  lemma EvalProduct(m: Machine, p: Ptr, ns: seq<int>, fuel: nat)
    requires Represents(m.heap, p, BasicLaws.Form("*", BasicLaws.Nums(ns))) && fuel > 0
    ensures var (m', r) := Eval(m, p, fuel); Fresh(m, m', r, Number(ProductOf(ns)))
  {
    EvalFormAt(m, p, "*", BasicLaws.Nums(ns), fuel);
    assert Functions["*"] == DefFirstFn(Mul);
    DefFirstOfNumbers(Mul, m, m.heap[p.addr].second, ns, fuel - 1);
    TimesIsProduct(ns);
  }

  /** `-` subtracts the later operands from the first and needs at least one. */
  lemma EvalDifference(m: Machine, p: Ptr, ns: seq<int>, fuel: nat)
    requires Represents(m.heap, p, BasicLaws.Form("-", BasicLaws.Nums(ns))) && fuel > 0
    ensures var (m', r) := Eval(m, p, fuel);
      if ns == [] then r == Raise(RuntimeError) else Fresh(m, m', r, Number(ns[0] - SumOf(ns[1..])))
  {
    EvalFormAt(m, p, "-", BasicLaws.Nums(ns), fuel);
    assert Functions["-"] == NotDefFirstFn(Minus);
    NotDefFirstOfNumbers(Minus, m, m.heap[p.addr].second, ns, fuel - 1);
    if ns != [] {
      MinusSubtractsRest(ns);
    }
  }

  /** `/` divides, truncating, and a zero divisor is undefined behaviour. */
  lemma EvalQuotient(m: Machine, p: Ptr, ns: seq<int>, fuel: nat)
    requires Represents(m.heap, p, BasicLaws.Form("/", BasicLaws.Nums(ns))) && fuel > 0
    ensures var (m', r) := Eval(m, p, fuel);
      if ns == [] then r == Raise(RuntimeError)
      else if exists k | 1 <= k < |ns| :: ns[k] == 0 then r == Stuck(UndefinedBehaviour)
      else FoldFrom(Divide, ns[0], ns, 1).Ok? && Fresh(m, m', r, Number(FoldFrom(Divide, ns[0], ns, 1).value))
  {
    EvalFormAt(m, p, "/", BasicLaws.Nums(ns), fuel);
    assert Functions["/"] == NotDefFirstFn(Divide);
    NotDefFirstOfNumbers(Divide, m, m.heap[p.addr].second, ns, fuel - 1);
    if ns != [] {
      FoldDivideDefined(ns[0], ns, 1);
    }
  }

  /** `max` answers a new copy of the greatest operand. */
  lemma EvalMaximum(m: Machine, p: Ptr, ns: seq<int>, fuel: nat)
    requires Represents(m.heap, p, BasicLaws.Form("max", BasicLaws.Nums(ns))) && fuel > 0
    ensures var (m', r) := Eval(m, p, fuel);
      if ns == [] then r == Raise(RuntimeError)
      else exists n :: Fresh(m, m', r, Number(n)) && n in ns && forall k | 0 <= k < |ns| :: ns[k] <= n
  {
    EvalFormAt(m, p, "max", BasicLaws.Nums(ns), fuel);
    assert Functions["max"] == NotDefFirstFn(Max);
    NotDefFirstOfNumbers(Max, m, m.heap[p.addr].second, ns, fuel - 1);
    if ns != [] {
      MaxIsGreatest(ns);
    }
  }

  /** `min` answers a new copy of the least operand. */
  lemma EvalMinimum(m: Machine, p: Ptr, ns: seq<int>, fuel: nat)
    requires Represents(m.heap, p, BasicLaws.Form("min", BasicLaws.Nums(ns))) && fuel > 0
    ensures var (m', r) := Eval(m, p, fuel);
      if ns == [] then r == Raise(RuntimeError)
      else exists n :: Fresh(m, m', r, Number(n)) && n in ns && forall k | 0 <= k < |ns| :: n <= ns[k]
  {
    EvalFormAt(m, p, "min", BasicLaws.Nums(ns), fuel);
    assert Functions["min"] == NotDefFirstFn(Min);
    NotDefFirstOfNumbers(Min, m, m.heap[p.addr].second, ns, fuel - 1);
    if ns != [] {
      MinIsLeast(ns);
    }
  }

  /** A comparison answers `#t` exactly when it holds between every pair of neighbours. */
  lemma EvalComparison(m: Machine, p: Ptr, name: string, rel: Relation, ns: seq<int>, fuel: nat)
    requires name in Functions && Functions[name] == CompareFn(rel)
    requires Represents(m.heap, p, BasicLaws.Form(name, BasicLaws.Nums(ns))) && fuel > 0
    ensures var (m', r) := Eval(m, p, fuel); Fresh(m, m', r, Bool(AllAdjacent(rel, ns)))
  {
    EvalFormAt(m, p, name, BasicLaws.Nums(ns), fuel);
    OperandsOfNumbers(m, m.heap[p.addr].second, ns, fuel - 1);
  }

  /** `abs` of one number answers its magnitude; any other count is a runtime error. */
  lemma EvalAbs(m: Machine, p: Ptr, ns: seq<int>, fuel: nat)
    requires Represents(m.heap, p, BasicLaws.Form("abs", BasicLaws.Nums(ns))) && fuel > 0
    ensures var (m', r) := Eval(m, p, fuel);
      if |ns| != 1 then r == Raise(RuntimeError) else Fresh(m, m', r, Number(if ns[0] < 0 then -ns[0] else ns[0]))
  {
    EvalFormAt(m, p, "abs", BasicLaws.Nums(ns), fuel);
    OperandsOfNumbers(m, m.heap[p.addr].second, ns, fuel - 1);
  }

  // ---------------------------------------------------------------------
  // Forms that do not evaluate their operands

  /** Null represents exactly the empty list. */
  lemma RepresentsNil(h: seq<Obj>, q: Ptr, d: Datum)
    requires Represents(h, q, d)
    ensures q.Null? <==> d == Nil
  {
  }

  /** `#t` and `#f` evaluate to copies of themselves. */
  lemma EvalBoolean(m: Machine, q: Ptr, name: string, fuel: nat)
    requires Represents(m.heap, q, Sym(name)) && (name == "#t" || name == "#f")
    ensures Eval(m, q, fuel) == (m.(heap := m.heap + [Symbol(name)]), Ok(Ref(|m.heap|)))
  {
  }

  /** `quote` answers the very object of its operand, and nothing changes. */
  lemma EvalQuote(m: Machine, p: Ptr, d: Datum, fuel: nat)
    requires Represents(m.heap, p, BasicLaws.Form("quote", [d])) && fuel > 0
    ensures var (m', r) := Eval(m, p, fuel); m' == m && r.Ok? && Represents(m.heap, r.value, d)
  {
    EvalFormAt(m, p, "quote", [d], fuel);
    var obj := m.heap[p.addr].second;
    assert Functions["quote"] == QuoteFn;
    assert Eval(m, p, fuel) == QuoteSpec(m, obj);
    OperandsOfChain(m.heap, obj, [d]);
  }

  /**
   * `cons` answers a new cell whose car and cdr are the objects of its two
   * operands, unevaluated and not copied.
   */
  lemma EvalCons(m: Machine, p: Ptr, a: Datum, b: Datum, fuel: nat)
    requires Represents(m.heap, p, BasicLaws.Form("cons", [a, b])) && fuel > 0
    ensures var (m', r) := Eval(m, p, fuel);
      Grows(m, m') && |m'.heap| == |m.heap| + 1 && r == Ok(Ref(|m.heap|)) && m'.heap[|m.heap|].Cell? &&
      Represents(m.heap, m'.heap[|m.heap|].first, a) && Represents(m.heap, m'.heap[|m.heap|].second, b) &&
      Represents(m'.heap, r.value, Pair(a, b))
  {
    var obj := ConsForm(m, p, a, b, fuel);
    ConsOfOperands(m, obj, a, b);
  }

  lemma ConsForm(m: Machine, p: Ptr, a: Datum, b: Datum, fuel: nat) returns (obj: Ptr)
    requires Represents(m.heap, p, BasicLaws.Form("cons", [a, b])) && fuel > 0
    ensures Represents(m.heap, obj, Chain([a, b], Nil)) && Eval(m, p, fuel) == ConsSpec(m, obj)
  {
    EvalFormAt(m, p, "cons", [a, b], fuel);
    obj := m.heap[p.addr].second;
    assert Functions["cons"] == ConsFn;
  }

  lemma ConsOfOperands(m: Machine, obj: Ptr, a: Datum, b: Datum)
    requires Represents(m.heap, obj, Chain([a, b], Nil))
    ensures var (m', r) := ConsSpec(m, obj);
      Grows(m, m') && |m'.heap| == |m.heap| + 1 && r == Ok(Ref(|m.heap|)) && m'.heap[|m.heap|].Cell? &&
      Represents(m.heap, m'.heap[|m.heap|].first, a) && Represents(m.heap, m'.heap[|m.heap|].second, b) &&
      Represents(m'.heap, r.value, Pair(a, b))
  {
    OperandsOfChain(m.heap, obj, [a, b]);
    var l := CellToVector(m.heap, obj).value;
    var h' := m.heap + [Cell(l[0], l[1])];
    assert ConsSpec(m, obj) == (m.(heap := h'), Ok(Ref(|m.heap|)));
    RepresentsExtends(m.heap, h', l[0], a);
    RepresentsExtends(m.heap, h', l[1], b);
    assert h'[..|m.heap|] == m.heap;
  }

  /** `car` of a `cons` answers the object of the first operand of the `cons` itself. */
  lemma EvalCarOfCons(m: Machine, p: Ptr, a: Datum, b: Datum, fuel: nat)
    requires Represents(m.heap, p, BasicLaws.Form("car", [BasicLaws.Form("cons", [a, b])])) && fuel > 1
    ensures var (m', r) := Eval(m, p, fuel); Grows(m, m') && r.Ok? && Represents(m.heap, r.value, a)
  {
    var cons := BasicLaws.Form("cons", [a, b]);
    EvalFormAt(m, p, "car", [cons], fuel);
    var obj := m.heap[p.addr].second;
    assert Functions["car"] == CarFn;
    assert Eval(m, p, fuel) == CarCdrSpec(true, m, obj, fuel - 1);
    BasicLaws.ChainOne(cons);
    EvalCons(m, m.heap[obj.addr].first, a, b, fuel - 1);
  }

  /** `cdr` of a `cons` answers the object of the second operand of the `cons`. */
  lemma EvalCdrOfCons(m: Machine, p: Ptr, a: Datum, b: Datum, fuel: nat)
    requires Represents(m.heap, p, BasicLaws.Form("cdr", [BasicLaws.Form("cons", [a, b])])) && fuel > 1
    ensures var (m', r) := Eval(m, p, fuel); Grows(m, m') && r.Ok? && Represents(m.heap, r.value, b)
  {
    var cons := BasicLaws.Form("cons", [a, b]);
    EvalFormAt(m, p, "cdr", [cons], fuel);
    var obj := m.heap[p.addr].second;
    assert Functions["cdr"] == CdrFn;
    assert Eval(m, p, fuel) == CarCdrSpec(false, m, obj, fuel - 1);
    BasicLaws.ChainOne(cons);
    EvalCons(m, m.heap[obj.addr].first, a, b, fuel - 1);
  }

  // ---------------------------------------------------------------------
  // `if`

  /** The operands of an `if`, and `if` applied to them. */
  lemma IfOperands(m: Machine, p: Ptr, xs: seq<Datum>, fuel: nat) returns (list: seq<Ptr>)
    requires Represents(m.heap, p, BasicLaws.Form("if", xs)) && fuel > 0
    ensures CellToVector(m.heap, m.heap[p.addr].second) == Ok(list)
    ensures |list| == |xs| && forall k | 0 <= k < |xs| :: Represents(m.heap, list[k], xs[k])
    ensures Eval(m, p, fuel) == IfSpec(m, m.heap[p.addr].second, fuel - 1)
  {
    EvalFormAt(m, p, "if", xs, fuel);
    assert Functions["if"] == IfFn;
    OperandsOfChain(m.heap, m.heap[p.addr].second, xs);
    list := CellToVector(m.heap, m.heap[p.addr].second).value;
  }

  /** With a count of operands other than two or three, `if` evaluates nothing. */
  lemma EvalIfArity(m: Machine, p: Ptr, xs: seq<Datum>, fuel: nat)
    requires Represents(m.heap, p, BasicLaws.Form("if", xs)) && |xs| != 2 && |xs| != 3 && fuel > 0
    ensures Eval(m, p, fuel) == (m, Raise(SyntaxError))
  {
    var list := IfOperands(m, p, xs, fuel);
  }

  /** A condition `#t` selects the second operand, and the third is never evaluated. */
  lemma EvalIfTrue(m: Machine, p: Ptr, a: Datum, rest: seq<Datum>, fuel: nat)
    requires Represents(m.heap, p, BasicLaws.Form("if", [BasicScheme.True, a] + rest)) && |rest| <= 1 && fuel > 0
    ensures var m1 := m.(heap := m.heap + [Symbol("#t")]);
      if a == Nil then Eval(m, p, fuel) == (m1, Raise(RuntimeError))
      else exists q :: Represents(m.heap, q, a) && Eval(m, p, fuel) == Eval(m1, q, fuel - 1)
  {
    var xs := [BasicScheme.True, a] + rest;
    var list := IfOperands(m, p, xs, fuel);
    var m1 := m.(heap := m.heap + [Symbol("#t")]);
    assert Represents(m.heap, list[0], Sym("#t"));
    EvalBoolean(m, list[0], "#t", fuel - 1);
    assert IsSymbolNamed(m1.heap, Ref(|m.heap|), "#t");
    RepresentsNil(m.heap, list[1], a);
    assert Represents(m.heap, list[1], a);
  }

  /**
   * A condition `#f` selects the third operand, or null when there is
   * none, and the second is never evaluated.
   */
  lemma EvalIfFalse(m: Machine, p: Ptr, a: Datum, rest: seq<Datum>, fuel: nat)
    requires Represents(m.heap, p, BasicLaws.Form("if", [BasicScheme.False, a] + rest)) && |rest| <= 1 && fuel > 0
    ensures var m1 := m.(heap := m.heap + [Symbol("#f")]);
      if rest == [] then Eval(m, p, fuel) == (m1, Ok(Null))
      else if rest[0] == Nil then Eval(m, p, fuel) == (m1, Raise(RuntimeError))
      else exists q :: Represents(m.heap, q, rest[0]) && Eval(m, p, fuel) == Eval(m1, q, fuel - 1)
  {
    var xs := [BasicScheme.False, a] + rest;
    var list := IfOperands(m, p, xs, fuel);
    var m1 := m.(heap := m.heap + [Symbol("#f")]);
    assert Represents(m.heap, list[0], Sym("#f"));
    EvalBoolean(m, list[0], "#f", fuel - 1);
    assert IsSymbolNamed(m1.heap, Ref(|m.heap|), "#f") && !IsSymbolNamed(m1.heap, Ref(|m.heap|), "#t");
    if rest != [] {
      assert Represents(m.heap, list[2], rest[0]);
      RepresentsNil(m.heap, list[2], rest[0]);
    }
  }

  /** A condition that is a number is a syntax error. */
  lemma EvalIfNumber(m: Machine, p: Ptr, n: int, rest: seq<Datum>, fuel: nat)
    requires Represents(m.heap, p, BasicLaws.Form("if", [Num(n)] + rest)) && 1 <= |rest| <= 2 && fuel > 0
    ensures Eval(m, p, fuel) == (m.(heap := m.heap + [Number(n)]), Raise(SyntaxError))
  {
    var xs := [Num(n)] + rest;
    var list := IfOperands(m, p, xs, fuel);
    assert Represents(m.heap, list[0], Num(n));
    EvalNumber(m, list[0], n, fuel - 1);
    assert !IsBoolSymbol(m.heap + [Number(n)], Ref(|m.heap|));
  }

  // ---------------------------------------------------------------------
  // Bindings: `define`, `set!` and lookup

  lemma GrowsTrans(m: Machine, m1: Machine, m2: Machine)
    requires Grows(m, m1) && Grows(m1, m2)
    ensures Grows(m, m2)
  {
    assert m2.heap[..|m.heap|] == m2.heap[..|m1.heap|][..|m.heap|];
  }

  /** `m'` is `m` with the current frame binding `x` to `v` and nothing else changed but the heap. */
  predicate Rebinds(m: Machine, m': Machine, x: string, v: Ptr)
    requires CurrValid(m)
  {
    m'.curr == m.curr && m'.lambdas == m.lambdas && |m'.scopes| == |m.scopes| &&
    m'.scopes[m.curr.value] == Scope(m.scopes[m.curr.value].prev, CurrVars(m)[x := v]) &&
    forall k | 0 <= k < |m.scopes| && k != m.curr.value :: m'.scopes[k] == m.scopes[k]
  }

  lemma BindRebinds(m: Machine, x: string, v: Ptr)
    requires CurrValid(m)
    ensures Rebinds(m, Bind(m, x, v), x, v)
  {
    var c := m.curr.value;
    var m' := Bind(m, x, v);
    assert m'.scopes[c] == m.scopes[c].(vars := m.scopes[c].vars[x := v]);
    assert m'.curr == m.curr && m'.lambdas == m.lambdas && |m'.scopes| == |m.scopes|;
    assert m'.scopes[c] == Scope(m.scopes[c].prev, CurrVars(m)[x := v]);
    assert forall k | 0 <= k < |m.scopes| && k != c :: m'.scopes[k] == m.scopes[k];
  }

  /** A `define` form: `Define` applied to the operands, answering the head symbol on success. */
  lemma DefineForm(m: Machine, p: Ptr, xs: seq<Datum>, fuel: nat) returns (obj: Ptr)
    requires Represents(m.heap, p, BasicLaws.Form("define", xs)) && fuel > 0
    ensures Represents(m.heap, obj, Chain(xs, Nil)) && IsSymbolNamed(m.heap, m.heap[p.addr].first, "define")
    ensures Eval(m, p, fuel) ==
      var (m1, r) := DefineSpec(m, obj, fuel - 1); if !r.Ok? then (m1, r) else (m1, Ok(m.heap[p.addr].first))
  {
    var c := m.heap[p.addr];
    obj := c.second;
    assert !IsLambdaForm(m.heap, c.first);
    if xs != [] {
      assert Is(m.heap, obj, CellType);
    }
    assert Functions["define"] == DefineFn;
    assert Apply(DefineFn, m, obj, fuel - 1) == DefineSpec(m, obj, fuel - 1);
    assert Eval(m, p, fuel) == ExecuteCell(m, c.first, obj, fuel - 1);
  }

  lemma DefineOfNumber(m: Machine, obj: Ptr, x: string, v: int, fuel: nat)
    requires Represents(m.heap, obj, Chain([Sym(x), Num(v)], Nil)) && CurrValid(m)
    ensures DefineSpec(m, obj, fuel) == (Bind(m.(heap := m.heap + [Number(v)]), x, Ref(|m.heap|)), Ok(Null))
  {
    OperandsOfChain(m.heap, obj, [Sym(x), Num(v)]);
    var l := CellToVector(m.heap, obj).value;
    EvalNumber(m, l[1], v, fuel);
  }

  /**
   * `(define x n)` binds `x` in the current frame to a new copy of `n`,
   * changes no other frame, and answers the symbol `define` itself.
   */
  lemma EvalDefineNumber(m: Machine, p: Ptr, x: string, v: int, fuel: nat)
    requires Represents(m.heap, p, BasicLaws.Form("define", [Sym(x), Num(v)])) && CurrValid(m) && fuel > 0
    ensures var (m', r) := Eval(m, p, fuel);
      r.Ok? && IsSymbolNamed(m.heap, r.value, "define") &&
      m'.heap == m.heap + [Number(v)] && Rebinds(m, m', x, Ref(|m.heap|))
  {
    var obj := DefineForm(m, p, [Sym(x), Num(v)], fuel);
    DefineOfNumber(m, obj, x, v, fuel - 1);
    BindRebinds(m.(heap := m.heap + [Number(v)]), x, Ref(|m.heap|));
  }

  /** After `(define x n)`, `x` evaluates to the object `define` stored. */
  lemma DefineThenLookup(m: Machine, p: Ptr, q: Ptr, x: string, v: int, fuel: nat, fuel': nat)
    requires Represents(m.heap, p, BasicLaws.Form("define", [Sym(x), Num(v)])) && CurrValid(m) && fuel > 0
    requires Represents(m.heap, q, Sym(x)) && x != "#t" && x != "#f"
    ensures var (m', _) := Eval(m, p, fuel);
      CurrValid(m') && Eval(m', q, fuel') == (m', Ok(Ref(|m.heap|))) &&
      |m'.heap| == |m.heap| + 1 && m'.heap[|m.heap|] == Number(v)
  {
    EvalDefineNumber(m, p, x, v, fuel);
    var (m', _) := Eval(m, p, fuel);
    assert m'.heap[q.addr] == m.heap[q.addr];
    EvalSymbol(m', q, x, fuel');
  }

  lemma DefineOfSymbol(m: Machine, obj: Ptr, y: string, x: string, fuel: nat)
    requires Represents(m.heap, obj, Chain([Sym(y), Sym(x)], Nil)) && CurrValid(m)
    requires x != "#t" && x != "#f" && x in CurrVars(m)
    ensures DefineSpec(m, obj, fuel) == (Bind(m, y, CurrVars(m)[x]), Ok(Null))
  {
    OperandsOfChain(m.heap, obj, [Sym(y), Sym(x)]);
    var l := CellToVector(m.heap, obj).value;
    EvalSymbol(m, l[1], x, fuel);
  }

  /** `(define y x)` makes `y` name the very object `x` names: no copy is made. */
  lemma EvalDefineAlias(m: Machine, p: Ptr, y: string, x: string, fuel: nat)
    requires Represents(m.heap, p, BasicLaws.Form("define", [Sym(y), Sym(x)])) && CurrValid(m) && fuel > 0
    requires x != "#t" && x != "#f" && x in CurrVars(m)
    ensures var (m', r) := Eval(m, p, fuel);
      r.Ok? && IsSymbolNamed(m.heap, r.value, "define") && m'.heap == m.heap && Rebinds(m, m', y, CurrVars(m)[x])
  {
    var obj := DefineForm(m, p, [Sym(y), Sym(x)], fuel);
    DefineOfSymbol(m, obj, y, x, fuel - 1);
    BindRebinds(m, y, CurrVars(m)[x]);
  }

  lemma SetForm(m: Machine, p: Ptr, xs: seq<Datum>, fuel: nat) returns (obj: Ptr)
    requires Represents(m.heap, p, BasicLaws.Form("set!", xs)) && fuel > 0
    ensures Represents(m.heap, obj, Chain(xs, Nil)) && Eval(m, p, fuel) == SetSpec(m, obj, fuel - 1)
  {
    EvalFormAt(m, p, "set!", xs, fuel);
    obj := m.heap[p.addr].second;
    assert Functions["set!"] == SetFn;
  }

  /**
   * `set!` of a name the current frame does not bind is a name error
   * before anything is evaluated, whatever the value operand is and
   * whether or not an enclosing frame binds the name.
   */
  lemma EvalSetUnbound(m: Machine, p: Ptr, x: string, e: Datum, fuel: nat)
    requires Represents(m.heap, p, BasicLaws.Form("set!", [Sym(x), e])) && CurrValid(m) && x !in CurrVars(m) && fuel > 0
    ensures Eval(m, p, fuel) == (m, Raise(NameError))
  {
    var obj := SetForm(m, p, [Sym(x), e], fuel);
    OperandsOfChain(m.heap, obj, [Sym(x), e]);
  }

  lemma SetOfNumber(m: Machine, obj: Ptr, x: string, v: int, fuel: nat)
    requires Represents(m.heap, obj, Chain([Sym(x), Num(v)], Nil)) && CurrValid(m) && x in CurrVars(m)
    ensures SetSpec(m, obj, fuel) == (Bind(m.(heap := m.heap + [Number(v)]), x, Ref(|m.heap|)), Ok(Null))
  {
    OperandsOfChain(m.heap, obj, [Sym(x), Num(v)]);
    var l := CellToVector(m.heap, obj).value;
    EvalNumber(m, l[1], v, fuel);
  }

  /** `set!` of a bound name rebinds it in the current frame and answers null. */
  lemma EvalSetNumber(m: Machine, p: Ptr, x: string, v: int, fuel: nat)
    requires Represents(m.heap, p, BasicLaws.Form("set!", [Sym(x), Num(v)])) && CurrValid(m) && x in CurrVars(m) && fuel > 0
    ensures var (m', r) := Eval(m, p, fuel);
      r == Ok(Null) && m'.heap == m.heap + [Number(v)] && Rebinds(m, m', x, Ref(|m.heap|))
  {
    var obj := SetForm(m, p, [Sym(x), Num(v)], fuel);
    SetOfNumber(m, obj, x, v, fuel - 1);
    BindRebinds(m.(heap := m.heap + [Number(v)]), x, Ref(|m.heap|));
  }

  // ---------------------------------------------------------------------
  // Shared cells: `set-car!`

  lemma SetCarForm(m: Machine, p: Ptr, xs: seq<Datum>, fuel: nat) returns (obj: Ptr)
    requires Represents(m.heap, p, BasicLaws.Form("set-car!", xs)) && fuel > 0
    ensures Represents(m.heap, obj, Chain(xs, Nil)) && Eval(m, p, fuel) == SetCarSpec(m, obj, fuel - 1)
  {
    EvalFormAt(m, p, "set-car!", xs, fuel);
    obj := m.heap[p.addr].second;
    assert Functions["set-car!"] == SetCarFn;
  }

  lemma SetCarOfNumber(m: Machine, obj: Ptr, y: string, v: int, fuel: nat)
    requires Represents(m.heap, obj, Chain([Sym(y), Num(v)], Nil)) && CurrValid(m)
    requires y != "#t" && y != "#f" && y in CurrVars(m) && Is(m.heap, CurrVars(m)[y], CellType)
    ensures var c := CurrVars(m)[y];
      SetCarSpec(m, obj, fuel) == (m.(heap := SetFirst(m.heap + [Number(v)], c.addr, Ref(|m.heap|))), Ok(Null))
  {
    OperandsOfChain(m.heap, obj, [Sym(y), Num(v)]);
    var l := CellToVector(m.heap, obj).value;
    var c := CurrVars(m)[y];
    EvalSymbol(m, l[0], y, fuel);
    EvalNumber(m, l[1], v, fuel);
    var m1 := m.(heap := m.heap + [Number(v)]);
    assert EvalChecked(m, l, 0, [], fuel) == EvalChecked(m, l, 1, [] + [c], fuel);
    assert [] + [c] == [c] && [c] + [Ref(|m.heap|)] == [c, Ref(|m.heap|)];
    assert EvalChecked(m, l, 1, [c], fuel) == EvalChecked(m1, l, 2, [c] + [Ref(|m.heap|)], fuel);
    assert Is(m1.heap, c, CellType);
  }

  /**
   * `(set-car! y n)` changes the cell `y` names in place: its car becomes
   * a new copy of `n`, and no other object and no frame changes.
   */
  lemma EvalSetCar(m: Machine, p: Ptr, y: string, v: int, fuel: nat)
    requires Represents(m.heap, p, BasicLaws.Form("set-car!", [Sym(y), Num(v)])) && CurrValid(m) && fuel > 0
    requires y != "#t" && y != "#f" && y in CurrVars(m) && Is(m.heap, CurrVars(m)[y], CellType)
    ensures var (m', r) := Eval(m, p, fuel); var c := CurrVars(m)[y];
      r == Ok(Null) && m'.scopes == m.scopes && m'.curr == m.curr && m'.lambdas == m.lambdas &&
      |m'.heap| == |m.heap| + 1 && m'.heap[|m.heap|] == Number(v) &&
      m'.heap[c.addr] == Cell(Ref(|m.heap|), m.heap[c.addr].second) &&
      forall a | 0 <= a < |m.heap| && a != c.addr :: m'.heap[a] == m.heap[a]
  {
    var obj := SetCarForm(m, p, [Sym(y), Num(v)], fuel);
    SetCarOfNumber(m, obj, y, v, fuel - 1);
  }

  /**
   * A cell is shared by every name bound to it: after `(set-car! y n)`,
   * a name `x` bound to the same cell still evaluates to that cell, whose
   * car is now the copy of `n`.
   */
  lemma SetCarVisibleThroughAlias(m: Machine, p: Ptr, q: Ptr, x: string, y: string, v: int, fuel: nat, fuel': nat)
    requires Represents(m.heap, p, BasicLaws.Form("set-car!", [Sym(y), Num(v)])) && CurrValid(m) && fuel > 0
    requires y != "#t" && y != "#f" && y in CurrVars(m) && Is(m.heap, CurrVars(m)[y], CellType)
    requires Represents(m.heap, q, Sym(x)) && x != "#t" && x != "#f" && x in CurrVars(m) && CurrVars(m)[x] == CurrVars(m)[y]
    ensures var (m', _) := Eval(m, p, fuel); var c := CurrVars(m)[y];
      CurrValid(m') && Eval(m', q, fuel') == (m', Ok(c)) && |m'.heap| == |m.heap| + 1 &&
      m'.heap[c.addr] == Cell(Ref(|m.heap|), m.heap[c.addr].second) && m'.heap[|m.heap|] == Number(v)
  {
    EvalSetCar(m, p, y, v, fuel);
    var (m', _) := Eval(m, p, fuel);
    assert m'.heap[q.addr] == m.heap[q.addr];
    EvalSymbol(m', q, x, fuel');
  }

  // ---------------------------------------------------------------------
  // `and`, `or`

  /** The name of `and` (`stop` false) or `or` (`stop` true), and the symbol that stops it. */
  function ShortCircuitName(stop: bool): string { if stop then "or" else "and" }

  function Stopper(stop: bool): string { if stop then "#t" else "#f" }

  lemma ShortCircuitForm(m: Machine, p: Ptr, stop: bool, xs: seq<Datum>, fuel: nat) returns (list: seq<Ptr>)
    requires Represents(m.heap, p, BasicLaws.Form(ShortCircuitName(stop), xs)) && fuel > 0
    ensures |list| == |xs| && forall k | 0 <= k < |xs| :: Represents(m.heap, list[k], xs[k])
    ensures Eval(m, p, fuel) == ShortCircuit(m, list, 0, Null, stop, fuel - 1)
  {
    EvalFormAt(m, p, ShortCircuitName(stop), xs, fuel);
    assert Functions[ShortCircuitName(stop)] == if stop then OrFn else AndFn;
    OperandsOfChain(m.heap, m.heap[p.addr].second, xs);
    list := CellToVector(m.heap, m.heap[p.addr].second).value;
  }

  /** `(and)` is a new `#t` and `(or)` a new `#f`. */
  lemma EvalShortCircuitEmpty(m: Machine, p: Ptr, stop: bool, fuel: nat)
    requires Represents(m.heap, p, BasicLaws.Form(ShortCircuitName(stop), [])) && fuel > 0
    ensures var (m', r) := Eval(m, p, fuel); Fresh(m, m', r, Bool(!stop))
  {
    var list := ShortCircuitForm(m, p, stop, [], fuel);
  }

  /**
   * An `and` whose first operand is `#f` (an `or` whose first is `#t`)
   * answers a new copy of that symbol and evaluates nothing else.
   */
  lemma EvalShortCircuitStops(m: Machine, p: Ptr, stop: bool, rest: seq<Datum>, fuel: nat)
    requires Represents(m.heap, p, BasicLaws.Form(ShortCircuitName(stop), [Sym(Stopper(stop))] + rest)) && fuel > 0
    ensures Eval(m, p, fuel) ==
      (m.(heap := m.heap + [Symbol(Stopper(stop)), Symbol(Stopper(stop))]), Ok(Ref(|m.heap| + 1)))
  {
    var list := ShortCircuitForm(m, p, stop, [Sym(Stopper(stop))] + rest, fuel);
    assert Represents(m.heap, list[0], Sym(Stopper(stop)));
    EvalBoolean(m, list[0], Stopper(stop), fuel - 1);
    var m1 := m.(heap := m.heap + [Symbol(Stopper(stop))]);
    assert IsSymbolNamed(m1.heap, Ref(|m.heap|), Stopper(stop));
    assert Bool(stop) == Symbol(Stopper(stop));
    assert m1.heap + [Symbol(Stopper(stop))] == m.heap + [Symbol(Stopper(stop)), Symbol(Stopper(stop))];
  }

  lemma {:induction false} ShortCircuitNumbers(m: Machine, list: seq<Ptr>, i: nat, last: Ptr, stop: bool, ns: seq<int>, fuel: nat)
    requires i <= |list| == |ns| && |ns| > 0 && forall k | i <= k < |list| :: Represents(m.heap, list[k], Num(ns[k]))
    requires i > 0 ==> last.Ref? && last.addr < |m.heap| && m.heap[last.addr] == Number(ns[i - 1])
    ensures var (m', r) := ShortCircuit(m, list, i, last, stop, fuel);
      Grows(m, m') && |m'.heap| == |m.heap| + |list| - i && r.Ok? && r.value.Ref? &&
      r.value.addr < |m'.heap| && m'.heap[r.value.addr] == Number(ns[|ns| - 1]) &&
      (i < |list| ==> |m.heap| <= r.value.addr)
    decreases |list| - i
  {
    if i < |list| {
      EvalNumber(m, list[i], ns[i], fuel);
      var m1 := m.(heap := m.heap + [Number(ns[i])]);
      assert !IsSymbolNamed(m1.heap, Ref(|m.heap|), Stopper(stop));
      forall k | i + 1 <= k < |list|
        ensures Represents(m1.heap, list[k], Num(ns[k]))
      {
        assert m1.heap[list[k].addr] == m.heap[list[k].addr];
      }
      ShortCircuitNumbers(m1, list, i + 1, Ref(|m.heap|), stop, ns, fuel);
      var (m', r) := ShortCircuit(m1, list, i + 1, Ref(|m.heap|), stop, fuel);
      GrowsTrans(m, m1, m');
    }
  }

  /** `and` and `or` of numbers answer a new copy of the last one, after copying each. */
  lemma EvalShortCircuitNumbers(m: Machine, p: Ptr, stop: bool, ns: seq<int>, fuel: nat)
    requires Represents(m.heap, p, BasicLaws.Form(ShortCircuitName(stop), BasicLaws.Nums(ns))) && |ns| > 0 && fuel > 0
    ensures var (m', r) := Eval(m, p, fuel);
      Fresh(m, m', r, Number(ns[|ns| - 1])) && |m'.heap| == |m.heap| + |ns|
  {
    var list := ShortCircuitForm(m, p, stop, BasicLaws.Nums(ns), fuel);
    var m', r := ShortCircuitOfNumbers(m, list, stop, ns, fuel - 1);
  }

  lemma ShortCircuitOfNumbers(m: Machine, list: seq<Ptr>, stop: bool, ns: seq<int>, fuel: nat)
    returns (m': Machine, r: Result<Ptr>)
    requires |list| == |ns| > 0 && forall k | 0 <= k < |list| :: Represents(m.heap, list[k], Num(ns[k]))
    ensures ShortCircuit(m, list, 0, Null, stop, fuel) == (m', r)
    ensures Fresh(m, m', r, Number(ns[|ns| - 1])) && |m'.heap| == |m.heap| + |ns|
  {
    ShortCircuitNumbers(m, list, 0, Null, stop, ns, fuel);
    m', r := ShortCircuit(m, list, 0, Null, stop, fuel).0, ShortCircuit(m, list, 0, Null, stop, fuel).1;
  }

  // ---------------------------------------------------------------------
  // Lambdas

  lemma {:induction false} RunBodyNumbers(m: Machine, body: seq<Ptr>, i: nat, ns: seq<int>, fuel: nat)
    requires i < |body| == |ns| && forall k | i <= k < |body| :: Represents(m.heap, body[k], Num(ns[k]))
    ensures var (m', r) := RunBody(m, body, i, fuel);
      Grows(m, m') && |m'.heap| == |m.heap| + (|body| - 1 - i) && r.Ok?
    decreases |body| - i
  {
    if i < |body| - 1 {
      EvalNumber(m, body[i], ns[i], fuel);
      var m1 := m.(heap := m.heap + [Number(ns[i])]);
      forall k | i + 1 <= k < |body|
        ensures Represents(m1.heap, body[k], Num(ns[k]))
      {
        assert m1.heap[body[k].addr] == m.heap[body[k].addr];
      }
      RunBodyNumbers(m1, body, i + 1, ns, fuel);
      var (m', r) := RunBody(m1, body, i + 1, fuel);
      GrowsTrans(m, m1, m');
    }
  }

  /**
   * Running a lambda whose frame is `s` evaluates its body in that frame
   * and answers the last value; afterwards the current frame is the
   * parent of `s`, whichever frame was current before.
   */
  lemma LambdaExecuteNumbers(m: Machine, body: seq<Ptr>, s: nat, ns: seq<int>, fuel: nat)
    requires |body| == |ns| > 0 && forall k | 0 <= k < |body| :: Represents(m.heap, body[k], Num(ns[k]))
    requires s < |m.scopes|
    ensures var (m', r) := LambdaExecute(m, body, Some(s), fuel);
      m'.curr == m.scopes[s].prev && m'.scopes == m.scopes && m'.lambdas == m.lambdas &&
      |m'.heap| == |m.heap| + |body| && m'.heap[..|m.heap|] == m.heap &&
      r == Ok(Ref(|m.heap| + |body| - 1)) && m'.heap[|m.heap| + |body| - 1] == Number(ns[|ns| - 1])
  {
    var m0 := m.(curr := Some(s));
    RunBodyNumbers(m0, body, 0, ns, fuel);
    var (m1, _) := RunBody(m0, body, 0, fuel);
    var last := body[|body| - 1];
    assert m1.heap[last.addr] == m.heap[last.addr];
    EvalNumber(m1, last, ns[|ns| - 1], fuel);
    assert (m1.heap + [Number(ns[|ns| - 1])])[..|m.heap|] == m1.heap[..|m.heap|];
  }

  /**
   * A lambda without a frame (every lambda built from a body and names)
   * makes `curr` null, so leaving it, even after a body that evaluated
   * without error, is a call through null.
   */
  lemma LambdaWithoutFrame(m: Machine, body: seq<Ptr>, ns: seq<int>, fuel: nat)
    requires |body| == |ns| && forall k | 0 <= k < |body| :: Represents(m.heap, body[k], Num(ns[k]))
    ensures LambdaExecute(m, body, None, fuel).1 == Stuck(UndefinedBehaviour)
  {
    if |body| > 0 {
      var m0 := m.(curr := None);
      RunBodyNumbers(m0, body, 0, ns, fuel);
      var (m1, _) := RunBody(m0, body, 0, fuel);
      var last := body[|body| - 1];
      assert m1.heap[last.addr] == m.heap[last.addr];
      EvalNumber(m1, last, ns[|ns| - 1], fuel);
    }
  }

  function Syms(zs: seq<string>): (xs: seq<Datum>)
    ensures |xs| == |zs| && forall k | 0 <= k < |zs| :: xs[k] == Sym(zs[k])
  {
    seq(|zs|, k requires 0 <= k < |zs| => Sym(zs[k]))
  }

  /** A form is the chain of its head symbol and its operands. */
  lemma FormIsChain(name: string, ys: seq<Datum>)
    ensures BasicLaws.Form(name, ys) == Chain([Sym(name)] + ys, Nil)
  {
    assert ([Sym(name)] + ys)[1..] == ys;
  }

  /** The parameter names of symbols are the symbols' names. */
  lemma {:induction false} NamesOfSymbols(h: seq<Obj>, args: seq<Ptr>, i: nat, acc: seq<string>, zs: seq<string>)
    requires i <= |args| == |zs| && forall k | i <= k < |args| :: Represents(h, args[k], Sym(zs[k]))
    ensures Names(h, args, i, acc) == Ok(acc + zs[i..])
    decreases |args| - i
  {
    if i < |args| {
      assert ToString(h, args[i]) == Ok(zs[i]);
      NamesOfSymbols(h, args, i + 1, acc + [zs[i]], zs);
      assert zs[i..] == [zs[i]] + zs[i + 1..];
      assert acc + [zs[i]] + zs[i + 1..] == acc + zs[i..];
    } else {
      assert acc + zs[i..] == acc;
    }
  }

  /**
   * `MakeLambda` of a list whose second element is a list of symbols: those
   * are the parameter names and the elements from the third on the body.
   */
  lemma LambdaPartsOfChain(h: seq<Obj>, obj: Ptr, x0: Datum, zs: seq<string>, body: seq<Datum>) returns (ptrs: seq<Ptr>)
    requires Represents(h, obj, Chain([x0, Chain(Syms(zs), Nil)] + body, Nil)) && |zs| > 0
    ensures LambdaParts(h, obj) == Ok(Lambda(ptrs, zs, None))
    ensures |ptrs| == |body| && forall k | 0 <= k < |body| :: Represents(h, ptrs[k], body[k])
  {
    var xs := [x0, Chain(Syms(zs), Nil)] + body;
    OperandsOfChain(h, obj, xs);
    var list := CellToVector(h, obj).value;
    assert Represents(h, list[1], Chain(Syms(zs), Nil));
    OperandsOfChain(h, list[1], Syms(zs));
    var args := CellToVector(h, list[1]).value;
    NamesOfSymbols(h, args, 0, [], zs);
    assert [] + zs[0..] == zs;
    ptrs := list[2..];
    forall k | 0 <= k < |body|
      ensures Represents(h, ptrs[k], body[k])
    {
      assert ptrs[k] == list[k + 2] && xs[k + 2] == body[k];
    }
  }

  /**
   * `lambda` called through the table is given its operands, so the
   * parameter names come from its second operand, the body starts at the
   * third and the first operand is ignored.
   */
  lemma EvalLambdaFromTable(m: Machine, p: Ptr, ps: Datum, zs: seq<string>, body: seq<Datum>, fuel: nat)
    requires Represents(m.heap, p, BasicLaws.Form("lambda", [ps, Chain(Syms(zs), Nil)] + body)) && |zs| > 0 && fuel > 0
    ensures var (m', r) := Eval(m, p, fuel);
      Grows(m, m') && |m'.heap| == |m.heap| + 1 && r == Ok(Ref(|m.heap|)) &&
      var o := m'.heap[|m.heap|];
      o.Lambda? && o.vars == zs && o.scope == None && |o.body| == |body| &&
      forall k | 0 <= k < |body| :: Represents(m.heap, o.body[k], body[k])
  {
    var xs := [ps, Chain(Syms(zs), Nil)] + body;
    EvalFormAt(m, p, "lambda", xs, fuel);
    var obj := m.heap[p.addr].second;
    assert Functions["lambda"] == MakeLambdaFn;
    assert Eval(m, p, fuel) == MakeLambdaSpec(m, obj);
    var ptrs := LambdaPartsOfChain(m.heap, obj, ps, zs, body);
    assert (m.heap + [Lambda(ptrs, zs, None)])[..|m.heap|] == m.heap;
  }

  /**
   * Applying a lambda written in place, `((lambda (x ...) n ...) args ...)`,
   * builds a lambda without a frame and runs it, so it ends as a call
   * through null once its body has been evaluated.
   */
  lemma InlineLambdaIsUndefined(m: Machine, p: Ptr, zs: seq<string>, ns: seq<int>, args: seq<Datum>, fuel: nat)
    requires var f := BasicLaws.Form("lambda", [Chain(Syms(zs), Nil)] + BasicLaws.Nums(ns));
      Represents(m.heap, p, Pair(f, Chain(args, Nil))) && |zs| > 0 && fuel > 0
    ensures Eval(m, p, fuel).1 == Stuck(UndefinedBehaviour)
  {
    var h := m.heap;
    var c := h[p.addr];
    var params := Chain(Syms(zs), Nil);
    FormIsChain("lambda", [params] + BasicLaws.Nums(ns));
    assert [Sym("lambda")] + ([params] + BasicLaws.Nums(ns)) == [Sym("lambda"), params] + BasicLaws.Nums(ns);
    var f := BasicLaws.Form("lambda", [params] + BasicLaws.Nums(ns));
    assert Represents(h, c.first, f) && f.car == Sym("lambda");
    assert Represents(h, h[c.first.addr].first, Sym("lambda"));
    assert IsLambdaForm(h, c.first);
    OperandsOfChain(h, c.second, args);
    var ptrs := LambdaPartsOfChain(h, c.first, Sym("lambda"), zs, BasicLaws.Nums(ns));
    var m1 := m.(heap := h + [Lambda(ptrs, zs, None)]);
    assert Eval(m, p, fuel) == ExecuteCell(m, c.first, c.second, fuel - 1);
    assert ExecuteCell(m, c.first, c.second, fuel - 1) == LambdaExecute(m1, ptrs, None, fuel - 1);
    forall k | 0 <= k < |ptrs|
      ensures Represents(m1.heap, ptrs[k], Num(ns[k]))
    {
      assert Represents(h, ptrs[k], Num(ns[k]));
      assert m1.heap[ptrs[k].addr] == h[ptrs[k].addr];
    }
    LambdaWithoutFrame(m1, ptrs, ns, fuel - 1);
  }

  // ---------------------------------------------------------------------
  // The interpreter

  /** After constructing an `Interpreter`, every name is unbound in the current frame. */
  lemma ResetForgets(m: Machine, p: Ptr, x: string, fuel: nat)
    requires CurrValid(m) && Represents(m.heap, p, Sym(x)) && x != "#t" && x != "#f"
    ensures Eval(Reset(m), p, fuel) == (Reset(m), Raise(NameError))
  {
    EvalSymbol(Reset(m), p, x, fuel);
  }

  /**
   * When the advanced evaluator answers an object graph for the tree the
   * basic evaluator answers, both interpreters print the same text.
   */
  lemma RunAgrees(m: Machine, s: string, d: Datum, v: Datum, fuel: nat)
    requires ReadsAs(s, d) && d != Nil && BasicScheme.Eval(d) == Ok(v)
    requires var (h1, p) := Load(m.heap, d); var (m2, r) := Eval(m.(heap := h1), p, fuel);
      r.Ok? && Represents(m2.heap, r.value, v) && Height(v) <= |m2.heap| + 1
    ensures RunSpec(m, s, fuel).1 == BasicScheme.RunSpec(s) == Ok(BasicScheme.Print(v))
  {
    var (h1, p) := Load(m.heap, d);
    var (m2, r) := Eval(m.(heap := h1), p, fuel);
    PrintOfRepresented(m2.heap, r.value, v);
  }

  /** Both interpreters print a quoted tree alike. */
  lemma RunQuoteAgrees(m: Machine, s: string, x: Datum, fuel: nat)
    requires ReadsAs(s, BasicLaws.Form("quote", [x])) && fuel > 0
    ensures RunSpec(m, s, fuel).1 == BasicScheme.RunSpec(s) == Ok(BasicScheme.Print(x))
  {
    var d := BasicLaws.Form("quote", [x]);
    var (h1, p) := Load(m.heap, d);
    EvalQuote(m.(heap := h1), p, x, fuel);
    BasicLaws.ChainOne(x);
    assert d == Pair(Sym("quote"), Pair(x, Nil));
    assert Size(d) == 3 + Size(x);
    BasicLaws.EvalQuote(x);
    RunAgrees(m, s, d, x, fuel);
  }

  /** Both interpreters print the same sum. */
  lemma RunSumAgrees(m: Machine, s: string, ns: seq<int>, fuel: nat)
    requires ReadsAs(s, BasicLaws.Form("+", BasicLaws.Nums(ns))) && fuel > 0
    ensures RunSpec(m, s, fuel).1 == BasicScheme.RunSpec(s) == Ok(IntToString(SumOf(ns)))
  {
    var d := BasicLaws.Form("+", BasicLaws.Nums(ns));
    var (h1, p) := Load(m.heap, d);
    EvalSum(m.(heap := h1), p, ns, fuel);
    BasicLaws.EvalPlus(ns);
    RunAgrees(m, s, d, Num(SumOf(ns)), fuel);
  }

  /** The printed text of a sum of literals: both interpreters print its value. */
  lemma RunShownSumAgrees(m: Machine, ns: seq<int>, fuel: nat)
    requires fuel > 0
    ensures var s := Show(BasicLaws.Form("+", BasicLaws.Nums(ns)));
      RunSpec(m, s, fuel).1 == BasicScheme.RunSpec(s) == Ok(IntToString(SumOf(ns)))
  {
    var d := BasicLaws.Form("+", BasicLaws.Nums(ns));
    ShowableForm("+", BasicLaws.Nums(ns));
    ShowReadsAs(d);
    RunSumAgrees(m, Show(d), ns, fuel);
  }

  /** A form whose head is a symbol name and whose operands are showable is showable. */
  lemma {:induction false} ShowableForm(name: string, xs: seq<Datum>)
    requires IsSymbolName(name) && forall k | 0 <= k < |xs| :: Showable(xs[k])
    ensures Showable(BasicLaws.Form(name, xs))
  {
    ShowableChain(xs);
  }

  lemma {:induction false} ShowableChain(xs: seq<Datum>)
    requires forall k | 0 <= k < |xs| :: Showable(xs[k])
    ensures Showable(Chain(xs, Nil))
    decreases |xs|
  {
    if xs != [] {
      assert forall k | 0 <= k < |xs[1..]| :: xs[1..][k] == xs[k + 1];
      ShowableChain(xs[1..]);
    }
  }

  /** The printed text of `(quote x)`: both interpreters print `x` alike. */
  lemma RunShownQuoteAgrees(m: Machine, x: Datum, fuel: nat)
    requires Showable(x) && fuel > 0
    ensures var s := Show(BasicLaws.Form("quote", [x]));
      RunSpec(m, s, fuel).1 == BasicScheme.RunSpec(s) == Ok(BasicScheme.Print(x))
  {
    ShowableForm("quote", [x]);
    ShowReadsAs(BasicLaws.Form("quote", [x]));
    RunQuoteAgrees(m, Show(BasicLaws.Form("quote", [x])), x, fuel);
  }

  // ---------------------------------------------------------------------
  // Predicates and indexed access

  /** What an object representing a tree is, read off the tree. */
  lemma RepresentsTags(h: seq<Obj>, q: Ptr, d: Datum)
    requires Represents(h, q, d)
    ensures Is(h, q, NumberType) <==> d.Num?
    ensures Is(h, q, SymbolType) <==> d.Sym?
    ensures Is(h, q, CellType) <==> d.Pair?
    ensures forall name :: IsSymbolNamed(h, q, name) <==> d == Sym(name)
  {
  }

  /**
   * `boolean?` looks at its operand unevaluated: a new `#t` exactly when
   * there is one operand and it is written `#t` or `#f`.
   */
  lemma EvalIsBooleanOf(m: Machine, p: Ptr, xs: seq<Datum>, fuel: nat)
    requires Represents(m.heap, p, BasicLaws.Form("boolean?", xs)) && fuel > 0
    ensures Eval(m, p, fuel) ==
      (m.(heap := m.heap + [Bool(|xs| == 1 && (xs[0] == Sym("#t") || xs[0] == Sym("#f")))]), Ok(Ref(|m.heap|)))
  {
    EvalFormAt(m, p, "boolean?", xs, fuel);
    var obj := m.heap[p.addr].second;
    assert Functions["boolean?"] == IsBooleanFn;
    assert Eval(m, p, fuel) == IsBooleanSpec(m, obj);
    OperandsOfChain(m.heap, obj, xs);
    if |xs| == 1 {
      RepresentsTags(m.heap, CellToVector(m.heap, obj).value[0], xs[0]);
    }
  }

  /** `not` needs exactly one operand and answers a new `#t` exactly when it is written `#f`. */
  lemma EvalNotOf(m: Machine, p: Ptr, xs: seq<Datum>, fuel: nat)
    requires Represents(m.heap, p, BasicLaws.Form("not", xs)) && fuel > 0
    ensures Eval(m, p, fuel) ==
      if |xs| != 1 then (m, Raise(RuntimeError))
      else (m.(heap := m.heap + [Bool(xs[0] == Sym("#f"))]), Ok(Ref(|m.heap|)))
  {
    EvalFormAt(m, p, "not", xs, fuel);
    var obj := m.heap[p.addr].second;
    assert Functions["not"] == NotFn;
    assert Eval(m, p, fuel) == NotSpec(m, obj);
    OperandsOfChain(m.heap, obj, xs);
    if |xs| == 1 {
      RepresentsTags(m.heap, CellToVector(m.heap, obj).value[0], xs[0]);
    }
  }

  /** A single quoted operand evaluates, with nothing changed, to the object of the quoted tree. */
  lemma OperandQuoted(m: Machine, obj: Ptr, d: Datum, fuel: nat) returns (q: Ptr, v: Ptr)
    requires Represents(m.heap, obj, Chain([BasicLaws.Form("quote", [d])], Nil)) && fuel > 0
    ensures CellToVector(m.heap, obj) == Ok([q]) && q.Ref?
    ensures Eval(m, q, fuel) == (m, Ok(v)) && Represents(m.heap, v, d)
  {
    OperandsOfChain(m.heap, obj, [BasicLaws.Form("quote", [d])]);
    q := CellToVector(m.heap, obj).value[0];
    assert CellToVector(m.heap, obj).value == [q];
    EvalQuote(m, q, d, fuel);
    v := Eval(m, q, fuel).1.value;
  }

  /**
   * `number?` and `symbol?` evaluate their operand: of a quoted tree, a
   * new `#t` exactly when the tree is a number (a symbol).
   */
  lemma EvalTypeTestOfQuoted(m: Machine, p: Ptr, number: bool, d: Datum, fuel: nat)
    requires Represents(m.heap, p, BasicLaws.Form(if number then "number?" else "symbol?", [BasicLaws.Form("quote", [d])]))
    requires fuel > 1
    ensures Eval(m, p, fuel) == (m.(heap := m.heap + [Bool(if number then d.Num? else d.Sym?)]), Ok(Ref(|m.heap|)))
  {
    var t := if number then NumberType else SymbolType;
    var obj := TypeTestForm(m, p, number, [BasicLaws.Form("quote", [d])], fuel);
    var q, v := OperandQuoted(m, obj, d, fuel - 1);
    TypeTestOfOne(t, m, obj, q, fuel - 1);
    RepresentsTags(m.heap, v, d);
  }

  /** A `number?` (`symbol?`) form is `TypeTestSpec` of its operand chain. */
  lemma TypeTestForm(m: Machine, p: Ptr, number: bool, xs: seq<Datum>, fuel: nat) returns (obj: Ptr)
    requires Represents(m.heap, p, BasicLaws.Form(if number then "number?" else "symbol?", xs)) && fuel > 0
    ensures Represents(m.heap, obj, Chain(xs, Nil))
    ensures Eval(m, p, fuel) == TypeTestSpec(if number then NumberType else SymbolType, m, obj, fuel - 1)
  {
    var name := if number then "number?" else "symbol?";
    EvalFormAt(m, p, name, xs, fuel);
    obj := m.heap[p.addr].second;
    assert Functions[name] == if number then IsNumberFn else IsSymbolFn;
  }

  /** `number?` and `symbol?` of one operand: a new `#t` exactly when its value has the type. */
  lemma TypeTestOfOne(t: TypeObject, m: Machine, obj: Ptr, q: Ptr, fuel: nat)
    requires CellToVector(m.heap, obj) == Ok([q]) && q.Ref? && Eval(m, q, fuel).1.Ok?
    ensures var (m1, v) := Eval(m, q, fuel);
      TypeTestSpec(t, m, obj, fuel) == (m1.(heap := m1.heap + [Bool(Is(m1.heap, v.value, t))]), Ok(Ref(|m1.heap|)))
  {
    var (m1, v) := Eval(m, q, fuel);
    assert [] + [v.value] == [v.value];
    assert EvalChecked(m, [q], 0, [], fuel) == EvalChecked(m1, [q], 1, [v.value], fuel);
    assert Operands(m, obj, fuel) == (m1, Ok([v.value]));
    assert AllOfType(m1.heap, [v.value], t) <==> Is(m1.heap, v.value, t) by {
      assert [v.value][0] == v.value;
    }
  }

  /**
   * Unlike the basic variant, `number?` sees the value of its operand: a
   * sum is a number to it.
   */
  lemma EvalIsNumberOfSum(m: Machine, p: Ptr, ns: seq<int>, fuel: nat)
    requires Represents(m.heap, p, BasicLaws.Form("number?", [BasicLaws.Form("+", BasicLaws.Nums(ns))])) && fuel > 1
    ensures var (m', r) := Eval(m, p, fuel); Fresh(m, m', r, Symbol("#t"))
  {
    var e := BasicLaws.Form("+", BasicLaws.Nums(ns));
    var obj := TypeTestForm(m, p, true, [e], fuel);
    OperandsOfChain(m.heap, obj, [e]);
    var q := CellToVector(m.heap, obj).value[0];
    assert CellToVector(m.heap, obj).value == [q];
    EvalSum(m, q, ns, fuel - 1);
    TypeTestOfOne(NumberType, m, obj, q, fuel - 1);
    var (m1, v) := Eval(m, q, fuel - 1);
    assert (m1.heap + [Symbol("#t")])[..|m.heap|] == m.heap by {
      assert m1.heap[..|m.heap|] == m.heap;
    }
  }

  /** `pair?` of a quoted list: a new `#t` exactly when it flattens to two elements. */
  lemma EvalIsPairOfQuoted(m: Machine, p: Ptr, d: Datum, fuel: nat)
    requires Represents(m.heap, p, BasicLaws.Form("pair?", [BasicLaws.Form("quote", [d])]))
    requires BasicScheme.Walkable(d) && fuel > 1
    ensures Eval(m, p, fuel) == (m.(heap := m.heap + [Bool(|BasicScheme.Flatten(d)| == 2)]), Ok(Ref(|m.heap|)))
  {
    EvalFormAt(m, p, "pair?", [BasicLaws.Form("quote", [d])], fuel);
    var obj := m.heap[p.addr].second;
    assert Functions["pair?"] == PairFn;
    assert Eval(m, p, fuel) == PairSpec(m, obj, fuel - 1);
    var q, v := OperandQuoted(m, obj, d, fuel - 1);
    CellToVectorOfRepresented(m.heap, v, d);
  }

  /** `null?` of a quoted tree: a new `#t` exactly for `()`. */
  lemma EvalNullOfQuoted(m: Machine, p: Ptr, d: Datum, fuel: nat)
    requires Represents(m.heap, p, BasicLaws.Form("null?", [BasicLaws.Form("quote", [d])])) && fuel > 1
    ensures Eval(m, p, fuel) == (m.(heap := m.heap + [Bool(d == Nil)]), Ok(Ref(|m.heap|)))
  {
    EvalFormAt(m, p, "null?", [BasicLaws.Form("quote", [d])], fuel);
    var obj := m.heap[p.addr].second;
    assert Functions["null?"] == NullFn;
    assert Eval(m, p, fuel) == NullSpec(m, obj, fuel - 1);
    var q, v := OperandQuoted(m, obj, d, fuel - 1);
    RepresentsNil(m.heap, v, d);
  }

  /** `pair?`, `null?` and `list?` need exactly one operand. */
  lemma EvalListPredicateArity(m: Machine, p: Ptr, name: string, xs: seq<Datum>, fuel: nat)
    requires name == "pair?" || name == "null?" || name == "list?"
    requires Represents(m.heap, p, BasicLaws.Form(name, xs)) && |xs| != 1 && fuel > 0
    ensures Eval(m, p, fuel) == (m, Raise(RuntimeError))
  {
    EvalFormAt(m, p, name, xs, fuel);
    var obj := m.heap[p.addr].second;
    assert Functions[name] == if name == "pair?" then PairFn else if name == "null?" then NullFn else CheckListFn;
    OperandsOfChain(m.heap, obj, xs);
  }

  /**
   * The operands `(list xs...)` and the literal `k` of `list-ref` and
   * `list-tail`: the list is the objects of `xs` themselves, as `list`
   * answers its operand chain unevaluated.
   */
  lemma IndexedOfList(m: Machine, obj: Ptr, xs: seq<Datum>, k: int, fuel: nat) returns (l: seq<Ptr>)
    requires Represents(m.heap, obj, Chain([BasicLaws.Form("list", xs), Num(k)], Nil)) && fuel > 0
    ensures IndexedList(m, obj, fuel) == (m, Ok((l, k)))
    ensures |l| == |xs| && forall j | 0 <= j < |xs| :: Represents(m.heap, l[j], xs[j])
  {
    OperandsOfChain(m.heap, obj, [BasicLaws.Form("list", xs), Num(k)]);
    var ops := CellToVector(m.heap, obj).value;
    EvalFormAt(m, ops[0], "list", xs, fuel);
    assert Functions["list"] == MakeListFn;
    var c := m.heap[ops[0].addr].second;
    assert Eval(m, ops[0], fuel) == (m, Ok(c));
    OperandsOfChain(m.heap, c, xs);
    l := CellToVector(m.heap, c).value;
  }

  /**
   * `list-ref` answers the object at the index itself, with nothing
   * changed; an index outside the list is a runtime error.
   */
  lemma EvalListRef(m: Machine, p: Ptr, xs: seq<Datum>, k: int, fuel: nat)
    requires Represents(m.heap, p, BasicLaws.Form("list-ref", [BasicLaws.Form("list", xs), Num(k)])) && fuel > 1
    ensures var (m', r) := Eval(m, p, fuel);
      m' == m && if 0 <= k < |xs| then r.Ok? && Represents(m.heap, r.value, xs[k]) else r == Raise(RuntimeError)
  {
    EvalFormAt(m, p, "list-ref", [BasicLaws.Form("list", xs), Num(k)], fuel);
    var obj := m.heap[p.addr].second;
    assert Functions["list-ref"] == ListRefFn;
    assert Eval(m, p, fuel) == ListRefSpec(m, obj, fuel - 1);
    var l := IndexedOfList(m, obj, xs, k, fuel - 1);
  }

  /**
   * The rebuilding of `list-tail` is the reader's `BuildList` over the
   * trees the objects represent: the same syntax error, or new cells that
   * represent the list it builds.
   */
  lemma {:induction false} BuildListAtRepresents(m: Machine, list: seq<Ptr>, ds: seq<Datum>, pos: nat)
    requires pos <= |list| == |ds| && forall j | 0 <= j < |list| :: Represents(m.heap, list[j], ds[j])
    ensures var (m', r) := BuildListAt(m, list, pos); var e := BuildList(ds, pos);
      (r.Ok? <==> e.Ok?) && (r.Ok? ==> Represents(m'.heap, r.value, e.value)) && (!r.Ok? ==> r == Raise(SyntaxError))
    decreases |list| - pos
  {
    if pos < |list| {
      RepresentsTags(m.heap, list[pos], ds[pos]);
      if !IsDot(ds[pos]) {
        BuildListAtRepresents(m, list, ds, pos + 1);
        var (m1, rest) := BuildListAt(m, list, pos + 1);
        if rest.Ok? {
          var h' := m1.heap + [Cell(list[pos], rest.value)];
          assert h'[..|m1.heap|] == m1.heap;
          assert h'[..|m.heap|] == m.heap by {
            assert m1.heap[..|m.heap|] == m.heap;
          }
          RepresentsExtends(m.heap, h', list[pos], ds[pos]);
          RepresentsExtends(m1.heap, h', rest.value, BuildList(ds, pos + 1).value);
        }
      }
    }
  }

  /**
   * `list-tail` rebuilds the elements from the index on as the reader
   * would (so a dot among them is a syntax error); an index past the end
   * is a runtime error.
   */
  lemma EvalListTail(m: Machine, p: Ptr, xs: seq<Datum>, k: int, fuel: nat)
    requires Represents(m.heap, p, BasicLaws.Form("list-tail", [BasicLaws.Form("list", xs), Num(k)])) && fuel > 1
    ensures var (m', r) := Eval(m, p, fuel);
      if 0 <= k <= |xs| then
        var e := BuildList(xs[k..], 0);
        Grows(m, m') && (r.Ok? <==> e.Ok?) && (r.Ok? ==> Represents(m'.heap, r.value, e.value)) &&
        (!r.Ok? ==> r == Raise(SyntaxError))
      else m' == m && r == Raise(RuntimeError)
  {
    EvalFormAt(m, p, "list-tail", [BasicLaws.Form("list", xs), Num(k)], fuel);
    var obj := m.heap[p.addr].second;
    assert Functions["list-tail"] == ListTailFn;
    assert Eval(m, p, fuel) == ListTailSpec(m, obj, fuel - 1);
    var l := IndexedOfList(m, obj, xs, k, fuel - 1);
    if 0 <= k <= |xs| {
      var tail := l[k..];
      forall j | 0 <= j < |tail|
        ensures Represents(m.heap, tail[j], xs[k..][j])
      {
        assert tail[j] == l[k + j];
      }
      BuildListAtRepresents(m, tail, xs[k..], 0);
    }
  }

  /** Without dots, `list-tail` answers new cells holding the elements from the index on. */
  lemma EvalListTailOfList(m: Machine, p: Ptr, xs: seq<Datum>, k: int, fuel: nat)
    requires Represents(m.heap, p, BasicLaws.Form("list-tail", [BasicLaws.Form("list", xs), Num(k)])) && fuel > 1
    requires forall j | 0 <= j < |xs| :: !IsDot(xs[j])
    ensures var (m', r) := Eval(m, p, fuel);
      if 0 <= k <= |xs| then Grows(m, m') && r.Ok? && Represents(m'.heap, r.value, Chain(xs[k..], Nil))
      else m' == m && r == Raise(RuntimeError)
  {
    EvalListTail(m, p, xs, k, fuel);
    if 0 <= k <= |xs| {
      var suffix := xs[k..];
      BuildListShape(suffix, 0);
      assert suffix[0..] == suffix;
      assert DotIndex(suffix, 0) == |suffix| by {
        forall j | 0 <= j < |suffix|
          ensures !IsDot(suffix[j])
        {
          assert suffix[j] == xs[k + j];
        }
      }
    }
  }

  /**
   * `list-ref` and `list-tail` need two operands, the first written as a
   * form and the second as a number literal; anything else is a runtime
   * error before either is evaluated.
   */
  lemma EvalIndexedBadOperands(m: Machine, p: Ptr, name: string, xs: seq<Datum>, fuel: nat)
    requires name == "list-ref" || name == "list-tail"
    requires Represents(m.heap, p, BasicLaws.Form(name, xs)) && fuel > 0
    requires |xs| != 2 || !xs[0].Pair? || !xs[1].Num?
    ensures Eval(m, p, fuel) == (m, Raise(RuntimeError))
  {
    EvalFormAt(m, p, name, xs, fuel);
    var obj := m.heap[p.addr].second;
    assert Functions[name] == if name == "list-ref" then ListRefFn else ListTailFn;
    OperandsOfChain(m.heap, obj, xs);
    if |xs| == 2 {
      var l := CellToVector(m.heap, obj).value;
      RepresentsTags(m.heap, l[0], xs[0]);
      RepresentsTags(m.heap, l[1], xs[1]);
    }
    assert IndexedList(m, obj, fuel - 1) == (m, Raise(RuntimeError));
  }
}
