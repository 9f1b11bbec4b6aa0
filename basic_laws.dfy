/**
 * What the basic evaluator computes on whole expressions, stated against
 * independent definitions: sums and products, adjacent comparisons, the
 * car/cdr of a cons, indexing into a list, and the short-circuit rules.
 */
module BasicLaws {
  import opened Errors
  import opened Reader
  import opened Arithmetic
  import opened BasicScheme

  /** The expression `(name operand ...)`. */
  function Form(name: string, operands: seq<Datum>): Datum {
    Pair(Sym(name), Chain(operands, Nil))
  }

  predicate IsAtom(d: Datum) { d.Num? || d.Sym? }

  /** A form naming a builtin applies it to the operand chain. */
  lemma EvalForm(name: string, xs: seq<Datum>)
    requires name in Functions
    ensures Walkable(Chain(xs, Nil)) && Eval(Form(name, xs)) == Apply(Functions[name], Chain(xs, Nil))
  {
  }

  lemma ChainOne(x: Datum)
    ensures Chain([x], Nil) == Pair(x, Nil)
  {
    assert [x][1..] == [];
  }

  lemma ChainTwo(a: Datum, b: Datum)
    ensures Chain([a, b], Nil) == Pair(a, Pair(b, Nil))
  {
    assert [a, b][1..] == [b];
    ChainOne(b);
  }

  function Nums(ns: seq<int>): (xs: seq<Datum>)
    ensures |xs| == |ns| && forall k | 0 <= k < |ns| :: xs[k] == Num(ns[k])
  {
    seq(|ns|, k requires 0 <= k < |ns| => Num(ns[k]))
  }

  // ---------------------------------------------------------------------
  // Flattening

  /** A nil-terminated chain flattens back to exactly its elements. */
  lemma {:induction false} FlattenChain(xs: seq<Datum>)
    ensures Walkable(Chain(xs, Nil)) && Flatten(Chain(xs, Nil)) == xs
  {
    if |xs| > 1 {
      FlattenChain(xs[1..]);
    }
  }

  /** A chain ending in an atom flattens to its elements followed by the atom. */
  lemma {:induction false} FlattenDotted(xs: seq<Datum>, tail: Datum)
    requires |xs| > 0 && IsAtom(tail)
    ensures Flatten(Chain(xs, tail)) == xs + [tail]
  {
    if |xs| > 1 {
      FlattenDotted(xs[1..], tail);
    }
  }

  /** So a dotted tail cannot be told from one more element: `(a . b)` flattens as `(a b)`. */
  lemma DottedTailLooksLikeElement(xs: seq<Datum>, tail: Datum)
    requires |xs| > 0 && IsAtom(tail)
    ensures Flatten(Chain(xs, tail)) == Flatten(Chain(xs + [tail], Nil))
  {
    FlattenDotted(xs, tail);
    FlattenChain(xs + [tail]);
  }

  // ---------------------------------------------------------------------
  // Operand evaluation

  lemma {:induction false} EvalCheckedAtoms(list: seq<Datum>, i: nat, acc: seq<Datum>, obj: Datum)
    requires i <= |list| && forall k | 0 <= k < |list| :: list[k] < obj
    requires forall k | 0 <= k < |list| :: IsAtom(list[k])
    ensures EvalChecked(list, i, acc, obj) == Ok(acc + list[i..])
    decreases |list| - i
  {
    if i < |list| {
      assert list[i] != Nil && Eval(list[i]) == Ok(list[i]);
      EvalCheckedAtoms(list, i + 1, acc + [list[i]], obj);
      assert acc + [list[i]] + list[i + 1..] == acc + list[i..];
    } else {
      assert list[i..] == [];
      assert EvalChecked(list, i, acc, obj) == Ok(acc);
      assert acc + list[i..] == acc;
    }
  }

  lemma NumbersEvaluateToThemselves(ns: seq<int>)
    ensures var obj := Chain(Nums(ns), Nil);
      Walkable(obj) && EvalChecked(Flatten(obj), 0, [], obj) == Ok(Nums(ns))
  {
    var obj := Chain(Nums(ns), Nil);
    FlattenChain(Nums(ns));
    EvalCheckedAtoms(Nums(ns), 0, [], obj);
    assert [] + Nums(ns)[0..] == Nums(ns);
    assert Values(Nums(ns)) == ns;
  }

  /** `(+ n ...)` is the sum of the numbers, 0 for none. */
  lemma EvalPlus(ns: seq<int>)
    ensures Eval(Form("+", Nums(ns))) == Ok(Num(SumOf(ns)))
  {
    EvalForm("+", Nums(ns));
    NumbersEvaluateToThemselves(ns);
    assert Values(Nums(ns)) == ns;
    PlusIsSum(ns);
  }

  /** `(* n ...)` is the product of the numbers, 1 for none. */
  lemma EvalTimes(ns: seq<int>)
    ensures Eval(Form("*", Nums(ns))) == Ok(Num(ProductOf(ns)))
  {
    EvalForm("*", Nums(ns));
    NumbersEvaluateToThemselves(ns);
    assert Values(Nums(ns)) == ns;
    TimesIsProduct(ns);
  }

  /** `(- n m ...)` subtracts the rest from the first; `(-)` is a runtime error. */
  lemma EvalMinus(ns: seq<int>)
    ensures Eval(Form("-", Nums(ns))) ==
      if ns == [] then Raise(RuntimeError) else Ok(Num(ns[0] - SumOf(ns[1..])))
  {
    EvalForm("-", Nums(ns));
    NumbersEvaluateToThemselves(ns);
    assert Values(Nums(ns)) == ns;
    if ns != [] {
      MinusSubtractsRest(ns);
    }
  }

  /** `(max n ...)` is the greatest operand; `(max)` is a runtime error. */
  lemma EvalMax(ns: seq<int>)
    ensures var r := Eval(Form("max", Nums(ns)));
      if ns == [] then r == Raise(RuntimeError)
      else r.Ok? && r.value.Num? && r.value.value in ns && forall k | 0 <= k < |ns| :: ns[k] <= r.value.value
  {
    EvalForm("max", Nums(ns));
    NumbersEvaluateToThemselves(ns);
    assert Values(Nums(ns)) == ns;
    if ns != [] {
      MaxIsGreatest(ns);
      var obj := Chain(Nums(ns), Nil);
      var f := FoldFrom(Max, ns[0], ns, 1);
      assert NotDefFirstSpec(Max, obj) == Ok(Num(f.value));
    }
  }

  /** `(min n ...)` is the least operand; `(min)` is a runtime error. */
  lemma EvalMin(ns: seq<int>)
    ensures var r := Eval(Form("min", Nums(ns)));
      if ns == [] then r == Raise(RuntimeError)
      else r.Ok? && r.value.Num? && r.value.value in ns && forall k | 0 <= k < |ns| :: r.value.value <= ns[k]
  {
    EvalForm("min", Nums(ns));
    NumbersEvaluateToThemselves(ns);
    assert Values(Nums(ns)) == ns;
    if ns != [] {
      MinIsLeast(ns);
      var obj := Chain(Nums(ns), Nil);
      var f := FoldFrom(Min, ns[0], ns, 1);
      assert NotDefFirstSpec(Min, obj) == Ok(Num(f.value));
    }
  }

  /** A comparison of numbers is `#t` exactly when every neighbouring pair is in the relation. */
  lemma EvalCompare(name: string, rel: Relation, ns: seq<int>)
    requires name in Functions && Functions[name] == CompareFn(rel)
    ensures Eval(Form(name, Nums(ns))) == Ok(Bool(AllAdjacent(rel, ns)))
  {
    EvalForm(name, Nums(ns));
    NumbersEvaluateToThemselves(ns);
    assert Values(Nums(ns)) == ns;
    var obj := Chain(Nums(ns), Nil);
    assert Apply(CompareFn(rel), obj) == CompareSpec(rel, obj);
  }

  /** An arithmetic builtin given a symbol among its operands is a runtime error. */
  lemma ArithmeticRejectsSymbol(name: string, xs: seq<Datum>, k: nat)
    requires name in Functions && (Functions[name].CompareFn? || Functions[name].DefFirstFn? ||
                                   Functions[name].NotDefFirstFn? || Functions[name] == AbsFn)
    requires forall j | 0 <= j < |xs| :: IsAtom(xs[j])
    requires k < |xs| && xs[k].Sym?
    ensures Eval(Form(name, xs)) == Raise(RuntimeError)
  {
    var obj := Chain(xs, Nil);
    EvalForm(name, xs);
    AtomsEvaluateToThemselves(xs);
    assert !IsListOf(xs, NumberTag) by { assert !Is(xs[k], NumberTag); }
    NumericRejects(Functions[name], obj, xs);
  }

  /** The operands of a chain of atoms evaluate to themselves. */
  lemma AtomsEvaluateToThemselves(xs: seq<Datum>)
    requires forall j | 0 <= j < |xs| :: IsAtom(xs[j])
    ensures var obj := Chain(xs, Nil);
      Walkable(obj) && EvalChecked(Flatten(obj), 0, [], obj) == Ok(xs)
  {
    var obj := Chain(xs, Nil);
    FlattenChain(xs);
    assert below: forall k | 0 <= k < |xs| :: xs[k] < obj by {
      assert Flatten(obj) == xs;
    }
    EvalCheckedAtoms(xs, 0, [], obj);
    assert [] + xs[0..] == xs;
  }

  /** A numeric functor whose evaluated operands are not all numbers raises a runtime error. */
  lemma NumericRejects(f: Builtin, obj: Datum, vals: seq<Datum>)
    requires f.CompareFn? || f.DefFirstFn? || f.NotDefFirstFn? || f == AbsFn
    requires Walkable(obj) && EvalChecked(Flatten(obj), 0, [], obj) == Ok(vals) && !IsListOf(vals, NumberTag)
    ensures Apply(f, obj) == Raise(RuntimeError)
  {
  }

  // ---------------------------------------------------------------------
  // Forms that do not evaluate their operands

  lemma EvalQuote(x: Datum)
    ensures Eval(Form("quote", [x])) == Ok(x)
  {
    EvalForm("quote", [x]);
    ChainOne(x);
    assert Flatten(Pair(x, Nil)) == [x];
  }

  lemma EvalCons(a: Datum, b: Datum)
    ensures Eval(Form("cons", [a, b])) == Ok(Pair(a, b))
  {
    EvalForm("cons", [a, b]);
    ChainTwo(a, b);
    assert Flatten(Pair(a, Pair(b, Nil))) == [a, b];
  }

  /** `car` and `cdr` undo `cons`, whatever its operands are. */
  lemma CarOfCons(a: Datum, b: Datum)
    ensures Eval(Form("car", [Form("cons", [a, b])])) == Ok(a)
  {
    var c := Form("cons", [a, b]);
    EvalCons(a, b);
    EvalForm("car", [c]);
    ChainOne(c);
    assert Flatten(Pair(c, Nil)) == [c];
    assert Flatten(Pair(a, b))[0] == a;
  }

  lemma CdrOfCons(a: Datum, b: Datum)
    ensures Eval(Form("cdr", [Form("cons", [a, b])])) == Ok(b)
  {
    var c := Form("cons", [a, b]);
    EvalCons(a, b);
    EvalForm("cdr", [c]);
    ChainOne(c);
    assert Flatten(Pair(c, Nil)) == [c];
  }

  /** `(list x ...)` is the chain of the unevaluated operands. */
  lemma EvalList(xs: seq<Datum>)
    ensures Eval(Form("list", xs)) == Ok(Chain(xs, Nil))
  {
    EvalForm("list", xs);
  }

  /** `list-ref` picks the element at the index and rejects an index outside the list. */
  lemma EvalListRef(xs: seq<Datum>, k: int)
    ensures Eval(Form("list-ref", [Form("list", xs), Num(k)])) ==
      if 0 <= k < |xs| then Ok(xs[k]) else Raise(RuntimeError)
  {
    var l := Form("list", xs);
    EvalList(xs);
    FlattenChain(xs);
    EvalForm("list-ref", [l, Num(k)]);
    ChainTwo(l, Num(k));
    assert Flatten(Pair(l, Pair(Num(k), Nil))) == [l, Num(k)];
  }

  /** `list-tail` rebuilds the elements from the index on; an index past the end is an error. */
  lemma EvalListTail(xs: seq<Datum>, k: int)
    requires forall j | 0 <= j < |xs| :: !IsDot(xs[j])
    ensures Eval(Form("list-tail", [Form("list", xs), Num(k)])) ==
      if 0 <= k <= |xs| then Ok(Chain(xs[k..], Nil)) else Raise(RuntimeError)
  {
    var l := Form("list", xs);
    EvalList(xs);
    FlattenChain(xs);
    EvalForm("list-tail", [l, Num(k)]);
    ChainTwo(l, Num(k));
    assert Flatten(Pair(l, Pair(Num(k), Nil))) == [l, Num(k)];
    if 0 <= k <= |xs| {
      var suffix := xs[k..];
      BuildListShape(suffix, 0);
      assert suffix[0..] == suffix;
      assert DotIndex(suffix, 0) == |suffix| by {
        assert forall j | 0 <= j < |suffix| :: !IsDot(suffix[j]) by {
          forall j | 0 <= j < |suffix| ensures !IsDot(suffix[j]) { assert suffix[j] == xs[k + j]; }
        }
      }
    }
  }

  /** `not` is `#t` exactly for the literal `#f`, and needs exactly one operand. */
  lemma EvalNot(xs: seq<Datum>)
    ensures Eval(Form("not", xs)) ==
      if |xs| != 1 then Raise(RuntimeError) else Ok(Bool(xs[0] == False))
  {
    EvalForm("not", xs);
    FlattenChain(xs);
  }

  /** `boolean?` is `#t` exactly for a single literal `#t` or `#f`. */
  lemma EvalIsBoolean(xs: seq<Datum>)
    ensures Eval(Form("boolean?", xs)) == Ok(Bool(|xs| == 1 && (xs[0] == True || xs[0] == False)))
  {
    EvalForm("boolean?", xs);
    FlattenChain(xs);
  }

  /**
   * `number?` looks at its operand as written, after evaluating it: so a
   * sum, whose value is a number, is not a number to it.
   */
  lemma IsNumberOfSum(ns: seq<int>)
    ensures Eval(Form("number?", [Form("+", Nums(ns))])) == Ok(False)
  {
    var e := Form("+", Nums(ns));
    EvalPlus(ns);
    EvalForm("number?", [e]);
    ChainOne(e);
    assert Flatten(Pair(e, Nil)) == [e];
    assert EvalEach([e], 1, Pair(e, Nil)) == Ok(());
    assert EvalEach([e], 0, Pair(e, Nil)) == Ok(());
    assert !IsListOf([e], NumberTag) by { assert !Is([e][0], NumberTag); }
  }

  lemma EvalIsNumberOfAtom(x: Datum)
    requires IsAtom(x)
    ensures Eval(Form("number?", [x])) == Ok(Bool(x.Num?))
  {
    EvalForm("number?", [x]);
    ChainOne(x);
    assert Flatten(Pair(x, Nil)) == [x];
    assert Eval(x) == Ok(x);
    assert EvalEach([x], 1, Pair(x, Nil)) == Ok(());
    assert EvalEach([x], 0, Pair(x, Nil)) == Ok(());
  }

  // ---------------------------------------------------------------------
  // and / or

  /** `and` over operands that evaluate to themselves. */
  lemma {:induction false} AndOfAtoms(list: seq<Datum>, i: nat, last: Datum, obj: Datum)
    requires i <= |list| && forall k | 0 <= k < |list| :: list[k] < obj
    requires forall k | 0 <= k < |list| :: IsAtom(list[k])
    requires i > 0 ==> last == list[i - 1]
    ensures ShortCircuit(list, i, last, false, obj) ==
      if exists k | i <= k < |list| :: list[k] == False then Ok(False)
      else if |list| == 0 then Ok(True)
      else Ok(list[|list| - 1])
    decreases |list| - i
  {
    if i < |list| && list[i] != False {
      AndOfAtoms(list, i + 1, list[i], obj);
    }
  }

  lemma {:induction false} OrOfAtoms(list: seq<Datum>, i: nat, last: Datum, obj: Datum)
    requires i <= |list| && forall k | 0 <= k < |list| :: list[k] < obj
    requires forall k | 0 <= k < |list| :: IsAtom(list[k])
    requires i > 0 ==> last == list[i - 1]
    ensures ShortCircuit(list, i, last, true, obj) ==
      if exists k | i <= k < |list| :: list[k] == True then Ok(True)
      else if |list| == 0 then Ok(False)
      else Ok(list[|list| - 1])
    decreases |list| - i
  {
    if i < |list| && list[i] != True {
      OrOfAtoms(list, i + 1, list[i], obj);
    }
  }

  /** `(and x ...)`: `#f` if any operand is `#f`, `#t` for none, else the last operand. */
  lemma EvalAnd(xs: seq<Datum>)
    requires forall k | 0 <= k < |xs| :: IsAtom(xs[k])
    ensures Eval(Form("and", xs)) ==
      if exists k | 0 <= k < |xs| :: xs[k] == False then Ok(False)
      else if xs == [] then Ok(True)
      else Ok(xs[|xs| - 1])
  {
    EvalForm("and", xs);
    FlattenChain(xs);
    AndOfAtoms(xs, 0, Nil, Chain(xs, Nil));
  }

  /** `(or x ...)`: `#t` if any operand is `#t`, `#f` for none, else the last operand. */
  lemma EvalOr(xs: seq<Datum>)
    requires forall k | 0 <= k < |xs| :: IsAtom(xs[k])
    ensures Eval(Form("or", xs)) ==
      if exists k | 0 <= k < |xs| :: xs[k] == True then Ok(True)
      else if xs == [] then Ok(False)
      else Ok(xs[|xs| - 1])
  {
    EvalForm("or", xs);
    FlattenChain(xs);
    OrOfAtoms(xs, 0, Nil, Chain(xs, Nil));
  }

  // ---------------------------------------------------------------------
  // Predicates on lists

  /** `null?` of a quoted value is `#t` exactly for `()`. */
  lemma EvalNullOfQuoted(x: Datum)
    ensures Eval(Form("null?", [Form("quote", [x])])) == Ok(Bool(x == Nil))
  {
    var q := Form("quote", [x]);
    EvalQuote(x);
    EvalForm("null?", [q]);
    ChainOne(q);
    assert Flatten(Pair(q, Nil)) == [q];
  }

  lemma {:induction false} LastCdrOfChain(xs: seq<Datum>, tail: Datum)
    requires |xs| > 0 && !tail.Pair?
    ensures LastCdr(Chain(xs, tail)) == tail
  {
    if |xs| > 1 {
      LastCdrOfChain(xs[1..], tail);
    }
  }

  /** `list?` of a quoted non-empty chain is `#t` exactly when it ends in `()`. */
  lemma EvalIsListOfQuoted(xs: seq<Datum>, tail: Datum)
    requires |xs| > 0 && !tail.Pair?
    ensures Eval(Form("list?", [Form("quote", [Chain(xs, tail)])])) == Ok(Bool(tail == Nil))
  {
    var q := Form("quote", [Chain(xs, tail)]);
    EvalQuote(Chain(xs, tail));
    LastCdrOfChain(xs, tail);
    EvalForm("list?", [q]);
    ChainOne(q);
    assert Flatten(Pair(q, Nil)) == [q];
    assert Apply(CheckListFn, Pair(q, Nil)) == CheckListSpec(Pair(q, Nil));
  }

  /** `pair?` of one operand looks at the length of the operand's flattened value. */
  lemma PairOfOperand(q: Datum, v: Datum)
    requires Eval(q) == Ok(v) && Walkable(v)
    ensures PairSpec(Pair(q, Nil)) == Ok(Bool(|Flatten(v)| == 2))
  {
    assert Flatten(Pair(q, Nil)) == [q];
  }

  /**
   * `pair?` counts flattened elements: a two-element proper list counts as
   * a pair just as a dotted pair does.
   */
  lemma EvalIsPairOfQuotedList(xs: seq<Datum>)
    ensures Eval(Form("pair?", [Form("quote", [Chain(xs, Nil)])])) == Ok(Bool(|xs| == 2))
  {
    FlattenChain(xs);
    EvalIsPairOfQuoted(Chain(xs, Nil));
  }

  lemma EvalIsPairOfQuoted(v: Datum)
    requires Walkable(v)
    ensures Eval(Form("pair?", [Form("quote", [v])])) == Ok(Bool(|Flatten(v)| == 2))
  {
    var q := Form("quote", [v]);
    EvalQuote(v);
    PairOfOperand(q, v);
    EvalForm("pair?", [q]);
    ChainOne(q);
  }

  /** A head that is not a symbol naming a builtin is a runtime error. */
  lemma EvalUnknownHead(head: Datum, rest: Datum)
    requires !head.Sym? || head.name !in Functions
    ensures Eval(Pair(head, rest)) == Raise(RuntimeError)
  {
  }
}
