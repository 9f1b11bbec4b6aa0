/**
 * Printing of the basic variant's values.  A value of this variant is
 * never changed after it is built, so it is a `Datum`: `Clone` and the
 * getters have nothing observable to add beyond the value itself.
 */
module BasicObject {
  import opened Lexer
  import opened Reader

  /**
   * `ToString` of a non-null object.  A pair whose car is null prints
   * `()`; otherwise its car is printed, followed by nothing (null cdr),
   * by ` . ` and an atom cdr, or by a space and the rest of the chain.
   */
  function ToString(d: Datum): string
    requires d != Nil
  {
    match d
    case Num(v) => IntToString(v)
    case Sym(name) => name
    case Pair(first, second) =>
      if first == Nil then "()"
      else if second == Nil then ToString(first)
      else if !second.Pair? then ToString(first) + " . " + ToString(second)
      else ToString(first) + " " + ToString(second)
  }

  /** The strings `ts` with one space between neighbours. */
  function JoinWithSpaces(ts: seq<string>): string {
    if ts == [] then "" else if |ts| == 1 then ts[0] else ts[0] + " " + JoinWithSpaces(ts[1..])
  }

  predicate NonNilElements(xs: seq<Datum>) { forall k | 0 <= k < |xs| :: xs[k] != Nil }

  function ToStrings(xs: seq<Datum>): (ts: seq<string>)
    requires NonNilElements(xs)
    ensures |ts| == |xs|
  {
    if xs == [] then [] else [ToString(xs[0])] + ToStrings(xs[1..])
  }

  /** A proper list with no null element prints as its elements separated by spaces. */
  lemma {:induction false} ToStringProperList(xs: seq<Datum>)
    requires |xs| > 0 && NonNilElements(xs)
    ensures ToString(Chain(xs, Nil)) == JoinWithSpaces(ToStrings(xs))
  {
    if |xs| > 1 {
      ToStringProperList(xs[1..]);
      assert ToStrings(xs)[1..] == ToStrings(xs[1..]);
    }
  }

  /** A list ending in an atom prints its elements, then ` . ` and the atom. */
  lemma {:induction false} ToStringDottedList(xs: seq<Datum>, tail: Datum)
    requires |xs| > 0 && NonNilElements(xs)
    requires tail.Num? || tail.Sym?
    ensures ToString(Chain(xs, tail)) == JoinWithSpaces(ToStrings(xs)) + " . " + ToString(tail)
  {
    var rest := Chain(xs[1..], tail);
    assert Chain(xs, tail) == Pair(xs[0], rest);
    if |xs| > 1 {
      ToStringDottedList(xs[1..], tail);
      assert ToStrings(xs)[1..] == ToStrings(xs[1..]);
      var a, j := ToString(xs[0]), JoinWithSpaces(ToStrings(xs[1..]));
      assert ToString(Chain(xs, tail)) == a + " " + (j + " . " + ToString(tail));
      assert JoinWithSpaces(ToStrings(xs)) == a + " " + j;
    }
  }

  /**
   * A list whose first element is null prints as `()`, whatever follows it:
   * the elements after a leading `()` are not printed.
   */
  lemma NilHeadHidesRest(xs: seq<Datum>)
    ensures ToString(Chain([Nil] + xs, Nil)) == "()"
  {
    assert ([Nil] + xs)[1..] == xs;
  }

  /**
   * An inner list prints without its brackets, so `((a b) c)` prints the
   * same text as `(a b c)`.
   */
  lemma {:induction false} NestedListPrintsFlat(ys: seq<Datum>, zs: seq<Datum>)
    requires |ys| > 0 && |zs| > 0 && NonNilElements(ys) && NonNilElements(zs)
    ensures ToString(Chain([Chain(ys, Nil)] + zs, Nil)) == ToString(Chain(ys + zs, Nil))
  {
    var inner := Chain(ys, Nil);
    assert ([inner] + zs)[1..] == zs;
    ToStringProperList(ys);
    ToStringProperList(zs);
    ToStringProperList(ys + zs);
    JoinAppend(ToStrings(ys), ToStrings(zs));
    ToStringsAppend(ys, zs);
  }

  lemma {:induction false} ToStringsAppend(ys: seq<Datum>, zs: seq<Datum>)
    requires NonNilElements(ys) && NonNilElements(zs)
    ensures NonNilElements(ys + zs) && ToStrings(ys + zs) == ToStrings(ys) + ToStrings(zs)
  {
    if ys != [] {
      assert (ys + zs)[0] == ys[0] && (ys + zs)[1..] == ys[1..] + zs;
      ToStringsAppend(ys[1..], zs);
    } else {
      assert ys + zs == zs;
    }
  }

  lemma {:induction false} JoinAppend(a: seq<string>, b: seq<string>)
    requires |a| > 0 && |b| > 0
    ensures JoinWithSpaces(a + b) == JoinWithSpaces(a) + " " + JoinWithSpaces(b)
  {
    assert (a + b)[0] == a[0];
    if |a| > 1 {
      assert (a + b)[1..] == a[1..] + b;
      JoinAppend(a[1..], b);
    } else {
      assert (a + b)[1..] == b;
    }
  }
}
