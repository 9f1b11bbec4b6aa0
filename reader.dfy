/**
 * The recursive-descent reader: tokens in, a tree of numbers, symbols and
 * pairs out.  A freshly read tree never shares a node, so it is a value
 * here; the evaluators either use it as it is or load it into their heap.
 */
module Reader {
  import opened Errors
  import opened Options
  import opened Lexer

  /** A read tree; `Nil` is the null object pointer the reader returns for `()`. */
  datatype Datum = Nil | Num(value: int) | Sym(name: string) | Pair(car: Datum, cdr: Datum)

  /** The symbol a lone dot token reads as. */
  const DotName: string := "."

  predicate IsDot(d: Datum) { d == Sym(DotName) }

  /** `xs` chained into pairs in order, ending in `tail`. */
  function Chain(xs: seq<Datum>, tail: Datum): Datum {
    if xs == [] then tail else Pair(xs[0], Chain(xs[1..], tail))
  }

  /** The index of the first dot symbol at or after `pos`, or `|list|` if there is none. */
  function DotIndex(list: seq<Datum>, pos: nat): (k: nat)
    requires pos <= |list|
    ensures pos <= k <= |list|
    ensures forall j | pos <= j < k :: !IsDot(list[j])
    ensures k < |list| ==> IsDot(list[k])
    decreases |list| - pos
  {
    if pos == |list| || IsDot(list[pos]) then pos else DotIndex(list, pos + 1)
  }

  /**
   * The tree for the elements `list[pos..]` of a bracketed list.  A dot is
   * accepted only at an index other than 0 that is exactly second to last,
   * and the last element is then the tail; any other dot is a syntax error.
   */
  function BuildList(list: seq<Datum>, pos: nat): Result<Datum>
    requires pos <= |list|
    decreases |list| - pos
  {
    if pos == |list| then Ok(Nil)
    else if IsDot(list[pos]) then
      if pos != 0 && pos == |list| - 2 then Ok(list[|list| - 1]) else Raise(SyntaxError)
    else
      match BuildList(list, pos + 1)
      case Ok(rest) => Ok(Pair(list[pos], rest))
      case Raise(e) => Raise(e)
      case Stuck(w) => Stuck(w)
  }

  /**
   * What `BuildList` makes of a whole list, by where its first dot is: no dot
   * gives the nil-terminated chain of the elements; a first dot at index
   * `k >= 1` with exactly one element after it gives the chain of the first
   * `k` elements ending in that element; every other dot is a syntax error.
   */
  lemma {:induction false} BuildListShape(list: seq<Datum>, pos: nat)
    requires pos <= |list|
    ensures var k := DotIndex(list, pos);
      BuildList(list, pos) ==
        if k == |list| then Ok(Chain(list[pos..], Nil))
        else if k != 0 && k == |list| - 2 then Ok(Chain(list[pos..k], list[|list| - 1]))
        else Raise(SyntaxError)
    decreases |list| - pos
  {
    if pos == |list| {
    } else if IsDot(list[pos]) {
      assert list[pos..pos] == [];
    } else {
      BuildListShape(list, pos + 1);
      var k := DotIndex(list, pos);
      assert list[pos..][1..] == list[pos + 1..];
      if k < |list| {
        assert list[pos..k][1..] == list[pos + 1..k];
      }
    }
  }

  /** `()` reads as nil. */
  lemma EmptyListIsNil()
    ensures BuildList([], 0) == Ok(Nil)
  {
  }

  /** The elements of a chain: walking the cdrs back gives the list the reader collected. */
  function Elements(d: Datum): seq<Datum> {
    match d
    case Pair(a, rest) => [a] + Elements(rest)
    case _ => []
  }

  lemma {:induction false} ElementsOfChain(xs: seq<Datum>)
    ensures Elements(Chain(xs, Nil)) == xs
  {
    if xs != [] {
      ElementsOfChain(xs[1..]);
    }
  }

  /** A list without dots builds the nil-terminated chain of exactly its elements. */
  lemma ProperListRoundTrip(list: seq<Datum>)
    requires forall j | 0 <= j < |list| :: !IsDot(list[j])
    ensures BuildList(list, 0).Ok? && Elements(BuildList(list, 0).value) == list
  {
    BuildListShape(list, 0);
    assert list[0..] == list;
    ElementsOfChain(list);
  }

  // ---------------------------------------------------------------------
  // Reading from the tokenizer state

  /**
   * `Read`: fail on an exhausted tokenizer, otherwise take the lookahead,
   * advance (which may itself fail) and dispatch on the token taken.
   */
  function ReadSpec(s: string, st: TState): (out: (TState, Result<Datum>))
    requires Valid(s, st)
    ensures out.0.pos <= |s|
    ensures out.1.Ok? ==> Valid(s, out.0) && Measure(s, out.0) < Measure(s, st)
    ensures out.1.Ok? || out.1 == Raise(SyntaxError)
    decreases Measure(s, st), 0
  {
    if AtEnd(s, st) then (st, Raise(SyntaxError))
    else
      var t := st.token.value;
      StepProgress(s, st);
      var (st1, r) := Step(s, st);
      if r.Raise? then (st1, Raise(SyntaxError))
      else
        match t
        case ConstantToken(v) => (st1, Ok(Num(v)))
        case OpenBracket => ReadItems(s, st1, [])
        case CloseBracket => (st1, Raise(SyntaxError))
        case SymbolToken(name) => (st1, Ok(Sym(name)))
        case QuoteToken => (st1, Raise(SyntaxError))
        case DotToken => (st1, Ok(Sym(DotName)))
  }

  /**
   * `ReadList` after its opening bracket, with the elements read so far in
   * `acc`: read elements until a closing bracket, fail if the input ends
   * first, then consume the bracket and build the list.
   */
  function ReadItems(s: string, st: TState, acc: seq<Datum>): (out: (TState, Result<Datum>))
    requires Valid(s, st)
    ensures out.0.pos <= |s|
    ensures out.1.Ok? ==> Valid(s, out.0) && Measure(s, out.0) < Measure(s, st)
    ensures out.1.Ok? || out.1 == Raise(SyntaxError)
    decreases Measure(s, st), 1
  {
    if AtEnd(s, st) then (st, Raise(SyntaxError))
    else if st.token == Some(CloseBracket) then
      StepProgress(s, st);
      var (st1, r) := Step(s, st);
      if r.Raise? then (st1, Raise(SyntaxError))
      else
        BuildListErrors(acc, 0);
        (st1, BuildList(acc, 0))
    else
      var (st2, r) := ReadSpec(s, st);
      if r.Raise? then (st2, r)
      else ReadItems(s, st2, acc + [r.value])
  }

  lemma {:induction false} BuildListErrors(list: seq<Datum>, pos: nat)
    requires pos <= |list|
    ensures BuildList(list, pos).Ok? || BuildList(list, pos) == Raise(SyntaxError)
    decreases |list| - pos
  {
    if pos < |list| && !IsDot(list[pos]) {
      BuildListErrors(list, pos + 1);
    }
  }

  /** `Read`, over the tokenizer object. */
  method Read(t: Tokenizer) returns (r: Result<Datum>)
    requires Valid(t.input, t.State())
    modifies t
    ensures (t.State(), r) == ReadSpec(t.input, old(t.State()))
    decreases Measure(t.input, t.State()), 0
  {
    if t.IsEnd() {
      return Raise(SyntaxError);
    }
    var tok := t.GetToken();
    StepProgress(t.input, t.State());
    var n := t.Next();
    if n.Raise? {
      return Raise(SyntaxError);
    }
    match tok
    case ConstantToken(v) => r := Ok(Num(v));
    case OpenBracket => r := ReadList(t);
    case CloseBracket => r := Raise(SyntaxError);
    case SymbolToken(name) => r := Ok(Sym(name));
    case QuoteToken => r := Raise(SyntaxError);
    case DotToken => r := Ok(Sym(DotName));
  }

  /** `ReadList`, called just after the opening bracket was consumed. */
  method ReadList(t: Tokenizer) returns (r: Result<Datum>)
    requires Valid(t.input, t.State())
    modifies t
    ensures (t.State(), r) == ReadItems(t.input, old(t.State()), [])
    decreases Measure(t.input, t.State()), 1
  {
    if t.IsEnd() {
      return Raise(SyntaxError);
    }
    ghost var st0 := t.State();
    var list: seq<Datum> := [];
    while !t.IsEnd() && t.token != Some(CloseBracket)
      invariant Valid(t.input, t.State())
      invariant Measure(t.input, t.State()) <= Measure(t.input, st0)
      invariant ReadItems(t.input, t.State(), list) == ReadItems(t.input, st0, [])
      decreases Measure(t.input, t.State())
    {
      var x := Read(t);
      if x.Raise? {
        return x;
      }
      list := list + [x.value];
    }
    if t.IsEnd() {
      return Raise(SyntaxError);
    }
    StepProgress(t.input, t.State());
    var n := t.Next();
    if n.Raise? {
      return Raise(SyntaxError);
    }
    BuildListErrors(list, 0);
    r := BuildList(list, 0);
  }

  // ---------------------------------------------------------------------
  // What `Read` answers, case by case

  /**
   * `Read` on an exhausted tokenizer is a syntax error; otherwise, once
   * `Next` has succeeded, a constant reads as a number, a symbol as a
   * symbol, a dot as the symbol `.`, and a closing bracket or a quote is a
   * syntax error.  A failing `Next` is a syntax error too.
   */
  lemma ReadCases(s: string, st: TState)
    requires Valid(s, st)
    ensures AtEnd(s, st) ==> ReadSpec(s, st) == (st, Raise(SyntaxError))
    ensures !AtEnd(s, st) ==> var (st1, n) := Step(s, st);
      (n.Raise? ==> ReadSpec(s, st) == (st1, Raise(SyntaxError))) &&
      (n.Ok? ==> match st.token.value
        case ConstantToken(v) => ReadSpec(s, st) == (st1, Ok(Num(v)))
        case SymbolToken(name) => ReadSpec(s, st) == (st1, Ok(Sym(name)))
        case DotToken => ReadSpec(s, st) == (st1, Ok(Sym(DotName)))
        case CloseBracket => ReadSpec(s, st) == (st1, Raise(SyntaxError))
        case QuoteToken => ReadSpec(s, st) == (st1, Raise(SyntaxError))
        case OpenBracket => ReadSpec(s, st) == ReadItems(s, st1, []))
  {
  }

  /**
   * Inside a list: the input ending before the closing bracket is a syntax
   * error, and at the closing bracket the bracket is consumed and the
   * elements read so far are built into the list.
   */
  lemma ReadItemsCases(s: string, st: TState, acc: seq<Datum>)
    requires Valid(s, st)
    ensures AtEnd(s, st) ==> ReadItems(s, st, acc) == (st, Raise(SyntaxError))
    ensures st.token == Some(CloseBracket) && Step(s, st).1.Ok? ==>
      ReadItems(s, st, acc) == (Step(s, st).0, BuildList(acc, 0))
  {
  }

  // ---------------------------------------------------------------------
  // Reading a printed tree back

  /** The tokenizer at `st` will hand out exactly the tokens `ts`, the lookahead first. */
  predicate Streams(s: string, st: TState, ts: seq<Token>) {
    Valid(s, st) &&
    if st.token.None? then ts == []
    else |ts| > 0 && ts[0] == st.token.value && Tokenize(s, st.pos) == Ok(ts[1..])
  }

  /** `Next` moves on to the following token. */
  lemma StepStreams(s: string, st: TState, ts: seq<Token>)
    requires Streams(s, st, ts) && ts != []
    ensures Step(s, st).1 == Ok(()) && Streams(s, Step(s, st).0, ts[1..])
  {
    var r := Lex(s, st.pos);
    if r.result.Ok? && r.result.value.Some? {
      var rest := Tokenize(s, r.pos).value;
      assert ts[1..] == [r.result.value.value] + rest;
      assert ts[1..][1..] == rest;
    }
  }

  /** The first `Next`, made by the constructor, leaves the lookahead on the first token. */
  lemma StartStreams(s: string)
    requires Tokenize(s, 0).Ok?
    ensures Step(s, TState(0, None)).1 == Ok(()) && Streams(s, Step(s, TState(0, None)).0, Tokenize(s, 0).value)
  {
    var r := Lex(s, 0);
    if r.result.Ok? && r.result.value.Some? {
      var ts := Tokenize(s, 0).value;
      assert ts[1..] == Tokenize(s, r.pos).value;
    }
  }

  /** The text `s` is one expression that reads as `d`, with nothing after it. */
  predicate ReadsAs(s: string, d: Datum) {
    var (st0, r0) := Step(s, TState(0, None));
    r0.Ok? && var (st1, r1) := ReadSpec(s, st0); r1 == Ok(d) && AtEnd(s, st1)
  }

  /** Trees that print and read back: every symbol a name the tokenizer reads as one symbol. */
  predicate Showable(d: Datum) {
    match d
    case Nil => true
    case Num(_) => true
    case Sym(name) => IsSymbolName(name)
    case Pair(a, b) => Showable(a) && Showable(b)
  }

  /**
   * The tokens of a tree: `()` for nil, a pair as a bracketed list of the
   * cars along its cdrs, with ` . ` before a tail that is neither nil nor a pair.
   */
  function ShowTokens(d: Datum): (ts: seq<Token>)
    ensures |ts| > 0 && ts[0] != CloseBracket && ts[0] != DotToken
    decreases d, 0
  {
    match d
    case Nil => [OpenBracket, CloseBracket]
    case Num(v) => [ConstantToken(v)]
    case Sym(name) => [SymbolToken(name)]
    case Pair(a, b) => [OpenBracket] + ShowTokens(a) + TailTokens(b)
  }

  /** The tokens of a list after its opening bracket and the elements already printed. */
  function TailTokens(d: Datum): seq<Token>
    decreases d, 1
  {
    match d
    case Nil => [CloseBracket]
    case Pair(a, b) => ShowTokens(a) + TailTokens(b)
    case _ => [DotToken] + ShowTokens(d) + [CloseBracket]
  }

  /** A tree printed as text. */
  function Show(d: Datum): string {
    Unlex(ShowTokens(d))
  }

  lemma {:induction false} ShowTokensPrintable(d: Datum)
    requires Showable(d)
    ensures AllPrintable(ShowTokens(d))
    decreases d, 0
  {
    match d
    case Pair(a, b) =>
      ShowTokensPrintable(a);
      TailTokensPrintable(b);
      AppendPrintable([OpenBracket], ShowTokens(a));
      AppendPrintable([OpenBracket] + ShowTokens(a), TailTokens(b));
    case _ =>
  }

  lemma {:induction false} TailTokensPrintable(d: Datum)
    requires Showable(d)
    ensures AllPrintable(TailTokens(d))
    decreases d, 1
  {
    match d
    case Nil =>
    case Pair(a, b) =>
      ShowTokensPrintable(a);
      TailTokensPrintable(b);
      AppendPrintable(ShowTokens(a), TailTokens(b));
    case _ =>
      ShowTokensPrintable(d);
      AppendPrintable([DotToken], ShowTokens(d));
      AppendPrintable([DotToken] + ShowTokens(d), [CloseBracket]);
  }

  lemma AppendPrintable(xs: seq<Token>, ys: seq<Token>)
    requires AllPrintable(xs) && AllPrintable(ys)
    ensures AllPrintable(xs + ys)
  {
    forall k | 0 <= k < |xs + ys| ensures Printable((xs + ys)[k]) {
      if k >= |xs| { assert (xs + ys)[k] == ys[k - |xs|]; }
    }
  }

  lemma {:induction false} ChainSnoc(acc: seq<Datum>, x: Datum, tail: Datum)
    ensures Chain(acc + [x], tail) == Chain(acc, Pair(x, tail))
    decreases |acc|
  {
    if acc != [] {
      assert (acc + [x])[1..] == acc[1..] + [x];
      ChainSnoc(acc[1..], x, tail);
    } else {
      assert [x][1..] == [];
    }
  }

  /** A showable tree is never the dot symbol. */
  lemma ShowableIsNotDot(d: Datum)
    requires Showable(d)
    ensures !IsDot(d)
  {
  }

  /** A number or a symbol is read from its one token. */
  lemma ReadAtom(s: string, st: TState, d: Datum, more: seq<Token>)
    requires (d.Num? || d.Sym?) && Streams(s, st, ShowTokens(d) + more)
    ensures ReadSpec(s, st) == (Step(s, st).0, Ok(d)) && Streams(s, Step(s, st).0, more)
  {
    StepStreams(s, st, ShowTokens(d) + more);
    assert (ShowTokens(d) + more)[1..] == more;
  }

  lemma ReadDot(s: string, st: TState, more: seq<Token>)
    requires Streams(s, st, [DotToken] + more)
    ensures ReadSpec(s, st) == (Step(s, st).0, Ok(Sym(DotName))) && Streams(s, Step(s, st).0, more)
  {
    StepStreams(s, st, [DotToken] + more);
    assert ([DotToken] + more)[1..] == more;
  }

  /** An opening bracket starts the element loop. */
  lemma OpenList(s: string, st: TState, more: seq<Token>)
    requires Streams(s, st, [OpenBracket] + more)
    ensures ReadSpec(s, st) == ReadItems(s, Step(s, st).0, []) && Streams(s, Step(s, st).0, more)
  {
    StepStreams(s, st, [OpenBracket] + more);
    assert ([OpenBracket] + more)[1..] == more;
  }

  /** At the closing bracket the list is built from the elements read. */
  lemma CloseList(s: string, st: TState, acc: seq<Datum>, more: seq<Token>)
    requires Streams(s, st, [CloseBracket] + more)
    ensures ReadItems(s, st, acc) == (Step(s, st).0, BuildList(acc, 0)) && Streams(s, Step(s, st).0, more)
  {
    StepStreams(s, st, [CloseBracket] + more);
    assert ([CloseBracket] + more)[1..] == more;
  }

  /** Any other lookahead is read as one more element. */
  lemma ReadItemsElement(s: string, st: TState, acc: seq<Datum>)
    requires Valid(s, st) && st.token.Some? && st.token != Some(CloseBracket) && ReadSpec(s, st).1.Ok?
    ensures ReadItems(s, st, acc) == ReadItems(s, ReadSpec(s, st).0, acc + [ReadSpec(s, st).1.value])
  {
  }

  /** Reading the tokens of a tree gives the tree, and stops right after them. */
  lemma {:induction false} ReadShown(s: string, st: TState, d: Datum, more: seq<Token>)
    requires Showable(d) && Streams(s, st, ShowTokens(d) + more)
    ensures ReadSpec(s, st).1 == Ok(d) && Streams(s, ReadSpec(s, st).0, more)
    decreases d, 2
  {
    match d
    case Nil =>
      ReadEmptyList(s, st, more);
    case Num(v) =>
      ReadAtom(s, st, d, more);
    case Sym(name) =>
      ReadAtom(s, st, d, more);
    case Pair(a, b) =>
      ReadPair(s, st, a, b, more);
  }

  /** `()` reads as nil. */
  lemma ReadEmptyList(s: string, st: TState, more: seq<Token>)
    requires Streams(s, st, ShowTokens(Nil) + more)
    ensures ReadSpec(s, st).1 == Ok(Nil) && Streams(s, ReadSpec(s, st).0, more)
  {
    var ts := ShowTokens(Nil) + more;
    StepStreams(s, st, ts);
    var st1 := Step(s, st).0;
    assert ts[1..] == [CloseBracket] + more;
    CloseList(s, st1, [], more);
  }

  /** A bracketed list reads as its first element followed by the rest of the list. */
  lemma {:induction false} ReadPair(s: string, st: TState, a: Datum, b: Datum, more: seq<Token>)
    requires Showable(a) && Showable(b) && Streams(s, st, ShowTokens(Pair(a, b)) + more)
    ensures ReadSpec(s, st).1 == Ok(Pair(a, b)) && Streams(s, ReadSpec(s, st).0, more)
    decreases Pair(a, b), 1
  {
    var inner := ShowTokens(a) + (TailTokens(b) + more);
    assert ShowTokens(Pair(a, b)) + more == [OpenBracket] + inner;
    OpenList(s, st, inner);
    ReadElements(s, Step(s, st).0, a, b, more);
  }

  /** After the opening bracket: the first element, then the rest of the list. */
  lemma {:induction false} ReadElements(s: string, st: TState, a: Datum, b: Datum, more: seq<Token>)
    requires Showable(a) && Showable(b) && Streams(s, st, ShowTokens(a) + (TailTokens(b) + more))
    ensures ReadItems(s, st, []).1 == Ok(Pair(a, b)) && Streams(s, ReadItems(s, st, []).0, more)
    decreases Pair(a, b), 0
  {
    assert (ShowTokens(a) + (TailTokens(b) + more))[0] == ShowTokens(a)[0];
    ReadShown(s, st, a, TailTokens(b) + more);
    ReadItemsElement(s, st, []);
    assert [] + [a] == [a];
    ShowableIsNotDot(a);
    ReadTail(s, ReadSpec(s, st).0, b, [a], more);
    assert Chain([a], b) == Pair(a, b) by { assert [a][1..] == []; }
  }

  /**
   * Reading the rest of a list, with the elements `acc` already read,
   * gives the list of those elements ended by the tree `d`.
   */
  lemma {:induction false} ReadTail(s: string, st: TState, d: Datum, acc: seq<Datum>, more: seq<Token>)
    requires Showable(d) && Streams(s, st, TailTokens(d) + more)
    requires |acc| > 0 && forall k | 0 <= k < |acc| :: !IsDot(acc[k])
    ensures ReadItems(s, st, acc).1 == Ok(Chain(acc, d)) && Streams(s, ReadItems(s, st, acc).0, more)
    decreases d, 1
  {
    match d
    case Nil =>
      CloseList(s, st, acc, more);
      BuildListShape(acc, 0);
      assert acc[0..] == acc;
    case Pair(x, b) =>
      assert TailTokens(d) + more == ShowTokens(x) + (TailTokens(b) + more);
      ReadShown(s, st, x, TailTokens(b) + more);
      ReadItemsElement(s, st, acc);
      ShowableIsNotDot(x);
      var st2 := ReadSpec(s, st).0;
      ReadTail(s, st2, b, acc + [x], more);
      ChainSnoc(acc, x, b);
    case _ =>
      ReadDottedTail(s, st, d, acc, more);
  }

  /** ` . d )` after the elements `acc`: the list of `acc` ended by `d`. */
  lemma ReadDottedTail(s: string, st: TState, d: Datum, acc: seq<Datum>, more: seq<Token>)
    requires (d.Num? || d.Sym?) && Streams(s, st, TailTokens(d) + more)
    requires |acc| > 0 && forall k | 0 <= k < |acc| :: !IsDot(acc[k])
    ensures ReadItems(s, st, acc).1 == Ok(Chain(acc, d)) && Streams(s, ReadItems(s, st, acc).0, more)
  {
    assert TailTokens(d) + more == [DotToken] + (ShowTokens(d) + ([CloseBracket] + more));
    ReadDot(s, st, ShowTokens(d) + ([CloseBracket] + more));
    ReadItemsElement(s, st, acc);
    var st1 := Step(s, st).0;
    ReadAtom(s, st1, d, [CloseBracket] + more);
    ReadItemsElement(s, st1, acc + [Sym(DotName)]);
    var st2 := Step(s, st1).0;
    var list := acc + [Sym(DotName), d];
    assert acc + [Sym(DotName)] + [d] == list;
    CloseList(s, st2, list, more);
    BuildListShape(list, 0);
    DotIndexAt(list, 0, |acc|);
    assert list[0..|acc|] == acc;
  }

  lemma {:induction false} DotIndexAt(list: seq<Datum>, pos: nat, k: nat)
    requires pos <= k < |list| && IsDot(list[k]) && forall j | pos <= j < k :: !IsDot(list[j])
    ensures DotIndex(list, pos) == k
    decreases k - pos
  {
    if pos < k {
      DotIndexAt(list, pos + 1, k);
    }
  }

  /** Printing a showable tree and reading the text gives the tree back. */
  lemma ShowReadsAs(d: Datum)
    requires Showable(d)
    ensures ReadsAs(Show(d), d)
  {
    var s := Show(d);
    var ts := ShowTokens(d);
    ShowTokensPrintable(d);
    TokenizeOfUnlex(ts);
    StartStreams(s);
    var st0 := Step(s, TState(0, None)).0;
    assert ts + [] == ts;
    ReadShown(s, st0, d, []);
  }
}
