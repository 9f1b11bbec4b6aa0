/**
 * The advanced variant's objects.  Here a pair can be changed in place
 * (`set-car!`, `set-cdr!`) and is shared by every binding that holds it,
 * so objects live in a heap: a sequence of objects indexed by address,
 * and a `shared_ptr<Object>` is an address or null.  The frames (`Scope`)
 * live in a second sequence of their own, and `curr` is the index of the
 * current frame.
 */
module AdvancedObject {
  import opened Errors
  import opened Options
  import opened Lexer
  import opened Reader
  import BasicObject

  /** A `shared_ptr<Object>`: null, or the address of a live object. */
  datatype Ptr = Null | Ref(addr: nat)

  /** The four type tags `NUMBER`, `SYMBOL`, `CELL`, `LAMBDA`. */
  datatype TypeObject = NumberType | SymbolType | CellType | LambdaType

  /**
   * The four object classes.  A lambda holds its body expressions, its
   * parameter names and its frame, which is null (`None`) for a lambda
   * built from a body and names.
   */
  datatype Obj =
    | Number(val: int)
    | Symbol(name: string)
    | Cell(first: Ptr, second: Ptr)
    | Lambda(body: seq<Ptr>, vars: seq<string>, scope: Option<nat>)

  function GetType(o: Obj): TypeObject {
    match o
    case Number(_) => NumberType
    case Symbol(_) => SymbolType
    case Cell(_, _) => CellType
    case Lambda(_, _, _) => LambdaType
  }

  /** A frame: the index of its parent frame, if any, and its bindings. */
  datatype Scope = Scope(prev: Option<nat>, vars: map<string, Ptr>)

  /** A fresh `Scope`: no parent and no bindings. */
  const EmptyScope: Scope := Scope(None, map[])

  /**
   * Everything the evaluator reads and writes: the objects, the frames,
   * the global `curr` (null once a lambda without a frame has been
   * entered) and the global `lambdas` table.
   */
  datatype Machine = Machine(heap: seq<Obj>, scopes: seq<Scope>, curr: Option<nat>, lambdas: map<string, Ptr>)

  /** The globals before any interpreter runs: `curr` is a single root frame. */
  const Initial: Machine := Machine([], [EmptyScope], Some(0), map[])

  /** `Is<T>`: false for null, otherwise a comparison of type tags. */
  predicate Is(h: seq<Obj>, p: Ptr, t: TypeObject) {
    p.Ref? && p.addr < |h| && GetType(h[p.addr]) == t
  }

  lemma IsNullIsFalse(h: seq<Obj>, t: TypeObject)
    ensures !Is(h, Null, t)
  {
  }

  /** A pointer to the symbol `name`. */
  predicate IsSymbolNamed(h: seq<Obj>, p: Ptr, name: string) {
    Is(h, p, SymbolType) && h[p.addr].name == name
  }

  /**
   * `As<Cell>` followed by a member access.  The cast is unchecked, so a
   * null pointer or an object of another type is undefined behaviour.
   */
  function AsCell(h: seq<Obj>, p: Ptr): (r: Result<Obj>)
    ensures r.Ok? <==> Is(h, p, CellType)
    ensures r.Ok? ==> r.value == h[p.addr] && r.value.Cell?
    ensures !r.Ok? ==> r == Stuck(UndefinedBehaviour)
  {
    if Is(h, p, CellType) then Ok(h[p.addr]) else Stuck(UndefinedBehaviour)
  }

  /** `make_shared`: the object goes to a fresh address at the end of the heap. */
  function Alloc(m: Machine, o: Obj): (Machine, Ptr) {
    (m.(heap := m.heap + [o]), Ref(|m.heap|))
  }

  /** `curr` points at an existing frame. */
  predicate CurrValid(m: Machine) {
    m.curr.Some? && m.curr.value < |m.scopes|
  }

  // ---------------------------------------------------------------------
  // Printing

  /**
   * `ToString` of the object at `p`.  A cell with a null car prints `()`;
   * otherwise its car is printed, alone (null cdr), followed by ` . ` and
   * the cdr (a cdr that is not a cell), or followed by a space and the cdr.
   * A lambda prints as nothing.  A cell that has to recurse when `depth`
   * is used up sits on a path of more cells than the heap holds, so the
   * path repeats a cell and the recursion never ends
   * (`AdvancedLaws.PrintDivergesOnRepeat`).
   */
  function ToStringAt(h: seq<Obj>, p: Ptr, depth: nat): Result<string>
    decreases depth
  {
    if !(p.Ref? && p.addr < |h|) then Stuck(UndefinedBehaviour)
    else
      match h[p.addr]
      case Number(v) => Ok(IntToString(v))
      case Symbol(name) => Ok(name)
      case Lambda(_, _, _) => Ok("")
      case Cell(first, second) =>
        if first.Null? then Ok("()")
        else if depth == 0 then Stuck(Diverges)
        else
          var a :- ToStringAt(h, first, depth - 1);
          if second.Null? then Ok(a)
          else
            var b :- ToStringAt(h, second, depth - 1);
            if !Is(h, second, CellType) then Ok(a + " . " + b) else Ok(a + " " + b)
  }

  function ToString(h: seq<Obj>, p: Ptr): Result<string> {
    ToStringAt(h, p, |h|)
  }

  // ---------------------------------------------------------------------
  // Copying and changing objects

  /**
   * The default `Lambda` constructor: a lambda with no body and no
   * parameters whose frame is a fresh one with `curr` as its parent.
   */
  function NewLambda(m: Machine): (out: (Machine, Ptr))
    ensures out.0.scopes == m.scopes + [Scope(m.curr, map[])]
    ensures out.1 == Ref(|m.heap|) && out.0.heap == m.heap + [Lambda([], [], Some(|m.scopes|))]
    ensures out.0.curr == m.curr && out.0.lambdas == m.lambdas
  {
    var m1 := m.(scopes := m.scopes + [Scope(m.curr, map[])]);
    Alloc(m1, Lambda([], [], Some(|m.scopes|)))
  }

  /** The constructor from a body and parameter names, which leaves the frame null. */
  function LambdaOf(body: seq<Ptr>, vars: seq<string>): (o: Obj)
    ensures o.Lambda? && o.body == body && o.vars == vars && o.scope.None?
  {
    Lambda(body, vars, None)
  }

  /**
   * `Clone`: a new object at a fresh address.  A number or a symbol gets
   * a copy with the same value; a cell gets a new node with the same car
   * and cdr pointers, so the copy is shallow; a lambda gets a new empty lambda.
   */
  function Clone(m: Machine, a: nat): (out: (Machine, Ptr))
    requires a < |m.heap|
    ensures out.1 == Ref(|m.heap|) && |out.0.heap| == |m.heap| + 1 && out.0.heap[..|m.heap|] == m.heap
    ensures !m.heap[a].Lambda? ==> out.0 == m.(heap := m.heap + [m.heap[a]])
    ensures m.heap[a].Lambda? ==>
              out.0.heap[|m.heap|] == Lambda([], [], Some(|m.scopes|)) &&
              out.0.scopes == m.scopes + [Scope(m.curr, map[])]
  {
    match m.heap[a]
    case Number(v) => Alloc(m, Number(v))
    case Symbol(name) => Alloc(m, Symbol(name))
    case Cell(first, second) => Alloc(m, Cell(first, second))
    case Lambda(_, _, _) =>
      var out := NewLambda(m);
      assert out.0.heap[..|m.heap|] == m.heap;
      out
  }

  /** `SetFirst` on the cell at `a`: only that cell's car changes. */
  function SetFirst(h: seq<Obj>, a: nat, v: Ptr): (h': seq<Obj>)
    requires a < |h| && h[a].Cell?
    ensures |h'| == |h| && h'[a] == Cell(v, h[a].second)
    ensures forall b | 0 <= b < |h| && b != a :: h'[b] == h[b]
  {
    h[a := h[a].(first := v)]
  }

  /** `SetSecond` on the cell at `a`: only that cell's cdr changes. */
  function SetSecond(h: seq<Obj>, a: nat, v: Ptr): (h': seq<Obj>)
    requires a < |h| && h[a].Cell?
    ensures |h'| == |h| && h'[a] == Cell(h[a].first, v)
    ensures forall b | 0 <= b < |h| && b != a :: h'[b] == h[b]
  {
    h[a := h[a].(second := v)]
  }

  // ---------------------------------------------------------------------
  // Read trees in the heap

  /** The object graph at `p` is the tree `d`. */
  predicate Represents(h: seq<Obj>, p: Ptr, d: Datum)
    decreases d
  {
    match d
    case Nil => p.Null?
    case Num(v) => p.Ref? && p.addr < |h| && h[p.addr] == Number(v)
    case Sym(name) => p.Ref? && p.addr < |h| && h[p.addr] == Symbol(name)
    case Pair(a, b) =>
      p.Ref? && p.addr < |h| && h[p.addr].Cell? &&
      Represents(h, h[p.addr].first, a) && Represents(h, h[p.addr].second, b)
  }

  /** Nodes other than nil. */
  function Size(d: Datum): nat {
    match d
    case Nil => 0
    case Num(_) => 1
    case Sym(_) => 1
    case Pair(a, b) => 1 + Size(a) + Size(b)
  }

  function Height(d: Datum): (n: nat)
    ensures n <= Size(d)
  {
    match d
    case Pair(a, b) => 1 + (if Height(a) >= Height(b) then Height(a) else Height(b))
    case Nil => 0
    case _ => 1
  }

  /** Allocation never disturbs an object graph already in the heap. */
  lemma {:induction false} RepresentsExtends(h: seq<Obj>, h': seq<Obj>, p: Ptr, d: Datum)
    requires |h| <= |h'| && h'[..|h|] == h && Represents(h, p, d)
    ensures Represents(h', p, d)
    decreases d
  {
    if d.Pair? {
      assert h'[p.addr] == h[p.addr];
      RepresentsExtends(h, h', h[p.addr].first, d.car);
      RepresentsExtends(h, h', h[p.addr].second, d.cdr);
    } else if !d.Nil? {
      assert h'[p.addr] == h[p.addr];
    }
  }

  /**
   * The objects the reader allocates for a tree: one per node, appended
   * to the heap, children before their pair.
   */
  function Load(h: seq<Obj>, d: Datum): (out: (seq<Obj>, Ptr))
    ensures |out.0| == |h| + Size(d) && out.0[..|h|] == h
    ensures Represents(out.0, out.1, d)
    decreases d
  {
    match d
    case Nil => (h, Null)
    case Num(v) => (h + [Number(v)], Ref(|h|))
    case Sym(name) => (h + [Symbol(name)], Ref(|h|))
    case Pair(a, b) =>
      var (h1, pa) := Load(h, a);
      var (h2, pb) := Load(h1, b);
      var h3 := h2 + [Cell(pa, pb)];
      assert h3[..|h|] == h by {
        assert h3[..|h1|] == h1;
        assert h1[..|h|] == h;
      }
      assert h3[..|h1|] == h1 && h3[..|h2|] == h2;
      RepresentsExtends(h1, h3, pa, a);
      RepresentsExtends(h2, h3, pb, b);
      (h3, Ref(|h2|))
  }

  /**
   * A tree loaded into the heap prints exactly as the basic variant
   * prints the tree itself.
   */
  lemma {:induction false} ToStringOfRepresented(h: seq<Obj>, p: Ptr, d: Datum, depth: nat)
    requires Represents(h, p, d) && d != Nil && Height(d) <= depth + 1
    ensures ToStringAt(h, p, depth) == Ok(BasicObject.ToString(d))
    decreases d
  {
    if d.Pair? {
      var c := h[p.addr];
      if d.car != Nil {
        ToStringOfRepresented(h, c.first, d.car, depth - 1);
        if d.cdr != Nil {
          ToStringOfRepresented(h, c.second, d.cdr, depth - 1);
        }
      }
    }
  }

  /** So a freshly loaded tree prints as itself with the heap's own depth bound. */
  lemma LoadedToString(h: seq<Obj>, d: Datum)
    requires d != Nil
    ensures var (h', p) := Load(h, d); ToString(h', p) == Ok(BasicObject.ToString(d))
  {
    var (h', p) := Load(h, d);
    ToStringOfRepresented(h', p, d, |h'|);
  }
}
