/**
 * Sole ownership: `UniquePtr` in its scalar and array forms, with the
 * `Slug` deleters.
 *
 * The pointer and the deleter are the two fields the `CompressedPair`
 * stores.  A raw pointer is null or an address.  To see what happens to
 * the objects, every pointer keeps a ghost log of the calls it makes to
 * its deleter, in order: `Slug` runs `delete`, `Slug<T[]>` runs `delete[]`
 * (both do nothing to null), and a user-supplied deleter, told apart by
 * an id, does whatever it does.  The class's methods are proved to move
 * the pair of fields and the log exactly as the functions on `Slot`
 * below say; the lemmas show, from those functions, that an address
 * handed to a `UniquePtr` is either still held or has been given to the
 * deleter exactly once.
 */
module Unique {

  /** A raw `T*`: null, or the address of the object or of the first array element. */
  datatype Raw = Null | Addr(a: nat)

  /** `Slug<T>`, `Slug<T[]>`, or a user-supplied deleter. */
  datatype Deleter = Slug | ArraySlug | Custom(id: nat)

  /** One call `GetDeleter()(ptr)`. */
  datatype Deletion = Deletion(with: Deleter, ptr: Raw)

  /** The deleter a `UniquePtr` gets when none is given: `Slug<T>` or, for the array form, `Slug<T[]>`. */
  function DefaultDeleter(isArray: bool): Deleter {
    if isArray then ArraySlug else Slug
  }

  /** The pointer, the deleter, and the calls made to the deleter so far. */
  datatype Slot = Slot(ptr: Raw, deleter: Deleter, log: seq<Deletion>)
  {
    /** `GetDeleter()(p)`. */
    function Apply(p: Raw): Slot {
      this.(log := log + [Deletion(deleter, p)])
    }

    /** `Release`: the pointer is forgotten, the deleter is not called. */
    function Release(): Slot {
      this.(ptr := Null)
    }

    /** `Reset(p)`: store `p`, then call the deleter on the previous pointer, null or not. */
    function Reset(p: Raw): Slot {
      this.(ptr := p).Apply(ptr)
    }

    /** `operator=(nullptr)`: `Reset(nullptr)` only when something is held. */
    function AssignNull(): Slot {
      if ptr != Null then Reset(Null) else this
    }

    /** The destructor: the deleter is called on the stored pointer, null or not. */
    function Destroy(): Slot {
      Apply(ptr)
    }
  }

  /** The move constructor: the new pointer takes the released pointer and the deleter. */
  function MovedFrom(o: Slot): (Slot, Slot) {
    (Slot(o.ptr, o.deleter, []), o.Release())
  }

  /**
   * Move assignment of `o` to `t`: nothing happens when both hold the
   * same pointer; otherwise `t` gives up what it holds, if anything, and
   * takes `o`'s pointer and deleter, and `o` is left null.
   */
  function MoveAssigned(t: Slot, o: Slot): (Slot, Slot) {
    if t.ptr == o.ptr then (t, o)
    else
      var t1 := if t.ptr != Null then t.Reset(Null) else t;
      (t1.(ptr := o.ptr, deleter := o.deleter), o.Release())
  }

  /** `Swap`: pointers and deleters change places; each side's past calls stay its own. */
  function Swapped(t: Slot, o: Slot): (Slot, Slot) {
    (t.(ptr := o.ptr, deleter := o.deleter), o.(ptr := t.ptr, deleter := t.deleter))
  }

  // -----------------------------------------------------------------------
  // Who owns what

  /** The addresses a pointer value refers to: none for null. */
  function Held(p: Raw): multiset<nat> {
    if p.Addr? then multiset{p.a} else multiset{}
  }

  /** The addresses given to the deleter, with their multiplicity. */
  function Disposed(log: seq<Deletion>): multiset<nat> {
    if |log| == 0 then multiset{} else Disposed(log[..|log| - 1]) + Held(log[|log| - 1].ptr)
  }

  /** Every address is held or disposed of, and how many times. */
  function Accounted(s: Slot): multiset<nat> {
    Held(s.ptr) + Disposed(s.log)
  }

  lemma {:induction false} DisposedAppend(log: seq<Deletion>, d: Deletion)
    ensures Disposed(log + [d]) == Disposed(log) + Held(d.ptr)
  {
    assert (log + [d])[..|log|] == log;
  }

  /** `Release` hands the held address to the caller: it leaves the account, and no deleter runs. */
  lemma ReleaseHandsOver(s: Slot)
    ensures Accounted(s.Release()) + Held(s.ptr) == Accounted(s)
    ensures s.Release().log == s.log && s.Release().ptr == Null
  {
  }

  /** `Reset(p)` takes `p` into the account and disposes of the previous pointer exactly once. */
  lemma ResetAccounts(s: Slot, p: Raw)
    ensures Accounted(s.Reset(p)) == Accounted(s) + Held(p)
    ensures Disposed(s.Reset(p).log) == Disposed(s.log) + Held(s.ptr)
  {
    DisposedAppend(s.log, Deletion(s.deleter, s.ptr));
  }

  /** The destructor disposes of what is held, once, while the account is unchanged. */
  lemma DestroyAccounts(s: Slot)
    ensures Disposed(s.Destroy().log) == Disposed(s.log) + Held(s.ptr)
    ensures Accounted(s.Destroy()) == Accounted(s) + Held(s.ptr)
  {
    DisposedAppend(s.log, Deletion(s.deleter, s.ptr));
  }

  /** Assigning null disposes of a held address and calls no deleter otherwise. */
  lemma AssignNullAccounts(s: Slot)
    ensures Accounted(s.AssignNull()) == Accounted(s)
    ensures s.AssignNull().ptr == Null
    ensures s.ptr == Null ==> s.AssignNull() == s
  {
    if s.ptr != Null {
      DisposedAppend(s.log, Deletion(s.deleter, s.ptr));
    }
  }

  /**
   * Move assignment neither loses nor duplicates an address: between
   * them the two pointers account for exactly what they did before.
   */
  lemma MoveAssignAccounts(t: Slot, o: Slot)
    ensures var (t', o') := MoveAssigned(t, o); Accounted(t') + Accounted(o') == Accounted(t) + Accounted(o)
    ensures var (t', o') := MoveAssigned(t, o);
      t.ptr != o.ptr ==> t'.ptr == o.ptr && t'.deleter == o.deleter && o'.ptr == Null && o'.log == o.log
  {
    if t.ptr != o.ptr {
      var t1 := if t.ptr != Null then t.Reset(Null) else t;
      assert Disposed(t1.log) == Accounted(t) by {
        if t.ptr != Null {
          DisposedAppend(t.log, Deletion(t.deleter, t.ptr));
        }
      }
      var (t', o') := MoveAssigned(t, o);
      assert Accounted(t') == Held(o.ptr) + Accounted(t);
      assert Accounted(o') == Disposed(o.log);
    }
  }

  /** The move constructor: the new pointer holds what the source held, and the source holds nothing. */
  lemma MovedFromAccounts(o: Slot)
    ensures var (n, o') := MovedFrom(o); Accounted(n) + Accounted(o') == Accounted(o)
  {
  }

  /** Swapping twice restores both pointers. */
  lemma SwapTwice(t: Slot, o: Slot)
    ensures var (t1, o1) := Swapped(t, o); Swapped(t1, o1) == (t, o)
  {
  }

  /** Resetting to each of `ps` in turn. */
  function ResetAll(s: Slot, ps: seq<Raw>): Slot
    decreases |ps|
  {
    if |ps| == 0 then s else ResetAll(s.Reset(ps[0]), ps[1..])
  }

  /** The calls a deleter `d` receives for the pointers `ps`, in order. */
  function Calls(d: Deleter, ps: seq<Raw>): seq<Deletion>
    decreases |ps|
  {
    if |ps| == 0 then [] else [Deletion(d, ps[0])] + Calls(d, ps[1..])
  }

  /**
   * The whole life of a `UniquePtr` that is reset to each of `ps` and
   * then destroyed: the deleter is called once for every pointer it ever
   * held, in the order it held them, and for nothing else.
   */
  lemma {:induction false} ResetsThenDestroy(s: Slot, ps: seq<Raw>)
    ensures ResetAll(s, ps).Destroy().log == s.log + Calls(s.deleter, [s.ptr] + ps)
    ensures ResetAll(s, ps).deleter == s.deleter
    decreases |ps|
  {
    var d := s.deleter;
    if |ps| == 0 {
      assert Calls(d, [s.ptr]) == [Deletion(d, s.ptr)] + Calls(d, []);
    } else {
      var s1 := s.Reset(ps[0]);
      ResetsThenDestroy(s1, ps[1..]);
      assert [ps[0]] + ps[1..] == ps;
      assert ([s.ptr] + ps)[1..] == ps;
      assert Calls(d, [s.ptr] + ps) == [Deletion(d, s.ptr)] + Calls(d, ps);
      assert s1.log + Calls(d, ps) == s.log + ([Deletion(d, s.ptr)] + Calls(d, ps));
    }
  }

  // -----------------------------------------------------------------------
  // The class

  /** `UniquePtr<T, Deleter>` (`isArray` false) and its specialisation `UniquePtr<T[], Deleter>`. */
  class UniquePtr {
    const isArray: bool
    var ptr: Raw
    var deleter: Deleter
    ghost var log: seq<Deletion>

    ghost function View(): Slot
      reads this
    {
      Slot(ptr, deleter, log)
    }

    /** `UniquePtr(T* ptr = nullptr)`: the default deleter of the form. */
    constructor (isArray: bool, p: Raw)
      ensures this.isArray == isArray && View() == Slot(p, DefaultDeleter(isArray), [])
    {
      this.isArray := isArray;
      ptr := p;
      deleter := DefaultDeleter(isArray);
      log := [];
    }

    /** `UniquePtr(A* ptr, B deleter)`. */
    constructor WithDeleter(isArray: bool, p: Raw, d: Deleter)
      ensures this.isArray == isArray && View() == Slot(p, d, [])
    {
      this.isArray := isArray;
      ptr := p;
      deleter := d;
      log := [];
    }

    /** The move constructor: take `other.Release()` and `other`'s deleter. */
    constructor Move(other: UniquePtr)
      modifies other
      ensures isArray == other.isArray
      ensures (View(), other.View()) == MovedFrom(old(other.View()))
    {
      isArray := other.isArray;
      var p := other.Release();
      ptr := p;
      deleter := other.deleter;
      log := [];
    }

    /** `Release`: return the pointer and forget it, without calling the deleter. */
    method Release() returns (r: Raw)
      modifies this
      ensures r == old(ptr) && View() == old(View()).Release()
    {
      r := ptr;
      ptr := Null;
    }

    /** `Reset(ptr)`: store the new pointer first, then call the deleter on the old one. */
    method Reset(p: Raw)
      modifies this
      ensures View() == old(View()).Reset(p)
    {
      var old_ := ptr;
      ptr := p;
      CallDeleter(old_);
    }

    /** `GetDeleter()(p)`. */
    method CallDeleter(p: Raw)
      modifies this
      ensures View() == old(View()).Apply(p)
    {
      log := log + [Deletion(deleter, p)];
    }

    /** `Swap`: exchange the deleters and the pointers. */
    method Swap(other: UniquePtr)
      modifies this, other
      ensures other != this ==> (View(), other.View()) == Swapped(old(View()), old(other.View()))
      ensures other == this ==> View() == old(View())
    {
      deleter, other.deleter := other.deleter, deleter;
      ptr, other.ptr := other.ptr, ptr;
    }

    /** Move assignment: a no-op when both hold the same pointer, so also for `x = std::move(x)`. */
    method MoveAssign(other: UniquePtr)
      modifies this, other
      ensures other != this ==> (View(), other.View()) == MoveAssigned(old(View()), old(other.View()))
      ensures other == this ==> View() == old(View())
    {
      if Get() == other.Get() {
        return;
      }
      if Get() != Null {
        Reset(Null);
      }
      var p := other.Release();
      ptr := p;
      deleter := other.deleter;
    }

    /** `operator=(nullptr)`. */
    method AssignNull()
      modifies this
      ensures View() == old(View()).AssignNull()
    {
      if Get() != Null {
        Reset(Null);
      }
    }

    /** The destructor. */
    method Drop()
      modifies this
      ensures View() == old(View()).Destroy()
    {
      CallDeleter(ptr);
    }

    function Get(): Raw
      reads this
    {
      ptr
    }

    function GetDeleter(): Deleter
      reads this
    {
      deleter
    }

    /** `operator bool`: non-null. */
    predicate IsSet()
      reads this
    {
      ptr != Null
    }

    /** `operator[]` of the array form: the address of element `i` of the held array. */
    function Index(i: nat): (r: Raw)
      requires isArray && ptr != Null
      reads this
      ensures r.Addr? && r.a - Get().a == i
    {
      Addr(ptr.a + i)
    }
  }
}
