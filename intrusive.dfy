/**
 * Intrusive reference counting: `SimpleCounter`, the `RefCounted` base
 * class that embeds one, and `IntrusivePtr`, which counts through the
 * object it points at.
 *
 * The counter is a `size_t`, so its arithmetic wraps modulo 2^64.  As in
 * the shared-ownership model, every `RefCounted` object keeps a ghost
 * register of the `IntrusivePtr`s that hold it, each under a ticket of its
 * own, and every operation is proved to keep the count equal to the
 * number of registrations.  `DefaultDelete::Destroy`, the only deleter,
 * becomes the ghost flag `destroyed`; `destructions` counts how often it
 * has run.
 */
module Intrusive {

  /** The number of values of a 64-bit `size_t`. */
  const Word: nat := 0x1_0000_0000_0000_0000

  /** `++count_` on a `size_t`. */
  function Inc(c: nat): (r: nat)
    requires c < Word
    ensures r < Word
  {
    (c + 1) % Word
  }

  /** `--count_` on a `size_t`: zero wraps round to the largest value. */
  function Dec(c: nat): (r: nat)
    requires c < Word
    ensures r < Word
  {
    (c - 1) % Word
  }

  /** Below the largest value, incrementing adds one and decrementing undoes it. */
  lemma IncThenDec(c: nat)
    requires c < Word - 1
    ensures Inc(c) == c + 1 && Dec(Inc(c)) == c
  {
  }

  /** A positive count drops by one, and reaches zero exactly from one; zero wraps. */
  lemma DecOfPositive(c: nat)
    requires c < Word
    ensures 0 < c ==> Dec(c) == c - 1
    ensures Dec(c) == 0 <==> c == 1
    ensures c == 0 ==> Dec(c) == Word - 1
  {
  }

  /** `SimpleCounter`: a `size_t` that starts at zero. */
  class SimpleCounter {
    var count: nat

    ghost predicate Valid()
      reads this
    {
      count < Word
    }

    constructor ()
      ensures count == 0 && Valid()
    {
      count := 0;
    }

    /** `IncRef`: increment, and return the new value. */
    method IncRef() returns (n: nat)
      requires Valid()
      modifies this
      ensures count == Inc(old(count)) && n == count && Valid()
    {
      count := (count + 1) % Word;
      n := count;
    }

    /** `DecRef`: decrement, and return the new value. */
    method DecRef() returns (n: nat)
      requires Valid()
      modifies this
      ensures count == Dec(old(count)) && n == count && Valid()
    {
      count := (count - 1) % Word;
      n := count;
    }

    function RefCount(): nat
      reads this
    {
      count
    }

    /** `operator=` from any counter leaves this count as it is. */
    method Assign(other: SimpleCounter)
      ensures count == old(count)
    {
    }
  }

  /** The counter, the register and the destruction flags of one `RefCounted` object. */
  datatype Refs = Refs(count: int, holders: map<nat, IntrusivePtr>, destroyed: bool, destructions: int)
  {
    /** `IncRef` on behalf of a new holder, registered under ticket `k`. */
    function Add(k: nat, who: IntrusivePtr): Refs {
      this.(count := count + 1, holders := holders[k := who])
    }

    /** A swap or a move: another pointer holds ticket `k`, the count stays. */
    function Pass(k: nat, to: IntrusivePtr): Refs {
      this.(holders := holders[k := to])
    }

    /** `DecRef` for ticket `k`: the object is destroyed when the count reaches zero. */
    function Drop(k: nat): Refs {
      if count == 1 then this.(count := 0, holders := holders - {k}, destroyed := true, destructions := destructions + 1)
      else this.(count := count - 1, holders := holders - {k})
    }
  }

  /** Copying onto an object and swapping the copy away: one new holder. */
  lemma AddThenPass(r: Refs, k: nat, tmp: IntrusivePtr, to: IntrusivePtr)
    ensures r.Add(k, tmp).Pass(k, to) == r.Add(k, to)
  {
    assert r.holders[k := tmp][k := to] == r.holders[k := to];
  }

  /** Swapping a ticket into a temporary and destroying the temporary: that reference ends. */
  lemma PassThenDrop(r: Refs, k: nat, tmp: IntrusivePtr)
    ensures r.Pass(k, tmp).Drop(k) == r.Drop(k)
  {
    assert r.holders[k := tmp] - {k} == r.holders - {k};
  }

  /** A temporary copy that is destroyed again leaves the object as it was. */
  lemma AddThenDrop(r: Refs, k: nat, tmp: IntrusivePtr)
    requires k !in r.holders && r.count >= 1
    ensures r.Add(k, tmp).Drop(k) == r
  {
    assert r.holders[k := tmp] - {k} == r.holders;
  }

  lemma PassTwice(r: Refs, k: nat, tmp: IntrusivePtr, to: IntrusivePtr)
    ensures r.Pass(k, tmp).Pass(k, to) == r.Pass(k, to)
  {
    assert r.holders[k := tmp][k := to] == r.holders[k := to];
  }

  lemma PassBack(r: Refs, k: nat, x: IntrusivePtr)
    requires k in r.holders && r.holders[k] == x
    ensures r.Pass(k, x) == r
  {
    assert r.holders[k := x] == r.holders;
  }

  /**
   * `RefCounted` with `SimpleCounter` and `DefaultDelete`, the base of a
   * counted class.  The counter is a by-value member, so its count is
   * part of this object's own state; it changes by the same `Inc` and
   * `Dec` as a `SimpleCounter`.
   */
  class RefCounted {
    var count: nat
    ghost var holders: map<nat, IntrusivePtr>
    ghost var tickets: nat
    ghost var destroyed: bool
    ghost var destructions: nat

    /**
     * The count is the number of registrations and every ticket is one
     * already handed out; a destroyed object, destroyed once, has none.
     */
    ghost predicate Valid()
      reads this
    {
      count < Word && count == |holders| &&
      (forall k | k in holders :: k < tickets) &&
      (destroyed ==> |holders| == 0) &&
      destructions == (if destroyed then 1 else 0)
    }

    /** A new object: its counter starts at zero and nothing holds it yet. */
    constructor ()
      ensures count == 0 && holders == map[] && tickets == 0 && !destroyed && destructions == 0 && Valid()
    {
      count := 0;
      holders := map[];
      tickets := 0;
      destroyed := false;
      destructions := 0;
    }

    /** `RefCount`: the counter's value, the number of strong references. */
    function RefCount(): nat
      reads this
    {
      count
    }

    ghost function Counts(): Refs
      reads this
    {
      Refs(count, holders, destroyed, destructions)
    }

    /** The count and the register are as before (tickets may have been handed out meanwhile). */
    twostate predicate Kept()
      reads this
    {
      Counts() == old(Counts())
    }

    twostate predicate Gained(new who: IntrusivePtr)
      reads this
    {
      Counts() == old(Counts()).Add(old(tickets), who) && tickets == old(tickets) + 1
    }

    twostate predicate Lost(k: nat)
      reads this
    {
      Counts() == old(Counts()).Drop(k) && tickets == old(tickets)
    }

    twostate predicate Passed(k: nat, new to: IntrusivePtr)
      reads this
    {
      Counts() == old(Counts()).Pass(k, to) && tickets == old(tickets)
    }

    /** Ghost bookkeeping of a swap or a move: ticket `k` now belongs to `to`. */
    ghost method PassTo(k: nat, to: IntrusivePtr)
      requires Valid() && k in holders
      modifies this
      ensures Passed(k, to) && Valid()
    {
      holders := holders[k := to];
    }

    /**
     * `IncRef` on behalf of a new holder, who gets a fresh ticket.  The
     * object must not have been destroyed, and the count must have room:
     * a count of 2^64 - 1 would wrap to zero.
     */
    method IncRef(ghost who: IntrusivePtr) returns (ghost k: nat)
      requires Valid() && !destroyed && count < Word - 1
      modifies this
      ensures k == old(tickets) && Gained(who) && Valid()
    {
      count := Inc(count);
      k := tickets;
      holders := holders[k := who];
      tickets := tickets + 1;
    }

    /** `DecRef` for ticket `k`: when the count reaches zero, `DefaultDelete::Destroy` deletes the object. */
    method DecRef(ghost k: nat)
      requires Valid() && k in holders
      modifies this
      ensures Lost(k) && Valid()
    {
      assert k in holders.Keys;
      count := Dec(count);
      holders := holders - {k};
      if count == 0 {
        destroyed, destructions := true, destructions + 1;
      }
    }

    /** `operator=` between counted objects leaves this object's count as it is. */
    method Assign(other: RefCounted)
      ensures RefCount() == old(RefCount())
    {
    }
  }

  class IntrusivePtr {
    var link: RefCounted?
    ghost var ticket: nat

    /** A pointer that holds an object is registered in it under its own ticket. */
    ghost predicate Valid()
      reads this, link
    {
      link != null ==> link.Valid() && ticket in link.holders && link.holders[ticket] == this
    }

    /** `IntrusivePtr()` and `IntrusivePtr(nullptr)`: null. */
    constructor ()
      ensures link == null && Valid()
    {
      link := null;
      ticket := 0;
    }

    /** `IntrusivePtr(T* ptr)`: a non-null pointer counts one more reference, a null one counts nothing. */
    constructor FromRaw(ptr: RefCounted?)
      requires ptr != null ==> ptr.Valid() && !ptr.destroyed && ptr.count < Word - 1
      modifies ptr
      ensures link == ptr && Valid()
      ensures ptr != null ==> ptr.Gained(this) && ticket == old(ptr.tickets)
    {
      link := ptr;
      ticket := 0;
      new;
      if link != null {
        ticket := link.IncRef(this);
      }
    }

    /** The copy constructors: share the object and count one more reference. */
    constructor Copy(other: IntrusivePtr)
      requires other.Valid() && (other.link != null ==> other.link.count < Word - 1)
      modifies other.link
      ensures link == other.link && Valid() && other.Valid()
      ensures link != null ==> link.Gained(this) && ticket == old(other.link.tickets)
    {
      link := other.link;
      ticket := 0;
      new;
      if link != null {
        assert other.ticket in link.holders.Keys;
        ticket := link.IncRef(this);
      }
    }

    /** The move constructors: take over the link and its reference, leave the source null. */
    constructor Move(other: IntrusivePtr)
      requires other.Valid()
      modifies other, other.link
      ensures link == old(other.link) && ticket == old(other.ticket) && other.link == null
      ensures link != null ==> link.Passed(ticket, this)
      ensures Valid() && other.Valid()
    {
      link := other.link;
      ticket := other.ticket;
      new;
      other.link := null;
      if link != null {
        link.PassTo(ticket, this);
      }
    }

    /** The destructor: `DecRef` only when non-null. */
    method Drop()
      requires Valid()
      modifies link
      ensures link != null ==> link.Lost(ticket) && link.Valid()
    {
      if link != null {
        link.DecRef(ticket);
      }
    }

    /** `Swap`: exchange the links; between two objects the tickets travel with them. */
    method Swap(other: IntrusivePtr)
      requires Valid() && other.Valid()
      modifies this, other, link, other.link
      ensures link == old(other.link) && other.link == old(link)
      ensures Valid() && other.Valid()
      ensures old(link) == old(other.link) ==>
        ticket == old(ticket) && other.ticket == old(other.ticket) &&
        (link == null || (link.Kept() && link.tickets == old(link.tickets)))
      ensures old(link) != old(other.link) ==>
        ticket == old(other.ticket) && other.ticket == old(ticket) &&
        (link != null ==> link.Passed(ticket, this)) &&
        (other.link != null ==> other.link.Passed(other.ticket, other))
    {
      if link != other.link {
        ticket, other.ticket, link, other.link := other.ticket, ticket, other.link, link;
        if link != null {
          link.PassTo(ticket, this);
        }
        if other.link != null {
          other.link.PassTo(other.ticket, other);
        }
      }
    }

    /**
     * `tmp.Swap(*this)` followed by the destructor of the temporary `tmp`,
     * the step every assignment and `Reset` ends with: this pointer takes
     * over `tmp`'s link and gives up its own reference.
     */
    method Adopt(tmp: IntrusivePtr)
      requires tmp != this && Valid() && tmp.Valid()
      modifies this, tmp, link, tmp.link
      ensures link == old(tmp.link) && Valid()
      ensures old(link) == old(tmp.link) ==>
        ticket == old(ticket) && (link != null ==> link.Lost(old(tmp.ticket)))
      ensures old(link) != old(tmp.link) ==>
        ticket == old(tmp.ticket) &&
        (link != null ==> link.Passed(ticket, this)) &&
        (old(link) != null ==> old(link).Lost(old(ticket)))
    {
      tmp.Swap(this);
      tmp.Drop();
      ghost var a := old(link);
      if a != old(tmp.link) && a != null {
        PassThenDrop(old(a.Counts()), old(ticket), tmp);
      }
    }

    /** Copy assignment, by copy and swap: self-assignment changes no count. */
    method Assign(other: IntrusivePtr)
      requires Valid() && other.Valid() && (other.link != null ==> other.link.count < Word - 1)
      modifies this, link, other.link
      ensures link == old(other.link) && Valid() && other.Valid()
      ensures old(link) == old(other.link) ==> link == null || link.Kept()
      ensures old(link) != old(other.link) ==>
        (link != null ==> link.Gained(this)) &&
        (old(link) != null ==> old(link).Lost(old(ticket)))
    {
      var tmp := new IntrusivePtr.Copy(other);
      Adopt(tmp);
      ghost var a, b := old(link), old(other.link);
      if a == b && a != null {
        AddThenDrop(old(a.Counts()), old(a.tickets), tmp);
      } else if a != b && b != null {
        AddThenPass(old(b.Counts()), old(b.tickets), tmp, this);
      }
    }

    /** Move assignment, by move and swap; moving a pointer onto itself changes nothing. */
    method MoveAssign(other: IntrusivePtr)
      requires Valid() && other.Valid()
      modifies this, other, link, other.link
      ensures other == this ==> link == old(link) && (link == null || link.Kept())
      ensures other != this ==> link == old(other.link) && other.link == null
      ensures Valid() && other.Valid()
      ensures other != this && old(link) == old(other.link) && link != null ==> link.Lost(old(other.ticket))
      ensures other != this && old(link) != old(other.link) ==>
        (link != null ==> link.Passed(old(other.ticket), this)) &&
        (old(link) != null ==> old(link).Lost(old(ticket)))
    {
      var tmp := new IntrusivePtr.Move(other);
      Adopt(tmp);
      ghost var a, b := old(link), old(other.link);
      if other == this && a != null {
        PassTwice(old(a.Counts()), old(ticket), tmp, this);
        PassBack(old(a.Counts()), old(ticket), this);
      } else if other != this && a == b && a != null {
        PassThenDrop(old(a.Counts()), old(other.ticket), tmp);
      } else if other != this && a != b && b != null {
        PassTwice(old(b.Counts()), old(other.ticket), tmp, this);
      }
    }

    /** `Reset()`: give up the reference and hold null. */
    method Reset()
      requires Valid()
      modifies this, link
      ensures link == null && Valid()
      ensures old(link) != null ==> old(link).Lost(old(ticket))
    {
      var tmp := new IntrusivePtr();
      Adopt(tmp);
    }

    /** `Reset(ptr)`: count a reference to `ptr`, then give up the old one. */
    method ResetTo(ptr: RefCounted?)
      requires Valid() && (ptr != null ==> ptr.Valid() && !ptr.destroyed && ptr.count < Word - 1)
      modifies this, link, ptr
      ensures link == ptr && Valid()
      ensures old(link) == ptr ==> ptr == null || ptr.Kept()
      ensures old(link) != ptr ==>
        (ptr != null ==> ptr.Gained(this)) &&
        (old(link) != null ==> old(link).Lost(old(ticket)))
    {
      var tmp := new IntrusivePtr.FromRaw(ptr);
      Adopt(tmp);
      ghost var a := old(link);
      if a == ptr && a != null {
        AddThenDrop(old(a.Counts()), old(a.tickets), tmp);
      } else if a != ptr && ptr != null {
        AddThenPass(old(ptr.Counts()), old(ptr.tickets), tmp, this);
      }
    }

    function Get(): RefCounted?
      reads this
    {
      link
    }

    /** `UseCount`: zero for null, otherwise the object's `RefCount`. */
    function UseCount(): nat
      reads this, link
    {
      if link == null then 0 else link.RefCount()
    }

    /** `operator bool`: non-null. */
    predicate IsSet()
      reads this
    {
      link != null
    }
  }

  // -----------------------------------------------------------------------
  // What the invariants give

  /** `UseCount` of a valid pointer is the number of registered holders, so `operator bool` agrees with it. */
  lemma UseCountCountsHolders(p: IntrusivePtr)
    requires p.Valid()
    ensures p.UseCount() == (if p.link == null then 0 else |p.link.holders|)
    ensures p.IsSet() <==> p.UseCount() > 0
  {
    if p.link != null {
      assert p.ticket in p.link.holders.Keys;
    }
  }

  /** An object that a pointer holds has not been destroyed. */
  lemma HeldIsAlive(p: IntrusivePtr)
    requires p.Valid() && p.link != null
    ensures !p.link.destroyed && p.link.destructions == 0
  {
    assert p.ticket in p.link.holders.Keys;
  }

  /** The last reference's `DecRef` destroys the object, every other one leaves it alive. */
  lemma DropDestroysAtZero(r: Refs, k: nat)
    requires r.count >= 1 && !r.destroyed
    ensures r.Drop(k).destroyed <==> r.count == 1
    ensures r.Drop(k).count == r.count - 1
    ensures r.Drop(k).destructions == r.destructions + (if r.count == 1 then 1 else 0)
  {
  }
}
