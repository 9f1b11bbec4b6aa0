/**
 * Shared ownership: the control blocks `BlockPtr` and `BlockObject`, the
 * owning `SharedPtr`, the observing `WeakPtr` and `EnableSharedFromThis`.
 *
 * A control block counts its owners (`cntS_`) and its observers
 * (`cntW_`).  The model keeps, in every block, a ghost register of the
 * pointers that hold it: each registration is a ticket number, handed out
 * once, mapped to the pointer that holds it, and every valid pointer
 * carries its own ticket.  Every operation is proved to keep each count
 * equal to the number of registrations, so a pointer that holds a block
 * is always counted.  Destruction of the object and freeing of the block,
 * which the source does with `delete`, become the ghost flags
 * `destroyed` and `freed`; `destructions` counts how often the object
 * has been destroyed.
 *
 * Raw addresses are not modelled: a pointer holds the pointee object
 * itself.  A pointee whose class derives from `EnableSharedFromThis` has a
 * `weak_this_` member, which is `weakThis` here; the destructor of such a
 * pointee releases that member, so destroying it gives up one observer of
 * its block.
 */
module SharedOwnership {

  /** The object a pointer points at; `weakThis` is non-null exactly for an `EnableSharedFromThis` class. */
  class Pointee {
    const weakThis: WeakPtr?

    /** `weak_this_` starts as an empty `WeakPtr` in an `EnableSharedFromThis` class. */
    constructor (esft: bool)
      ensures esft <==> weakThis != null
      ensures weakThis != null ==> fresh(weakThis) && weakThis.block == null && weakThis.observer == null
    {
      if esft {
        var w := new WeakPtr();
        weakThis := w;
      } else {
        weakThis := null;
      }
    }

    /** The pointee's destructor: all it does that matters here is to destroy `weak_this_`. */
    method Destroy()
      requires weakThis != null ==> weakThis.Valid()
      modifies if weakThis != null then {weakThis.block} else {}
      ensures weakThis != null && weakThis.block != null ==> weakThis.block.LostWatcher(weakThis.ticket)
    {
      if weakThis != null {
        weakThis.Drop();
      }
    }

    /** `SharedFromThis`: promote `weak_this_`, which fails for an object no `SharedPtr` has owned. */
    method SharedFromThis() returns (r: Promotion)
      requires weakThis != null && weakThis.Valid()
      modifies weakThis.block
      ensures weakThis.Valid()
      ensures r.BadWeakPtr? <==> old(weakThis.UseCount()) == 0
      ensures r.BadWeakPtr? ==> weakThis.block == null || weakThis.block.Kept()
      ensures r.Promoted? ==>
        fresh(r.owner) && r.owner.Valid() && r.owner.block == weakThis.block &&
        r.owner.observer == weakThis.observer && weakThis.block.GainedOwner(r.owner)
    {
      r := SharedPtr.Promote(weakThis);
    }

    /** `WeakFromThis`: a copy of `weak_this_`. */
    method WeakFromThis() returns (w: WeakPtr)
      requires weakThis != null && weakThis.Valid()
      modifies weakThis.block
      ensures fresh(w) && w.Valid() && weakThis.Valid()
      ensures w.block == weakThis.block && w.observer == weakThis.observer
      ensures w.block != null ==> w.block.GainedWatcher(w)
    {
      w := new WeakPtr.Copy(weakThis);
    }
  }

  /** What promoting a `WeakPtr` gives: the `BadWeakPtr` exception, or a new owner. */
  datatype Promotion = BadWeakPtr | Promoted(owner: SharedPtr)

  /** The `weak_this_` of a pointee, as a set: empty for null or a class without one. */
  function WeakThisOf(ptr: Pointee?): set<WeakPtr> {
    if ptr != null && ptr.weakThis != null then {ptr.weakThis} else {}
  }

  /** No `SharedPtr` has taken ownership of the pointee yet: its `weak_this_`, if any, is empty. */
  ghost predicate Unowned(ptr: Pointee?)
    reads WeakThisOf(ptr)
  {
    ptr != null && ptr.weakThis != null ==> ptr.weakThis.block == null
  }

  /**
   * A control block's counts and ghost register, and what each operation
   * of the block does to them.
   */
  datatype Tally = Tally(strong: int, weak: int, owners: map<nat, SharedPtr>, watchers: map<nat, WeakPtr>,
                         destroyed: bool, freed: bool, destructions: int)
  {
    /** `IncS` on behalf of a new owner, registered under ticket `k`. */
    function AddOwner(k: nat, who: SharedPtr): Tally {
      this.(strong := strong + 1, owners := owners[k := who])
    }

    /** `IncW` on behalf of a new observer. */
    function AddWatcher(k: nat, who: WeakPtr): Tally {
      this.(weak := weak + 1, watchers := watchers[k := who])
    }

    /** A swap or a move: another pointer holds ticket `k`, no count changes. */
    function PassOwner(k: nat, to: SharedPtr): Tally {
      this.(owners := owners[k := to])
    }

    function PassWatcher(k: nat, to: WeakPtr): Tally {
      this.(watchers := watchers[k := to])
    }

    /**
     * `DecS` for ticket `k`: the last owner destroys the object, whose
     * destructor ends the observations in `released`; the block is freed
     * once nothing holds it.
     */
    function DropOwner(k: nat, released: set<nat>): Tally {
      if strong > 1 then this.(strong := strong - 1, owners := owners - {k})
      else this.(strong := 0, owners := owners - {k}, destroyed := true, destructions := destructions + 1).Release(released)
    }

    /** The object's destructor ends the observations in `released`; the block is freed once nothing holds it. */
    function Release(released: set<nat>): Tally {
      if released == {} then this.(freed := weak == 0)
      else this.(weak := weak - |released|, watchers := watchers - released, freed := weak - |released| == 0)
    }

    /** `DecW` for ticket `k`: the block is freed once nothing holds it; the object is never touched. */
    function DropWatcher(k: nat): Tally {
      this.(weak := weak - 1, watchers := watchers - {k}, freed := strong == 0 && weak - 1 == 0)
    }
  }

  /**
   * `BlockPtr` (`inPlace` false: `obj_` points at an object allocated
   * apart) and `BlockObject` (`inPlace` true: the object lives in the
   * block's own storage).  The counting is the same for both.
   */
  class Block {
    var strong: nat
    var weak: nat
    const inPlace: bool
    const obj: Pointee?
    ghost var owners: map<nat, SharedPtr>
    ghost var watchers: map<nat, WeakPtr>
    ghost var tickets: nat
    ghost var destroyed: bool
    ghost var freed: bool
    ghost var destructions: nat

    /**
     * The counts are the numbers of registrations, and every ticket is
     * one already handed out; the object has been destroyed, exactly once,
     * iff no owner is left; the block is freed iff nothing is left.
     */
    ghost predicate Valid()
      reads this
    {
      strong == |owners| && weak == |watchers| &&
      (forall k | k in owners :: k < tickets) &&
      (forall k | k in watchers :: k < tickets) &&
      (destroyed <==> strong == 0) &&
      destructions == (if destroyed then 1 else 0) &&
      (freed <==> strong == 0 && weak == 0)
    }

    /** `cntS_ = 1; cntW_ = 0`; the constructing `SharedPtr` registers itself as the first owner. */
    constructor (inPlace: bool, obj: Pointee?)
      ensures this.inPlace == inPlace && this.obj == obj
      ensures strong == 1 && weak == 0 && owners == map[] && watchers == map[] && tickets == 0
      ensures !destroyed && !freed && destructions == 0
    {
      this.inPlace := inPlace;
      this.obj := obj;
      strong := 1;
      weak := 0;
      owners := map[];
      watchers := map[];
      tickets := 0;
      destroyed := false;
      freed := false;
      destructions := 0;
    }

    /** `GetCnt`: the strong count only. */
    function GetCnt(): nat
      reads this
    {
      strong
    }

    ghost function Counts(): Tally
      reads this
    {
      Tally(strong, weak, owners, watchers, destroyed, freed, destructions)
    }

    /** The object's `weak_this_`, if any, is empty or is a registered observer of this block. */
    ghost predicate PointeeReleasable()
      reads this, WeakThisOf(obj)
    {
      obj != null && obj.weakThis != null ==>
        obj.weakThis.block == null ||
        (obj.weakThis.block == this && obj.weakThis.ticket in watchers && watchers[obj.weakThis.ticket] == obj.weakThis)
    }

    /** The object's `weak_this_` observes this block. */
    ghost predicate SelfWatched()
      reads WeakThisOf(obj)
    {
      obj != null && obj.weakThis != null && obj.weakThis.block == this
    }

    /** The ticket of the object's own `weak_this_`, when it observes this block: what destroying the object releases. */
    ghost function Released(): set<nat>
      reads WeakThisOf(obj)
    {
      if SelfWatched() then {obj.weakThis.ticket} else {}
    }

    /** The counts and the register are as before (tickets may have been handed out meanwhile). */
    twostate predicate Kept()
      reads this
    {
      Counts() == old(Counts())
    }

    twostate predicate GainedOwner(new who: SharedPtr)
      reads this
    {
      Counts() == old(Counts()).AddOwner(old(tickets), who) && tickets == old(tickets) + 1
    }

    twostate predicate GainedWatcher(new who: WeakPtr)
      reads this
    {
      Counts() == old(Counts()).AddWatcher(old(tickets), who) && tickets == old(tickets) + 1
    }

    twostate predicate LostOwner(k: nat)
      reads this, WeakThisOf(obj)
    {
      Counts() == old(Counts()).DropOwner(k, Released()) && tickets == old(tickets)
    }

    twostate predicate LostWatcher(k: nat)
      reads this
    {
      Counts() == old(Counts()).DropWatcher(k) && tickets == old(tickets)
    }

    twostate predicate PassedOwner(k: nat, new to: SharedPtr)
      reads this
    {
      Counts() == old(Counts()).PassOwner(k, to) && tickets == old(tickets)
    }

    twostate predicate PassedWatcher(k: nat, new to: WeakPtr)
      reads this
    {
      Counts() == old(Counts()).PassWatcher(k, to) && tickets == old(tickets)
    }

    /** Ghost bookkeeping of a swap or a move: ticket `k` now belongs to `to`. */
    ghost method PassOwnerTo(k: nat, to: SharedPtr)
      requires Valid() && k in owners
      modifies this
      ensures PassedOwner(k, to) && Valid()
    {
      owners := owners[k := to];
    }

    ghost method PassWatcherTo(k: nat, to: WeakPtr)
      requires Valid() && k in watchers
      modifies this
      ensures PassedWatcher(k, to) && Valid()
    {
      watchers := watchers[k := to];
    }

    /** `IncS`, called only by a pointer copying an existing owner; the new owner gets a fresh ticket. */
    method IncS(ghost who: SharedPtr) returns (ghost k: nat)
      requires Valid() && strong > 0
      modifies this
      ensures k == old(tickets) && GainedOwner(who) && Valid()
    {
      k := tickets;
      strong := strong + 1;
      owners := owners[k := who];
      tickets := tickets + 1;
    }

    /** `IncW`, on a block that is still allocated. */
    method IncW(ghost who: WeakPtr) returns (ghost k: nat)
      requires Valid() && !freed
      modifies this
      ensures k == old(tickets) && GainedWatcher(who) && Valid()
    {
      k := tickets;
      weak := weak + 1;
      watchers := watchers[k := who];
      tickets := tickets + 1;
    }

    /**
     * `DecS`: at zero, destroy the object (which may in turn end the
     * object's own observation of this block) and free the block when no
     * observer is left either.
     */
    method DecS(ghost k: nat)
      requires Valid() && k in owners && PointeeReleasable()
      modifies this
      ensures LostOwner(k) && Valid()
    {
      strong, owners := strong - 1, owners - {k};
      if strong == 0 {
        Expire();
      }
    }

    /**
     * The owner count has dropped to zero: destroy the object, and free
     * the block too when no observer is left before or after that.
     */
    method Expire()
      requires strong == 0 && |owners| == 0 && weak == |watchers| && (forall k | k in watchers :: k < tickets)
      requires !destroyed && destructions == 0 && !freed && PointeeReleasable()
      modifies this
      ensures Counts() == old(Counts()).(destroyed := true, destructions := 1).Release(old(Released()))
      ensures tickets == old(tickets) && Valid()
    {
      ghost var t := Counts().(destroyed := true, destructions := 1);
      if weak == 0 {
        destroyed, destructions := true, 1;
        assert !SelfWatched() by {
          assert watchers.Keys == {};
        }
        DestroyObject();
        freed := true;
        assert Counts() == t.Release({});
      } else {
        destroyed, destructions := true, 1;
        DestroyObject();
        assert Counts() == t.Release(Released());
      }
    }

    /**
     * `ptr_->~T()` in a `BlockObject`, `delete obj_` in a `BlockPtr`: the
     * object's own `weak_this_`, when it observes this block, stops observing.
     */
    method DestroyObject()
      requires PointeeReleasable() && (SelfWatched() ==> Valid())
      modifies this
      ensures SelfWatched() ==> Valid() && Counts() == old(Counts()).DropWatcher(obj.weakThis.ticket)
      ensures !SelfWatched() ==> unchanged(this)
      ensures tickets == old(tickets)
    {
      if obj != null {
        obj.Destroy();
      }
    }

    /** `DecW`: free the block when both counts are zero; the object is never touched. */
    method DecW(ghost k: nat)
      requires Valid() && k in watchers
      modifies this
      ensures LostWatcher(k) && Valid()
    {
      weak := weak - 1;
      watchers := watchers - {k};
      if weak == 0 && strong == 0 {
        freed := true;
      }
    }
  }

  // -----------------------------------------------------------------------
  // How the steps of copy-and-swap compose

  /** Copying onto a block and swapping the copy away: one new owner. */
  lemma AddThenPass(t: Tally, k: nat, tmp: SharedPtr, to: SharedPtr)
    ensures t.AddOwner(k, tmp).PassOwner(k, to) == t.AddOwner(k, to)
  {
    assert t.owners[k := tmp][k := to] == t.owners[k := to];
  }

  /** Swapping a ticket into a temporary and destroying the temporary: that ticket's ownership ends. */
  lemma PassThenDrop(t: Tally, k: nat, tmp: SharedPtr, released: set<nat>)
    ensures t.PassOwner(k, tmp).DropOwner(k, released) == t.DropOwner(k, released)
  {
    assert t.owners[k := tmp] - {k} == t.owners - {k};
  }

  /** A temporary copy of an owner that is destroyed again leaves the block as it was. */
  lemma AddThenDrop(t: Tally, k: nat, tmp: SharedPtr, released: set<nat>)
    requires k !in t.owners && t.strong >= 1
    ensures t.AddOwner(k, tmp).DropOwner(k, released) == t
  {
    assert t.owners[k := tmp] - {k} == t.owners;
  }

  lemma PassTwice(t: Tally, k: nat, tmp: SharedPtr, to: SharedPtr)
    ensures t.PassOwner(k, tmp).PassOwner(k, to) == t.PassOwner(k, to)
  {
    assert t.owners[k := tmp][k := to] == t.owners[k := to];
  }

  lemma PassBack(t: Tally, k: nat, x: SharedPtr)
    requires k in t.owners && t.owners[k] == x
    ensures t.PassOwner(k, x) == t
  {
    assert t.owners[k := x] == t.owners;
  }

  lemma AddThenPassWatcher(t: Tally, k: nat, tmp: WeakPtr, to: WeakPtr)
    ensures t.AddWatcher(k, tmp).PassWatcher(k, to) == t.AddWatcher(k, to)
  {
    assert t.watchers[k := tmp][k := to] == t.watchers[k := to];
  }

  lemma PassThenDropWatcher(t: Tally, k: nat, tmp: WeakPtr)
    ensures t.PassWatcher(k, tmp).DropWatcher(k) == t.DropWatcher(k)
  {
    assert t.watchers[k := tmp] - {k} == t.watchers - {k};
  }

  lemma AddThenDropWatcher(t: Tally, k: nat, tmp: WeakPtr)
    requires k !in t.watchers && t.freed == (t.strong == 0 && t.weak == 0)
    ensures t.AddWatcher(k, tmp).DropWatcher(k) == t
  {
    assert t.watchers[k := tmp] - {k} == t.watchers;
  }

  lemma PassTwiceWatcher(t: Tally, k: nat, tmp: WeakPtr, to: WeakPtr)
    ensures t.PassWatcher(k, tmp).PassWatcher(k, to) == t.PassWatcher(k, to)
  {
    assert t.watchers[k := tmp][k := to] == t.watchers[k := to];
  }

  lemma PassBackWatcher(t: Tally, k: nat, x: WeakPtr)
    requires k in t.watchers && t.watchers[k] == x
    ensures t.PassWatcher(k, x) == t
  {
    assert t.watchers[k := x] == t.watchers;
  }

  class SharedPtr {
    var block: Block?
    var observer: Pointee?
    ghost var ticket: nat

    /** A pointer that holds a block is registered in it under its own ticket. */
    ghost predicate Valid()
      reads this, block
    {
      block != null ==> block.Valid() && ticket in block.owners && block.owners[ticket] == this
    }

    /** `SharedPtr()` and `SharedPtr(nullptr)`: no block, nothing pointed at. */
    constructor ()
      ensures block == null && observer == null && Valid()
    {
      block := null;
      observer := null;
      ticket := 0;
    }

    /** `SharedPtr(Y* ptr)`: a new `BlockPtr`; an `EnableSharedFromThis` pointee gets its `weak_this_` set. */
    constructor FromRaw(ptr: Pointee?)
      requires Unowned(ptr)
      modifies WeakThisOf(ptr)
      ensures fresh(block) && !block.inPlace && block.obj == ptr && observer == ptr
      ensures block.strong == 1 && block.owners == map[ticket := this]
      ensures !block.destroyed && !block.freed && block.destructions == 0
      ensures WeakThisOf(ptr) == {} ==> block.weak == 0 && block.watchers == map[]
      ensures WeakThisOf(ptr) != {} ==>
        block.weak == 1 && block.watchers == map[ptr.weakThis.ticket := ptr.weakThis] &&
        ptr.weakThis.block == block && ptr.weakThis.observer == ptr
      ensures Valid()
    {
      var b := new Block(false, ptr);
      block := b;
      observer := ptr;
      ticket := 0;
      new;
      b.owners := map[0 := this];
      b.tickets := 1;
      if ptr != null && ptr.weakThis != null {
        InitWeakThis(ptr);
      }
    }

    /** `MakeShared`: one allocation, a `BlockObject` holding a new object. */
    constructor Make(esft: bool)
      ensures fresh(block) && fresh(observer) && block.inPlace && block.obj == observer
      ensures block.strong == 1 && block.owners == map[ticket := this]
      ensures !block.destroyed && !block.freed && block.destructions == 0
      ensures esft <==> observer.weakThis != null
      ensures !esft ==> block.weak == 0 && block.watchers == map[]
      ensures esft ==>
        block.weak == 1 && block.watchers == map[observer.weakThis.ticket := observer.weakThis] &&
        observer.weakThis.block == block
      ensures Valid()
    {
      var p := new Pointee(esft);
      var b := new Block(true, p);
      block := b;
      observer := p;
      ticket := 0;
      new;
      b.owners := map[0 := this];
      b.tickets := 1;
      if p.weakThis != null {
        InitWeakThis(p);
      }
    }

    /** `InitWeakThis`: `e->weak_this_ = *this`. */
    method InitWeakThis(e: Pointee)
      requires Valid() && block != null && e.weakThis != null && e.weakThis.block == null
      modifies e.weakThis, block
      ensures block == old(block) && observer == old(observer) && ticket == old(ticket)
      ensures e.weakThis.block == block && e.weakThis.observer == observer
      ensures block.GainedWatcher(e.weakThis) && Valid() && e.weakThis.Valid()
    {
      e.weakThis.AssignShared(this);
    }

    /** The copy constructors: share the block and count one more owner. */
    constructor Copy(other: SharedPtr)
      requires other.Valid()
      modifies other.block
      ensures block == other.block && observer == other.observer
      ensures block != null ==> block.GainedOwner(this) && ticket == old(other.block.tickets)
      ensures Valid() && other.Valid()
    {
      block := other.block;
      observer := other.observer;
      ticket := 0;
      new;
      if block != null {
        ticket := block.IncS(this);
      }
    }

    /** The move constructors: take over the block and its count, leave the source empty. */
    constructor Move(other: SharedPtr)
      requires other.Valid()
      modifies other, other.block
      ensures block == old(other.block) && observer == old(other.observer) && ticket == old(other.ticket)
      ensures other.block == null && other.observer == null
      ensures block != null ==> block.PassedOwner(ticket, this)
      ensures Valid() && other.Valid()
    {
      block := other.block;
      observer := other.observer;
      ticket := other.ticket;
      new;
      if block != null {
        block.PassOwnerTo(ticket, this);
      }
      other.block := null;
      other.observer := null;
    }

    /** The aliasing constructor: `other`'s block, one more owner, but pointing at `ptr`. */
    constructor Alias(other: SharedPtr, ptr: Pointee?)
      requires other.Valid() && other.block != null
      modifies other.block
      ensures block == other.block && observer == ptr
      ensures block.GainedOwner(this) && Valid() && other.Valid()
    {
      block := other.block;
      observer := ptr;
      ticket := 0;
      new;
      ticket := block.IncS(this);
    }

    /** Promoting a `WeakPtr` whose object is alive. */
    constructor FromWeak(w: WeakPtr)
      requires w.Valid() && w.UseCount() > 0
      modifies w.block
      ensures block == w.block && observer == w.observer
      ensures block.GainedOwner(this) && Valid() && w.Valid()
    {
      block := w.block;
      observer := w.observer;
      ticket := 0;
      new;
      ticket := block.IncS(this);
    }

    /** `SharedPtr(const WeakPtr&)`: throws `BadWeakPtr` when the use count is zero. */
    static method Promote(w: WeakPtr) returns (r: Promotion)
      requires w.Valid()
      modifies w.block
      ensures w.Valid()
      ensures r.BadWeakPtr? <==> old(w.UseCount()) == 0
      ensures r.BadWeakPtr? ==> w.block == null || w.block.Kept()
      ensures r.Promoted? ==>
        fresh(r.owner) && r.owner.Valid() && r.owner.block == w.block && r.owner.observer == w.observer &&
        w.block.GainedOwner(r.owner)
    {
      if w.UseCount() == 0 {
        return BadWeakPtr;
      }
      var p := new SharedPtr.FromWeak(w);
      r := Promoted(p);
    }

    /** The destructor: give up ownership, if any. */
    method Drop()
      requires Valid() && (block != null ==> block.PointeeReleasable())
      modifies block
      ensures block != null ==> block.LostOwner(ticket) && block.Valid()
    {
      if block != null {
        block.DecS(ticket);
      }
    }

    /**
     * `Swap`: exchange blocks and pointees; the counts stay.  Between two
     * blocks the tickets travel with the blocks.
     */
    method Swap(other: SharedPtr)
      requires Valid() && other.Valid()
      modifies this, other, block, other.block
      ensures block == old(other.block) && observer == old(other.observer)
      ensures other.block == old(block) && other.observer == old(observer)
      ensures Valid() && other.Valid()
      ensures old(block) == old(other.block) ==>
        ticket == old(ticket) && other.ticket == old(other.ticket) &&
        (block == null || (block.Kept() && block.tickets == old(block.tickets)))
      ensures old(block) != old(other.block) ==>
        ticket == old(other.ticket) && other.ticket == old(ticket) &&
        (block != null ==> block.PassedOwner(ticket, this)) &&
        (other.block != null ==> other.block.PassedOwner(other.ticket, other))
    {
      if other != this {
        if block != other.block {
          ticket, other.ticket, block, other.block, observer, other.observer :=
            other.ticket, ticket, other.block, block, other.observer, observer;
          if block != null {
            block.PassOwnerTo(ticket, this);
          }
          if other.block != null {
            other.block.PassOwnerTo(other.ticket, other);
          }
        } else {
          observer, other.observer := other.observer, observer;
        }
      }
    }

    /** Copy assignment, by copy and swap: `SharedPtr<T>(other).Swap(*this)`. */
    method Assign(other: SharedPtr)
      requires Valid() && other.Valid() && (block != null ==> block.PointeeReleasable())
      modifies this, block, other.block
      ensures block == old(other.block) && observer == old(other.observer)
      ensures Valid() && other.Valid()
      ensures old(block) == old(other.block) ==> block == null || block.Kept()
      ensures old(block) != old(other.block) ==>
        (block != null ==> block.GainedOwner(this)) &&
        (old(block) != null ==> old(block).LostOwner(old(ticket)))
    {
      var tmp := new SharedPtr.Copy(other);
      Adopt(tmp);
      ghost var a, b := old(block), old(other.block);
      if a == b && a != null {
        AddThenDrop(old(a.Counts()), old(a.tickets), tmp, a.Released());
      } else if a != b && b != null {
        AddThenPass(old(b.Counts()), old(b.tickets), tmp, this);
      }
    }

    /** Move assignment, by move and swap; moving a pointer onto itself changes nothing. */
    method MoveAssign(other: SharedPtr)
      requires Valid() && other.Valid() && (block != null ==> block.PointeeReleasable())
      modifies this, other, block, other.block
      ensures other == this ==> block == old(block) && observer == old(observer) && (block == null || block.Kept())
      ensures other != this ==>
        block == old(other.block) && observer == old(other.observer) &&
        other.block == null && other.observer == null
      ensures Valid() && other.Valid()
      ensures other != this && old(block) == old(other.block) && block != null ==> block.LostOwner(old(other.ticket))
      ensures other != this && old(block) != old(other.block) ==>
        (block != null ==> block.PassedOwner(old(other.ticket), this)) &&
        (old(block) != null ==> old(block).LostOwner(old(ticket)))
    {
      var tmp := new SharedPtr.Move(other);
      Adopt(tmp);
      ghost var a, b := old(block), old(other.block);
      if other == this && a != null {
        PassTwice(old(a.Counts()), old(ticket), tmp, this);
        PassBack(old(a.Counts()), old(ticket), this);
      } else if other != this && a == b && a != null {
        PassThenDrop(old(a.Counts()), old(other.ticket), tmp, a.Released());
      } else if other != this && a != b && b != null {
        PassTwice(old(b.Counts()), old(other.ticket), tmp, this);
      }
    }

    /**
     * `tmp.Swap(*this)` followed by the destructor of the temporary `tmp`,
     * the step every assignment and `Reset` ends with: this pointer takes
     * over `tmp`'s block and pointee and gives up its own ownership.
     */
    method Adopt(tmp: SharedPtr)
      requires tmp != this && Valid() && tmp.Valid() && (block != null ==> block.PointeeReleasable())
      modifies this, tmp, block, tmp.block
      ensures block == old(tmp.block) && observer == old(tmp.observer) && Valid()
      ensures old(block) == old(tmp.block) ==>
        ticket == old(ticket) && (block != null ==> block.LostOwner(old(tmp.ticket)))
      ensures old(block) != old(tmp.block) ==>
        ticket == old(tmp.ticket) &&
        (block != null ==> block.PassedOwner(ticket, this)) &&
        (old(block) != null ==> old(block).LostOwner(old(ticket)))
    {
      tmp.Swap(this);
      tmp.Drop();
      ghost var a := old(block);
      if a != old(tmp.block) && a != null {
        PassThenDrop(old(a.Counts()), old(ticket), tmp, a.Released());
      }
    }

    /** `Reset()`: give up ownership and hold nothing. */
    method Reset()
      requires Valid() && (block != null ==> block.PointeeReleasable())
      modifies this, block
      ensures block == null && observer == null && Valid()
      ensures old(block) != null ==> old(block).LostOwner(old(ticket))
    {
      var tmp := new SharedPtr();
      Adopt(tmp);
    }

    /** `Reset(ptr)`: own `ptr` through a new block and give up the old ownership. */
    method ResetTo(ptr: Pointee?)
      requires Valid() && Unowned(ptr)
      requires block != null ==> block.PointeeReleasable() && WeakThisOf(block.obj) !! WeakThisOf(ptr)
      modifies this, block, WeakThisOf(ptr)
      ensures fresh(block) && !block.inPlace && block.obj == ptr && observer == ptr
      ensures block.strong == 1 && block.owners == map[ticket := this] && !block.destroyed && !block.freed
      ensures Valid()
      ensures old(block) != null ==> old(block).LostOwner(old(ticket))
    {
      var tmp := new SharedPtr.FromRaw(ptr);
      Adopt(tmp);
    }

    function Get(): Pointee?
      reads this
    {
      observer
    }

    /** `UseCount`: zero without a block, otherwise the strong count. */
    function UseCount(): nat
      reads this, block
    {
      if block == null then 0 else block.GetCnt()
    }

    /** `operator bool`: a block is held. */
    predicate IsSet()
      reads this
    {
      block != null
    }
  }

  /** `operator==` compares what the two pointers point at. */
  predicate Same(left: SharedPtr, right: SharedPtr)
    reads left, right
  {
    left.Get() == right.Get()
  }

  class WeakPtr {
    var block: Block?
    var observer: Pointee?
    ghost var ticket: nat

    /** A pointer that observes a block is registered in it under its own ticket. */
    ghost predicate Valid()
      reads this, block
    {
      block != null ==> block.Valid() && ticket in block.watchers && block.watchers[ticket] == this
    }

    /** `WeakPtr()`: no block. */
    constructor ()
      ensures block == null && observer == null && Valid()
    {
      block := null;
      observer := null;
      ticket := 0;
    }

    /** The copy constructors: share the block and count one more observer. */
    constructor Copy(other: WeakPtr)
      requires other.Valid()
      modifies other.block
      ensures block == other.block && observer == other.observer
      ensures block != null ==> block.GainedWatcher(this) && ticket == old(other.block.tickets)
      ensures Valid() && other.Valid()
    {
      block := other.block;
      observer := other.observer;
      ticket := 0;
      new;
      if block != null {
        ticket := block.IncW(this);
      }
    }

    /** The move constructors: take over the block and its count, leave the source empty. */
    constructor Move(other: WeakPtr)
      requires other.Valid()
      modifies other, other.block
      ensures block == old(other.block) && observer == old(other.observer) && ticket == old(other.ticket)
      ensures other.block == null && other.observer == null
      ensures block != null ==> block.PassedWatcher(ticket, this)
      ensures Valid() && other.Valid()
    {
      block := other.block;
      observer := other.observer;
      ticket := other.ticket;
      new;
      if block != null {
        block.PassWatcherTo(ticket, this);
      }
      other.block := null;
      other.observer := null;
    }

    /** Demoting a `SharedPtr`: its block, one more observer, the strong count unchanged. */
    constructor FromShared(other: SharedPtr)
      requires other.Valid()
      modifies other.block
      ensures block == other.block && observer == other.observer
      ensures block != null ==> block.GainedWatcher(this) && ticket == old(other.block.tickets)
      ensures Valid() && other.Valid()
    {
      block := other.block;
      observer := other.observer;
      ticket := 0;
      new;
      if block != null {
        ticket := block.IncW(this);
      }
    }

    /** The destructor: stop observing, if anything is observed. */
    method Drop()
      requires Valid()
      modifies block
      ensures block != null ==> block.LostWatcher(ticket) && block.Valid()
    {
      if block != null {
        block.DecW(ticket);
      }
    }

    /** `Swap`: exchange blocks and pointees; the counts stay. */
    method Swap(other: WeakPtr)
      requires Valid() && other.Valid()
      modifies this, other, block, other.block
      ensures block == old(other.block) && observer == old(other.observer)
      ensures other.block == old(block) && other.observer == old(observer)
      ensures Valid() && other.Valid()
      ensures old(block) == old(other.block) ==>
        ticket == old(ticket) && other.ticket == old(other.ticket) &&
        (block == null || (block.Kept() && block.tickets == old(block.tickets)))
      ensures old(block) != old(other.block) ==>
        ticket == old(other.ticket) && other.ticket == old(ticket) &&
        (block != null ==> block.PassedWatcher(ticket, this)) &&
        (other.block != null ==> other.block.PassedWatcher(other.ticket, other))
    {
      if other != this {
        if block != other.block {
          ticket, other.ticket, block, other.block, observer, other.observer :=
            other.ticket, ticket, other.block, block, other.observer, observer;
          if block != null {
            block.PassWatcherTo(ticket, this);
          }
          if other.block != null {
            other.block.PassWatcherTo(other.ticket, other);
          }
        } else {
          observer, other.observer := other.observer, observer;
        }
      }
    }

    /** Copy assignment from a `WeakPtr`, by copy and swap. */
    method Assign(other: WeakPtr)
      requires Valid() && other.Valid()
      modifies this, block, other.block
      ensures block == old(other.block) && observer == old(other.observer)
      ensures Valid() && other.Valid()
      ensures old(block) == old(other.block) ==> block == null || block.Kept()
      ensures old(block) != old(other.block) ==>
        (block != null ==> block.GainedWatcher(this)) &&
        (old(block) != null ==> old(block).LostWatcher(old(ticket)))
    {
      var tmp := new WeakPtr.Copy(other);
      Adopt(tmp);
      ghost var a, b := old(block), old(other.block);
      if a == b && a != null {
        AddThenDropWatcher(old(a.Counts()), old(a.tickets), tmp);
      } else if a != b && b != null {
        AddThenPassWatcher(old(b.Counts()), old(b.tickets), tmp, this);
      }
    }

    /** Assignment from a `SharedPtr`, by demotion and swap. */
    method AssignShared(other: SharedPtr)
      requires Valid() && other.Valid()
      modifies this, block, other.block
      ensures block == old(other.block) && observer == old(other.observer)
      ensures Valid() && other.Valid()
      ensures old(block) == old(other.block) ==> block == null || block.Kept()
      ensures old(block) != old(other.block) ==>
        (block != null ==> block.GainedWatcher(this)) &&
        (old(block) != null ==> old(block).LostWatcher(old(ticket)))
    {
      var tmp := new WeakPtr.FromShared(other);
      Adopt(tmp);
      ghost var a, b := old(block), old(other.block);
      if a == b && a != null {
        AddThenDropWatcher(old(a.Counts()), old(a.tickets), tmp);
      } else if a != b && b != null {
        AddThenPassWatcher(old(b.Counts()), old(b.tickets), tmp, this);
      }
    }

    /** Move assignment, by move and swap; moving a pointer onto itself changes nothing. */
    method MoveAssign(other: WeakPtr)
      requires Valid() && other.Valid()
      modifies this, other, block, other.block
      ensures other == this ==> block == old(block) && observer == old(observer) && (block == null || block.Kept())
      ensures other != this ==>
        block == old(other.block) && observer == old(other.observer) &&
        other.block == null && other.observer == null
      ensures Valid() && other.Valid()
      ensures other != this && old(block) == old(other.block) && block != null ==> block.LostWatcher(old(other.ticket))
      ensures other != this && old(block) != old(other.block) ==>
        (block != null ==> block.PassedWatcher(old(other.ticket), this)) &&
        (old(block) != null ==> old(block).LostWatcher(old(ticket)))
    {
      var tmp := new WeakPtr.Move(other);
      Adopt(tmp);
      ghost var a, b := old(block), old(other.block);
      if other == this && a != null {
        PassTwiceWatcher(old(a.Counts()), old(ticket), tmp, this);
        PassBackWatcher(old(a.Counts()), old(ticket), this);
      } else if other != this && a == b && a != null {
        PassThenDropWatcher(old(a.Counts()), old(other.ticket), tmp);
      } else if other != this && a != b && b != null {
        PassTwiceWatcher(old(b.Counts()), old(other.ticket), tmp, this);
      }
    }

    /**
     * `tmp.Swap(*this)` followed by the destructor of the temporary `tmp`,
     * the step every assignment and `Reset` ends with: this pointer takes
     * over `tmp`'s block and pointee and stops observing its own block.
     */
    method Adopt(tmp: WeakPtr)
      requires tmp != this && Valid() && tmp.Valid()
      modifies this, tmp, block, tmp.block
      ensures block == old(tmp.block) && observer == old(tmp.observer) && Valid()
      ensures old(block) == old(tmp.block) ==>
        ticket == old(ticket) && (block != null ==> block.LostWatcher(old(tmp.ticket)))
      ensures old(block) != old(tmp.block) ==>
        ticket == old(tmp.ticket) &&
        (block != null ==> block.PassedWatcher(ticket, this)) &&
        (old(block) != null ==> old(block).LostWatcher(old(ticket)))
    {
      tmp.Swap(this);
      tmp.Drop();
      ghost var a := old(block);
      if a != old(tmp.block) && a != null {
        PassThenDropWatcher(old(a.Counts()), old(ticket), tmp);
      }
    }

    /** `Reset`: stop observing. */
    method Reset()
      requires Valid()
      modifies this, block
      ensures block == null && observer == null && Valid()
      ensures old(block) != null ==> old(block).LostWatcher(old(ticket))
    {
      var tmp := new WeakPtr();
      Adopt(tmp);
    }

    /** `UseCount`: zero without a block, otherwise the strong count. */
    function UseCount(): nat
      reads this, block
    {
      if block == null then 0 else block.GetCnt()
    }

    predicate Expired()
      reads this, block
    {
      UseCount() == 0
    }

    /** `Lock`: an empty `SharedPtr` when expired, otherwise a new owner of the block. */
    method Lock() returns (p: SharedPtr)
      requires Valid()
      modifies block
      ensures fresh(p) && p.Valid() && Valid()
      ensures old(Expired()) ==> p.block == null && p.observer == null && (block == null || block.Kept())
      ensures !old(Expired()) ==> p.block == block && p.observer == observer && block.GainedOwner(p)
    {
      if Expired() {
        p := new SharedPtr();
      } else {
        p := new SharedPtr.FromWeak(this);
      }
    }
  }

  // -----------------------------------------------------------------------
  // What the invariants give

  /** `UseCount` of an owner is the number of registered owners of its block, so at least one; `operator bool` agrees. */
  lemma UseCountCountsOwners(p: SharedPtr)
    requires p.Valid()
    ensures p.UseCount() == (if p.block == null then 0 else |p.block.owners|)
    ensures p.IsSet() <==> p.UseCount() > 0
  {
    if p.block != null {
      assert p.ticket in p.block.owners.Keys;
    }
  }

  /** An owned object is alive and its block allocated. */
  lemma OwnedIsAlive(p: SharedPtr)
    requires p.Valid() && p.block != null
    ensures !p.block.destroyed && !p.block.freed && p.block.destructions == 0
  {
    assert p.ticket in p.block.owners.Keys;
  }

  /**
   * A `WeakPtr` with a block keeps the block allocated, and it is expired
   * exactly when the object has been destroyed.
   */
  lemma ExpiredIffDestroyed(w: WeakPtr)
    requires w.Valid() && w.block != null
    ensures !w.block.freed
    ensures w.Expired() <==> w.block.destroyed
    ensures w.block.destructions <= 1
  {
    assert w.ticket in w.block.watchers.Keys;
  }
}
