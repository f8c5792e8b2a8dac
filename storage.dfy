/** A spore as an object in memory: the place that owns the raw container
    while the resource is detached. The borrowing forms of reattachment work
    on this place without moving the spore out of it; `sprout_mut` hands out
    a view whose writes land in the spore's own container. `sporulate` and
    the three `sprout` forms also state the step `Trace.Apply` takes; the
    drop guard states `Lifecycle.Drop`, the panic that `Trace.Apply` gives
    for a spore's scope exit. */
module Storage {
  import L = Lifecycle
  import T = Trace

  /** A live `$spore` value. `live` is false once the spore has been moved
      into `sprout`; Rust's move rules make every operation on it
      unavailable from then on, which the preconditions below state. */
  class SporeSlot<Id(==), Rss> {
    var container: L.RawContainer<Id, Rss>
    ghost var live: bool

    /** The spore value currently held. */
    function Value(): L.Spore<Id, Rss>
      reads this
    {
      L.Spore(container)
    }

    /** `sporulate`: the resource is consumed and its container becomes the spore. */
    constructor Sporulate<Ctx>(r: L.Resource<Ctx, Id, Rss>)
      ensures Value() == L.Sporulate(r)
      ensures forall asRaw: Ctx -> Id :: T.Apply(asRaw, T.Bound(r), T.Sporulate) == T.Detached(Value())
      ensures live
    {
      container := r.container;
      live := true;
    }

    /** `sprout`: the spore is moved in and is gone afterwards whatever the
        outcome. On a context with the stored identity it becomes a resource
        bound to that context and its drop guard never runs; on any other
        context the assertion fails, and the spore is dropped while the panic
        unwinds (where its guard panics again and the program aborts). */
    method Sprout<Ctx>(ctx: Ctx, asRaw: Ctx -> Id) returns (o: L.Outcome<L.Resource<Ctx, Id, Rss>, Id>)
      requires live
      modifies this`live
      ensures o == L.Reattach(Value(), ctx, asRaw)
      ensures T.Apply(asRaw, T.Detached(Value()), T.Sprout(ctx)) == if o.Done? then T.Bound(o.value) else T.Aborted(o.panic)
      ensures container == old(container)
      ensures !live
    {
      o := L.Reattach(Value(), ctx, asRaw);
      live := false;
    }

    /** `sprout_ref`: the same check; the resource is only read and the
        spore, untouched, stays where it is. */
    method SproutRef<Ctx>(ctx: Ctx, asRaw: Ctx -> Id) returns (o: L.Outcome<L.Resource<Ctx, Id, Rss>, Id>)
      requires live
      ensures o == L.Reattach(Value(), ctx, asRaw)
      ensures T.Apply(asRaw, T.Detached(Value()), T.SproutRef(ctx)) == if o.Done? then T.Detached(Value()) else T.Aborted(o.panic)
    {
      o := L.Reattach(Value(), ctx, asRaw);
    }

    /** `sprout_mut`: the same check; on a match the caller gets a mutable
        view of this very slot, bound to `ctx`. */
    method SproutMut<Ctx>(ctx: Ctx, asRaw: Ctx -> Id) returns (o: L.Outcome<ResourceMut<Ctx, Id, Rss>, Id>)
      requires live
      ensures o.Done? <==> container.ctx == asRaw(ctx)
      ensures o.Done? ==> fresh(o.value) && o.value.slot == this && o.value.bound == ctx
      ensures o.Done? ==> o.value.Get() == L.Reattach(Value(), ctx, asRaw).value
      ensures o.Panicked? ==> o.panic == L.AssertEqFailed(container.ctx, asRaw(ctx))
      ensures T.Apply(asRaw, T.Detached(Value()), T.SproutMut(ctx, container)) ==
                if o.Done? then T.Detached(Value()) else T.Aborted(o.panic)
    {
      if container.ctx != asRaw(ctx) {
        o := L.Panicked(L.AssertEqFailed(container.ctx, asRaw(ctx)));
      } else {
        var view := new ResourceMut(this, ctx);
        o := L.Done(view);
      }
    }

    /** The drop guard, run when a live spore leaves its scope: it always
        panics, whatever the spore holds. */
    method Drop() returns (o: L.Outcome<(), Id>)
      requires live
      ensures o == L.Drop(Value())
      ensures o.Panicked?
    {
      o := L.Panicked(L.Unreachable(L.NeverDrop));
    }
  }

  /** The `&mut $resource` that `sprout_mut` returns: not a copy, but a view
      of the slot's container, bound to the context it was checked against. */
  class ResourceMut<Ctx, Id(==), Rss> {
    const slot: SporeSlot<Id, Rss>
    const bound: Ctx

    constructor (slot: SporeSlot<Id, Rss>, bound: Ctx)
      ensures this.slot == slot && this.bound == bound
    {
      this.slot := slot;
      this.bound := bound;
    }

    /** The resource seen through the view. */
    function Get(): L.Resource<Ctx, Id, Rss>
      reads slot
    {
      L.Resource(slot.container, bound)
    }

    /** `*view = r`: the slot now holds `r`'s container; it is still a live spore. */
    method Assign(r: L.Resource<Ctx, Id, Rss>)
      requires slot.live
      modifies slot`container
      ensures slot.container == r.container
      ensures Get() == L.Resource(r.container, bound)
    {
      slot.container := r.container;
    }
  }

  /** A writer through the mutable view changes the spore it came from, and
      nothing else: the spore stays live and a later `sprout_ref` is checked
      against the identity written, which may belong to another context. */
  method WriteThroughView<Ctx, Id(==), Rss>(s: SporeSlot<Id, Rss>, other: SporeSlot<Id, Rss>, ctx: Ctx, asRaw: Ctx -> Id, r: L.Resource<Ctx, Id, Rss>)
    returns (seen: L.Outcome<L.Resource<Ctx, Id, Rss>, Id>)
    requires s.live && other.live && s != other
    requires s.container.ctx == asRaw(ctx)
    modifies s`container
    ensures s.live && s.container == r.container
    ensures other.container == old(other.container)
    ensures seen == L.Reattach(L.Spore(r.container), ctx, asRaw)
    ensures seen.Done? <==> r.container.ctx == asRaw(ctx)
    ensures T.Apply(asRaw, T.Detached(old(s.Value())), T.SproutMut(ctx, r.container)) == T.Detached(s.Value())
  {
    var view := s.SproutMut(ctx, asRaw);
    view.value.Assign(r);
    seen := s.SproutRef(ctx, asRaw);
  }
}
