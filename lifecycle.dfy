/** The resource/spore pair of the context-spore protocol, as values.
    A resource is bound to the context it was obtained through; a spore is the
    same raw container with that tie removed. `as_raw`, the driver call that
    gives a context's raw identity, is a function-valued parameter `asRaw`:
    deterministic and otherwise unknown. */
module Lifecycle {

  /** `RawContainer`: the raw identity of the owning context and the raw
      native handle. Both representations below wrap exactly this value. */
  datatype RawContainer<Id, Rss> = RawContainer(ctx: Id, rss: Rss)

  /** The `$resource<'ctx>` type: the container plus the context whose
      lifetime it is tied to (the `PhantomData<&'ctx ()>` made explicit). */
  datatype Resource<Ctx, Id, Rss> = Resource(container: RawContainer<Id, Rss>, bound: Ctx)

  /** The `$spore` type: the container and nothing else. */
  datatype Spore<Id, Rss> = Spore(container: RawContainer<Id, Rss>)

  /** The two ways an operation of the protocol stops the program:
      `assert_eq!(left, right)` failing, and `unreachable!(message)`. */
  datatype Panic<Id> = AssertEqFailed(left: Id, right: Id) | Unreachable(message: string)

  /** What an operation that may panic produces. */
  datatype Outcome<T, Id> = Done(value: T) | Panicked(panic: Panic<Id>)

  /** The message of the drop guard. */
  const NeverDrop := "Never drop ContextSpore"

  /** `sporulate`: always succeeds; the container is moved as it is. */
  function Sporulate<Ctx, Id, Rss>(r: Resource<Ctx, Id, Rss>): (s: Spore<Id, Rss>)
    ensures s.container.ctx == r.container.ctx && s.container.rss == r.container.rss
  {
    Spore(r.container)
  }

  /** The step shared by `sprout`, `sprout_ref` and `sprout_mut`: compare the
      stored identity with `as_raw(ctx)`; on a match rebuild the resource
      around the same container, bound to `ctx`; otherwise the assertion fails. */
  function Reattach<Ctx, Id(==), Rss>(s: Spore<Id, Rss>, ctx: Ctx, asRaw: Ctx -> Id): (o: Outcome<Resource<Ctx, Id, Rss>, Id>)
    ensures o.Done? <==> s.container.ctx == asRaw(ctx)
    ensures o.Done? ==> o.value.container == s.container && o.value.bound == ctx
    ensures o.Panicked? ==> o.panic == AssertEqFailed(s.container.ctx, asRaw(ctx))
  {
    if s.container.ctx == asRaw(ctx) then
      Done(Resource(s.container, ctx))
    else
      Panicked(AssertEqFailed(s.container.ctx, asRaw(ctx)))
  }

  /** The `Drop` implementation every spore type gets: it never completes. */
  function Drop<Id, Rss>(s: Spore<Id, Rss>): (o: Outcome<(), Id>)
    ensures !o.Done?
    ensures o.panic == Unreachable(NeverDrop)
  {
    Panicked(Unreachable(NeverDrop))
  }

  /** `ctx()` on a resource: always available, it is the context that the
      driver's `from_raw` builds from the stored identity. */
  function ContextOf<Ctx, Id, Rss>(r: Resource<Ctx, Id, Rss>, fromRaw: Id -> Ctx): (c: Ctx)
    ensures c == fromRaw(r.container.ctx)
  {
    fromRaw(r.container.ctx)
  }

  /** Round trip: a resource turned into a spore and reattached to any context
      with the same identity gives back the same container, bound to that context. */
  lemma RoundTrip<Ctx, Id, Rss>(r: Resource<Ctx, Id, Rss>, c: Ctx, asRaw: Ctx -> Id)
    requires asRaw(c) == r.container.ctx
    ensures Reattach(Sporulate(r), c, asRaw) == Done(Resource(r.container, c))
  {
  }

  /** A spore reattached to a context of another identity never yields a resource. */
  lemma MismatchIsFatal<Ctx, Id, Rss>(r: Resource<Ctx, Id, Rss>, c: Ctx, asRaw: Ctx -> Id)
    requires asRaw(c) != r.container.ctx
    ensures Reattach(Sporulate(r), c, asRaw) == Panicked(AssertEqFailed(r.container.ctx, asRaw(c)))
  {
  }

  /** Acceptance depends on identities only: two contexts with equal identity
      are accepted or refused together, and yield the same container. */
  lemma OnlyIdentityMatters<Ctx, Id, Rss>(s: Spore<Id, Rss>, c1: Ctx, c2: Ctx, asRaw: Ctx -> Id)
    requires asRaw(c1) == asRaw(c2)
    ensures Reattach(s, c1, asRaw).Done? == Reattach(s, c2, asRaw).Done?
    ensures Reattach(s, c1, asRaw).Done? ==>
              Reattach(s, c1, asRaw).value.container == Reattach(s, c2, asRaw).value.container
  {
  }

  /** Provided `from_raw` undoes `as_raw` on the stored identity, the context
      a resource reports through `ctx()` has that identity, and so it is
      accepted when that resource's spore is reattached. */
  lemma OwnContextAccepted<Ctx, Id, Rss>(r: Resource<Ctx, Id, Rss>, fromRaw: Id -> Ctx, asRaw: Ctx -> Id)
    requires asRaw(fromRaw(r.container.ctx)) == r.container.ctx
    ensures asRaw(ContextOf(r, fromRaw)) == r.container.ctx
    ensures Reattach(Sporulate(r), ContextOf(r, fromRaw), asRaw) == Done(Resource(r.container, ContextOf(r, fromRaw)))
  {
  }
}
