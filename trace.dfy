/** The life of one resource/spore pair through a program: a sequence of the
    protocol's operations applied to one value, from the state it is in now
    until it leaves scope or the program panics. The lemmas here relate many
    calls: the carrier changes only by writes through a mutable view, the only
    ways to panic are a reattachment to a context of another identity and the
    scope exit of a still-detached spore, and contexts matter only through
    their identities. */
module Trace {
  import L = Lifecycle

  /** One operation on the pair. `SproutMut` carries what the caller stores
      through the mutable view (`*view = r` puts `r`'s container in place);
      a caller that only uses the view to read passes the container it saw. */
  datatype Step<Ctx, Id, Rss> =
    | Sporulate
    | Sprout(ctx: Ctx)
    | SproutRef(ctx: Ctx)
    | SproutMut(ctx: Ctx, write: L.RawContainer<Id, Rss>)
    | ScopeExit

  /** Where the pair is. `Released` is a bound resource that left its scope
      (whatever release the driver attaches to it happens there); `Aborted`
      is a panic, after which nothing of this pair runs. */
  datatype State<Ctx, Id, Rss> =
    | Bound(resource: L.Resource<Ctx, Id, Rss>)
    | Detached(spore: L.Spore<Id, Rss>)
    | Released
    | Aborted(panic: L.Panic<Id>)
  {
    predicate Live() {
      Bound? || Detached?
    }

    function Carrier(): L.RawContainer<Id, Rss>
      requires Live()
    {
      if Bound? then resource.container else spore.container
    }
  }

  /** The sequences Rust's move rules let a program write: `sporulate` takes a
      resource, the three `sprout` forms take a spore, `sprout` consumes it,
      and nothing follows the end of scope. */
  predicate Typed<Ctx, Id, Rss>(detached: bool, steps: seq<Step<Ctx, Id, Rss>>)
    decreases |steps|
  {
    if steps == [] then true
    else match steps[0]
      case Sporulate => !detached && Typed(true, steps[1..])
      case Sprout(_) => detached && Typed(false, steps[1..])
      case SproutRef(_) => detached && Typed(true, steps[1..])
      case SproutMut(_, _) => detached && Typed(true, steps[1..])
      case ScopeExit => |steps| == 1
  }

  /** The context a reattaching step presents. */
  predicate Presents<Ctx, Id, Rss>(step: Step<Ctx, Id, Rss>) {
    step.Sprout? || step.SproutRef? || step.SproutMut?
  }

  /** One operation, as lib.rs defines it. Only a reattachment to a context
      of another identity and the scope exit of a spore panic; a bound
      resource leaving scope is released; a `sprout` that passes the check
      binds the resource to the context presented; a write through the
      mutable view replaces the container, and nothing else changes it. */
  function Apply<Ctx, Id(==), Rss>(asRaw: Ctx -> Id, st: State<Ctx, Id, Rss>, step: Step<Ctx, Id, Rss>): (next: State<Ctx, Id, Rss>)
    requires st.Live() && Typed(st.Detached?, [step])
    ensures next.Aborted? <==> st.Detached? && (step.ScopeExit? || asRaw(step.ctx) != st.Carrier().ctx)
    ensures st.Detached? && step.ScopeExit? ==> next == Aborted(L.Unreachable(L.NeverDrop))
    ensures st.Detached? && Presents(step) && asRaw(step.ctx) != st.Carrier().ctx ==>
              next == Aborted(L.AssertEqFailed(st.Carrier().ctx, asRaw(step.ctx)))
    ensures next.Released? <==> st.Bound? && step.ScopeExit?
    ensures next.Bound? <==> st.Detached? && step.Sprout? && asRaw(step.ctx) == st.Carrier().ctx
    ensures next.Bound? ==> next.resource.bound == step.ctx
    ensures next.Detached? <==> (st.Bound? && step.Sporulate?) || (st.Detached? && (step.SproutRef? || step.SproutMut?) && asRaw(step.ctx) == st.Carrier().ctx)
    ensures next.Live() ==> next.Carrier() == if step.SproutMut? then step.write else st.Carrier()
  {
    if st.Bound? then
      if step.Sporulate? then Detached(L.Sporulate(st.resource)) else Released
    else if step.ScopeExit? then
      Aborted(L.Drop(st.spore).panic)
    else
      match L.Reattach(st.spore, step.ctx, asRaw)
      case Panicked(p) => Aborted(p)
      case Done(r) =>
        if step.Sprout? then Bound(r)
        else if step.SproutRef? then st
        else Detached(L.Spore(step.write))
  }

  /** The operations in order, stopping at the end of scope or at a panic. */
  function Run<Ctx, Id(==), Rss>(asRaw: Ctx -> Id, st: State<Ctx, Id, Rss>, steps: seq<Step<Ctx, Id, Rss>>): State<Ctx, Id, Rss>
    requires st.Live() ==> Typed(st.Detached?, steps)
    decreases |steps|
  {
    if steps == [] || !st.Live() then st
    else Run(asRaw, Apply(asRaw, st, steps[0]), steps[1..])
  }

  /** The container after the writes of `steps`: the last one written through
      a mutable view, or `c` if there is none. */
  function Written<Ctx, Id, Rss>(c: L.RawContainer<Id, Rss>, steps: seq<Step<Ctx, Id, Rss>>): L.RawContainer<Id, Rss>
    decreases |steps|
  {
    if steps == [] then c
    else Written(if steps[0].SproutMut? then steps[0].write else c, steps[1..])
  }

  /** Every reattachment presents a context of the identity stored at that
      moment, and the pair does not leave scope as a spore. */
  predicate Clean<Ctx, Id(==), Rss>(asRaw: Ctx -> Id, id: Id, detached: bool, steps: seq<Step<Ctx, Id, Rss>>)
    decreases |steps|
  {
    if steps == [] then true
    else match steps[0]
      case Sporulate => Clean(asRaw, id, true, steps[1..])
      case Sprout(c) => asRaw(c) == id && Clean(asRaw, id, false, steps[1..])
      case SproutRef(c) => asRaw(c) == id && Clean(asRaw, id, true, steps[1..])
      case SproutMut(c, w) => asRaw(c) == id && Clean(asRaw, w.ctx, true, steps[1..])
      case ScopeExit => !detached
  }

  /** The pair's carrier changes only by writes through a mutable view:
      a run that is still going holds exactly the last container written. */
  lemma {:induction false} CarrierOnlyChangesByWrites<Ctx, Id, Rss>(asRaw: Ctx -> Id, st: State<Ctx, Id, Rss>, steps: seq<Step<Ctx, Id, Rss>>)
    requires st.Live() && Typed(st.Detached?, steps)
    ensures Run(asRaw, st, steps).Live() ==> Run(asRaw, st, steps).Carrier() == Written(st.Carrier(), steps)
    decreases |steps|
  {
    if steps != [] {
      var next := Apply(asRaw, st, steps[0]);
      if next.Live() {
        CarrierOnlyChangesByWrites(asRaw, next, steps[1..]);
      }
    }
  }

  /** Without writes the container is never touched. */
  lemma {:induction false} NoWritesNoChange<Ctx, Id, Rss>(c: L.RawContainer<Id, Rss>, steps: seq<Step<Ctx, Id, Rss>>)
    requires forall i :: 0 <= i < |steps| ==> !steps[i].SproutMut?
    ensures Written(c, steps) == c
  {
    if steps != [] {
      NoWritesNoChange(c, steps[1..]);
    }
  }

  /** As transitions, `sporulate`, `sprout` and `sprout_ref` never change the
      handle or the identity: a run of them holds the container it started with. */
  lemma HandleNeverChanges<Ctx, Id, Rss>(asRaw: Ctx -> Id, st: State<Ctx, Id, Rss>, steps: seq<Step<Ctx, Id, Rss>>)
    requires st.Live() && Typed(st.Detached?, steps)
    requires forall i :: 0 <= i < |steps| ==> !steps[i].SproutMut?
    ensures Run(asRaw, st, steps).Live() ==> Run(asRaw, st, steps).Carrier() == st.Carrier()
  {
    CarrierOnlyChangesByWrites(asRaw, st, steps);
    NoWritesNoChange(st.Carrier(), steps);
  }

  /** A run panics exactly when some reattachment presents a context of
      another identity than the one stored at that moment, or when the pair
      leaves scope as a spore: the assertion and the drop guard are the
      only ways to fail, and each of them always fails. */
  lemma {:induction false} PanicsExactlyWhenUnclean<Ctx, Id, Rss>(asRaw: Ctx -> Id, st: State<Ctx, Id, Rss>, steps: seq<Step<Ctx, Id, Rss>>)
    requires st.Live() && Typed(st.Detached?, steps)
    ensures !Run(asRaw, st, steps).Aborted? <==> Clean(asRaw, st.Carrier().ctx, st.Detached?, steps)
    decreases |steps|
  {
    if steps != [] {
      var next := Apply(asRaw, st, steps[0]);
      if next.Live() {
        PanicsExactlyWhenUnclean(asRaw, next, steps[1..]);
      }
    }
  }

  /** Two steps that differ at most in which context object is presented,
      and present contexts of the same identity. */
  ghost predicate SameIdentity<Ctx, Id, Rss>(asRaw: Ctx -> Id, a: Step<Ctx, Id, Rss>, b: Step<Ctx, Id, Rss>) {
    match a
    case Sporulate => b.Sporulate?
    case Sprout(c) => b.Sprout? && asRaw(b.ctx) == asRaw(c)
    case SproutRef(c) => b.SproutRef? && asRaw(b.ctx) == asRaw(c)
    case SproutMut(c, w) => b.SproutMut? && asRaw(b.ctx) == asRaw(c) && b.write == w
    case ScopeExit => b.ScopeExit?
  }

  /** Two states alike up to the context a resource is bound through. */
  ghost predicate Agree<Ctx, Id, Rss>(x: State<Ctx, Id, Rss>, y: State<Ctx, Id, Rss>) {
    && x.Bound? == y.Bound?
    && x.Detached? == y.Detached?
    && x.Released? == y.Released?
    && (x.Live() ==> x.Carrier() == y.Carrier())
    && (x.Aborted? ==> x == y)
  }

  /** Acceptance is decided by identity equality, not by which context object
      is presented: runs that present different contexts of the same
      identities, from states with the same carrier, end alike. */
  lemma {:induction false} OnlyIdentitiesMatter<Ctx, Id, Rss>(
    asRaw: Ctx -> Id, st1: State<Ctx, Id, Rss>, st2: State<Ctx, Id, Rss>,
    s1: seq<Step<Ctx, Id, Rss>>, s2: seq<Step<Ctx, Id, Rss>>)
    requires st1.Live() && Typed(st1.Detached?, s1)
    requires st2.Live() && Typed(st2.Detached?, s2)
    requires Agree(st1, st2)
    requires |s1| == |s2| && forall i :: 0 <= i < |s1| ==> SameIdentity(asRaw, s1[i], s2[i])
    ensures Agree(Run(asRaw, st1, s1), Run(asRaw, st2, s2))
    decreases |s1|
  {
    if s1 != [] {
      var n1, n2 := Apply(asRaw, st1, s1[0]), Apply(asRaw, st2, s2[0]);
      assert Agree(n1, n2);
      if n1.Live() {
        OnlyIdentitiesMatter(asRaw, n1, n2, s1[1..], s2[1..]);
      }
    }
  }

  /** `sporulate` followed by `sprout` on each of `cs` in turn. */
  function Cycles<Ctx, Id, Rss>(cs: seq<Ctx>): seq<Step<Ctx, Id, Rss>>
  {
    if cs == [] then [] else [Sporulate, Sprout(cs[0])] + Cycles(cs[1..])
  }

  /** Round trips: detaching and reattaching any number of times, each time to
      a context of the resource's identity, gives the same container back,
      bound to the last context presented. */
  lemma {:induction false} RoundTrips<Ctx, Id, Rss>(asRaw: Ctx -> Id, r: L.Resource<Ctx, Id, Rss>, cs: seq<Ctx>)
    requires cs != []
    requires forall i :: 0 <= i < |cs| ==> asRaw(cs[i]) == r.container.ctx
    ensures Typed(false, Cycles<Ctx, Id, Rss>(cs))
    ensures Run(asRaw, Bound(r), Cycles(cs)) == Bound(L.Resource(r.container, cs[|cs| - 1]))
    decreases |cs|
  {
    var steps := Cycles<Ctx, Id, Rss>(cs);
    var rest := Cycles<Ctx, Id, Rss>(cs[1..]);
    assert steps[1..][1..] == rest;
    var back := Bound(L.Resource(r.container, cs[0]));
    if |cs| == 1 {
      assert rest == [];
    } else {
      RoundTrips(asRaw, back.resource, cs[1..]);
    }
    assert Typed(false, steps);
    assert Run(asRaw, Bound(r), steps) == Run(asRaw, back, rest);
  }
}
