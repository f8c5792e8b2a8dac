# context-spore: the resource/spore lifecycle in Dafny

The crate protects accelerator drivers built on hardware contexts. A
resource must be released back into the context that allocated it. A
*resource* is a raw container holding a context identity and a native handle,
tied to the context it was obtained through. `sporulate` removes that tie and
gives a *spore*. A spore is inert and may outlive the context being current.
`sprout`, `sprout_ref` and `sprout_mut` turn a spore back into a resource.
Each first asserts that the spore's stored identity equals `as_raw` of the
context presented. A spore must never be dropped: its `Drop` is `unreachable!`.

The model has three modules:

- `Lifecycle` (lifecycle.dfy) holds the values. `RawContainer`, `Resource`
  (the container plus the context it is bound to) and `Spore` (the container
  alone) are datatypes. `Panic` and `Outcome` model the two ways the code
  stops: a failed `assert_eq!` and `unreachable!`. `Sporulate`, `Reattach`
  (the check and rebuild shared by the three `sprout` forms), `Drop` and
  `ContextOf` (the resource's `ctx()`) are functions. `as_raw` and `from_raw`
  are driver calls; they become function-valued parameters `asRaw` and
  `fromRaw`, deterministic and otherwise unknown.
- `Storage` (storage.dfy) holds a spore as an object in memory. `SporeSlot`
  has a mutable `container` field and a ghost `live` flag, which `sprout`
  clears: the spore is moved into it, whether the check passes or fails.
  `sprout_ref` only reads the slot.
  `sprout_mut` returns a `ResourceMut` view that aliases the slot, so a write
  through the view lands in the spore's own container. The constructor
  `Sporulate` and the three `sprout` methods also state the step
  `Trace.Apply` takes; `Drop` states `Lifecycle.Drop`, the panic that
  `Trace.Apply` gives when a spore leaves scope.
- `Trace` (trace.dfy) follows one pair through a program, as a sequence of
  these operations ending in a scope exit or a panic. Its lemmas relate many
  calls: which changes the carrier, which panics, and what the contexts
  presented matter for.

## Model

| member | source | states |
|---|---|---|
| `Lifecycle.Sporulate` | src/lib.rs:171-177 | detaching always succeeds and keeps the identity and the handle unchanged |
| `Lifecycle.Reattach` | src/lib.rs:143-164 | reattaching succeeds if and only if the stored identity equals `as_raw(ctx)`; on success the resource holds the spore's container, bound to `ctx`; otherwise it panics with `assert_eq!`'s two values and returns no resource |
| `Lifecycle.Drop` | src/lib.rs:98-103 | dropping a spore never completes; it panics with "Never drop ContextSpore" |
| `Lifecycle.ContextOf` | src/lib.rs:127-131 | `ctx()` is always available and gives the context that `from_raw` builds from the stored identity |
| `Lifecycle.RoundTrip` | src/lib.rs:143-177 | `sprout(sporulate(r), c)` with `as_raw(c)` equal to `r`'s identity gives `r`'s container, bound to `c` |
| `Lifecycle.MismatchIsFatal` | src/lib.rs:143-144 | reattaching to a context of another identity always panics and never gives a resource |
| `Lifecycle.OnlyIdentityMatters` | src/lib.rs:143-164 | two contexts with the same raw identity are accepted or refused together, with the same container |
| `Lifecycle.OwnContextAccepted` | src/lib.rs:127-149 | provided `from_raw` inverts `as_raw` on the stored identity, the context a resource's `ctx()` reports has that identity and is accepted when that resource's spore is reattached, giving back the same container |
| `Storage.SporeSlot.Sporulate` | src/lib.rs:171-177 | the new spore holds the resource's container and is live, the state the `Trace.Apply` step for `sporulate` gives from the bound resource |
| `Storage.SporeSlot.Sprout` | src/lib.rs:143-150 | the result is `Reattach` of the held spore and the `Trace.Apply` step from it; afterwards the spore is gone whatever the outcome (moved into the resource, or dropped while the failed assertion unwinds); the container is not changed |
| `Storage.SporeSlot.SproutRef` | src/lib.rs:152-157 | same check and resource as `Reattach`, and the `Trace.Apply` step that keeps the spore detached; nothing changes and the spore stays live |
| `Storage.SporeSlot.SproutMut` | src/lib.rs:159-164 | same check; on success a fresh view of this very slot, bound to `ctx`, showing the resource `Reattach` gives; otherwise `assert_eq!`'s panic; the outcome is the `Trace.Apply` step for a `sprout_mut` that writes nothing new |
| `Storage.SporeSlot.Drop` | src/lib.rs:98-103 | the drop guard of a live spore always panics |
| `Storage.ResourceMut.Assign` | src/lib.rs:160-164 | a write through the mutable view of a still-live spore replaces the slot's container and touches nothing else |
| `Storage.WriteThroughView` | src/lib.rs:152-164 | after a write through `sprout_mut`'s view the spore is still live, holds the written container, `sprout_ref` is then checked against the written identity (which may be another context's) and fails exactly when it differs, another spore is unchanged, and the slot is in the state the `Trace.Apply` step for that write gives |
| `Trace.Apply` | src/lib.rs:98-177 | one operation: it panics exactly on a reattachment to a context of another identity (with `assert_eq!`'s values) or on the scope exit of a spore (with the drop guard's message); a bound resource leaving scope is released; `sprout` that passes binds the resource to the context presented, `sprout_ref` and `sprout_mut` keep the spore detached; a `sprout_mut` write replaces the container and nothing else changes it |
| `Trace.CarrierOnlyChangesByWrites` | src/lib.rs:143-177 | along any run, the container held is the last one written through a mutable view, or the initial one |
| `Trace.HandleNeverChanges` | src/lib.rs:143-177 | runs of `sporulate`, `sprout`, `sprout_ref` and scope exits never change the handle or the identity |
| `Trace.PanicsExactlyWhenUnclean` | src/lib.rs:98-164 | a run panics if and only if some reattachment presents a context of another identity than the stored one, or a still-detached spore leaves scope |
| `Trace.OnlyIdentitiesMatter` | src/lib.rs:143-164 | runs that present different context objects with the same identities end alike: same state kind, same container, same panic |
| `Trace.RoundTrips` | src/lib.rs:143-177 | any number of detach/reattach cycles, each to a context of the resource's identity, gives back the same container, bound to the last context |

## Left out

- The `transmute_copy` + `forget` and `transmute` layout trick, and
  `#[repr(transparent)]`: each conversion is an explicit rebuild around the
  same `RawContainer` value.
- `Send` and `Sync` for spores: they concern threads, and the model is sequential.
- Rust lifetimes and the `PhantomData<&'ctx ()>` tie: the tie is the
  resource's `bound` field, the context it was obtained through.
- `as_raw` and `from_raw` are parameters. The model does not assume that
  distinct contexts have distinct identities; no result depends on that.
- Lifecycle.OwnContextAccepted: holds only when `from_raw` inverts `as_raw`
  on the stored identity, because both are driver calls the model cannot see;
  `Lifecycle.ContextOf` itself only says the context is built from that identity.
- Storage.SporeSlot.Sporulate: the resource it is given is a value, so nothing
  stops it being used again; that a resource moves once is captured only by
  `Trace.Typed`, which the runs of module `Trace` require.
- The `impl_spore!` and `spore_convention!` macros, and the trait impls that
  name `CurrentCtx` while the methods take `$ctx`: the model is one generic
  pair, so every resource kind gets the same logic.
- The `ContextResource`/`ContextSpore` pairing constraints: these are type-level.
  In the model `Resource<Ctx, Id, Rss>` and `Spore<Id, Rss>` correspond one to
  one through their shared container type.
- The exclusion between one `&mut` borrow and other borrows of a spore, and
  between a borrow and a move of the spore into `sprout`, is the borrow
  checker's job; `Storage.ResourceMut.Assign` only requires the spore to be live. `Storage.SporeSlot.SproutRef` returns a copy of the
  resource, which cannot differ from a view while a shared borrow is held.
- Panic versus abort: when the identity check of the consuming `sprout` fails,
  unwinding drops `self`, and the drop guard panics a second time, which
  aborts. `Storage.SporeSlot.Sprout` ends the spore on that path too, but its
  result records only the first panic.
- Allocation and release of native handles: these belong to the drivers.
  `Trace.Released` marks a bound resource leaving scope.
- The container a write through `sprout_mut`'s view replaces is not followed.
  `*view = r` drops it in place; `core::mem::replace` or `swap` on the view
  moves it out as a live bound resource. `Trace` and `Storage` follow only
  the slot, so that old container's later life is outside the model.
- Executing past a panic: `Trace.Aborted` is final. The `Storage` methods
  return `Panicked` as a value and leave the slot as it was (except `Sprout`,
  which ends it); in the program the panic unwinds past the spore's owner,
  whose drop guard then aborts, so nothing done with a slot after a
  `Panicked` result models the program.
- Identities are compared as values (`==` on `Id`); `assert_eq!` uses the raw
  type's `PartialEq`, and one that is not an equivalence is not modelled.
