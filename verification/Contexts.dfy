/** Cancellation contexts: a forest in which cancelling one context ends all that descend from it. */
module Contexts {

  /** A context and the index of the one it was derived from; -1 for context.Background(). */
  datatype Ctx = Ctx(parent: int, cancelled: bool)

  ghost predicate Forest(ctxs: seq<Ctx>) {
    forall i :: 0 <= i < |ctxs| ==> -1 <= ctxs[i].parent < i
  }

  /** ctx.Err() != nil. */
  predicate IsDone(ctxs: seq<Ctx>, c: int)
    decreases c
  {
    0 <= c < |ctxs| && (ctxs[c].cancelled || (0 <= ctxs[c].parent < c && IsDone(ctxs, ctxs[c].parent)))
  }

  ghost predicate Descends(ctxs: seq<Ctx>, d: int, c: int)
    decreases d
  {
    0 <= d < |ctxs| && (d == c || (0 <= ctxs[d].parent < d && Descends(ctxs, ctxs[d].parent, c)))
  }

  function CancelCtx(ctxs: seq<Ctx>, c: nat): (ctxs': seq<Ctx>)
    requires c < |ctxs|
  {
    ctxs[c := ctxs[c].(cancelled := true)]
  }

  /** Cancelling ends exactly the contexts that descend from the cancelled one, and no other. */
  lemma {:induction false} CancelReach(ctxs: seq<Ctx>, c: nat, d: int)
    requires c < |ctxs|
    ensures IsDone(CancelCtx(ctxs, c), d) <==> IsDone(ctxs, d) || Descends(ctxs, d, c)
    ensures forall e :: Descends(CancelCtx(ctxs, c), d, e) <==> Descends(ctxs, d, e)
    decreases d
  {
    if 0 <= d < |ctxs| && 0 <= ctxs[d].parent < d {
      CancelReach(ctxs, c, ctxs[d].parent);
    }
  }

  /** A derived context leaves every older one as it was. */
  lemma {:induction false} ExtendKeeps(ctxs: seq<Ctx>, x: Ctx, d: int)
    requires d < |ctxs|
    ensures IsDone(ctxs + [x], d) <==> IsDone(ctxs, d)
    ensures forall e :: Descends(ctxs + [x], d, e) <==> Descends(ctxs, d, e)
    decreases d
  {
    if 0 <= d && 0 <= ctxs[d].parent < d {
      ExtendKeeps(ctxs, x, ctxs[d].parent);
    }
  }
}
