/** Deferred z-ordered paint operations, and the paint closures that schedule
    them written out as scripts, so that what a nested paint context leaves
    on its parent's list can be stated. */
module ZOrder {
  import opened Types

  /** The deferred work of one z-ordered operation; it runs after the pass,
      outside `contexts.rs`, so only its identity is kept. */
  datatype DeferredPaint = DeferredPaint(tag: nat)

  /** `ZOrderPaintOp`: priority, deferred work and the captured transform. */
  datatype ZOp = ZOp(zIndex: u32, paint: DeferredPaint, transform: Affine)

  /** What a paint closure does with the context it is given: activate it,
      schedule a z-ordered operation, change the transform of the shared
      render context (through the context's deref to it; `transform` is the
      transform in effect afterwards), or paint a nested visible region. */
  datatype PaintStep =
    | Init
    | ZIndexed(zIndex: u32, paint: DeferredPaint)
    | SetTransform(transform: Affine)
    | Nested(region: Region, body: seq<PaintStep>)

  /** The init protocol holds along `steps` when the context starts with
      `isInit`: every context is activated at most once, and each nested
      context starts inactive, whatever its parent's state. */
  predicate Runnable(steps: seq<PaintStep>, isInit: bool)
    decreases steps
  {
    if steps == [] then true
    else match steps[0]
      case Init => !isInit && Runnable(steps[1..], true)
      case Nested(_, body) => Runnable(body, false) && Runnable(steps[1..], isInit)
      case _ => Runnable(steps[1..], isInit)
  }

  /** How many nested contexts deep `steps` goes. */
  function NestingDepth(steps: seq<PaintStep>): nat
    decreases steps
  {
    if steps == [] then 0
    else match steps[0]
      case Nested(_, body) =>
        var inner, rest := 1 + NestingDepth(body), NestingDepth(steps[1..]);
        if inner < rest then rest else inner
      case _ => NestingDepth(steps[1..])
  }

  /** The render context's transform after `steps`, started at `t`. A nested
      context shares the render context, so what its body sets stays set. */
  function TransformAfter(steps: seq<PaintStep>, t: Affine): Affine
    decreases steps
  {
    if steps == [] then t
    else match steps[0]
      case SetTransform(a) => TransformAfter(steps[1..], a)
      case Nested(_, body) => TransformAfter(steps[1..], TransformAfter(body, t))
      case _ => TransformAfter(steps[1..], t)
  }

  /** The operations `steps` leaves on the list of the context it runs in,
      in scheduling order, when the render context's transform starts at `t`. */
  function Scheduled(steps: seq<PaintStep>, t: Affine): seq<ZOp>
    decreases steps
  {
    if steps == [] then []
    else match steps[0]
      case Init => Scheduled(steps[1..], t)
      case ZIndexed(z, f) => [ZOp(z, f, t)] + Scheduled(steps[1..], t)
      case SetTransform(a) => Scheduled(steps[1..], a)
      case Nested(_, body) => Scheduled(body, t) + Scheduled(steps[1..], TransformAfter(body, t))
  }

  /** The `ZIndexed` and `SetTransform` steps of `steps`, nested ones included,
      in the order they run. */
  function Flatten(steps: seq<PaintStep>): seq<PaintStep>
    decreases steps
  {
    if steps == [] then []
    else match steps[0]
      case Init => Flatten(steps[1..])
      case Nested(_, body) => Flatten(body) + Flatten(steps[1..])
      case _ => [steps[0]] + Flatten(steps[1..])
  }

  /** Reference reading of a flat run: the transform of the last
      `SetTransform` in `flat`, or `t` if there is none. */
  function LatestTransform(flat: seq<PaintStep>, t: Affine): Affine
    decreases |flat|
  {
    if flat == [] then t
    else if flat[|flat| - 1].SetTransform? then flat[|flat| - 1].transform
    else LatestTransform(flat[..|flat| - 1], t)
  }

  /** Reference reading of a flat run, read from its end: the ops of the
      prefix, then, if the last step schedules one, that op carrying the
      latest transform set before it. */
  function Deferred(flat: seq<PaintStep>, t: Affine): seq<ZOp>
    decreases |flat|
  {
    if flat == [] then []
    else
      var prefix, last := flat[..|flat| - 1], flat[|flat| - 1];
      Deferred(prefix, t) +
        (if last.ZIndexed? then [ZOp(last.zIndex, last.paint, LatestTransform(prefix, t))] else [])
  }

  lemma {:induction false} LatestTransformAppend(a: seq<PaintStep>, b: seq<PaintStep>, t: Affine)
    ensures LatestTransform(a + b, t) == LatestTransform(b, LatestTransform(a, t))
    decreases |b|
  {
    if b == [] {
      assert a + b == a;
    } else {
      var b' := b[..|b| - 1];
      assert (a + b)[..|a + b| - 1] == a + b';
      LatestTransformAppend(a, b', t);
    }
  }

  lemma {:induction false} DeferredAppend(a: seq<PaintStep>, b: seq<PaintStep>, t: Affine)
    ensures Deferred(a + b, t) == Deferred(a, t) + Deferred(b, LatestTransform(a, t))
    decreases |b|
  {
    if b == [] {
      assert a + b == a;
    } else {
      var b' := b[..|b| - 1];
      assert (a + b)[..|a + b| - 1] == a + b';
      DeferredAppend(a, b', t);
      LatestTransformAppend(a, b', t);
    }
  }

  /** Every operation scheduled, at any nesting depth, reaches the list in
      the order it ran, carrying the transform set last before it ran, and
      the render context ends with the transform set last of all. */
  lemma {:induction false} ScheduledMatchesFlat(steps: seq<PaintStep>, t: Affine)
    ensures Scheduled(steps, t) == Deferred(Flatten(steps), t)
    ensures TransformAfter(steps, t) == LatestTransform(Flatten(steps), t)
    decreases steps
  {
    if steps != [] {
      var rest := steps[1..];
      match steps[0]
      case Init =>
        ScheduledMatchesFlat(rest, t);
      case ZIndexed(z, f) =>
        var s := [steps[0]];
        assert s[..0] == [];
        ScheduledMatchesFlat(rest, t);
        DeferredAppend(s, Flatten(rest), t);
        LatestTransformAppend(s, Flatten(rest), t);
      case SetTransform(a) =>
        var s := [steps[0]];
        assert s[..0] == [];
        ScheduledMatchesFlat(rest, a);
        DeferredAppend(s, Flatten(rest), t);
        LatestTransformAppend(s, Flatten(rest), t);
      case Nested(_, body) =>
        ScheduledMatchesFlat(body, t);
        ScheduledMatchesFlat(rest, TransformAfter(body, t));
        DeferredAppend(Flatten(body), Flatten(rest), t);
        LatestTransformAppend(Flatten(body), Flatten(rest), t);
    }
  }

  /** The transform after two scripts run one after the other. */
  lemma {:induction false} TransformAfterAppend(a: seq<PaintStep>, b: seq<PaintStep>, t: Affine)
    ensures TransformAfter(a + b, t) == TransformAfter(b, TransformAfter(a, t))
    decreases a
  {
    if a == [] {
      assert a + b == b;
    } else {
      assert (a + b)[0] == a[0];
      assert (a + b)[1..] == a[1..] + b;
      match a[0]
      case Nested(_, body) => TransformAfterAppend(a[1..], b, TransformAfter(body, t));
      case SetTransform(x) => TransformAfterAppend(a[1..], b, x);
      case _ => TransformAfterAppend(a[1..], b, t);
    }
  }

  /** Scheduling distributes over running one script after another; the
      second starts with the transform the first leaves behind. */
  lemma {:induction false} ScheduledAppend(a: seq<PaintStep>, b: seq<PaintStep>, t: Affine)
    ensures Scheduled(a + b, t) == Scheduled(a, t) + Scheduled(b, TransformAfter(a, t))
    decreases a
  {
    if a == [] {
      assert a + b == b;
    } else {
      assert (a + b)[0] == a[0];
      assert (a + b)[1..] == a[1..] + b;
      match a[0]
      case Nested(_, body) => ScheduledAppend(a[1..], b, TransformAfter(body, t));
      case SetTransform(x) => ScheduledAppend(a[1..], b, x);
      case _ => ScheduledAppend(a[1..], b, t);
    }
  }

  /** Nesting is invisible on the deferred list and on the render context:
      painting `body` in a nested region schedules exactly what painting it
      in place would, and leaves the same transform. */
  lemma NestingTransparent(region: Region, body: seq<PaintStep>, rest: seq<PaintStep>, t: Affine)
    ensures Scheduled([Nested(region, body)] + rest, t) == Scheduled(body + rest, t)
    ensures TransformAfter([Nested(region, body)] + rest, t) == TransformAfter(body + rest, t)
  {
    var s := [Nested(region, body)] + rest;
    assert s[0] == Nested(region, body) && s[1..] == rest;
    ScheduledAppend(body, rest, t);
    TransformAfterAppend(body, rest, t);
  }
}
