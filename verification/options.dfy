/**
 * The options record of the connectivity monitor and the shallow merge that
 * `init` performs on it with jQuery's `$.extend`.
 */
module MonitorOptions {
  import opened Wrappers

  /** The identity of a function value supplied by the caller. */
  datatype Callback = Callback(id: nat)

  /** A callback slot: `Some(f)` holds a function, `None` holds `undefined` or `null`. */
  type Slot = Option<Callback>

  datatype Options = Options(
    slowTimeout: int,
    onConnection: Slot,
    onSlowConnection: Slot,
    onDeadConnection: Slot)

  const DefaultSlowTimeout: int := 2000

  /**
   * The options before any `init`. The three slots are initialised with the
   * RESULT of calling `$.noop()`, which is `undefined`, not a function.
   */
  const Defaults: Options := Options(DefaultSlowTimeout, None, None, None)

  /**
   * One property of the object handed to `init`. `$.extend` skips a property
   * that is missing or whose value is `undefined` (Keep) and copies any other
   * value, `null` included (Put).
   */
  datatype Field<T> = Keep | Put(value: T) {

    /** The value the property leaves in a field that currently holds `current`. */
    function Over(current: T): (r: T)
      ensures Put? ==> r == value
      ensures Keep? ==> r == current
    {
      match this
      case Keep => current
      case Put(v) => v
    }

    /** The property that results from assigning `this` and then `later`. */
    function Then(later: Field<T>): (r: Field<T>)
      ensures r.Keep? <==> Keep? && later.Keep?
    {
      if later.Put? then later else this
    }
  }

  /** The four properties of an `init` argument that the monitor reads. */
  datatype Patch = Patch(
    slowTimeout: Field<int>,
    onConnection: Field<Slot>,
    onSlowConnection: Field<Slot>,
    onDeadConnection: Field<Slot>)

  /** An argument with none of the four properties: `{}`, an array, a string. */
  const EmptyPatch: Patch := Patch(Keep, Keep, Keep, Keep)

  /** True when the patch assigns every one of the four fields. */
  predicate Complete(p: Patch) {
    p.slowTimeout.Put? && p.onConnection.Put? && p.onSlowConnection.Put? && p.onDeadConnection.Put?
  }

  /** The patch equivalent to applying `p` and then `q`. */
  function Combine(p: Patch, q: Patch): Patch {
    Patch(
      p.slowTimeout.Then(q.slowTimeout),
      p.onConnection.Then(q.onConnection),
      p.onSlowConnection.Then(q.onSlowConnection),
      p.onDeadConnection.Then(q.onDeadConnection))
  }

  /**
   * `$.extend(options, opts)`: every property the patch supplies replaces the
   * current field, every other field keeps its current value.
   */
  function Merge(o: Options, p: Patch): (r: Options)
    ensures p.slowTimeout.Put? ==> r.slowTimeout == p.slowTimeout.value
    ensures p.slowTimeout.Keep? ==> r.slowTimeout == o.slowTimeout
    ensures p.onConnection.Put? ==> r.onConnection == p.onConnection.value
    ensures p.onConnection.Keep? ==> r.onConnection == o.onConnection
    ensures p.onSlowConnection.Put? ==> r.onSlowConnection == p.onSlowConnection.value
    ensures p.onSlowConnection.Keep? ==> r.onSlowConnection == o.onSlowConnection
    ensures p.onDeadConnection.Put? ==> r.onDeadConnection == p.onDeadConnection.value
    ensures p.onDeadConnection.Keep? ==> r.onDeadConnection == o.onDeadConnection
  {
    Options(
      p.slowTimeout.Over(o.slowTimeout),
      p.onConnection.Over(o.onConnection),
      p.onSlowConnection.Over(o.onSlowConnection),
      p.onDeadConnection.Over(o.onDeadConnection))
  }

  /** Applying the same `init` twice leaves the options as applying it once. */
  lemma MergeIdempotent(o: Options, p: Patch)
    ensures Merge(Merge(o, p), p) == Merge(o, p)
  {
  }

  /** An `init` whose argument supplies none of the fields changes nothing. */
  lemma MergeEmptyIsIdentity(o: Options)
    ensures Merge(o, EmptyPatch) == o
  {
  }

  /** Two successive `init` calls overlay like one call with the later values winning. */
  lemma MergeSequential(o: Options, p: Patch, q: Patch)
    ensures Merge(Merge(o, p), q) == Merge(o, Combine(p, q))
  {
  }

  /** An `init` supplying all four fields forgets the previous options entirely. */
  lemma MergeCompleteOverrides(o: Options, o': Options, p: Patch)
    requires Complete(p)
    ensures Merge(o, p) == Merge(o', p)
  {
  }
}
