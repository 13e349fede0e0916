/**
 * JavaScript objects as references into a heap, so that `Object.assign`'s
 * write into its target, and which objects that write can reach, can be
 * stated. Each object is its property map from `ObjectAssign`.
 */
module JsHeap {
  import opened Wrappers
  import opened ObjectAssign

  type Ref = nat

  /** The objects that exist, each with its current properties. */
  type Heap<V> = map<Ref, Props<V>>

  /** Every non-null source refers to an existing object. */
  predicate Allocated<V>(h: Heap<V>, sources: seq<Option<Ref>>)
  {
    forall i :: 0 <= i < |sources| && sources[i].Some? ==> sources[i].value in h
  }

  /** No source is the target object itself. */
  predicate Unaliased(target: Ref, sources: seq<Option<Ref>>)
  {
    forall i :: 0 <= i < |sources| ==> sources[i] != Some(target)
  }

  /** The properties a (possibly null) reference denotes. */
  function Deref<V>(h: Heap<V>, source: Option<Ref>): Option<Props<V>>
    requires source.Some? ==> source.value in h
  {
    match source
    case None => None
    case Some(r) => Some(h[r])
  }

  /** The properties each source denotes in `h`. */
  function DerefAll<V>(h: Heap<V>, sources: seq<Option<Ref>>): (ps: seq<Option<Props<V>>>)
    requires Allocated(h, sources)
    ensures |ps| == |sources|
    ensures forall i :: 0 <= i < |sources| ==> ps[i] == Deref(h, sources[i])
    decreases |sources|
  {
    if sources == [] then []
    else [Deref(h, sources[0])] + DerefAll(h, sources[1..])
  }

  /**
   * `Object.assign(target, ...sources)` run against the heap: each source
   * is read when its turn comes and copied into the target object. Only
   * the target changes; when no source is the target itself, its new
   * properties are `Assign` of its old ones and the sources' contents.
   */
  function AssignInPlace<V>(h: Heap<V>, target: Ref, sources: seq<Option<Ref>>): (h': Heap<V>)
    requires target in h && Allocated(h, sources)
    ensures h'.Keys == h.Keys
    ensures forall r :: r in h && r != target ==> h'[r] == h[r]
    ensures Unaliased(target, sources) ==> h'[target] == Assign(h[target], DerefAll(h, sources))
    decreases |sources|
  {
    if sources == [] then h
    else
      var h1 := h[target := h[target] + Copied(Deref(h, sources[0]))];
      assert DerefAll(h, sources)[1..] == DerefAll(h, sources[1..]);
      assert Unaliased(target, sources) ==> DerefAll(h1, sources[1..]) == DerefAll(h, sources[1..]);
      AssignInPlace(h1, target, sources[1..])
  }
}
