/**
 * The part of JavaScript's `Object.assign(target, ...sources)` that the
 * router helper relies on, stated on values: every source is copied onto
 * the target in turn, left to right, so a later source overwrites the
 * properties an earlier one (or the target) already had.
 */
module ObjectAssign {
  import opened Wrappers

  /** A plain object, seen as its own enumerable string-keyed properties. */
  type Props<V> = map<string, V>

  /** What one source argument copies: a `null` source copies nothing. */
  function Copied<V>(source: Option<Props<V>>): Props<V>
  {
    match source
    case None => map[]
    case Some(o) => o
  }

  /** Every key that some source copies. */
  function SourceKeys<V>(sources: seq<Option<Props<V>>>): set<string>
  {
    set i, k | 0 <= i < |sources| && k in Copied(sources[i]) :: k
  }

  /** Source `i` is the last one that copies key `k`. */
  ghost predicate LastCopier<V>(sources: seq<Option<Props<V>>>, i: int, k: string)
  {
    && 0 <= i < |sources|
    && k in Copied(sources[i])
    && forall j :: i < j < |sources| ==> k !in Copied(sources[j])
  }

  /**
   * `Object.assign(target, s0, s1, ...)`, as the properties the target
   * holds afterwards. The result has exactly the keys of the target and of
   * the sources; a key takes the value of the last source that has it, and
   * a key no source has keeps the target's value.
   */
  function Assign<V>(target: Props<V>, sources: seq<Option<Props<V>>>): (r: Props<V>)
    ensures r.Keys == target.Keys + SourceKeys(sources)
    ensures forall i, k :: LastCopier(sources, i, k) ==> r[k] == Copied(sources[i])[k]
    ensures forall k :: k in target && k !in SourceKeys(sources) ==> r[k] == target[k]
    decreases |sources|
  {
    if sources == [] then target
    else
      var r := Assign(target + Copied(sources[0]), sources[1..]);
      assert SourceKeys(sources) == Copied(sources[0]).Keys + SourceKeys(sources[1..]) by {
        SourceKeysCons(sources);
      }
      assert forall i, k :: LastCopier(sources, i, k) && i > 0 ==> LastCopier(sources[1..], i - 1, k);
      r
  }

  /** The keys of a source list are those of its head and those of its tail. */
  lemma SourceKeysCons<V>(sources: seq<Option<Props<V>>>)
    requires sources != []
    ensures SourceKeys(sources) == Copied(sources[0]).Keys + SourceKeys(sources[1..])
  {
    forall k | k in SourceKeys(sources)
      ensures k in Copied(sources[0]).Keys + SourceKeys(sources[1..])
    {
      var i :| 0 <= i < |sources| && k in Copied(sources[i]);
      if i > 0 {
        assert sources[1..][i - 1] == sources[i];
      }
    }
    forall k | k in SourceKeys(sources[1..])
      ensures k in SourceKeys(sources)
    {
      var i :| 0 <= i < |sources[1..]| && k in Copied(sources[1..][i]);
      assert sources[1..][i] == sources[i + 1];
    }
  }

  /**
   * Copying one more source at the end is a right-biased map union with
   * that source: `Object.assign(t, ...s, x)` is `Object.assign(t, ...s)`
   * followed by `x + ` in Dafny's map algebra.
   */
  lemma {:induction false} AssignSnoc<V>(target: Props<V>, sources: seq<Option<Props<V>>>, last: Option<Props<V>>)
    ensures Assign(target, sources + [last]) == Assign(target, sources) + Copied(last)
    decreases |sources|
  {
    if sources == [] {
      assert [] + [last] == [last];
      assert [last][1..] == [];
    } else {
      assert (sources + [last])[1..] == sources[1..] + [last];
      AssignSnoc(target + Copied(sources[0]), sources[1..], last);
    }
  }

  /** With two sources, `Object.assign` is exactly two right-biased unions. */
  lemma AssignTwo<V>(target: Props<V>, first: Option<Props<V>>, second: Option<Props<V>>)
    ensures Assign(target, [first, second]) == target + Copied(first) + Copied(second)
  {
    AssignSnoc(target, [first], second);
    assert [first] + [second] == [first, second];
    assert [first][1..] == [];
  }
}
