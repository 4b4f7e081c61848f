/** The property bag shared with the callback: a shallow, last-write-wins merge. */
module Props {
  import opened Steps

  /** `Object.assign(base, patch)`: every key of the patch takes the patch's value,
      every other key keeps its value, and no key is removed. */
  function Merge<V>(base: map<string, V>, patch: map<string, V>): (r: map<string, V>)
    ensures r.Keys == base.Keys + patch.Keys
    ensures forall k :: k in patch ==> r[k] == patch[k]
    ensures forall k :: k in base && k !in patch ==> r[k] == base[k]
  {
    base + patch
  }

  /** Merging two patches one after the other is merging their own merge: later keys win. */
  lemma MergeTwice<V>(base: map<string, V>, first: map<string, V>, second: map<string, V>)
    ensures Merge(Merge(base, first), second) == Merge(base, Merge(first, second))
  {
  }

  /** The bag a Procaser starts with: the given one, or an empty one for `null`. */
  function Initial<V>(given: Option<map<string, V>>): (r: map<string, V>)
    ensures given.Some? ==> r == given.value
    ensures given.None? ==> r == map[]
  {
    if given.Some? then given.value else map[]
  }
}
