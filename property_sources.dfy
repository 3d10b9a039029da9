/**
 * The host's ordered chain of property sources, consulted front to back, and
 * the adapter that puts a parameter source into it. Sources are only ever
 * added at the front (addFirst).
 */
module PropertySources {
  import opened ParameterStore

  /** An entry of the chain: the parameter-store adapter, or any other named source of the host. */
  datatype PropertySource =
    | ParameterStorePropertySource(name: string, source: ParameterStoreSource)
    | OtherPropertySource(name: string)

  /** `s` back to front. */
  function Reversed<T>(s: seq<T>): (r: seq<T>)
    ensures |r| == |s|
    ensures forall i :: 0 <= i < |s| ==> r[i] == s[|s| - 1 - i]
  {
    if s == [] then [] else Reversed(s[1..]) + [s[0]]
  }

  /** The chain obtained from `chain` by adding each of `added`, in turn, at the front. */
  function AddAllFirst(chain: seq<PropertySource>, added: seq<PropertySource>): seq<PropertySource>
    decreases |added|
  {
    if added == [] then chain else AddAllFirst([added[0]] + chain, added[1..])
  }

  /** Front insertion reverses: the last source added ends up first. */
  lemma {:induction false} AddAllFirstPrependsReversed(chain: seq<PropertySource>, added: seq<PropertySource>)
    ensures AddAllFirst(chain, added) == Reversed(added) + chain
    decreases |added|
  {
    if added != [] {
      AddAllFirstPrependsReversed([added[0]] + chain, added[1..]);
      assert Reversed(added) == Reversed(added[1..]) + [added[0]];
    }
  }

  lemma ReversedTwice<T>(s: seq<T>)
    ensures Reversed(Reversed(s)) == s
  {
  }

  /**
   * Adding the sources of `ordered` at the front, last one first, leaves them
   * at the head of the chain in their original order, ahead of what was there.
   */
  lemma FrontInsertionInReverseKeepsOrder(chain: seq<PropertySource>, ordered: seq<PropertySource>)
    ensures AddAllFirst(chain, Reversed(ordered)) == ordered + chain
  {
    AddAllFirstPrependsReversed(chain, Reversed(ordered));
    ReversedTwice(ordered);
  }

  /** MutablePropertySources: the chain, and (ghost) every source ever added at its front. */
  class MutablePropertySources {
    var sources: seq<PropertySource>
    ghost var initial: seq<PropertySource>
    ghost var added: seq<PropertySource>

    /** The chain is what the host started with, with every addFirst argument put in front in turn. */
    ghost predicate Valid()
      reads this
    {
      sources == AddAllFirst(initial, added)
    }

    constructor (existing: seq<PropertySource>)
      ensures Valid()
      ensures sources == existing && initial == existing && added == []
    {
      sources := existing;
      initial := existing;
      added := [];
    }

    /** addFirst: `s` becomes the source of highest precedence. */
    method AddFirst(s: PropertySource)
      requires Valid()
      modifies this
      ensures Valid()
      ensures sources == [s] + old(sources)
      ensures added == old(added) + [s] && initial == old(initial)
    {
      AddAllFirstPrependsReversed(initial, added);
      AddAllFirstPrependsReversed(initial, added + [s]);
      assert Reversed(added + [s]) == [s] + Reversed(added);
      sources := [s] + sources;
      added := added + [s];
    }
  }
}
