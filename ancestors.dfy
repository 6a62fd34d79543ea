/** The ancestor chain of a swipe layout as hackParents and unHackParents see
  * it: ancestors are numbered from the direct parent upwards, and the map of
  * recorded flags is keyed by that number. */
module Ancestors {

  /** One ancestor: whether it is a NestedScrollingParent, and its enabled flag. */
  datatype Ancestor = Ancestor(nestedScrolling: bool, enabled: bool)

  /** What hackParents records walking the first n ancestors: the enabled
    * flag of each nested-scrolling one. */
  function Recorded(chain: seq<Ancestor>, n: nat): (m: map<nat, bool>)
    requires n <= |chain|
    ensures forall k: nat :: k in m <==> k < n && chain[k].nestedScrolling
  {
    map k | 0 <= k < n && chain[k].nestedScrolling :: chain[k].enabled
  }

  /** The chain after unHackParents writes each recorded flag back. */
  function Restored(chain: seq<Ancestor>, m: map<nat, bool>): (r: seq<Ancestor>)
    ensures |r| == |chain|
  {
    seq(|chain|, i requires 0 <= i < |chain| =>
      if i in m then chain[i].(enabled := m[i]) else chain[i])
  }

  /** The map holds only nested-scrolling ancestors of the chain. */
  ghost predicate RecordsOf(chain: seq<Ancestor>, m: map<nat, bool>)
  {
    forall k :: k in m ==> k < |chain| && chain[k].nestedScrolling
  }

  /** One more step of hackParents' walk: the next ancestor's flag is
    * recorded (over any earlier record for it) exactly when it is a nested
    * scrolling parent, and what is recorded stays a record of the chain. */
  lemma RecordStep(chain: seq<Ancestor>, m: map<nat, bool>, i: nat)
    requires i < |chain| && RecordsOf(chain, m)
    ensures RecordsOf(chain, m + Recorded(chain, i + 1))
    ensures m + Recorded(chain, i + 1) ==
      if chain[i].nestedScrolling then (m + Recorded(chain, i))[i := chain[i].enabled]
      else m + Recorded(chain, i)
  {
    var before, after := m + Recorded(chain, i), m + Recorded(chain, i + 1);
    if chain[i].nestedScrolling {
      assert after.Keys == before.Keys + {i};
    } else {
      assert after.Keys == before.Keys;
    }
  }

  /** hackParents followed by unHackParents gives every ancestor its flag
    * back, whatever the map held before, as long as it held only
    * nested-scrolling ancestors of the same chain. */
  lemma HackUnhackRestores(chain: seq<Ancestor>, m: map<nat, bool>)
    requires RecordsOf(chain, m)
    ensures RecordsOf(chain, m + Recorded(chain, |chain|))
    ensures Restored(chain, m + Recorded(chain, |chain|)) == chain
  {
    var m' := m + Recorded(chain, |chain|);
    forall i | 0 <= i < |chain|
      ensures Restored(chain, m')[i] == chain[i]
    {
      if i in m' {
        assert i in Recorded(chain, |chain|);
      }
    }
  }
}
