/** Picking a member of a non-empty set. */
module Sets {
  lemma EmptyIfNoMembers<T>(s: set<T>)
    requires forall k :: k !in s
    ensures s == {}
  {
  }

  /** Some member of a non-empty set, for use as the witness of `:|`. */
  lemma Member<T>(s: set<T>) returns (x: T)
    requires s != {}
    ensures x in s
  {
    if forall k :: k !in s {
      EmptyIfNoMembers(s);
      assert false;
    }
    x :| x in s;
  }
}
