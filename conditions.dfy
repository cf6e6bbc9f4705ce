/** `is_same_location` of invenio_circulation/transitions/conditions.py. */
module Conditions {
  import opened Policy

  /** Whether the location the policy gives for `item` is `loc`: plain
      equality, no normalisation. */
  predicate IsSameLocation(pol: Policy, item: string, loc: string) {
    loc == pol.itemLocation(item)
  }

  /** The answer depends on nothing but the retriever's location for the
      item: two policies that place the item alike agree, and a location
      other than the retriever's is never the same. */
  lemma SameLocationReadsOnlyRetriever(pol1: Policy, pol2: Policy, item: string, loc: string)
    requires pol1.itemLocation(item) == pol2.itemLocation(item)
    ensures IsSameLocation(pol1, item, loc) == IsSameLocation(pol2, item, loc)
    ensures IsSameLocation(pol1, item, loc) <==> loc == pol2.itemLocation(item)
  {
  }
}
