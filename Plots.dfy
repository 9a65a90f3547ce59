/**
 * The plot-management collaborator as this component sees it: players are
 * identified by a UUID, a plot exposes its owner, trusted and member sets and
 * an opaque "is added" test, and a HashSet of UUIDs is filled by `addAll`.
 */
module Plots {

  /** A Java UUID: two 64-bit halves, compared by value. */
  datatype UUID = UUID(mostSigBits: int, leastSigBits: int)

  /**
   * A PlotSquared plot, reduced to what OwnershipType reads from it.
   * `isAdded` is PlotSquared's own membership rule, which is not visible
   * here, so it is left uninterpreted: any predicate on UUIDs.
   */
  datatype Plot = Plot(
    owners: set<UUID>,
    trusted: set<UUID>,
    members: set<UUID>,
    isAdded: UUID -> bool
  )

  /**
   * `plot.isOwner(uuid)`. The PlotSquared implementation is not part of this
   * model; it is taken to agree with `getOwners()`.
   */
  predicate IsOwner(plot: Plot, uuid: UUID)
    ensures IsOwner(plot, uuid) <==> uuid in plot.owners
  {
    uuid in plot.owners
  }

  /** A `java.util.HashSet<UUID>` that is filled in place. */
  class UuidSet {
    var elements: set<UUID>

    /** `new HashSet<>()` */
    constructor ()
      ensures elements == {}
    {
      elements := {};
    }

    /** `addAll(source)`: adds the elements of `source` one at a time. */
    method AddAll(source: set<UUID>)
      modifies this
      ensures elements == old(elements) + source
    {
      var rest := source;
      while rest != {}
        invariant rest <= source
        invariant elements == old(elements) + (source - rest)
        decreases rest
      {
        var uuid :| uuid in rest;
        elements := elements + {uuid};
        rest := rest - {uuid};
      }
    }
  }

}
