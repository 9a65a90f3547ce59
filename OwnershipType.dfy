/**
 * The four plot-membership tiers, the predicate "does this player hold the
 * tier on this plot" and the projection "every player holding the tier".
 * A Bukkit player is modelled by its UUID, the only thing the tiers read.
 */
module OwnershipTypes {
  import opened Plots

  /** LEADER, TRUSTED, MEMBER and ANY, in declaration order. */
  datatype OwnershipType = Leader | Trusted | Member | Any

  /** A tier's position in declaration order (Java's `ordinal()`). */
  function Ordinal(t: OwnershipType): nat
  {
    match t
    case Leader => 0
    case Trusted => 1
    case Member => 2
    case Any => 3
  }

  /** `values()`: every tier exactly once, at its ordinal. */
  function Values(): (r: seq<OwnershipType>)
    ensures |r| == 4
    ensures forall t :: Ordinal(t) < |r| && r[Ordinal(t)] == t
    ensures forall i :: 0 <= i < |r| ==> Ordinal(r[i]) == i
  {
    [Leader, Trusted, Member, Any]
  }

  /**
   * The alias strings each tier's constructor call declares: at least one,
   * none empty, none repeated within the tier.
   */
  function Aliases(t: OwnershipType): (r: seq<string>)
    ensures r != []
    ensures forall a :: a in r ==> a != []
    ensures forall i, j :: 0 <= i < j < |r| ==> r[i] != r[j]
  {
    match t
    case Leader => ["leader"]
    case Trusted => ["trusted"]
    case Member => ["member"]
    case Any => ["any", "all"]
  }

  /**
   * `isValidPlotForPlayer(player, plot)` of each tier. Leader, Trusted and
   * Member accept the owners, then also the trusted players, then also the
   * members; Any defers to PlotSquared's `isAdded`.
   */
  predicate IsValidPlotForPlayer(t: OwnershipType, player: UUID, plot: Plot)
    ensures t != Any ==>
      (IsValidPlotForPlayer(t, player, plot) <==>
        player in plot.owners
        || (t != Leader && player in plot.trusted)
        || (t == Member && player in plot.members))
    ensures t == Any ==> (IsValidPlotForPlayer(t, player, plot) <==> plot.isAdded(player))
  {
    match t
    case Leader => IsOwner(plot, player)
    case Trusted => IsOwner(plot, player) || player in plot.trusted
    case Member => IsOwner(plot, player) || player in plot.trusted || player in plot.members
    case Any => plot.isAdded(player)
  }

  /**
   * The set `getApplicablePlayers(plot)` returns. For the first three tiers it
   * is exactly the players the predicate accepts; for Any it is the union of
   * the three identity sets, which need not match `isAdded`.
   */
  function ApplicablePlayers(t: OwnershipType, plot: Plot): (r: set<UUID>)
    ensures t != Any ==> forall u :: u in r <==> IsValidPlotForPlayer(t, u, plot)
    ensures t == Any ==> forall u :: u in r <==> u in plot.owners || u in plot.trusted || u in plot.members
  {
    match t
    case Leader => plot.owners
    case Trusted => plot.owners + plot.trusted
    case Member | Any => plot.owners + plot.trusted + plot.members
  }

  /** `getApplicablePlayers(plot)`: a fresh HashSet filled by successive `addAll`. */
  method GetApplicablePlayers(t: OwnershipType, plot: Plot) returns (r: set<UUID>)
    ensures r == ApplicablePlayers(t, plot)
    ensures t != Any ==> forall u :: u in r <==> IsValidPlotForPlayer(t, u, plot)
  {
    var uuids := new UuidSet();
    uuids.AddAll(plot.owners);
    match t {
      case Leader =>
      case Trusted =>
        uuids.AddAll(plot.trusted);
      case Member =>
        uuids.AddAll(plot.trusted);
        uuids.AddAll(plot.members);
      case Any =>
        uuids.AddAll(plot.trusted);
        uuids.AddAll(plot.members);
    }
    r := uuids.elements;
  }

  /** Leader's players are among Trusted's, and Trusted's among Member's. */
  lemma ApplicableNested(plot: Plot)
    ensures ApplicablePlayers(Leader, plot) <= ApplicablePlayers(Trusted, plot)
    ensures ApplicablePlayers(Trusted, plot) <= ApplicablePlayers(Member, plot)
  {
  }

  /** The Any projection adds nobody beyond Member's: `isAdded` is not consulted. */
  lemma ApplicableAnyIsMember(plot: Plot)
    ensures ApplicablePlayers(Any, plot) == ApplicablePlayers(Member, plot)
  {
  }

  /** Every tier's projection lies within the union of the three identity sets. */
  lemma ApplicableWithinIdentitySets(t: OwnershipType, plot: Plot)
    ensures ApplicablePlayers(t, plot) <= plot.owners + plot.trusted + plot.members
  {
  }

  /** Each predicate implies the next looser one down to Member. */
  lemma ValidMonotone(player: UUID, plot: Plot)
    ensures IsValidPlotForPlayer(Leader, player, plot) ==> IsValidPlotForPlayer(Trusted, player, plot)
    ensures IsValidPlotForPlayer(Trusted, player, plot) ==> IsValidPlotForPlayer(Member, player, plot)
  {
  }

  /** Predicate and projection agree for every tier except Any. */
  lemma ValidIffApplicable(t: OwnershipType, player: UUID, plot: Plot)
    requires t != Any
    ensures IsValidPlotForPlayer(t, player, plot) <==> player in ApplicablePlayers(t, plot)
  {
  }

  /**
   * Member implies Any only when PlotSquared's `isAdded` accepts every owner,
   * trusted player and member, which this component cannot check itself.
   */
  lemma MemberImpliesAnyWhenAddedCoversSets(player: UUID, plot: Plot)
    requires forall u :: u in plot.owners + plot.trusted + plot.members ==> plot.isAdded(u)
    ensures IsValidPlotForPlayer(Member, player, plot) ==> IsValidPlotForPlayer(Any, player, plot)
  {
  }

  /**
   * The Any tier's predicate and projection can disagree both ways: a plot
   * whose `isAdded` accepts a stranger, and one whose `isAdded` rejects its owner.
   */
  lemma AnyPredicateAndProjectionDiverge()
    ensures exists plot: Plot, u: UUID ::
      IsValidPlotForPlayer(Any, u, plot) && u !in ApplicablePlayers(Any, plot)
    ensures exists plot: Plot, u: UUID ::
      !IsValidPlotForPlayer(Any, u, plot) && u in ApplicablePlayers(Any, plot)
  {
    var u := UUID(0, 0);
    var open := Plot({}, {}, {}, _ => true);
    assert IsValidPlotForPlayer(Any, u, open) && u !in ApplicablePlayers(Any, open);
    var closed := Plot({u}, {}, {}, _ => false);
    assert !IsValidPlotForPlayer(Any, u, closed) && u in ApplicablePlayers(Any, closed);
  }

  /** The worked example: owners {A}, trusted {B}, members {C}. */
  lemma ThreeRolesExample(a: UUID, b: UUID, c: UUID, isAdded: UUID -> bool)
    requires a != b && b != c && a != c
    ensures var plot := Plot({a}, {b}, {c}, isAdded);
      && ApplicablePlayers(Leader, plot) == {a}
      && ApplicablePlayers(Trusted, plot) == {a, b}
      && ApplicablePlayers(Member, plot) == {a, b, c}
      && IsValidPlotForPlayer(Trusted, b, plot)
      && !IsValidPlotForPlayer(Leader, b, plot)
  {
  }

}
