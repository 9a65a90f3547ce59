# OwnershipType: plot-membership tiers of the WDL companion for PlotSquared

This project models `wdl.plotsquared.OwnershipType`, the Java enum that
classifies how a player belongs to a PlotSquared plot. It has four tiers,
`LEADER`, `TRUSTED`, `MEMBER` and `ANY`. Each tier has:

- a membership test, `isValidPlotForPlayer`;
- a projection, `getApplicablePlayers`, that lists every UUID satisfying the tier;
- its alias strings.

A static initializer collects all aliases into `NAMES`, and puts them upper-cased into `BY_ALIAS`.
`match` resolves a configuration string to a tier without regard to case. It returns `null` when no tier declares an alias whose upper-cased form equals the name's upper-cased form.

Files:

- `Wrappers.dfy`: `Option`. `None` stands for Java's `null` result of `match`.
- `Plots.dfy`: the plot collaborator.
  - A player is its `UUID`.
  - A `Plot` has its `owners`, `trusted` and `members` sets and an uninterpreted `isAdded` test.
  - `IsOwner` is membership in `owners`.
  - The class `UuidSet` is the `HashSet<UUID>` that `getApplicablePlayers` fills in place by `addAll`.
- `OwnershipType.dfy` (module `OwnershipTypes`): the tiers.
  - The datatype `OwnershipType` has the cases `Leader`, `Trusted`, `Member` and `Any`.
  - `Values` is `values()`. `Aliases` gives the constructor arguments.
  - The predicate `IsValidPlotForPlayer` has one case per tier.
  - The specification function `ApplicablePlayers` is implemented by the method `GetApplicablePlayers`. That method allocates a `UuidSet` and calls `AddAll` once per identity set, in the source's order.
- `AliasIndex.dfy`: the alias index and the lookup.
  - `BuildIndex` is the static initializer. It runs the nested loops over tiers and aliases and appends to `names` and puts into `byAlias`.
  - `BuildIndex` is proved equal to the specification functions `Names`/`NamesOf` and `ByAlias`/`IndexOf`/`Put`, whose properties are proved as lemmas.
  - `Match` is `match`.

The tier ordering: Leader's projection is inside Trusted's, and Trusted's is inside Member's.
Each predicate implies the next one, down to Member.
For Leader, Trusted and Member, the predicate and the projection agree exactly.
For Any they need not agree, and `AnyPredicateAndProjectionDiverge` exhibits both directions.
The TODO in the code names the first one: `isAdded` may accept players that the projection leaves out.
The second one, a player inside the projection whom `isAdded` rejects, is not stated by the code. It is possible in the model only because `isAdded` is left uninterpreted.
Member implies Any only under a hypothesis on PlotSquared's `isAdded`: it must accept every owner, trusted player and member.
The code cannot guarantee that hypothesis, so the model states it as a `requires` (`MemberImpliesAnyWhenAddedCoversSets`).

## Model

| member | source | states |
|---|---|---|
| `OwnershipTypes.Values` | src/main/java/wdl/plotsquared/OwnershipType.java:23-84 | `values()` holds the four tiers, each exactly once, at its declaration position |
| `OwnershipTypes.Aliases` | src/main/java/wdl/plotsquared/OwnershipType.java:104-106 | every tier's constructor declares at least one alias; no alias is empty, and none repeats within its tier |
| `OwnershipTypes.IsValidPlotForPlayer` | src/main/java/wdl/plotsquared/OwnershipType.java:26-73 | Leader, Trusted and Member accept a player iff it is an owner, or (for Trusted and Member) a trusted player, or (for Member) a member; Any accepts exactly the players PlotSquared's `isAdded` accepts |
| `Plots.IsOwner` | src/main/java/wdl/plotsquared/OwnershipType.java:27 | the modelling assumption that `plot.isOwner(uuid)` holds iff the UUID is in `getOwners()` |
| `OwnershipTypes.ApplicablePlayers` | src/main/java/wdl/plotsquared/OwnershipType.java:30-83 | for Leader, Trusted and Member the projection holds exactly the UUIDs the tier's predicate accepts; for Any it holds exactly the owners, trusted players and members |
| `OwnershipTypes.GetApplicablePlayers` | src/main/java/wdl/plotsquared/OwnershipType.java:30-83 | building a fresh set by successive `addAll` yields the tier's projection; for all tiers but Any, a UUID is in it iff the predicate accepts it |
| `OwnershipTypes.ApplicableNested` | src/main/java/wdl/plotsquared/OwnershipType.java:31-67 | Leader's set ⊆ Trusted's set ⊆ Member's set |
| `OwnershipTypes.ApplicableAnyIsMember` | src/main/java/wdl/plotsquared/OwnershipType.java:61-83 | Any's projection equals Member's; `isAdded` is not consulted |
| `OwnershipTypes.ApplicableWithinIdentitySets` | src/main/java/wdl/plotsquared/OwnershipType.java:30-83 | no tier's projection reaches beyond owners ∪ trusted ∪ members |
| `OwnershipTypes.ValidMonotone` | src/main/java/wdl/plotsquared/OwnershipType.java:26-58 | a Leader is Trusted and a Trusted player is a Member, on every plot |
| `OwnershipTypes.ValidIffApplicable` | src/main/java/wdl/plotsquared/OwnershipType.java:26-67 | for every tier except Any, the predicate holds iff the player is in the projection (both directions) |
| `OwnershipTypes.MemberImpliesAnyWhenAddedCoversSets` | src/main/java/wdl/plotsquared/OwnershipType.java:54-73 | a Member passes Any's test when `isAdded` accepts the three identity sets |
| `OwnershipTypes.AnyPredicateAndProjectionDiverge` | src/main/java/wdl/plotsquared/OwnershipType.java:70-83 | there are plots where Any's predicate accepts a player outside its projection, and plots where it rejects a player inside it |
| `OwnershipTypes.ThreeRolesExample` | src/main/java/wdl/plotsquared/OwnershipType.java:24-67 | owners {A}, trusted {B}, members {C} give projections {A}, {A,B}, {A,B,C}; B is Trusted and not Leader |
| `Plots.UuidSet.constructor` | src/main/java/wdl/plotsquared/OwnershipType.java:32 | a new HashSet is empty |
| `Plots.UuidSet.AddAll` | src/main/java/wdl/plotsquared/OwnershipType.java:46-48 | `addAll` leaves the old elements plus every element of the argument, and nothing else |
| `AliasIndex.ToUpper` | src/main/java/wdl/plotsquared/OwnershipType.java:127 | upper-casing keeps the length, leaves no lower-case ASCII letter, turns each one into its capital and keeps every other character |
| `AliasIndex.Names` | src/main/java/wdl/plotsquared/OwnershipType.java:140 | the initialized `NAMES` contains every alias of every tier and nothing else |
| `AliasIndex.ByAlias` | src/main/java/wdl/plotsquared/OwnershipType.java:141 | the initialized `BY_ALIAS` has every key some tier declares, and maps each key to a tier that declares it |
| `AliasIndex.UpperAll` | src/main/java/wdl/plotsquared/OwnershipType.java:134-136 | each alias's key is its upper-cased form, position by position |
| `AliasIndex.ToUpperIdempotent` | src/main/java/wdl/plotsquared/OwnershipType.java:127 | upper-casing an already upper-cased name changes nothing |
| `AliasIndex.NamesOf` | src/main/java/wdl/plotsquared/OwnershipType.java:131-138 | the names list holds exactly the aliases of the tiers iterated |
| `AliasIndex.Put` | src/main/java/wdl/plotsquared/OwnershipType.java:134-137 | after the inner loop, the map gains each alias's upper-cased key, mapped to the tier, and keeps every other entry |
| `AliasIndex.IndexOf` | src/main/java/wdl/plotsquared/OwnershipType.java:132-138 | after the outer loop, every key of an iterated tier is present, and every key maps to an iterated tier that declares it |
| `AliasIndex.KeysOfTier` | src/main/java/wdl/plotsquared/OwnershipType.java:24-69 | the keys are "LEADER", "TRUSTED", "MEMBER", and "ANY" and "ALL" |
| `AliasIndex.KeysDisjoint` | src/main/java/wdl/plotsquared/OwnershipType.java:24-69 | no upper-cased alias is declared by two tiers, so every key belongs to exactly one tier |
| `AliasIndex.NamesDeclared` | src/main/java/wdl/plotsquared/OwnershipType.java:131-140 | `NAMES` is ["leader", "trusted", "member", "any", "all"], in declaration order |
| `AliasIndex.ByAliasAt` | src/main/java/wdl/plotsquared/OwnershipType.java:132-141 | each key a tier declares is in `BY_ALIAS` and maps to that tier |
| `AliasIndex.ByAliasExact` | src/main/java/wdl/plotsquared/OwnershipType.java:95-97 | every `BY_ALIAS` key is a key its tier declares, and every declared key maps to its declaring tier |
| `AliasIndex.ByAliasOfAliases` | src/main/java/wdl/plotsquared/OwnershipType.java:132-141 | every declared alias, upper-cased, maps to the tier that declares it |
| `AliasIndex.ByAliasTable` | src/main/java/wdl/plotsquared/OwnershipType.java:130-142 | `BY_ALIAS` is exactly {LEADER→Leader, TRUSTED→Trusted, MEMBER→Member, ANY→Any, ALL→Any} |
| `AliasIndex.InitializedTables` | src/main/java/wdl/plotsquared/OwnershipType.java:130-142 | after initialization, `NAMES` is the five aliases in order, `BY_ALIAS` is the five-entry table, and each declared alias, upper-cased, maps to its tier |
| `AliasIndex.BuildIndex` | src/main/java/wdl/plotsquared/OwnershipType.java:130-142 | the nested loops produce `NAMES` and `BY_ALIAS` as specified: the five names in order and the exact five-entry table |
| `AliasIndex.Match` | src/main/java/wdl/plotsquared/OwnershipType.java:121-128 | when a tier declares the upper-cased name, the result is that tier; any result is a tier that declares it; otherwise None, never a default |
| `AliasIndex.MatchIgnoresCase` | src/main/java/wdl/plotsquared/OwnershipType.java:126-128 | `match(name)` equals `match(name.toUpperCase())` |
| `AliasIndex.MatchSameKey` | src/main/java/wdl/plotsquared/OwnershipType.java:127 | two names with the same upper-case form resolve alike |
| `AliasIndex.MatchDeclared` | src/main/java/wdl/plotsquared/OwnershipType.java:24-69 | every declared alias resolves to the tier that declares it |
| `AliasIndex.MatchLeaderAnyCase` | src/main/java/wdl/plotsquared/OwnershipType.java:126-128 | "leader", "LEADER" and "Leader" all resolve to Leader |
| `AliasIndex.MatchAnyAndAll` | src/main/java/wdl/plotsquared/OwnershipType.java:69 | "any" and "all" both resolve to Any |
| `AliasIndex.MatchUnknownName` | src/main/java/wdl/plotsquared/OwnershipType.java:121-128 | every name whose upper-cased form no tier declares yields None |
| `AliasIndex.MatchNonexistentExample` | src/main/java/wdl/plotsquared/OwnershipType.java:121-128 | "nonexistent-name" yields None |

## Left out

- The Bukkit `Player` is modelled by its UUID, because `getUniqueId()` is all the tiers read.
- PlotSquared's `Plot` is not part of this model. `getOwners`, `getTrusted` and `getMembers` are given sets.
- `plot.isOwner(uuid)` is taken to mean membership in `getOwners()`. This is an assumption about PlotSquared, not something this model proves.
- `plot.isAdded(uuid)` is an arbitrary predicate, because its rule is not visible here. For that reason, Member implying Any is proved only under the hypothesis that `isAdded` accepts the three identity sets.
- AliasIndex.ToUpper: upper-cases ASCII letters only. Java's locale-sensitive Unicode `toUpperCase` is not modelled.
- `match(null)` raises a NullPointerException in Java. Dafny strings cannot be null, so that path is not modelled.
- Guava's `ImmutableList.copyOf`/`ImmutableMap.copyOf` are modelled as plain `seq` and `map` values. The hashing and iteration order of `HashMap` and `HashSet` are not modelled. `UuidSet.AddAll` adds elements in an unspecified order.
- The model does not cover when the JVM runs the static initializer, or the thread safety of the read-only tables. `Names` and `ByAlias` are the tables' values after initialization.
- The UUID halves are unbounded integers, not 64-bit `long`s. Only equality of UUIDs matters here.
