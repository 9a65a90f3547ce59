/**
 * The alias index built by OwnershipType's static initializer (`NAMES` and
 * `BY_ALIAS`) and the case-insensitive lookup `match` that reads it.
 */
module AliasIndex {
  import opened Wrappers
  import opened OwnershipTypes

  /** ASCII upper-casing of one character. */
  function UpperChar(c: char): char
  {
    if 'a' <= c <= 'z' then (c as int - 'a' as int + 'A' as int) as char else c
  }

  /**
   * `String.toUpperCase()`, restricted to ASCII letters: same length, no
   * lower-case ASCII letter left, each one replaced by its capital, every
   * other character kept.
   */
  function ToUpper(s: string): (r: string)
    ensures |r| == |s|
    ensures forall i :: 0 <= i < |r| ==> !('a' <= r[i] <= 'z')
    ensures forall i :: 0 <= i < |s| && 'a' <= s[i] <= 'z' ==> r[i] as int == s[i] as int - 32
    ensures forall i :: 0 <= i < |s| && !('a' <= s[i] <= 'z') ==> r[i] == s[i]
  {
    seq(|s|, i requires 0 <= i < |s| => UpperChar(s[i]))
  }

  /** Upper-casing twice is upper-casing once. */
  lemma ToUpperIdempotent(s: string)
    ensures ToUpper(ToUpper(s)) == ToUpper(s)
  {
  }

  /** The upper-cased form of each string, in order. */
  function UpperAll(names: seq<string>): (r: seq<string>)
    ensures |r| == |names|
    ensures forall i :: 0 <= i < |names| ==> r[i] == ToUpper(names[i])
  {
    if names == [] then [] else UpperAll(names[..|names| - 1]) + [ToUpper(names[|names| - 1])]
  }

  /** A tier's aliases as `BY_ALIAS` keys them. */
  function Keys(t: OwnershipType): seq<string>
  {
    UpperAll(Aliases(t))
  }

  /** The list the outer and inner loops append to, for the tiers `types`. */
  function NamesOf(types: seq<OwnershipType>): (r: seq<string>)
    ensures forall a :: a in r <==> exists t :: t in types && a in Aliases(t)
  {
    if types == [] then []
    else
      var last := types[|types| - 1];
      assert forall t :: t in types <==> t in types[..|types| - 1] || t == last;
      NamesOf(types[..|types| - 1]) + Aliases(last)
  }

  /** `m` after `put(alias.toUpperCase(), t)` for each alias in order. */
  function Put(m: map<string, OwnershipType>, aliases: seq<string>, t: OwnershipType)
    : (r: map<string, OwnershipType>)
    ensures forall k :: k in r <==> k in m || k in UpperAll(aliases)
    ensures forall k :: k in UpperAll(aliases) ==> r[k] == t
    ensures forall k :: k in m && k !in UpperAll(aliases) ==> r[k] == m[k]
  {
    if aliases == [] then m
    else Put(m, aliases[..|aliases| - 1], t)[ToUpper(aliases[|aliases| - 1]) := t]
  }

  /** The map the loops fill, for the tiers `types`. */
  function IndexOf(types: seq<OwnershipType>): (r: map<string, OwnershipType>)
    ensures forall t, k :: t in types && k in Keys(t) ==> k in r
    ensures forall k :: k in r ==> r[k] in types && k in Keys(r[k])
  {
    if types == [] then map[]
    else
      var last := types[|types| - 1];
      assert forall t :: t in types <==> t in types[..|types| - 1] || t == last;
      Put(IndexOf(types[..|types| - 1]), Aliases(last), last)
  }

  /** `NAMES` once the static initializer has run: every alias of every tier, and nothing else. */
  function Names(): (r: seq<string>)
    ensures forall t, a :: a in Aliases(t) ==> a in r
    ensures forall a :: a in r ==> exists t :: a in Aliases(t)
  {
    assert forall t :: Values()[Ordinal(t)] == t && t in Values();
    NamesOf(Values())
  }

  /**
   * `BY_ALIAS` once the static initializer has run: every key a tier declares
   * is present, and every key maps to a tier that declares it.
   */
  function ByAlias(): (r: map<string, OwnershipType>)
    ensures forall t, k :: k in Keys(t) ==> k in r
    ensures forall k :: k in r ==> k in Keys(r[k])
  {
    assert forall t :: Values()[Ordinal(t)] == t && t in Values();
    IndexOf(Values())
  }

  /** The `BY_ALIAS` keys each tier contributes. */
  lemma KeysOfTier(t: OwnershipType)
    ensures t == Leader ==> Keys(t) == ["LEADER"]
    ensures t == Trusted ==> Keys(t) == ["TRUSTED"]
    ensures t == Member ==> Keys(t) == ["MEMBER"]
    ensures t == Any ==> Keys(t) == ["ANY", "ALL"]
  {
    match t
    case Leader => assert ToUpper("leader") == "LEADER";
    case Trusted => assert ToUpper("trusted") == "TRUSTED";
    case Member => assert ToUpper("member") == "MEMBER";
    case Any =>
      assert ToUpper("any") == "ANY";
      assert ToUpper("all") == "ALL";
  }

  /** The `BY_ALIAS` table written out. */
  function Table(): map<string, OwnershipType>
  {
    map["LEADER" := Leader, "TRUSTED" := Trusted, "MEMBER" := Member, "ANY" := Any, "ALL" := Any]
  }

  /** Each tier's keys appear in the written-out table, mapped to that tier. */
  lemma KeyInTable(k: string, t: OwnershipType)
    requires k in Keys(t)
    ensures k in Table() && Table()[k] == t
  {
    KeysOfTier(t);
    match t
    case Leader => assert k == "LEADER";
    case Trusted => assert k == "TRUSTED";
    case Member => assert k == "MEMBER";
    case Any => assert k == "ANY" || k == "ALL";
  }

  /** No upper-cased alias is declared by two tiers. */
  lemma KeysDisjoint(t1: OwnershipType, t2: OwnershipType, k: string)
    requires k in Keys(t1) && k in Keys(t2)
    ensures t1 == t2
  {
    KeyInTable(k, t1);
    KeyInTable(k, t2);
  }

  /** One more tier appends its aliases to the names. */
  lemma NamesOfSnoc(types: seq<OwnershipType>, t: OwnershipType)
    ensures NamesOf(types + [t]) == NamesOf(types) + Aliases(t)
  {
    assert (types + [t])[..|types|] == types;
  }

  /** `NAMES` lists every declared alias, tier by tier, in declaration order. */
  lemma NamesDeclared()
    ensures Names() == ["leader", "trusted", "member", "any", "all"]
  {
    assert Values() == [] + [Leader] + [Trusted] + [Member] + [Any];
    NamesOfSnoc([], Leader);
    NamesOfSnoc([Leader], Trusted);
    NamesOfSnoc([Leader, Trusted], Member);
    NamesOfSnoc([Leader, Trusted, Member], Any);
  }

  /** An alias's upper-cased form is one of its tier's keys. */
  lemma AliasKey(t: OwnershipType, a: string)
    requires a in Aliases(t)
    ensures ToUpper(a) in Keys(t)
  {
    var i :| 0 <= i < |Aliases(t)| && Aliases(t)[i] == a;
    assert Keys(t)[i] == ToUpper(a);
  }

  /** A key a tier declares is put by the static initializer, mapped to that tier. */
  lemma ByAliasAt(t: OwnershipType, k: string)
    requires k in Keys(t)
    ensures k in ByAlias() && ByAlias()[k] == t
  {
    assert Values()[Ordinal(t)] == t;
    KeysDisjoint(ByAlias()[k], t, k);
  }

  /**
   * `BY_ALIAS` has a key for each declared alias, upper-cased, mapped to the
   * tier that declares it, and no other key.
   */
  lemma ByAliasExact()
    ensures forall k :: k in ByAlias() ==> k in Keys(ByAlias()[k])
    ensures forall t, k :: k in Keys(t) ==> k in ByAlias() && ByAlias()[k] == t
  {
    forall t, k | k in Keys(t)
      ensures k in ByAlias() && ByAlias()[k] == t
    {
      ByAliasAt(t, k);
    }
  }

  /** Every declared alias, upper-cased, is a `BY_ALIAS` key mapped to its declaring tier. */
  lemma ByAliasOfAliases()
    ensures forall t, a :: a in Aliases(t) ==> ToUpper(a) in ByAlias() && ByAlias()[ToUpper(a)] == t
  {
    forall t, a | a in Aliases(t)
      ensures ToUpper(a) in ByAlias() && ByAlias()[ToUpper(a)] == t
    {
      AliasKey(t, a);
      ByAliasAt(t, ToUpper(a));
    }
  }

  /** Every key the static initializer puts is in the written-out table, with the same tier. */
  lemma ByAliasWithinTable(k: string)
    requires k in ByAlias()
    ensures k in Table() && Table()[k] == ByAlias()[k]
  {
    KeyInTable(k, ByAlias()[k]);
  }

  /** Every key of the written-out table is put by the static initializer. */
  lemma TableWithinByAlias(k: string)
    requires k in Table()
    ensures k in ByAlias()
  {
    var t := if k == "LEADER" then Leader
      else if k == "TRUSTED" then Trusted
      else if k == "MEMBER" then Member
      else Any;
    KeysOfTier(t);
    ByAliasAt(t, k);
  }

  /** The whole `BY_ALIAS` table. */
  lemma ByAliasTable()
    ensures ByAlias() == Table()
  {
    forall k | k in ByAlias()
      ensures k in Table() && Table()[k] == ByAlias()[k]
    {
      ByAliasWithinTable(k);
    }
    forall k | k in Table()
      ensures k in ByAlias()
    {
      TableWithinByAlias(k);
    }
  }

  /** What the static initializer leaves in `NAMES` and `BY_ALIAS`. */
  lemma InitializedTables()
    ensures Names() == ["leader", "trusted", "member", "any", "all"]
    ensures ByAlias() == Table()
    ensures forall t, a :: a in Aliases(t) ==> ToUpper(a) in ByAlias() && ByAlias()[ToUpper(a)] == t
  {
    NamesDeclared();
    ByAliasTable();
    ByAliasOfAliases();
  }

  /** The static initializer: nested loops over `values()` and each tier's aliases. */
  method BuildIndex() returns (names: seq<string>, byAlias: map<string, OwnershipType>)
    ensures names == Names() && byAlias == ByAlias()
    ensures names == ["leader", "trusted", "member", "any", "all"]
    ensures byAlias == Table()
    ensures forall t, a :: a in Aliases(t) ==> ToUpper(a) in byAlias && byAlias[ToUpper(a)] == t
  {
    names := [];
    byAlias := map[];
    var types := Values();
    for i := 0 to |types|
      invariant names == NamesOf(types[..i])
      invariant byAlias == IndexOf(types[..i])
    {
      var t := types[i];
      var aliases := Aliases(t);
      for j := 0 to |aliases|
        invariant names == NamesOf(types[..i]) + aliases[..j]
        invariant byAlias == Put(IndexOf(types[..i]), aliases[..j], t)
      {
        names := names + [aliases[j]];
        assert aliases[..j + 1][..j] == aliases[..j];
        byAlias := byAlias[ToUpper(aliases[j]) := t];
      }
      assert aliases[..|aliases|] == aliases;
      assert types[..i + 1][..i] == types[..i];
    }
    assert types[..|types|] == types;
    InitializedTables();
  }

  /**
   * `match(name)`: look the upper-cased name up in `BY_ALIAS`; None is Java's
   * null. The result is the tier that declares the name, if any does.
   */
  function Match(name: string): (r: Option<OwnershipType>)
    ensures forall t :: ToUpper(name) in Keys(t) ==> r == Some(t)
    ensures r.Some? ==> ToUpper(name) in Keys(r.value)
  {
    var key := ToUpper(name);
    ByAliasExact();
    if key in ByAlias() then Some(ByAlias()[key]) else None
  }

  /** The lookup depends only on the upper-cased input. */
  lemma MatchIgnoresCase(name: string)
    ensures Match(name) == Match(ToUpper(name))
  {
    ToUpperIdempotent(name);
  }

  /** Names that upper-case alike resolve alike. */
  lemma MatchSameKey(a: string, b: string)
    requires ToUpper(a) == ToUpper(b)
    ensures Match(a) == Match(b)
  {
  }

  /** Every declared alias resolves to the tier that declares it. */
  lemma MatchDeclared(t: OwnershipType, a: string)
    requires a in Aliases(t)
    ensures Match(a) == Some(t)
  {
    AliasKey(t, a);
    KeyInTable(ToUpper(a), t);
    ByAliasTable();
  }

  /** Three spellings of "leader" upper-case alike. */
  lemma LeaderSpellings()
    ensures ToUpper("leader") == "LEADER"
    ensures ToUpper("Leader") == "LEADER"
    ensures ToUpper("LEADER") == "LEADER"
  {
  }

  /** "leader" resolves to Leader whatever its case. */
  lemma MatchLeaderAnyCase()
    ensures Match("leader") == Match("LEADER") == Match("Leader") == Some(Leader)
  {
    MatchDeclared(Leader, "leader");
    LeaderSpellings();
    MatchSameKey("LEADER", "leader");
    MatchSameKey("Leader", "leader");
  }

  /** Both of Any's aliases resolve to Any. */
  lemma MatchAnyAndAll()
    ensures Match("any") == Match("all") == Some(Any)
  {
    MatchDeclared(Any, "any");
    MatchDeclared(Any, "all");
  }

  /** A name no tier declares, in any case, finds nothing; there is no default tier. */
  lemma MatchUnknownName(name: string)
    requires forall t :: ToUpper(name) !in Keys(t)
    ensures Match(name) == None
  {
  }

  /** Every key is between three and seven characters long. */
  lemma KeyLength(t: OwnershipType, k: string)
    requires k in Keys(t)
    ensures 3 <= |k| <= 7
  {
    KeysOfTier(t);
  }

  /** "nonexistent-name" is such a name. */
  lemma MatchNonexistentExample()
    ensures Match("nonexistent-name") == None
  {
    var key := ToUpper("nonexistent-name");
    forall t
      ensures key !in Keys(t)
    {
      if key in Keys(t) {
        KeyLength(t, key);
      }
    }
    MatchUnknownName("nonexistent-name");
  }

}
