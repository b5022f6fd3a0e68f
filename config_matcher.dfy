/** `autoSelectConfig(gameId, budget, cpuType)` of buildsan.js: the ready-made
    build for a game, a budget and a CPU brand, looked up in the Intel or the
    AMD table under the budget's whole number of millions followed by "M".
    The tables come from a data module outside this model, so they are
    parameters: maps from game to budget key to build. */
module ConfigMatcher {
  import opened Wrappers
  import opened Text

  /** A configuration table: game, then budget key such as "25M", then build. */
  type Configs<C> = map<string, map<string, C>>

  /** The number of whole millions in a budget, `Math.floor(budget / 1000000)`. */
  function Millions(budget: int): (m: int)
    ensures m * 1000000 <= budget < (m + 1) * 1000000
  {
    budget / 1000000
  }

  /** The budget key: the whole millions in decimal, then "M". */
  function BudgetKey(budget: int): (k: string)
    ensures |k| >= 2 && k[|k| - 1] == 'M'
    ensures ParseInt(k[..|k| - 1], 10) == Some(Millions(budget))
  {
    var digits := IntToString(Millions(budget), 10);
    ParseIntOfString(Millions(budget), 10);
    assert (digits + "M")[..|digits|] == digits;
    assert |digits| >= 1 by {
      if Millions(budget) >= 0 {
      } else {
        assert digits == "-" + NatToString(-Millions(budget), 10);
      }
    }
    digits + "M"
  }

  /** The Intel table for a brand that lowercases to "intel", the AMD table otherwise. */
  function TableFor<C>(intel: Configs<C>, amd: Configs<C>, cpuType: string): Configs<C> {
    if ToLower(cpuType) == "intel" then intel else amd
  }

  /** `autoSelectConfig`: `None` (the source's `null`) when the game, the budget
      or the brand is missing, or when the chosen table has no entry for the
      game and budget key; that entry otherwise. */
  function AutoSelectConfig<C>(intel: Configs<C>, amd: Configs<C>, gameId: string, budget: int,
                               cpuType: string): (r: Option<C>)
    ensures gameId == "" || budget == 0 || cpuType == "" ==> r.None?
    ensures r.Some? <==>
      (gameId != "" && budget != 0 && cpuType != "" &&
       gameId in TableFor(intel, amd, cpuType) &&
       BudgetKey(budget) in TableFor(intel, amd, cpuType)[gameId])
    ensures r.Some? ==> r.value == TableFor(intel, amd, cpuType)[gameId][BudgetKey(budget)]
  {
    if gameId == "" || budget == 0 || cpuType == "" then None
    else
      var configs := TableFor(intel, amd, cpuType);
      var key := BudgetKey(budget);
      if gameId !in configs || key !in configs[gameId] then None
      else Some(configs[gameId][key])
  }

  /** Two budgets share a key exactly when they have the same whole number of millions. */
  lemma BudgetKeySame(b1: int, b2: int)
    ensures BudgetKey(b1) == BudgetKey(b2) <==> Millions(b1) == Millions(b2)
  {
    var k1, k2 := BudgetKey(b1), BudgetKey(b2);
    if k1 == k2 {
      assert k1[..|k1| - 1] == k2[..|k2| - 1];
    }
  }

  /** Budgets in the same million give the same result. */
  lemma SameMillion<C>(intel: Configs<C>, amd: Configs<C>, gameId: string, b1: int, b2: int, cpuType: string)
    requires b1 != 0 && b2 != 0 && Millions(b1) == Millions(b2)
    ensures AutoSelectConfig(intel, amd, gameId, b1, cpuType) == AutoSelectConfig(intel, amd, gameId, b2, cpuType)
  {
    BudgetKeySame(b1, b2);
  }

  /** The brand test ignores letter case: brands that lowercase alike choose alike. */
  lemma BrandIgnoresCase<C>(intel: Configs<C>, amd: Configs<C>, gameId: string, budget: int, t1: string, t2: string)
    requires t1 != "" && t2 != "" && ToLower(t1) == ToLower(t2)
    ensures AutoSelectConfig(intel, amd, gameId, budget, t1) == AutoSelectConfig(intel, amd, gameId, budget, t2)
  {
  }

  /** "Intel" and "INTEL" both choose the Intel table; "AMD" the AMD one. */
  lemma BrandSpellings<C>(intel: Configs<C>, amd: Configs<C>)
    ensures TableFor(intel, amd, "Intel") == intel && TableFor(intel, amd, "INTEL") == intel
    ensures TableFor(intel, amd, "AMD") == amd
  {
    assert ToLower("Intel") == "intel";
    assert ToLower("INTEL") == "intel";
    assert ToLower("AMD")[0] == 'a';
  }
}
