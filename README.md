# PC-build configurator: rules and scoring engine

This project is a Dafny model of the rules and scoring engine of a Vietnamese
PC-build configurator. The model covers two files. `buildsan.js` drives the
component dropdowns and scores a build. `config-switcher.js` applies the
ready-made presets ("gaming", "office", "design", "streaming", "fallback",
"custom").

The model covers these parts:

- **The page** (`Form`). The page is a class holding, for each dropdown, its
  option list, its selected value and its `disabled` flag.
  - `updateScores`: the compatibility filter that enables mainboards by CPU
    socket and RAM by CPU support and mainboard memory type, clears a
    dropdown in which nothing fits, and scores the build.
  - `updateDropdown`: the lenient insert-if-missing-then-select.
  - `populateDropdowns`: rebuilds each list as a placeholder followed by the
    catalog entries.
  - The price total of `updateSelectedComponents`.
- **The build score** (`BuildScore`): the mean of the eight numeric component
  scores, fixed to two decimals, its five advice bands, and the ±3
  CPU-versus-mainboard upgrade hint.
- **Ready-made builds** (`ConfigMatcher`): `autoSelectConfig`, looked up by
  game, by budget in whole millions, and by CPU brand (case ignored).
- **Name heuristics** (`Scoring`, `ScoreTables`):
  - `getCPUGeneration`, a hand-written scanner for its regular expressions;
  - `getCPUScore` and `getGPUScore`;
  - the first-match table scans of `getScoreForCpu` and `getScoreForGpu`;
  - `getGameType`.
- **Performance metrics** (`Performance`, `Bottleneck`, `Colors`):
  - the gaming, graphics, office, livestream, render and overall ratings;
  - `calculateBottleneck`, its description and the indicator marker;
  - `calculateStability`;
  - the score and frame-rate colour bands and `getLighterColor`.
- **Frame-rate estimates** (`Fps`): `estimateGameFPS`, with its AMD and X3D
  boost; `calculateEstimatedFPS`; and the preset choice of the detailed
  panel.
- **Presets** (`Switcher`):
  - the click dispatch;
  - `applyConfiguration`, a strict apply-if-offered with its two counters;
  - `highlightCustomOption`, which unlocks every dropdown and option.

JavaScript's primitives are modelled explicitly:

- `includes`, ASCII `toLowerCase`, `trim`, `split`, `replace`,
  `substring`, `padStart`, `parseInt` and `toString(radix)` in `Text`;
- `Math.round` as the floor of `x + 0.5` in `Numbers`.

`undefined`, `null` and `NaN` are `None` of `Wrappers.Option` wherever the
source can produce them. Numbers are exact reals, and integers are unbounded.

Where the design description and the code disagree, the model follows the
code:

- `calculateBottleneck` is not symmetric under swapping the scores
  (`Bottleneck.SwapShrinks`, `Bottleneck.HalfScores`).
- `getCPUScore` lower-cases the name before reading the generation, so only
  the `i[3579]-` pattern can match (`Scoring.LowerGeneration`).
- `calculateEstimatedFPS` compares an object with strings, so its genre
  branches never run (`Fps.AsWrittenIgnoresGame`).

## Model

| member | source | states |
|---|---|---|
| Form.Picked | buildsan.js:936-958 | a selection names a record exactly when its key is non-empty and the catalog has that key in the category |
| Form.LabelFor | buildsan.js:1476-1488 | an option is labelled with the record's name and price exactly when the record exists |
| Form.Filtered | buildsan.js:883-896 | the pass over an option list keeps its length (it never adds or drops an option) |
| Form.FilteredKeeps | buildsan.js:883-896 | the compatibility pass changes no option's value or caption |
| Form.FilteredRule | buildsan.js:883-896 | a pass that runs to the end judges every option, and its flag is true iff some option ended enabled |
| Form.FilteredCompletes | buildsan.js:875-888 | the pass throws exactly when the CPU key names no record while some option names one |
| Form.FilterOptions | buildsan.js:883-896 | the loop over one option list computes exactly the pass `Filtered` specifies |
| Form.ApplyValid | buildsan.js:897-899 | writing a pass back, including clearing the selection when nothing is enabled, keeps every value among its dropdown's options |
| Form.After | buildsan.js:849-926 | a run of `updateScores` keeps the page well formed, keeps the set of dropdowns and never touches a dropdown's `disabled` flag |
| Form.RefreshSkips | buildsan.js:862-874 | nothing happens exactly when one of the eight dropdowns is missing or no CPU is selected |
| Form.RefreshAborts | buildsan.js:875-926 | a run stops part-way exactly when the selected CPU key names no record while a mainboard or RAM option names one |
| Form.RefreshStages | buildsan.js:877-926 | after a full run, the mainboard and RAM lists are their passes, each selection is kept iff its pass enabled something, and all other selections are unchanged |
| Form.BoardJudged | buildsan.js:886-895 | a judged mainboard option is enabled iff its record exists and lists the CPU's socket, and hidden iff disabled |
| Form.RamJudged | buildsan.js:909-922 | a judged RAM option is enabled iff its record exists, the CPU supports its type, and the given mainboard's memory type equals it |
| Form.BoardRule | buildsan.js:883-896 | in a completed mainboard pass every option obeys the socket rule |
| Form.RamRule | buildsan.js:906-923 | in a completed RAM pass every option obeys the RAM rule against the given mainboard |
| Form.RefreshBoards | buildsan.js:878-899 | after a full run a mainboard option is enabled and shown iff its record lists the CPU's socket |
| Form.RefreshRam | buildsan.js:878-926 | after a full run a RAM option is enabled iff its type is supported by the CPU and equals the memory type of the mainboard selected before the run, so with no mainboard no RAM is enabled |
| Form.RefreshClears | buildsan.js:897-899 | after a full run each of the two selections is cleared iff none of its options is enabled |
| Form.RefreshReport | buildsan.js:1004-1034 | the upgrade hint compares the CPU with the mainboard selected before the run; other dropdowns keep their selections |
| Form.Page.UpdateScores | buildsan.js:849-1034 | the page afterwards is `After` of the page before, and the reported outcome (skipped, aborted, or the score report) is `Result` of the page before |
| Form.InsertIfMissing | buildsan.js:1467-1491 | the value is afterwards among the options; the old list is a prefix; at most one option is added, and only when the value was missing |
| Form.Chosen | buildsan.js:1453-1494 | choosing a value keeps the page well formed |
| Form.ChosenSelects | buildsan.js:1461-1494 | a non-empty value chosen in an existing dropdown ends selected and among the options; old options keep order and content; at most one is added; nothing else changes |
| Form.ChosenCaption | buildsan.js:1474-1490 | an added option is captioned from the catalog record when there is one, and with the bare value otherwise |
| Form.ChosenIdempotent | buildsan.js:1453-1494 | choosing the same value twice is the same as choosing it once |
| Form.NoChoice | buildsan.js:1455-1464 | a missing dropdown or an empty value changes nothing |
| Form.Page.UpdateDropdown | buildsan.js:1453-1494 | the page afterwards is `Chosen` of the page before |
| Form.EntryOptionsShape | buildsan.js:1193-1199 | one enabled, shown option per catalog key, in catalog order, captioned from the record |
| Form.FreshOptionsShape | buildsan.js:1191-1199 | a rebuilt list is a disabled placeholder with value "" followed by the category's keys in catalog order, nothing else disabled or hidden |
| Form.RefilledValid | buildsan.js:1189-1202 | rebuilding lists and selecting their placeholders keeps the page well formed |
| Form.ListCategory | buildsan.js:1190-1200 | the list built for a category is `FreshOptions` |
| Form.Reached | buildsan.js:386-402 | the position the dropdown loop reaches is within the list, and the category there (if any) has no dropdown, which is where `select.innerHTML` or `select.value` throws |
| Form.ReachedPrefix | buildsan.js:386-402 | every category before that position has a dropdown, so the loop reaches the end exactly when every category has one |
| Form.RefillRunRebuilds | buildsan.js:1189-1202 | the run rebuilds exactly the dropdowns before the first missing one, selects their placeholders, and leaves every other dropdown as it was |
| Form.Page.PopulateDropdowns | buildsan.js:1189-1202 | the page afterwards is `RefillRun` of the page before over the ten categories: the category dropdowns up to the first missing one are rebuilt with their placeholders selected, every other dropdown is untouched, the page stays well formed, and the run completes exactly when every category has a dropdown |
| Form.Page.Refill | buildsan.js:1190-1201 | the loop's page is `RefillRun` of the page before; it rebuilds the given dropdowns in order up to the first one the page lacks, keeps the page well formed, and reports completion exactly when none is missing |
| Form.PriceSumEmpty | buildsan.js:683-692 | with nothing selected the total price is 0 |
| Form.PriceSumUpdate | buildsan.js:683-692 | changing one category's selection changes the total by exactly the difference between the new and old prices |
| Form.Page.TotalPrice | buildsan.js:680-692 | the loop yields a total exactly when every category has a dropdown (otherwise `select.value` throws and no total is shown), and that total is the sum of the selected records' prices over the ten categories |
| BuildScore.SumPresentBounds | buildsan.js:989-996 | the sum of the numeric scores lies between 0 and the bound times their count |
| BuildScore.SumPresentNone | buildsan.js:989-996 | with no numeric score the sum is 0 |
| BuildScore.Hundredths | buildsan.js:999 | `toFixed(2)` is the nearest number of hundredths, halves away from zero |
| BuildScore.HundredthsMonotone | buildsan.js:999 | fixing to two decimals keeps order |
| BuildScore.Total | buildsan.js:986-999 | the displayed total is within half a hundredth of the sum over 8 |
| BuildScore.Band | buildsan.js:1012-1022 | each advice band holds exactly for its interval (≤2.5, ≤4, ≤6, ≤8, ≤10), and there is no advice above 10 |
| BuildScore.BandMonotone | buildsan.js:1012-1022 | a higher total never lands in a weaker band |
| BuildScore.UpgradeHint | buildsan.js:1026-1034 | "upgrade mainboard" iff both scores are numeric and CPU − mainboard ≥ 3; "upgrade CPU" iff both are numeric and the difference is ≤ −3 |
| BuildScore.UpgradeHintSwap | buildsan.js:1026-1034 | swapping the two scores swaps the two hints, and no hint stays no hint |
| BuildScore.Summarize | buildsan.js:986-1034 | the report holds the total, its band and the hint from the CPU and mainboard scores |
| BuildScore.SummarizeNothing | buildsan.js:986-1022 | with nothing numeric the total is 0.00, the weakest advice shows, and there is no hint |
| BuildScore.SummarizeInRange | buildsan.js:986-1022 | scores on the 0-10 scale give a total in [0, 10], which always has advice |
| BuildScore.TotalMonotone | buildsan.js:989-999 | raising one score never lowers the total |
| ConfigMatcher.Millions | buildsan.js:3169 | the budget's whole millions: `m·10⁶ ≤ budget < (m+1)·10⁶` |
| ConfigMatcher.BudgetKey | buildsan.js:3169 | the key ends in "M", and what precedes it reads back with `parseInt` as the whole millions |
| ConfigMatcher.AutoSelectConfig | buildsan.js:3163-3178 | null for a missing game, budget or brand; otherwise the entry under the game and budget key in the brand's table exactly when it exists, and null when it does not |
| ConfigMatcher.BudgetKeySame | buildsan.js:3169 | two budgets share a key iff they have the same whole millions |
| ConfigMatcher.SameMillion | buildsan.js:3163-3178 | budgets in the same million give the same result |
| ConfigMatcher.BrandIgnoresCase | buildsan.js:3170 | brands that lower-case alike choose alike |
| ConfigMatcher.BrandSpellings | buildsan.js:3170 | "Intel" and "INTEL" choose the Intel table, and "AMD" the AMD table |
| Scoring.NoCapitalWords | buildsan.js:3121-3129 | "th Gen" and "Ryzen " never occur in text without upper-case letters |
| Scoring.LowerScans | buildsan.js:3121-3131 | on lower-case text the Intel expression matches only through its model-number alternative, and the Ryzen expression never matches |
| Scoring.LowerGeneration | buildsan.js:1940-1943 | on lower-cased text the generation is the model-number scan alone |
| Scoring.ModelDigits | buildsan.js:3121-3125 | "iN-" followed by five digits yields the two leading digits, and followed by only four digits yields the single leading digit |
| Scoring.CpuBase | buildsan.js:1947-1956 | the family base score is between 45 and 85 |
| Scoring.GenBonus | buildsan.js:1959 | the generation bonus is between 0 and 15 |
| Scoring.CpuFeatures | buildsan.js:1962-1965 | the feature bonus is at most 12 |
| Scoring.CpuScore | buildsan.js:1936-1980 | 0 for an empty name, and otherwise a whole number from 45 to 100 |
| Scoring.CpuScoreGeneration | buildsan.js:1940-1968 | the generation bonus comes from the model-number pattern alone |
| Scoring.TrimNoUpper | buildsan.js:1940 | trimming keeps text free of upper-case letters |
| Scoring.CpuScoreGenerationMonotone | buildsan.js:1959-1979 | a higher generation never lowers the CPU score |
| Scoring.GpuBaseAsWritten | buildsan.js:1990-2025 | as written, every name containing "rtx 40" gets base 90, and no base exceeds 98 |
| Scoring.GpuBaseModels | buildsan.js:1994-2025 | the tests from "rtx 4090" on give at most 98 |
| Scoring.RtxFortyShadows | buildsan.js:1993-1994 | as written, no name reaches the RTX 4090's base of 98 |
| Scoring.RtxFortyNinetyAsWritten | buildsan.js:1993-1994 | "rtx 4090" gets base 90 as written |
| Scoring.GpuBase | buildsan.js:1990-2025 | with the RTX 40 models checked first, "rtx 4090" gets 98, an RTX 40 name of no listed model still gets the catch-all 90, and names without "rtx 40" score as written |
| Scoring.GpuBaseModelsReached | buildsan.js:1994-1997 | each RTX 40 model reaches its own base once the tests are reordered |
| Scoring.GpuFeatures | buildsan.js:2028-2031 | the feature bonus is at most 7 |
| Scoring.VramBonus | buildsan.js:2034-2038 | the memory bonus is at most 5 |
| Scoring.GpuScoreWith | buildsan.js:1983-2052 | 0 for an empty name; otherwise the capped sum of base and bonuses, a whole number from 0 to 100 |
| Scoring.GpuScoreAsWritten | buildsan.js:1983-2052 | 0 for an empty name, and otherwise between 0 and 100 |
| Scoring.GpuScore | buildsan.js:1983-2052 | the corrected score is 0 for an empty name, and otherwise between 0 and 100 |
| Scoring.RtxFortyBase | buildsan.js:1993 | every name mentioning "rtx 40" is scored as written from base 90 plus its bonuses |
| ScoreTables.FirstMatch | buildsan.js:2546-2551 | the index found is a row whose model name occurs in the name, with no earlier row occurring; none found means no row occurs |
| ScoreTables.Scan | buildsan.js:2546-2559 | the `for…in` loop with `break` computes the first match's score, or leaves the score as it was |
| ScoreTables.FirstMatchIs | buildsan.js:2546-2551 | a matching row with no matching row before it is the first match |
| ScoreTables.FirstMatchNone | buildsan.js:2546-2551 | with no row occurring there is no match |
| ScoreTables.ScoreForCases | buildsan.js:2499-2562 | a match in the AMD table decides; otherwise an Intel or NVIDIA match decides; with no match at all the score is 50 |
| ScoreTables.ScoreForCpu | buildsan.js:2499-2562 | `getScoreForCpu` is the Intel scan followed by the AMD scan from 50 |
| ScoreTables.ScoreForGpu | buildsan.js:2565-2636 | `getScoreForGpu` is the NVIDIA scan followed by the AMD scan from 50 |
| ScoreTables.ShadowedRow | buildsan.js:2546-2551 | a row whose model name contains an earlier row's is never the first match |
| ScoreTables.ExtendedRow | buildsan.js:2620-2625 | a row whose model name extends an earlier row's is never the first match |
| ScoreTables.NvidiaRows | buildsan.js:2570-2598 | the NVIDIA table's two rows scored 75 extend earlier rows |
| ScoreTables.NvidiaNever75 | buildsan.js:2570-2625 | as written, no GPU name gets 75 from the NVIDIA table |
| ScoreTables.MissAll | buildsan.js:2546-2551 | a character that every model name carries and the name lacks leaves the name unmatched |
| ScoreTables.IntelKeys | buildsan.js:2504-2525 | every Intel model name carries an "i" |
| ScoreTables.AmdHead | buildsan.js:2528-2543 | the first five AMD rows, "Ryzen 5 5600" scored 75 and "Ryzen 5 5600X" 77 among them |
| ScoreTables.FirstMatch5600X | buildsan.js:2554-2559 | "Ryzen 5 5600X" is first matched by the "Ryzen 5 5600" row |
| ScoreTables.Ryzen5600XAsWritten | buildsan.js:2528-2561 | as written "Ryzen 5 5600X" scores 75 rather than its own 77 |
| ScoreTables.Longest | buildsan.js:2546-2559 | the corrected scan picks a matching row whose model name is as long as any match, and the earliest such row |
| ScoreTables.LongestExact | buildsan.js:2546-2559 | a name that is exactly some row's model name picks the first row with that name |
| ScoreTables.Ryzen5600XLongest | buildsan.js:2528-2561 | with the most specific match "Ryzen 5 5600X" gets its own 77 |
| ScoreTables.Longest5600X | buildsan.js:2528-2543 | the most specific match for "Ryzen 5 5600X" is its own row |
| ScoreTables.GameType | buildsan.js:3138-3160 | the type of a game is never "casual" |
| ScoreTables.GameTypeDefault | buildsan.js:3138-3160 | a game is "general" exactly when it is not one of the seventeen listed, and only StarCraft is "strategy" |
| Performance.BlendBetween | buildsan.js:2276 | a blend whose weights sum to one lies between the two scores |
| Performance.BlendMonotone | buildsan.js:2276 | a blend with non-negative weights grows with either score |
| Performance.RoundedBlend | buildsan.js:2276-2277 | the rounded blend is a whole number between the two scores |
| Performance.GameWeights | buildsan.js:2264-2275 | every genre's weights are non-negative and sum to one |
| Performance.GamePerformance | buildsan.js:2257-2278 | 0 when a score is undefined; otherwise between the lower and the higher score, and at most 100 |
| Performance.GamePerformanceMonotone | buildsan.js:2257-2278 | the gaming metric never falls when a score rises |
| Performance.GuardedBlend | buildsan.js:2283-2296 | 0 iff a score is 0; otherwise between the two scores, capped at 100 |
| Performance.GraphicsAgainstOffice | buildsan.js:2283-2296 | with the GPU the stronger part graphics rates at least office, and with the CPU the stronger part at most |
| Performance.StreamAndRender | buildsan.js:2330-2331 | the livestream and render metrics never exceed 100 or the largest score they blend |
| Performance.StreamAndRenderScaled | buildsan.js:1659-1660 | the scaled livestream and render metrics lie between 0 and the largest of the three inputs, and fall short of it when it is positive |
| Performance.Rate | buildsan.js:1572-1591 | the rating keeps its score; "Xuất sắc" exactly from 90, and "Rất yếu" with the red colour exactly below 30 |
| Performance.Overall | buildsan.js:1552-1594 | the overall score is clamped to 0..100 and carries the rating of its band |
| Performance.OverallMonotone | buildsan.js:1552-1594 | the overall score and its tier never fall when a score rises, for any usage |
| Performance.OverallScaled | buildsan.js:1556-1566 | two scores of 90 rate 99 for gaming (scaled) but 90 for an unlisted usage (plain mean) |
| Bottleneck.Analyze | buildsan.js:2063-2094 | unknown iff a score is 0; CPU-bound iff cpu/gpu > 1.2 and GPU-bound iff < 0.8; the percentage is 0 exactly for unknown or balanced; it is round(100 × (cpu − gpu) / cpu) for CPU-bound, which is 17..100, and round(100 × (gpu − cpu) / cpu) for GPU-bound, which is at least 25 |
| Bottleneck.RatioBounds | buildsan.js:2075-2079 | the ratio thresholds as whole-number comparisons |
| Bottleneck.CpuShare | buildsan.js:2076-2077 | a CPU bottleneck is the share of the CPU score the GPU cannot use |
| Bottleneck.GpuShare | buildsan.js:2080-2081 | a GPU bottleneck is the GPU's surplus relative to the CPU score |
| Bottleneck.SwapShrinks | buildsan.js:2063-2094 | swapping the scores turns a GPU bottleneck into a CPU bottleneck with a percentage no larger: the analysis is not symmetric |
| Bottleneck.HalfScores | buildsan.js:2063-2094 | (50, 100) is a 100% GPU bottleneck, and (100, 50) a 50% CPU bottleneck |
| Bottleneck.Describe | buildsan.js:1613-1622 | balanced exactly up to 5%; above that the text names the component; red exactly above 30% |
| Bottleneck.DescribeAnalysisNamesGpu | buildsan.js:1613-1615 | a description of the record `calculateBottleneck` returns always names the GPU |
| Bottleneck.Position | buildsan.js:1715-1719 | the marker stays within 5..95%, left of the middle iff the signed percentage is negative and right of it iff positive |
| Bottleneck.Caption | buildsan.js:1747-1753 | the caption names the CPU iff the signed percentage is below −5, and the GPU iff above 5 |
| Bottleneck.MarkerFor | buildsan.js:1700-1753 | no scores centre the marker; a CPU bottleneck sits left and a GPU bottleneck right; the caption names the side past 5%; red exactly past 30% |
| Bottleneck.MarkerAsWrittenRightHalf | buildsan.js:1710-1716 | as written the marker never moves to the CPU half, and the caption never names the CPU |
| Bottleneck.MarkerAsWrittenHalfScores | buildsan.js:1710-1752 | as written (100, 50) puts the marker at 75% with a GPU caption |
| Bottleneck.MarkerSides | buildsan.js:1715-1753 | with the side taken from the type, a CPU bottleneck sits left and is captioned as one, a GPU bottleneck right, and balanced in the middle |
| Bottleneck.MarkerHalfScores | buildsan.js:1715-1752 | corrected, (100, 50) puts the marker at 25% with a CPU caption |
| Bottleneck.Stability | buildsan.js:2169-2175 | "very stable" iff the scores differ by at most 10, and "may be unstable" iff by more than 30 |
| Bottleneck.StabilitySymmetric | buildsan.js:2169-2175 | the verdict does not depend on which score is the CPU's |
| Colors.ScoreColor | buildsan.js:1761-1767 | the colour is from the palette; green iff score ≥ 90 and red iff below 30 |
| Colors.ScoreRank | buildsan.js:1761-1767 | the colour's position in the palette, worst first |
| Colors.ScoreColorMonotone | buildsan.js:1761-1767 | a higher score never gets a worse colour |
| Colors.FpsColor | buildsan.js:2203-2217 | the colour is from the palette; dark green iff fps ≥ 240 and dark red iff below 30 |
| Colors.FpsRank | buildsan.js:2203-2217 | the colour's position in the palette, worst first |
| Colors.FpsColorMonotone | buildsan.js:2203-2217 | a higher frame rate never gets a worse colour |
| Colors.Lighten | buildsan.js:2190-2192 | NaN stays NaN; a number grows or hits 255, and a channel stays within 0..255 |
| Colors.HexText | buildsan.js:2195 | each written channel has at least two characters |
| Colors.LighterColor | buildsan.js:2182-2196 | the result starts with '#' and has at least seven characters |
| Colors.Channel | buildsan.js:2185-2187 | a channel of a `#rrggbb` colour is at most 255 |
| Colors.HexTextPair | buildsan.js:2195 | a channel value is written as two hex digits that read back as it |
| Colors.LighterColorChannels | buildsan.js:2182-2196 | lightening a `#rrggbb` colour gives a `#rrggbb` colour whose every channel is the old one plus 40, capped at 255 |
| Colors.ShortColor | buildsan.js:2184-2195 | with fewer than six hex characters, as in `#fff`, the blue channel is NaN and the result ends "NaN" |
| Fps.GameTypes | buildsan.js:219-226 | the loaded types plus five games, these five set as listed and every other entry unchanged |
| Fps.ParseFormatRange | buildsan.js:1834 | formatting two non-negative bounds as "min-max" and parsing them back gives the bounds |
| Fps.BoostFactor | buildsan.js:1841-1886 | the factor is 1..1.6; an X3D name gets at least 1.4; any other name gets at most 1.2, and more than 1 only for a Ryzen in an esports game |
| Fps.X3DFirst | buildsan.js:1847-1868 | the X3D test comes before the Ryzen test |
| Fps.EstimateGameFps | buildsan.js:1824-1906 | "N/A" for a game without estimates; otherwise a result iff the chosen preset or "medium" exists |
| Fps.MediumFallback | buildsan.js:1833 | a quality the game has no preset for falls back to "medium" |
| Fps.EstimateRange | buildsan.js:1833-1905 | the boosted range reads back as two bounds, each at least the table's and at most 1.6 times it, in order if the table's were |
| Fps.BoostedRange | buildsan.js:1889-1903 | boosting and flooring two bounds and formatting them keeps them readable, no lower, at most 1.6 times as high, and in order |
| Fps.EstimatedFpsWith | buildsan.js:2660-2754 | 0 with "N/A" without a game or with a zero score, and otherwise a non-negative frame rate |
| Fps.AsWrittenIgnoresGame | buildsan.js:2666-2691 | as written any two games get the same estimate |
| Fps.CsgoAsWritten | buildsan.js:2660-2754 | CS:GO with two perfect scores gets 150 as written |
| Fps.EstimatedFpsByGenre | buildsan.js:2666-2754 | with the type compared, esports estimates are no lower than the generic figure, AAA ones no higher, and CS:GO with perfect scores gets 300 |
| Fps.PresetMonotone | buildsan.js:2438-2447 | higher scores never pick a lower preset |
| Fps.PanelPreset | buildsan.js:2435-2450 | "N/A" for a game without estimates; the named preset when the game has it |
| Switcher.Preset | config-switcher.js:64-132 | the i-th pair of a preset puts the i-th ID under the i-th category |
| Switcher.LookupIds | config-switcher.js:64-137 | a known preset names at most the ten categories |
| Switcher.Put | config-switcher.js:196-229 | one pair never adds an option and keeps the page well formed |
| Switcher.PutAll | config-switcher.js:194-233 | the pairs applied in order never add an option |
| Switcher.Count | config-switcher.js:189-223 | the changed count is at most the number of pairs, and equals it iff every pair's dropdown exists and offers its ID |
| Switcher.Applied | config-switcher.js:168-249 | a missing preset leaves the page unchanged; no option is ever added |
| Switcher.PutAllOthers | config-switcher.js:194-233 | a dropdown no pair names keeps its value and its `disabled` flag |
| Switcher.PutAllConfigured | config-switcher.js:200-229 | a configured dropdown that exists ends enabled, and holds the ID exactly when it offers it, keeping its value otherwise |
| Switcher.StrictAgainstLenient | config-switcher.js:205-229 | for an ID a dropdown does not offer, a preset leaves value and options alone, while `updateDropdown` adds and selects it |
| Switcher.ApplyConfiguration | config-switcher.js:168-249 | the page afterwards is `Applied`; the attempted count is the number of pairs and the changed count is `Count` (both 0 for a missing preset) |
| Switcher.Unblocked | config-switcher.js:353-355 | an option is disabled afterwards iff its value is "", and otherwise unchanged |
| Switcher.UnblockedValues | config-switcher.js:353-355 | unblocking changes no option value |
| Switcher.HighlightedValid | config-switcher.js:322-367 | unlocking keeps every selection among its dropdown's options |
| Switcher.UnblockOptions | config-switcher.js:353-355 | the loop over one dropdown's options computes `Unblocked` |
| Switcher.HighlightCustomOption | config-switcher.js:322-367 | the page afterwards is `Highlighted`: with the custom button present every dropdown is enabled and only placeholders are disabled |
| Switcher.HighlightedAll | config-switcher.js:345-363 | once every dropdown has been visited the page is `Highlighted` |
| Switcher.ClickedCustom | config-switcher.js:155-160 | "custom" keeps every selection, and an unknown type changes nothing |
| Switcher.CategoriesDistinct | buildsan.js:386-397 | the ten categories are ten different names |
| Switcher.PresetsDistinct | config-switcher.js:64-137 | every preset names each category at most once |
| Switcher.ClickedPreset | config-switcher.js:155-156 | a preset click adds no option, enables every configured dropdown that exists, and selects the preset's ID exactly where it is offered |
| Switcher.OnConfigClick | config-switcher.js:144-160 | the page afterwards is `Clicked` of the page before |
| Text.Contains | buildsan.js:1948 | `includes` holds exactly when the pattern occurs at some index |
| Text.ToLower | buildsan.js:1940 | lower-casing keeps the length and leaves no upper-case ASCII letter |
| Text.RemoveFirst | buildsan.js:2184 | `replace('#', '')` changes nothing without a '#' and drops exactly one character otherwise |
| Text.PadStart | buildsan.js:2195 | `padStart` reaches the width and ends with the original text |
| Text.SplitJoin | buildsan.js:1834 | `split` loses nothing: joining the pieces gives the original |
| Text.NatToString | buildsan.js:2195 | `toString(radix)` writes digits that denote the number |
| Text.ParseIntOfString | buildsan.js:1834 | `parseInt` reads back what `toString` writes, in base 10 and 16 |
| Text.ParseIntOfStringWith | buildsan.js:1834 | the same for one radix argument, including an omitted radix for base 10 |
| Numbers.RoundNear | buildsan.js:1979 | `Math.round` lands within a half of its argument |
| Numbers.RoundMonotone | buildsan.js:1979 | `Math.round` keeps order |

## Left out

- Rendering and the DOM are not modelled:
  - component cards, modals, tables, charts, alerts, the step navigation and styles;
  - the name and score texts written into the page.
  The page is reduced to each dropdown's options, value and `disabled` flag. An option's `style.display` is its `hidden` flag.
- Events are not modelled. `updateDropdown` and `applyConfiguration` dispatch `change` events. Their listeners are not part of this model:
  - `highlightCustomOption` via config-switcher.js:406-411;
  - the page's own handlers.
  The model states each routine's own effect only.
- `setTimeout` calls are not modelled, in particular `updateConfigurationSummary` after a preset and the first `updateScores`.
- Console logging, the `try`/`catch` wrappers whose bodies cannot throw on the modelled state, and the `active` CSS classes are not modelled.
- Unmodelled data modules become parameters:
  - the component catalog, `window.intelConfigs`/`window.amdConfigs`, `window.GAME_FPS_ESTIMATES` and the earlier `window.GAME_TYPES` are maps or functions passed in;
  - the catalog is assumed to hold CPU records in the CPU table and so on.
- A thrown `TypeError` becomes a modelled outcome:
  - in `updateScores`, when the CPU key has no record, the run is `Aborted` with the options judged so far written back;
  - in `estimateGameFPS`, with neither the chosen preset nor "medium", the result is `None`;
  - in `populateDropdowns`, when a category has no dropdown (a `null` entry of `componentSelects`, which buildsan.js:398-402 only logs), the run stops there with the earlier lists rebuilt, and `completed` is false;
  - in the price loop of `updateSelectedComponents`, the same case yields `None` and no total.
- Binary floating point is not modelled. Weights and factors are exact reals, so a result at an exact rounding boundary (such as 200 × 1.15) can differ by one from what the browser computes. Scores are whole numbers or exact reals; `NaN` is `None`.
- `toLowerCase` is ASCII only, and no Unicode case mapping is modelled.
- Prototype keys such as `"constructor"` in object lookups are not modelled; a lookup sees own keys only.
- The inner `autoSelectConfig` of the page (buildsan.js:1051) is not modelled: it reads and writes DOM controls. The modelled one is the top-level function at buildsan.js:3163.
- `estimateGameFPS` reads the VGA selection but never uses it. The model drops it, and the quality and CPU selections are parameters.
- Fps.EstimatedFpsWith: its contract states the zero case and non-negativity only. The genre bands are stated through `Fps.EstimatedFpsByGenre` and `Fps.CsgoAsWritten`.
- Colors.LighterColor: its own contract states only the shape of the result. The channel arithmetic is stated by `Colors.LighterColorChannels` for well-formed `#rrggbb` input.
- The other JavaScript files (header behaviour, dropdown fixes, window patching, the static server) are not part of this model.

## Findings

| source | as written | input that shows it | evidently intended | confidence | as-written member | corrected member |
|---|---|---|---|---|---|---|
| buildsan.js:1993-1997 | `includes('rtx 40')` is tested before the RTX 4090/4080/4070/4060 tests, which can then never decide | "rtx 4090" gets base 90, not 98 | the model tests before the series catch-all | not executed | Scoring.RtxFortyNinetyAsWritten | Scoring.GpuBaseModelsReached |
| buildsan.js:2546-2559 | the first table key contained in the name wins, and shorter keys come before longer ones | "Ryzen 5 5600X" scores 75 (the "Ryzen 5 5600" row), not its own 77; "RTX 2070 Super" and "RTX 3060 Ti" never score 75 | the most specific (longest) matching key decides | not executed | ScoreTables.Ryzen5600XAsWritten | ScoreTables.Ryzen5600XLongest |
| buildsan.js:1710-1716 | the marker reads `isCpuBottleneck`, which `calculateBottleneck` never returns, so no percentage is negated | scores (100, 50), a 50% CPU bottleneck, put the marker at 75% captioned "GPU bottleneck 50%" | the side taken from the returned type, so that CPU bottlenecks sit left of the middle | not executed | Bottleneck.MarkerAsWrittenHalfScores | Bottleneck.MarkerSides |
| buildsan.js:2666-2691 | the object returned by `getGameType` is compared with "esports", "strategy" and "aaa", which never matches | CS:GO with scores (100, 100) is estimated at 150 fps, like any generic game | the comparisons apply to the game's type | not executed | Fps.AsWrittenIgnoresGame | Fps.EstimatedFpsByGenre |
