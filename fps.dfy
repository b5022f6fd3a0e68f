/** Frame-rate estimates in buildsan.js: `estimateGameFPS`, which boosts a
    table range for AMD processors, `calculateEstimatedFPS`, which derives
    a figure from the scores, and the preset chosen for the detailed
    performance panel. */
module Fps {
  import opened Wrappers
  import opened Text
  import opened Numbers
  import opened ScoreTables

  /** One preset of `GAME_FPS_ESTIMATES[game]`: a `"min-max"` range and a
      description. */
  datatype Preset = Preset(fps: string, description: string)

  /** A game's presets by quality name ("low", "medium", "high", "ultra"). */
  type GameFps = map<string, Preset>

  /** `window.GAME_FPS_ESTIMATES`, by game ID. */
  type FpsTable = map<string, GameFps>

  /** `window.GAME_TYPES`: the types loaded before buildsan.js (`prior`),
      with five games set or replaced. */
  function GameTypes(prior: map<string, GameInfo>): (t: map<string, GameInfo>)
    ensures t.Keys == prior.Keys + {"battle-teams-2", "delta-force", "audition", "mu-origin", "crossfire"}
    ensures forall g :: g in prior && g !in {"battle-teams-2", "delta-force", "audition", "mu-origin", "crossfire"} ==>
      t[g] == prior[g]
    ensures t["battle-teams-2"] == GameInfo(Esports, High) && t["delta-force"] == GameInfo(Esports, Medium)
    ensures t["audition"] == GameInfo(Casual, Low) && t["mu-origin"] == GameInfo(Mmorpg, Medium)
    ensures t["crossfire"] == GameInfo(Esports, VeryHigh)
  {
    prior + map[
      "battle-teams-2" := GameInfo(Esports, High),
      "delta-force" := GameInfo(Esports, Medium),
      "audition" := GameInfo(Casual, Low),
      "mu-origin" := GameInfo(Mmorpg, Medium),
      "crossfire" := GameInfo(Esports, VeryHigh)]
  }

  // ---------------------------------------------------------------------------
  // Ranges
  // ---------------------------------------------------------------------------

  /** `fps.split('-').map(num => parseInt(num))` destructured into
      `[minFps, maxFps]`; `None` stands for NaN (and for a missing part). */
  function ParseRange(fps: string): (Option<int>, Option<int>) {
    var parts := Split(fps, '-');
    (ParseInt(parts[0], 0), if |parts| > 1 then ParseInt(parts[1], 0) else None)
  }

  /** A number in a template string: NaN prints as "NaN". */
  function Show(n: Option<int>): string {
    match n
    case Some(v) => IntToString(v, 10)
    case None => "NaN"
  }

  /** `${minFps}-${maxFps}`. */
  function FormatRange(lo: Option<int>, hi: Option<int>): string {
    Show(lo) + "-" + Show(hi)
  }

  /** Formatting two non-negative bounds and parsing them back gives the
      bounds. */
  lemma ParseFormatRange(lo: nat, hi: nat)
    ensures ParseRange(FormatRange(Some(lo), Some(hi))) == (Some(lo), Some(hi))
  {
    var x, y := IntToString(lo, 10), IntToString(hi, 10);
    assert '-' !in x by { DigitsOnly(lo); }
    assert '-' !in y by { DigitsOnly(hi); }
    assert FormatRange(Some(lo), Some(hi)) == x + ['-'] + y;
    SplitAround(x, '-', y);
    SplitNoSeparator(y, '-');
    ParseIntOfString(lo, 10);
    ParseIntOfString(hi, 10);
  }

  /** A non-negative number prints without a minus sign. */
  lemma DigitsOnly(n: nat)
    ensures '-' !in IntToString(n, 10)
  {
    var s := IntToString(n, 10);
    forall i | 0 <= i < |s| ensures s[i] != '-' {
      assert IsDigitIn(s[i], 10);
    }
  }

  /** `Math.floor(n * factor)`, NaN staying NaN. */
  function Boosted(n: Option<int>, factor: real): Option<int> {
    match n
    case Some(v) => Some((v as real * factor).Floor)
    case None => None
  }

  // ---------------------------------------------------------------------------
  // `estimateGameFPS`
  // ---------------------------------------------------------------------------

  /** The FPS factor for a processor name and the game's entry in
      `GAME_TYPES`: an X3D chip gains 40-60% in every game, another Ryzen
      10-20% in esports games only, anything else nothing. */
  function BoostFactor(cpuName: string, info: Option<GameInfo>): (f: real)
    ensures 1.0 <= f <= 1.6
    ensures Contains(ToLower(cpuName), "x3d") ==> f >= 1.4
    ensures !Contains(ToLower(cpuName), "x3d") ==> f <= 1.2
    ensures !Contains(ToLower(cpuName), "x3d") && f > 1.0 ==>
      Contains(ToLower(cpuName), "ryzen") && info.Some? && info.value.genre == Esports
  {
    var lower := ToLower(cpuName);
    var dependency := if info.Some? then info.value.cpuDependency else Medium;
    if Contains(lower, "x3d") then
      if info.None? then 1.4
      else match info.value.genre
        case Esports => if dependency == VeryHigh then 1.6 else 1.5
        case BattleRoyale => 1.45
        case Mmorpg => 1.45
        case Aaa => 1.4
        case _ => 1.4
    else if Contains(lower, "ryzen") && info.Some? && info.value.genre == Esports then
      match dependency
      case VeryHigh => 1.2
      case High => 1.15
      case Medium => 1.12
      case _ => 1.1
    else 1.0
  }

  /** The X3D test comes first: an X3D name gets the X3D factor whether or
      not it also says "ryzen". */
  lemma X3DFirst(cpuName: string, info: Option<GameInfo>)
    requires Contains(ToLower(cpuName), "x3d")
    ensures BoostFactor(cpuName, info) == BoostFactor("x3d", info)
  {
    assert ToLower("x3d") == "x3d";
    assert OccursAt("x3d", "x3d", 0);
  }

  /** The text added to the description: the rounded boost for an X3D
      chip, or for another Ryzen when it is boosted. */
  function BoostNote(cpuName: string, factor: real): string {
    var lower := ToLower(cpuName);
    var percent := IntToString(Round((factor - 1.0) * 100.0), 10);
    if Contains(lower, "x3d") then " (+" + percent + "% hiệu năng từ CPU AMD X3D với 3D V-Cache)"
    else if Contains(lower, "ryzen") && factor > 1.0 then " (+" + percent + "% hiệu năng từ CPU AMD)"
    else ""
  }

  /** The range and description `estimateGameFPS` returns. */
  datatype FpsResult = FpsResult(fps: string, description: string)

  /** The preset used: the chosen quality, else "medium". */
  function PresetOf(presets: GameFps, quality: string): Option<Preset> {
    if quality in presets then Some(presets[quality])
    else if "medium" in presets then Some(presets["medium"])
    else None
  }

  /** `estimateGameFPS(rating, gameId)` with the quality, CPU and VGA
      selections as parameters (the VGA is read but not used): "N/A" for a
      game without estimates; `None` where the source throws, a game with
      neither the chosen preset nor "medium". */
  function EstimateGameFps(table: FpsTable, types: map<string, GameInfo>, gameId: string,
                           quality: string, cpuName: string): (r: Option<FpsResult>)
    ensures gameId !in table ==> r == Some(FpsResult("N/A", "Không có dữ liệu"))
    ensures gameId in table ==> (r.None? <==> PresetOf(table[gameId], quality).None?)
  {
    if gameId !in table then Some(FpsResult("N/A", "Không có dữ liệu"))
    else match PresetOf(table[gameId], quality)
      case None => None
      case Some(preset) =>
        var range := ParseRange(preset.fps);
        var info := if gameId in types then Some(types[gameId]) else None;
        var factor := BoostFactor(cpuName, info);
        Some(FpsResult(FormatRange(Boosted(range.0, factor), Boosted(range.1, factor)),
                       preset.description + BoostNote(cpuName, factor)))
  }

  /** A quality the game has no preset for falls back to "medium". */
  lemma MediumFallback(table: FpsTable, types: map<string, GameInfo>, gameId: string, quality: string, cpuName: string)
    requires gameId in table && quality !in table[gameId]
    ensures EstimateGameFps(table, types, gameId, quality, cpuName)
         == EstimateGameFps(table, types, gameId, "medium", cpuName)
  {
  }

  /** The boosted range reads back as two bounds, each at least the table's
      and at most 1.6 times it, and a range in order stays in order. */
  lemma EstimateRange(table: FpsTable, types: map<string, GameInfo>, gameId: string,
                      quality: string, cpuName: string, lo: nat, hi: nat)
    requires gameId in table && PresetOf(table[gameId], quality).Some?
    requires ParseRange(PresetOf(table[gameId], quality).value.fps) == (Some(lo), Some(hi))
    ensures var r := EstimateGameFps(table, types, gameId, quality, cpuName);
      r.Some? && ParseRange(r.value.fps).0.Some? && ParseRange(r.value.fps).1.Some? &&
      lo <= ParseRange(r.value.fps).0.value && hi <= ParseRange(r.value.fps).1.value &&
      ParseRange(r.value.fps).0.value as real <= lo as real * 1.6 &&
      ParseRange(r.value.fps).1.value as real <= hi as real * 1.6 &&
      (lo <= hi ==> ParseRange(r.value.fps).0.value <= ParseRange(r.value.fps).1.value)
  {
    var info := if gameId in types then Some(types[gameId]) else None;
    BoostedRange(lo, hi, BoostFactor(cpuName, info));
  }

  /** Boosting a range of two non-negative bounds by a factor from 1 to 1.6
      and formatting it: the bounds read back, each at least the original
      and at most 1.6 times it, in order if the original was. */
  lemma BoostedRange(lo: nat, hi: nat, f: real)
    requires 1.0 <= f <= 1.6
    ensures var p := ParseRange(FormatRange(Boosted(Some(lo), f), Boosted(Some(hi), f)));
      p.0.Some? && p.1.Some? && lo <= p.0.value && hi <= p.1.value &&
      p.0.value as real <= lo as real * 1.6 && p.1.value as real <= hi as real * 1.6 &&
      (lo <= hi ==> p.0.value <= p.1.value)
  {
    var a, b := (lo as real * f).Floor, (hi as real * f).Floor;
    BoostedSome(lo, f);
    BoostedSome(hi, f);
    BoostBounds(lo, f);
    BoostBounds(hi, f);
    if lo <= hi {
      BoostOrder(lo, hi, f);
    }
    ParseFormatRange(a, b);
  }

  /** A present bound is boosted and floored. */
  lemma BoostedSome(n: int, f: real)
    ensures Boosted(Some(n), f) == Some((n as real * f).Floor)
  {
    var x := Boosted(Some(n), f);
    assert x.Some? && x.value == (n as real * f).Floor;
  }

  /** Flooring after the same non-negative boost keeps two bounds in order. */
  lemma BoostOrder(lo: nat, hi: nat, f: real)
    requires lo <= hi && f >= 0.0
    ensures (lo as real * f).Floor <= (hi as real * f).Floor
  {
    var x, y := lo as real * f, hi as real * f;
    ScaleMonotone(lo as real, hi as real, f);
    assert x <= y;
    assert x.Floor as real <= x;
  }

  /** `Math.floor(n * f)` for a factor from 1 to 1.6. */
  lemma BoostBounds(n: nat, f: real)
    requires 1.0 <= f <= 1.6
    ensures n <= (n as real * f).Floor
    ensures (n as real * f).Floor as real <= n as real * 1.6
  {
    var m := n as real;
    BoostBetween(m, f);
    FloorBetween(n, m * f, m * 1.6);
  }

  /** A boost by a factor from 1 to 1.6 lands between the value and 1.6 times it. */
  lemma BoostBetween(m: real, f: real)
    requires m >= 0.0 && 1.0 <= f <= 1.6
    ensures m <= m * f <= m * 1.6
  {
    ScaleMonotone(1.0, f, m);
    ScaleMonotone(f, 1.6, m);
  }

  /** Flooring a number between a whole number and a bound stays between them. */
  lemma FloorBetween(n: int, x: real, hi: real)
    requires n as real <= x <= hi
    ensures n <= x.Floor && x.Floor as real <= hi
  {
  }

  // ---------------------------------------------------------------------------
  // `calculateEstimatedFPS`
  // ---------------------------------------------------------------------------

  /** The frame rate, quality and resolution `calculateEstimatedFPS` returns. */
  datatype Estimate = Estimate(fps: int, quality: string, resolution: string)

  /** `calculateEstimatedFPS(gameId, cpu, gpu)` with `tag` standing for what
      its comparisons with "esports", "strategy" and "aaa" see: `None` for a
      value equal to none of them. */
  function EstimatedFpsWith(gameId: string, cpu: nat, gpu: nat, tag: Option<Genre>): (e: Estimate)
    ensures gameId == "" || cpu == 0 || gpu == 0 ==> e == Estimate(0, "N/A", "N/A")
    ensures gameId != "" && cpu > 0 && gpu > 0 ==> e.fps >= 0
  {
    if gameId == "" || cpu == 0 || gpu == 0 then Estimate(0, "N/A", "N/A")
    else
      var weights :=
        if tag == Some(Esports) then (0.6, 0.4)
        else if tag == Some(Strategy) then (0.5, 0.5)
        else if tag == Some(Aaa) then (0.2, 0.8)
        else (0.3, 0.7);
      var combined := cpu as real * weights.0 + gpu as real * weights.1;
      if tag == Some(Esports) then
        var band :=
          if combined >= 85.0 then ("Ultra", "1440p")
          else if combined >= 70.0 then ("Cao", "1080p")
          else if combined >= 50.0 then ("Trung bình", "1080p")
          else ("Thấp", "1080p");
        Estimate(Round(combined * 3.0), band.0, band.1)
      else if tag == Some(Aaa) then
        var band :=
          if combined >= 90.0 then ("Ultra", "4K")
          else if combined >= 80.0 then ("Ultra", "1440p")
          else if combined >= 70.0 then ("Cao", "1440p")
          else if combined >= 60.0 then ("Cao", "1080p")
          else if combined >= 50.0 then ("Trung bình", "1080p")
          else ("Thấp", "1080p");
        Estimate(Round(combined * 1.2), band.0, band.1)
      else
        var band :=
          if combined >= 85.0 then ("Ultra", "1440p")
          else if combined >= 70.0 then ("Cao", "1080p")
          else if combined >= 55.0 then ("Trung bình", "1080p")
          else ("Thấp", "1080p");
        Estimate(Round(combined * 1.5), band.0, band.1)
  }

  /** As written: the comparisons see the object `getGameType` returns,
      which equals no string. */
  function EstimatedFpsAsWritten(gameId: string, cpu: nat, gpu: nat): Estimate {
    EstimatedFpsWith(gameId, cpu, gpu, None)
  }

  /** As written the estimate ignores the game: any two game IDs give the
      same figure. */
  lemma AsWrittenIgnoresGame(g1: string, g2: string, cpu: nat, gpu: nat)
    requires g1 != "" && g2 != ""
    ensures EstimatedFpsAsWritten(g1, cpu, gpu) == EstimatedFpsAsWritten(g2, cpu, gpu)
  {
  }

  /** CS:GO with two perfect scores: 150 as written. */
  lemma CsgoAsWritten()
    ensures EstimatedFpsAsWritten("csgo", 100, 100) == Estimate(150, "Ultra", "1440p")
  {
  }

  /** The estimate with the game's type compared, as the branches intend. */
  function EstimatedFps(gameId: string, cpu: nat, gpu: nat): Estimate {
    EstimatedFpsWith(gameId, cpu, gpu, Some(GameType(gameId).genre))
  }

  /** With the type compared, esports games are estimated at no less than
      the generic figure and AAA games at no more; CS:GO with two perfect
      scores gets 300. */
  lemma EstimatedFpsByGenre(gameId: string, cpu: nat, gpu: nat)
    ensures GameType(gameId).genre == Esports ==>
      EstimatedFpsAsWritten(gameId, cpu, gpu).fps <= EstimatedFps(gameId, cpu, gpu).fps
    ensures GameType(gameId).genre == Aaa ==>
      EstimatedFps(gameId, cpu, gpu).fps <= EstimatedFpsAsWritten(gameId, cpu, gpu).fps
    ensures EstimatedFps("csgo", 100, 100) == Estimate(300, "Ultra", "1440p")
  {
    var c, g := cpu as real, gpu as real;
    RoundMonotone((c * 0.3 + g * 0.7) * 1.5, (c * 0.6 + g * 0.4) * 3.0);
    RoundMonotone((c * 0.2 + g * 0.8) * 1.2, (c * 0.3 + g * 0.7) * 1.5);
  }

  // ---------------------------------------------------------------------------
  // The preset of the detailed performance panel
  // ---------------------------------------------------------------------------

  /** The preset named for a pair of scores: by their mean, "ultra" from
      85, "high" from 70, "medium" from 50, else "low". */
  function PresetName(cpu: nat, gpu: nat): string {
    var combined := (cpu + gpu) as real / 2.0;
    if combined >= 85.0 then "ultra"
    else if combined >= 70.0 then "high"
    else if combined >= 50.0 then "medium"
    else "low"
  }

  /** The position of a preset name from the bottom. */
  function PresetRank(name: string): nat {
    if name == "ultra" then 3 else if name == "high" then 2 else if name == "medium" then 1 else 0
  }

  /** Higher scores never pick a lower preset. */
  lemma PresetMonotone(c1: nat, g1: nat, c2: nat, g2: nat)
    requires c1 <= c2 && g1 <= g2
    ensures PresetRank(PresetName(c1, g1)) <= PresetRank(PresetName(c2, g2))
  {
  }

  /** The panel's FPS row: the named preset of the game, or "N/A" with
      "Không có dữ liệu" when the game or that preset is missing. */
  function PanelPreset(table: FpsTable, gameId: string, cpu: nat, gpu: nat): (p: Preset)
    ensures gameId !in table ==> p == Preset("N/A", "Không có dữ liệu")
    ensures gameId in table && PresetName(cpu, gpu) in table[gameId] ==> p == table[gameId][PresetName(cpu, gpu)]
  {
    var presets := if gameId in table then table[gameId] else map[];
    var name := PresetName(cpu, gpu);
    if name in presets then presets[name] else Preset("N/A", "Không có dữ liệu")
  }
}
