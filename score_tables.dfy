/** The table-driven heuristics of buildsan.js: the CPU and GPU score
    tables scanned for the first model name that occurs in a selection, and
    the game-type table. */
module ScoreTables {
  import opened Wrappers
  import opened Text

  /** One `'model name': score` entry of a score table. */
  datatype Row = Row(key: string, score: nat)

  /** A score table in the order `for...in` visits its keys. */
  type Table = seq<Row>

  const IntelScores: Table := [
    Row("i3-10100", 45), Row("i3-10300", 50), Row("i3-12100", 60), Row("i3-12100F", 60),
    Row("i5-10400", 65), Row("i5-10600K", 70), Row("i5-11400", 72), Row("i5-11600K", 75),
    Row("i5-12400", 78), Row("i5-12600K", 85), Row("i5-13400", 80), Row("i5-13600K", 88),
    Row("i7-10700K", 80), Row("i7-11700K", 83), Row("i7-12700K", 90), Row("i7-13700K", 95),
    Row("i9-10900K", 85), Row("i9-11900K", 87), Row("i9-12900K", 93), Row("i9-13900K", 98)]

  const AmdScores: Table := [
    Row("Ryzen 3 3100", 45), Row("Ryzen 3 4100", 50), Row("Ryzen 5 3600", 68), Row("Ryzen 5 5600", 75),
    Row("Ryzen 5 5600X", 77), Row("Ryzen 5 7600X", 85), Row("Ryzen 7 3700X", 75), Row("Ryzen 7 5700X", 82),
    Row("Ryzen 7 5800X", 85), Row("Ryzen 7 7800X3D", 95), Row("Ryzen 9 5900X", 90), Row("Ryzen 9 5950X", 93),
    Row("Ryzen 9 7900X", 95), Row("Ryzen 9 7950X", 97)]

  const NvidiaScores: Table := [
    Row("GTX 1650", 40), Row("GTX 1650 Super", 45), Row("GTX 1660", 50), Row("GTX 1660 Super", 55),
    Row("GTX 1660 Ti", 57), Row("RTX 2060", 60), Row("RTX 2060 Super", 65), Row("RTX 2070", 70),
    Row("RTX 2070 Super", 75), Row("RTX 2080", 80), Row("RTX 2080 Super", 83), Row("RTX 2080 Ti", 87),
    Row("RTX 3050", 55), Row("RTX 3060", 65), Row("RTX 3060 Ti", 75), Row("RTX 3070", 80),
    Row("RTX 3070 Ti", 83), Row("RTX 3080", 90), Row("RTX 3080 Ti", 93), Row("RTX 3090", 95),
    Row("RTX 3090 Ti", 97), Row("RTX 4060", 70), Row("RTX 4060 Ti", 78), Row("RTX 4070", 85),
    Row("RTX 4070 Ti", 90), Row("RTX 4080", 95), Row("RTX 4090", 99)]

  const AmdGpuScores: Table := [
    Row("RX 6500 XT", 45), Row("RX 6600", 60), Row("RX 6600 XT", 65), Row("RX 6650 XT", 68),
    Row("RX 6700 XT", 75), Row("RX 6750 XT", 78), Row("RX 6800", 82), Row("RX 6800 XT", 87),
    Row("RX 6900 XT", 92), Row("RX 6950 XT", 94), Row("RX 7600", 65), Row("RX 7700 XT", 80),
    Row("RX 7800 XT", 87), Row("RX 7900 XT", 93), Row("RX 7900 XTX", 96)]

  /** The score given when no table row matches. */
  const DefaultScore: nat := 50

  // ---------------------------------------------------------------------------
  // First-match scans, as written
  // ---------------------------------------------------------------------------

  /** The first row whose model name occurs in `name`. */
  function FirstMatch(t: Table, name: string): (r: Option<nat>)
    ensures r.Some? ==> r.value < |t| && Contains(name, t[r.value].key)
    ensures r.Some? ==> forall j :: 0 <= j < r.value ==> !Contains(name, t[j].key)
    ensures r.None? ==> forall j :: 0 <= j < |t| ==> !Contains(name, t[j].key)
    decreases |t|
  {
    if t == [] then None
    else if Contains(name, t[0].key) then Some(0)
    else match FirstMatch(t[1..], name)
      case None => None
      case Some(i) => Some(i + 1)
  }

  /** The score after one scan: the first matching row's, else `score` as it was. */
  function Scanned(t: Table, name: string, score: nat): nat {
    match FirstMatch(t, name)
    case Some(i) => t[i].score
    case None => score
  }

  /** `for (const key in table) if (name.includes(key)) { score = table[key]; break; }` */
  method Scan(t: Table, name: string, score: nat) returns (r: nat)
    ensures r == Scanned(t, name, score)
  {
    r := score;
    var i := 0;
    while i < |t|
      invariant 0 <= i <= |t|
      invariant forall j :: 0 <= j < i ==> !Contains(name, t[j].key)
      invariant r == score
    {
      if Contains(name, t[i].key) {
        r := t[i].score;
        FirstMatchIs(t, name, i);
        return;
      }
      i := i + 1;
    }
    FirstMatchNone(t, name);
  }

  lemma {:induction false} FirstMatchIs(t: Table, name: string, i: nat)
    requires i < |t| && Contains(name, t[i].key)
    requires forall j :: 0 <= j < i ==> !Contains(name, t[j].key)
    ensures FirstMatch(t, name) == Some(i)
    decreases |t|
  {
    if i > 0 {
      assert forall j :: 0 <= j < i - 1 ==> t[1..][j] == t[j + 1];
      FirstMatchIs(t[1..], name, i - 1);
    }
  }

  lemma FirstMatchNone(t: Table, name: string)
    requires forall j :: 0 <= j < |t| ==> !Contains(name, t[j].key)
    ensures FirstMatch(t, name).None?
  {
  }

  /** `getScoreForCpu` / `getScoreForGpu`: a scan of the first table, then of
      the second, from the default score. */
  function ScoreFor(first: Table, second: Table, name: string): nat {
    Scanned(second, name, Scanned(first, name, DefaultScore))
  }

  /** A match in the second (AMD) table decides, whatever the first table
      matched; with no match at all the score is the default 50. */
  lemma ScoreForCases(first: Table, second: Table, name: string)
    ensures FirstMatch(second, name).Some? ==> ScoreFor(first, second, name) == second[FirstMatch(second, name).value].score
    ensures FirstMatch(second, name).None? && FirstMatch(first, name).Some? ==>
      ScoreFor(first, second, name) == first[FirstMatch(first, name).value].score
    ensures ((forall j :: 0 <= j < |first| ==> !Contains(name, first[j].key)) &&
             (forall j :: 0 <= j < |second| ==> !Contains(name, second[j].key))) ==>
            ScoreFor(first, second, name) == DefaultScore
  {
  }

  method ScoreForCpu(name: string) returns (score: nat)
    ensures score == ScoreFor(IntelScores, AmdScores, name)
  {
    score := DefaultScore;
    score := Scan(IntelScores, name, score);
    score := Scan(AmdScores, name, score);
  }

  method ScoreForGpu(name: string) returns (score: nat)
    ensures score == ScoreFor(NvidiaScores, AmdGpuScores, name)
  {
    score := DefaultScore;
    score := Scan(NvidiaScores, name, score);
    score := Scan(AmdGpuScores, name, score);
  }

  /** A row whose model name contains an earlier row's is never the first match. */
  lemma ShadowedRow(t: Table, name: string, j: nat, k: nat)
    requires j < k < |t| && Contains(t[k].key, t[j].key)
    ensures FirstMatch(t, name) != Some(k)
  {
    if FirstMatch(t, name) == Some(k) {
      ContainsTrans(name, t[k].key, t[j].key);
    }
  }

  /** A row whose model name extends an earlier row's is never the first match. */
  lemma ExtendedRow(t: Table, name: string, j: nat, k: nat, suffix: string)
    requires j < k < |t| && t[k].key == t[j].key + suffix
    ensures FirstMatch(t, name) != Some(k)
  {
    assert t[k].key[..|t[j].key|] == t[j].key;
    assert OccursAt(t[k].key, t[j].key, 0);
    ShadowedRow(t, name, j, k);
  }

  /** The rows the NVIDIA table scores 75 and the rows they extend. */
  lemma NvidiaRows()
    ensures |NvidiaScores| == 27
    ensures NvidiaScores[8].key == NvidiaScores[7].key + " Super"
    ensures NvidiaScores[14].key == NvidiaScores[13].key + " Ti"
    ensures forall i :: 0 <= i < |NvidiaScores| && NvidiaScores[i].score == 75 ==> i == 8 || i == 14
  {
  }

  /** As written, no GPU name gets 75 from the NVIDIA table: both of its
      75 rows, "RTX 2070 Super" and "RTX 3060 Ti", are dead. */
  lemma NvidiaNever75(name: string)
    ensures Scanned(NvidiaScores, name, DefaultScore) != 75
  {
    NvidiaRows();
    ExtendedRow(NvidiaScores, name, 7, 8, " Super");
    ExtendedRow(NvidiaScores, name, 13, 14, " Ti");
  }

  /** A character of `p` that `s` lacks keeps `p` out of `s`. */
  lemma MissingChar(s: string, p: string, c: char)
    requires c in p && c !in s
    ensures !Contains(s, p)
  {
    forall i | 0 <= i <= |s| - |p| ensures !OccursAt(s, p, i) {
      var k :| 0 <= k < |p| && p[k] == c;
      assert s[i..i + |p|][k] == s[i + k];
      assert s[i + k] in s;
    }
  }

  /** A character every row's model name carries, absent from `name`,
      leaves `name` unmatched. */
  lemma MissAll(t: Table, name: string, c: char)
    requires c !in name
    requires forall j :: 0 <= j < |t| ==> c in t[j].key
    ensures FirstMatch(t, name).None?
  {
    forall j | 0 <= j < |t| ensures !Contains(name, t[j].key) {
      MissingChar(name, t[j].key, c);
    }
  }

  /** Every Intel model name carries an "i". */
  lemma IntelKeys()
    ensures forall j :: 0 <= j < |IntelScores| ==> 'i' in IntelScores[j].key
  {
    forall j | 0 <= j < |IntelScores| ensures 'i' in IntelScores[j].key {
      assert IntelScores[j].key[0] == 'i';
    }
  }

  /** The first five AMD CPU rows. */
  lemma AmdHead()
    ensures |AmdScores| == 14
    ensures AmdScores[0].key == "Ryzen 3 3100" && AmdScores[1].key == "Ryzen 3 4100"
    ensures AmdScores[2].key == "Ryzen 5 3600" && AmdScores[3] == Row("Ryzen 5 5600", 75)
    ensures AmdScores[4] == Row("Ryzen 5 5600X", 77)
  {
  }

  /** In a table that opens with the five AMD rows, "Ryzen 5 5600X" is
      first matched by the fourth, "Ryzen 5 5600". */
  lemma FirstMatch5600X(t: Table, name: string)
    requires |t| >= 5 && name == "Ryzen 5 5600X"
    requires t[0].key == "Ryzen 3 3100" && t[1].key == "Ryzen 3 4100"
    requires t[2].key == "Ryzen 5 3600" && t[3].key == "Ryzen 5 5600"
    ensures FirstMatch(t, name) == Some(3)
  {
    assert t[0].key[6] == '3' && t[1].key[6] == '3' && t[2].key[8] == '3';
    assert name == t[3].key + "X";
    assert OccursAt(name, t[3].key, 0);
    FirstAfterMisses(t, name, '3', 3);
  }

  /** A row whose key occurs in the name is the first match when every
      earlier key holds a character the name lacks. */
  lemma FirstAfterMisses(t: Table, name: string, c: char, k: nat)
    requires k < |t| && Contains(name, t[k].key) && c !in name
    requires forall j :: 0 <= j < k ==> c in t[j].key
    ensures FirstMatch(t, name) == Some(k)
  {
    forall j | 0 <= j < k ensures !Contains(name, t[j].key) {
      MissingChar(name, t[j].key, c);
    }
    FirstMatchIs(t, name, k);
  }

  /** As written, "Ryzen 5 5600X" is scored by the earlier "Ryzen 5 5600"
      row: 75, not its own 77. */
  lemma Ryzen5600XAsWritten()
    ensures ScoreFor(IntelScores, AmdScores, "Ryzen 5 5600X") == 75
    ensures AmdScores[4] == Row("Ryzen 5 5600X", 77)
  {
    var name := "Ryzen 5 5600X";
    assert 'i' !in name;
    IntelKeys();
    MissAll(IntelScores, name, 'i');
    AmdHead();
    FirstMatch5600X(AmdScores, name);
  }

  // ---------------------------------------------------------------------------
  // Most specific match: the evident intent of the tables
  // ---------------------------------------------------------------------------

  /** The row with the longest model name that occurs in `name`; the
      earliest among equally long ones. */
  function Longest(t: Table, name: string): (r: Option<nat>)
    ensures r.Some? ==> r.value < |t| && Contains(name, t[r.value].key)
    ensures r.Some? ==> forall j :: 0 <= j < |t| && Contains(name, t[j].key) ==> |t[j].key| <= |t[r.value].key|
    ensures r.Some? ==> forall j :: 0 <= j < r.value && Contains(name, t[j].key) ==> |t[j].key| < |t[r.value].key|
    ensures r.None? <==> forall j :: 0 <= j < |t| ==> !Contains(name, t[j].key)
    decreases |t|
  {
    if t == [] then None
    else
      var rest := Longest(t[..|t| - 1], name);
      var i := |t| - 1;
      if Contains(name, t[i].key) && (rest.None? || |t[i].key| > |t[rest.value].key|) then Some(i) else rest
  }

  function ScannedLongest(t: Table, name: string, score: nat): nat {
    match Longest(t, name)
    case Some(i) => t[i].score
    case None => score
  }

  /** The corrected `getScoreForCpu` / `getScoreForGpu`. */
  function ScoreForLongest(first: Table, second: Table, name: string): nat {
    ScannedLongest(second, name, ScannedLongest(first, name, DefaultScore))
  }

  /** A string contained in one of the same length is that string. */
  lemma ContainsSameLength(s: string, p: string)
    requires Contains(s, p) && |p| == |s|
    ensures p == s
  {
    var i :| OccursAt(s, p, i);
    assert i == 0;
    assert s[0..|s|] == s;
  }

  /** A name that is exactly some row's model name picks the first row
      carrying that model name. */
  lemma LongestExact(t: Table, name: string, k: nat)
    requires k < |t| && t[k].key == name
    ensures Longest(t, name).Some? && t[Longest(t, name).value].key == name
    ensures forall j :: 0 <= j < Longest(t, name).value ==> t[j].key != name
  {
    assert OccursAt(name, name, 0);
    var r := Longest(t, name).value;
    assert |t[r].key| >= |name|;
    var i :| OccursAt(name, t[r].key, i);
    ContainsSameLength(name, t[r].key);
  }

  /** With the most specific match, "Ryzen 5 5600X" gets its own 77. */
  lemma Ryzen5600XLongest()
    ensures ScoreForLongest(IntelScores, AmdScores, "Ryzen 5 5600X") == 77
  {
    var name := "Ryzen 5 5600X";
    assert 'i' !in name;
    IntelKeys();
    MissAll(IntelScores, name, 'i');
    assert Longest(IntelScores, name).None?;
    AmdHead();
    Longest5600X(AmdScores, name);
  }

  /** In a table that opens with the five AMD rows, the most specific match
      for "Ryzen 5 5600X" is its own row. */
  lemma Longest5600X(t: Table, name: string)
    requires |t| >= 5 && name == "Ryzen 5 5600X"
    requires t[0].key == "Ryzen 3 3100" && t[1].key == "Ryzen 3 4100"
    requires t[2].key == "Ryzen 5 3600" && t[3].key == "Ryzen 5 5600"
    requires t[4].key == "Ryzen 5 5600X"
    ensures Longest(t, name) == Some(4)
  {
    LongestExact(t, name, 4);
    var r := Longest(t, name).value;
    assert t[r].key == name;
    assert r != 0 && r != 1 && r != 2 && r != 3;
  }

  // ---------------------------------------------------------------------------
  // `getGameType`
  // ---------------------------------------------------------------------------

  datatype Genre = Esports | BattleRoyale | Aaa | Sandbox | Mmorpg | Strategy | Casual | General

  datatype Dependency = Low | Medium | High | VeryHigh

  datatype GameInfo = GameInfo(genre: Genre, cpuDependency: Dependency)

  /** `getGameType(gameId)`: the local table of seventeen games, and
      "general" with medium CPU dependency for any other ID. */
  function GameType(gameId: string): (g: GameInfo)
    ensures g.genre != Casual
  {
    match gameId
    case "lol" => GameInfo(Esports, Medium)
    case "csgo" => GameInfo(Esports, High)
    case "valorant" => GameInfo(Esports, High)
    case "pubg" => GameInfo(BattleRoyale, High)
    case "fortnite" => GameInfo(BattleRoyale, Medium)
    case "cyberpunk" => GameInfo(Aaa, High)
    case "cod" => GameInfo(Aaa, Medium)
    case "minecraft" => GameInfo(Sandbox, VeryHigh)
    case "gta5" => GameInfo(Aaa, High)
    case "apex" => GameInfo(BattleRoyale, High)
    case "dota2" => GameInfo(Esports, Medium)
    case "rdr2" => GameInfo(Aaa, High)
    case "battlefield" => GameInfo(Aaa, High)
    case "rainbow6" => GameInfo(Esports, Medium)
    case "overwatch" => GameInfo(Esports, Medium)
    case "wow" => GameInfo(Mmorpg, VeryHigh)
    case "starcraft" => GameInfo(Strategy, VeryHigh)
    case _ => GameInfo(General, Medium)
  }

  /** Only the games the table lists are anything but "general", and the
      strategy type belongs to StarCraft alone. */
  lemma GameTypeDefault(gameId: string)
    ensures GameType(gameId).genre == General <==>
      gameId !in {"lol", "csgo", "valorant", "pubg", "fortnite", "cyberpunk", "cod", "minecraft", "gta5",
                  "apex", "dota2", "rdr2", "battlefield", "rainbow6", "overwatch", "wow", "starcraft"}
    ensures GameType(gameId).genre == Strategy <==> gameId == "starcraft"
  {
  }
}
