/** The name-based heuristics of buildsan.js: the CPU generation read off a
    model name, and the 0-100 CPU and GPU scores built from a name by
    substring tests. */
module Scoring {
  import opened Wrappers
  import opened Text
  import opened Numbers

  // ---------------------------------------------------------------------------
  // `getCPUGeneration`: the regular expressions, matched by hand
  // ---------------------------------------------------------------------------

  predicate IsDecimal(c: char) {
    '0' <= c <= '9'
  }

  /** The alternative `(\d+)th Gen` at index `i`: the whole digit run that
      starts there (a shorter run would leave a digit where `t` must be),
      then the literal "th Gen". */
  function OrdinalAt(s: string, i: nat): Option<nat>
    requires i <= |s|
  {
    var n := DigitRun(s[i..], 10);
    if n >= 1 && OccursAt(s, "th Gen", i + n) then Some(DigitsValue(s[i..i + n], 10)) else None
  }

  /** The alternative `[i][3579]-(\d{1,2})\d{3}` at index `i`: the group takes
      two digits when five follow the dash, and one when only four do. */
  function ModelAt(s: string, i: nat): Option<nat>
    requires i <= |s|
  {
    if i + 3 <= |s| && s[i] == 'i' && s[i + 1] in "3579" && s[i + 2] == '-' then
      if i + 8 <= |s| && AllDigits(s[i + 3..i + 8], 10) then Some(DigitsValue(s[i + 3..i + 5], 10))
      else if i + 7 <= |s| && AllDigits(s[i + 3..i + 7], 10) then Some(DigitsValue(s[i + 3..i + 4], 10))
      else None
    else None
  }

  /** `/Ryzen \d+ (\d)000/` at index `i`. */
  function RyzenAt(s: string, i: nat): Option<nat>
    requires i <= |s|
  {
    if OccursAt(s, "Ryzen ", i) then
      var j := i + 6;
      var n := DigitRun(s[j..], 10);
      if n >= 1 && j + n + 5 <= |s| && s[j + n] == ' ' && IsDecimal(s[j + n + 1]) && s[j + n + 2..j + n + 5] == "000"
      then Some(DigitValue(s[j + n + 1]))
      else None
    else None
  }

  /** The leftmost match of the Intel expression from index `i` on; at one
      index the first alternative is tried first. */
  function IntelScan(s: string, i: nat): Option<nat>
    requires i <= |s|
    decreases |s| - i
  {
    if i == |s| then None
    else if OrdinalAt(s, i).Some? then OrdinalAt(s, i)
    else if ModelAt(s, i).Some? then ModelAt(s, i)
    else IntelScan(s, i + 1)
  }

  function RyzenScan(s: string, i: nat): Option<nat>
    requires i <= |s|
    decreases |s| - i
  {
    if i == |s| then None
    else if RyzenAt(s, i).Some? then RyzenAt(s, i)
    else RyzenScan(s, i + 1)
  }

  /** `getCPUGeneration(name)`: the Intel generation if the Intel expression
      matches, else the Ryzen series digit; `None` (null) otherwise. */
  function Generation(s: string): Option<nat> {
    if s == "" then None
    else if IntelScan(s, 0).Some? then IntelScan(s, 0)
    else RyzenScan(s, 0)
  }

  /** The model-number alternative alone, leftmost from index `i`. */
  function ModelScan(s: string, i: nat): Option<nat>
    requires i <= |s|
    decreases |s| - i
  {
    if i == |s| then None
    else if ModelAt(s, i).Some? then ModelAt(s, i)
    else ModelScan(s, i + 1)
  }

  predicate NoUpper(s: string) {
    forall k :: 0 <= k < |s| ==> !('A' <= s[k] <= 'Z')
  }

  /** "th Gen" and "Ryzen " hold an upper-case letter, so they never occur in
      lower-cased text. */
  lemma NoCapitalWords(s: string, i: nat)
    requires NoUpper(s) && i <= |s|
    ensures !OccursAt(s, "th Gen", i) && !OccursAt(s, "Ryzen ", i)
  {
    if i + 6 <= |s| {
      assert s[i..i + 6][3] == s[i + 3];
      assert s[i..i + 6][0] == s[i];
    }
  }

  lemma {:induction false} LowerScans(s: string, i: nat)
    requires NoUpper(s) && i <= |s|
    ensures IntelScan(s, i) == ModelScan(s, i) && RyzenScan(s, i).None?
    decreases |s| - i
  {
    if i < |s| {
      NoCapitalWords(s, i);
      NoCapitalWords(s, i + DigitRun(s[i..], 10));
      assert OrdinalAt(s, i).None?;
      assert RyzenAt(s, i).None?;
      LowerScans(s, i + 1);
    }
  }

  /** On lower-cased text, as `getCPUScore` passes it, only the model-number
      pattern can match: "10th Gen" and "Ryzen 5 5600" give no generation. */
  lemma LowerGeneration(s: string)
    requires NoUpper(s)
    ensures Generation(s) == ModelScan(s, 0)
  {
    LowerScans(s, 0);
  }

  /** A model number such as "i5-13600" yields its two leading digits, one
      such as "i7-9700" its single leading digit. */
  lemma ModelDigits(s: string, i: nat)
    requires i + 3 <= |s| && s[i] == 'i' && s[i + 1] in "3579" && s[i + 2] == '-'
    requires i + 7 <= |s| && AllDigits(s[i + 3..i + 7], 10)
    ensures ModelAt(s, i).Some?
    ensures i + 8 <= |s| && IsDecimal(s[i + 7]) ==> ModelAt(s, i) == Some(DigitsValue(s[i + 3..i + 5], 10))
    ensures (i + 8 > |s| || !IsDecimal(s[i + 7])) ==> ModelAt(s, i) == Some(DigitValue(s[i + 3]))
  {
    if i + 8 <= |s| && IsDecimal(s[i + 7]) {
      var five, four := s[i + 3..i + 8], s[i + 3..i + 7];
      forall k | 0 <= k < |five| ensures IsDigitIn(five[k], 10) {
        if k < 4 {
          assert five[k] == four[k];
        }
      }
      assert AllDigits(five, 10);
    } else {
      if i + 8 <= |s| {
        assert !IsDigitIn(s[i + 3..i + 8][4], 10);
      }
      var one := s[i + 3..i + 4];
      assert one[..0] == [];
      assert DigitsValue(one, 10) == DigitValue(s[i + 3]);
    }
  }

  // ---------------------------------------------------------------------------
  // `getCPUScore`
  // ---------------------------------------------------------------------------

  /** The base score by family, the first substring test that succeeds. */
  function CpuBase(n: string): (b: nat)
    ensures 45 <= b <= 85
  {
    if Contains(n, "i9") then 85
    else if Contains(n, "i7") then 75
    else if Contains(n, "i5") then 65
    else if Contains(n, "i3") then 55
    else if Contains(n, "ryzen 9") then 85
    else if Contains(n, "ryzen 7") then 75
    else if Contains(n, "ryzen 5") then 65
    else if Contains(n, "ryzen 3") then 55
    else 45
  }

  /** `Math.min(15, generation * 1.5)`; a null generation multiplies as 0. */
  function GenBonus(gen: Option<nat>): (b: real)
    ensures 0.0 <= b <= 15.0
  {
    match gen
    case None => 0.0
    case Some(g) => MinReal(15.0, 1.5 * g as real)
  }

  /** The feature bonuses: +3 for "k" or "x", +4 for "xt", +5 for "hk". */
  function CpuFeatures(n: string): (f: nat)
    ensures f <= 12
  {
    (if Contains(n, "k") || Contains(n, "x") then 3 else 0)
    + (if Contains(n, "xt") then 4 else 0)
    + (if Contains(n, "hk") then 5 else 0)
  }

  /** The lower-cased, trimmed name the heuristics test. */
  function Normalized(name: string): string {
    Trim(ToLower(name))
  }

  /** `getCPUScore(name)`: 0 for an empty name, otherwise a whole number
      from 45 to 100. */
  function CpuScore(name: string): (r: int)
    ensures name == "" ==> r == 0
    ensures name != "" ==> 45 <= r <= 100
  {
    if name == "" then 0
    else
      var n := Normalized(name);
      Round(MinReal(100.0, CpuBase(n) as real + GenBonus(Generation(n)) + CpuFeatures(n) as real))
  }

  /** The generation bonus of `getCPUScore` comes from the model number alone. */
  lemma CpuScoreGeneration(name: string)
    requires name != ""
    ensures var n := Normalized(name);
      CpuScore(name) == Round(MinReal(100.0, CpuBase(n) as real + GenBonus(ModelScan(n, 0)) + CpuFeatures(n) as real))
  {
    var lower := ToLower(name);
    assert NoUpper(lower);
    TrimNoUpper(lower);
    LowerGeneration(Normalized(name));
  }

  /** Trimming keeps text free of upper-case letters. */
  lemma TrimNoUpper(s: string)
    requires NoUpper(s)
    ensures NoUpper(Trim(s))
  {
    var start := TrimStart(s);
    var t := TrimEnd(start);
    forall k | 0 <= k < |t| ensures !('A' <= t[k] <= 'Z') {
      assert t[k] == start[k] == s[|s| - |start| + k];
    }
  }

  /** A higher generation never lowers the CPU score. */
  lemma CpuScoreGenerationMonotone(base: nat, f: nat, g1: nat, g2: nat)
    requires g1 <= g2
    ensures Round(MinReal(100.0, base as real + GenBonus(Some(g1)) + f as real))
         <= Round(MinReal(100.0, base as real + GenBonus(Some(g2)) + f as real))
  {
    assert GenBonus(Some(g1)) <= GenBonus(Some(g2));
  }

  // ---------------------------------------------------------------------------
  // `getGPUScore`
  // ---------------------------------------------------------------------------

  /** The series base score, as the source orders its tests: "rtx 40" comes
      first, so the four RTX 40 model tests after it can never decide. */
  function GpuBaseAsWritten(n: string): (b: nat)
    ensures b <= 98
    ensures Contains(n, "rtx 40") ==> b == 90
  {
    if Contains(n, "rtx 40") then 90
    else GpuBaseModels(n)
  }

  /** The tests from "rtx 4090" on, in order; 0 when no series matches. */
  function GpuBaseModels(n: string): (b: nat)
    ensures b <= 98
  {
    if Contains(n, "rtx 4090") then 98
    else if Contains(n, "rtx 4080") then 95
    else if Contains(n, "rtx 4070") then 90
    else if Contains(n, "rtx 4060") then 85
    else if Contains(n, "rtx 3090") then 95
    else if Contains(n, "rtx 3080") then 90
    else if Contains(n, "rtx 3070") then 85
    else if Contains(n, "rtx 3060") then 80
    else if Contains(n, "rtx 2080") then 85
    else if Contains(n, "rtx 2070") then 80
    else if Contains(n, "rtx 2060") then 75
    else if Contains(n, "gtx 1080") then 75
    else if Contains(n, "gtx 1070") then 70
    else if Contains(n, "gtx 1060") then 65
    else if Contains(n, "rx 7900") then 95
    else if Contains(n, "rx 7800") then 90
    else if Contains(n, "rx 7700") then 85
    else if Contains(n, "rx 7600") then 80
    else if Contains(n, "rx 6900") then 90
    else if Contains(n, "rx 6800") then 85
    else if Contains(n, "rx 6700") then 80
    else if Contains(n, "rx 6600") then 75
    else 0
  }

  /** As written, no name reaches the 98 meant for the RTX 4090. */
  lemma RtxFortyShadows(n: string)
    ensures GpuBaseAsWritten(n) != 98
  {
    if Contains(n, "rtx 4090") {
      ContainsAt("rtx 4090", "rtx 40", 0);
      ContainsTrans(n, "rtx 4090", "rtx 40");
    }
  }

  /** A concrete name that shows it: the RTX 4090 is scored like any RTX 40 card. */
  lemma RtxFortyNinetyAsWritten()
    ensures GpuBaseAsWritten("rtx 4090") == 90
  {
    ContainsAt("rtx 4090", "rtx 40", 0);
  }

  /** The series base score with the RTX 40 model tests ahead of the
      catch-all "rtx 40", which is evidently what the listed models mean. */
  function GpuBase(n: string): (b: nat)
    ensures b <= 98
    ensures Contains(n, "rtx 4090") ==> b == 98
    ensures (Contains(n, "rtx 40") && !Contains(n, "rtx 4090") && !Contains(n, "rtx 4080")
             && !Contains(n, "rtx 4070") && !Contains(n, "rtx 4060")) ==> b == 90
    ensures !Contains(n, "rtx 40") ==> b == GpuBaseAsWritten(n)
  {
    if Contains(n, "rtx 4090") || Contains(n, "rtx 4080") || Contains(n, "rtx 4070") || Contains(n, "rtx 4060") then
      GpuBaseModels(n)
    else if Contains(n, "rtx 40") then 90
    else GpuBaseModels(n)
  }

  /** Each RTX 40 model reaches its own base once the tests are reordered. */
  lemma GpuBaseModelsReached(n: string)
    ensures Contains(n, "rtx 4080") && !Contains(n, "rtx 4090") ==> GpuBase(n) == 95
    ensures Contains(n, "rtx 4070") && !Contains(n, "rtx 4090") && !Contains(n, "rtx 4080") ==> GpuBase(n) == 90
    ensures (Contains(n, "rtx 4060") && !Contains(n, "rtx 4090") && !Contains(n, "rtx 4080")
             && !Contains(n, "rtx 4070")) ==> GpuBase(n) == 85
  {
  }

  /** Feature bonuses: +3 for "ti", +2 for "super", +2 for "xt". */
  function GpuFeatures(n: string): (f: nat)
    ensures f <= 7
  {
    (if Contains(n, "ti") then 3 else 0)
    + (if Contains(n, "super") then 2 else 0)
    + (if Contains(n, "xt") then 2 else 0)
  }

  /** Memory bonus, the first of 24/16/12/8 GB named. */
  function VramBonus(n: string): (v: nat)
    ensures v <= 5
  {
    if Contains(n, "24gb") then 5
    else if Contains(n, "16gb") then 4
    else if Contains(n, "12gb") then 3
    else if Contains(n, "8gb") then 2
    else 0
  }

  /** `getGPUScore(name)` from a base score: 0 for an empty name, otherwise
      the capped sum of base and bonuses, a whole number from 0 to 100. */
  function GpuScoreWith(name: string, base: string -> nat): (r: int)
    ensures name == "" ==> r == 0
    ensures name != "" ==> 0 <= r <= 100
    ensures name != "" ==> r == if base(Normalized(name)) + GpuFeatures(Normalized(name)) + VramBonus(Normalized(name)) <= 100
      then base(Normalized(name)) + GpuFeatures(Normalized(name)) + VramBonus(Normalized(name)) else 100
  {
    if name == "" then 0
    else
      var n := Normalized(name);
      var total := base(n) + GpuFeatures(n) + VramBonus(n);
      Round(MinReal(100.0, total as real))
  }

  /** `getGPUScore` as the source computes it. */
  function GpuScoreAsWritten(name: string): (r: int)
    ensures name == "" ==> r == 0
    ensures name != "" ==> 0 <= r <= 100
  {
    GpuScoreWith(name, GpuBaseAsWritten)
  }

  /** `getGPUScore` with the RTX 40 tests in their evident order. */
  function GpuScore(name: string): (r: int)
    ensures name == "" ==> r == 0
    ensures name != "" ==> 0 <= r <= 100
  {
    GpuScoreWith(name, GpuBase)
  }

  /** Every name mentioning "rtx 40" starts, as written, from base 90. */
  lemma RtxFortyBase(name: string)
    requires name != "" && Contains(Normalized(name), "rtx 40")
    ensures GpuScoreAsWritten(name) == MinNat(100, 90 + GpuFeatures(Normalized(name)) + VramBonus(Normalized(name)))
  {
  }
}
