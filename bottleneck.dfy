/** The CPU/GPU balance analysis of buildsan.js: `calculateBottleneck`, the
    description bands, the position of the bottleneck marker on its bar and
    `calculateStability`. Scores are whole numbers, 0 standing for a missing
    score (the source's falsy test). */
module Bottleneck {
  import opened Numbers
  import opened Text

  datatype Kind = Unknown | CpuBound | GpuBound | Balanced

  /** The `{ type, percentage }` record `calculateBottleneck` returns. */
  datatype Analysis = Analysis(kind: Kind, percentage: int)

  /** `calculateBottleneck(cpuScore, gpuScore)`: with `r = cpu / gpu`, a CPU
      bottleneck above 1.2 of `(r - 1) / r`, a GPU bottleneck below 0.8 of
      `(1 - r) / r`, in whole percent. */
  function Analyze(cpu: nat, gpu: nat): (b: Analysis)
    ensures b.kind == Unknown <==> cpu == 0 || gpu == 0
    ensures b.kind == CpuBound <==> cpu > 0 && gpu > 0 && 5 * cpu > 6 * gpu
    ensures b.kind == GpuBound <==> cpu > 0 && gpu > 0 && 5 * cpu < 4 * gpu
    ensures b.percentage == 0 <==> b.kind == Unknown || b.kind == Balanced
    ensures b.kind == CpuBound ==> b.percentage == Round((cpu - gpu) as real * 100.0 / cpu as real)
    ensures b.kind == GpuBound ==> b.percentage == Round((gpu - cpu) as real * 100.0 / cpu as real)
    ensures b.kind == CpuBound ==> 17 <= b.percentage <= 100
    ensures b.kind == GpuBound ==> 25 <= b.percentage
  {
    if cpu == 0 || gpu == 0 then Analysis(Unknown, 0)
    else
      var r := cpu as real / gpu as real;
      RatioBounds(cpu, gpu);
      if r > 1.2 then
        CpuShare(cpu, gpu);
        Analysis(CpuBound, Round((r - 1.0) / r * 100.0))
      else if r < 0.8 then
        GpuShare(cpu, gpu);
        Analysis(GpuBound, Round((1.0 - r) / r * 100.0))
      else Analysis(Balanced, 0)
  }

  /** The ratio thresholds in whole numbers. */
  lemma RatioBounds(cpu: nat, gpu: nat)
    requires cpu > 0 && gpu > 0
    ensures cpu as real / gpu as real > 1.2 <==> 5 * cpu > 6 * gpu
    ensures cpu as real / gpu as real < 0.8 <==> 5 * cpu < 4 * gpu
  {
    DivCompare(cpu as real, gpu as real, 1.2);
    DivCompare(cpu as real, gpu as real, 0.8);
  }

  /** `(r - 1) / r` and `(1 - r) / r` for `r = c / g`, over the scores. */
  lemma RatioForms(c: real, g: real)
    requires c > 0.0 && g > 0.0
    ensures var r := c / g; (r - 1.0) / r == (c - g) / c && (1.0 - r) / r == (g - c) / c
  {
    var r := c / g;
    assert r * g == c;
    assert r > 0.0;
    assert (r - 1.0) / r == ((r - 1.0) * g) / (r * g);
    assert (1.0 - r) / r == ((1.0 - r) * g) / (r * g);
  }

  /** A CPU bottleneck is the share of the CPU score the GPU cannot use. */
  lemma CpuShare(cpu: nat, gpu: nat)
    requires gpu > 0 && 5 * cpu > 6 * gpu
    ensures var r := cpu as real / gpu as real;
      (r - 1.0) / r * 100.0 == (cpu - gpu) as real * 100.0 / cpu as real
    ensures var r := cpu as real / gpu as real;
      17 <= Round((r - 1.0) / r * 100.0) <= 100
  {
    var c, g := cpu as real, gpu as real;
    RatioForms(c, g);
    var x := (c - g) * 100.0 / c;
    assert (c - g) / c * 100.0 == x;
    DivCompare((c - g) * 100.0, c, 16.5);
    DivCompare((c - g) * 100.0, c, 100.0);
    RoundMonotone(16.5, x);
    RoundMonotone(x, 100.0);
  }

  /** A GPU bottleneck is the GPU's surplus over the CPU score, relative to it. */
  lemma GpuShare(cpu: nat, gpu: nat)
    requires cpu > 0 && 5 * cpu < 4 * gpu
    ensures var r := cpu as real / gpu as real;
      (1.0 - r) / r * 100.0 == (gpu - cpu) as real * 100.0 / cpu as real
    ensures var r := cpu as real / gpu as real;
      25 <= Round((1.0 - r) / r * 100.0)
  {
    var c, g := cpu as real, gpu as real;
    RatioForms(c, g);
    var x := (g - c) * 100.0 / c;
    assert (g - c) / c * 100.0 == x;
    DivCompare((g - c) * 100.0, c, 25.0);
    RoundMonotone(25.0, x);
  }

  /** Swapping the scores turns a GPU bottleneck into a CPU bottleneck with a
      percentage no larger: the two sides are measured against different
      scores. */
  lemma SwapShrinks(a: nat, b: nat)
    requires Analyze(a, b).kind == GpuBound
    ensures Analyze(b, a).kind == CpuBound
    ensures Analyze(b, a).percentage <= Analyze(a, b).percentage
  {
    GpuShare(a, b);
    CpuShare(b, a);
    DivAntitone((b - a) as real * 100.0, a as real, b as real);
    RoundMonotone((b - a) as real * 100.0 / b as real, (b - a) as real * 100.0 / a as real);
  }

  /** (50, 100) is a 100% GPU bottleneck, (100, 50) a 50% CPU bottleneck. */
  lemma HalfScores()
    ensures Analyze(50, 100) == Analysis(GpuBound, 100)
    ensures Analyze(100, 50) == Analysis(CpuBound, 50)
  {
    GpuShare(50, 100);
    CpuShare(100, 50);
  }

  // ---------------------------------------------------------------------------
  // `getBottleneckDescription`
  // ---------------------------------------------------------------------------

  datatype Label = Label(text: string, color: string)

  /** The description of a bottleneck record: balanced up to 5%, then four
      severities naming the component. */
  function Describe(percentage: int, isCpuBottleneck: bool): (l: Label)
    ensures percentage <= 5 <==> l == Label("Cân bằng hoàn hảo", "#28a745")
    ensures percentage > 5 ==> Names(l.text, if isCpuBottleneck then "CPU" else "GPU")
    ensures percentage > 30 <==> l.color == "#dc3545"
  {
    var component := if isCpuBottleneck then "CPU" else "GPU";
    var amount := " (" + IntToString(percentage, 10) + "%)";
    if percentage <= 5 then Label("Cân bằng hoàn hảo", "#28a745")
    else if percentage <= 10 then Label(component + " giới hạn nhẹ" + amount, "#4bbf73")
    else if percentage <= 20 then Label(component + " giới hạn trung bình" + amount, "#f0ad4e")
    else if percentage <= 30 then Label(component + " giới hạn đáng kể" + amount, "#fd7e14")
    else Label(component + " giới hạn nghiêm trọng" + amount, "#dc3545")
  }

  /** The record `calculateBottleneck` returns has no `isCpuBottleneck`
      field, so a description of it always names the GPU. */
  lemma DescribeAnalysisNamesGpu(cpu: nat, gpu: nat)
    requires Analyze(cpu, gpu).percentage > 5
    ensures Names(Describe(Analyze(cpu, gpu).percentage, false).text, "GPU")
  {
  }

  // ---------------------------------------------------------------------------
  // The bottleneck marker (`updateBottleneckUI`)
  // ---------------------------------------------------------------------------

  datatype Tone = Green | Yellow | Red

  /** The caption starts with the name of a component. */
  predicate Names(caption: string, component: string) {
    |component| <= |caption| && caption[..|component|] == component
  }

  /** Where the marker sits on the bar (in percent of its width), its colour
      and the caption beside it. */
  datatype Marker = Marker(position: real, tone: Tone, caption: string)

  /** The marker's place for a signed percentage: half of it off the
      middle, kept within 5..95. */
  function Position(signed: int): (p: real)
    ensures 5.0 <= p <= 95.0
    ensures p < 50.0 <==> signed < 0
    ensures p > 50.0 <==> signed > 0
  {
    MaxReal(5.0, MinReal(95.0, 50.0 + signed as real / 2.0))
  }

  /** The caption for a signed percentage: balanced up to 5 either way,
      otherwise the component on the side of the sign. */
  function Caption(signed: int): (c: string)
    ensures Names(c, "CPU") <==> signed < -5
    ensures Names(c, "GPU") <==> signed > 5
  {
    if -5 <= signed <= 5 then
      assert "Cân bằng lý tưởng"[1] == 'â';
      "Cân bằng lý tưởng"
    else if signed < 0 then
      var c := "CPU bottleneck " + IntToString(-signed, 10) + "%";
      assert c[..3] == "CPU";
      c
    else
      var c := "GPU bottleneck " + IntToString(signed, 10) + "%";
      assert c[..3] == "GPU";
      c
  }

  /** The marker for a bottleneck record read as `isCpuBottleneck`: a CPU
      bottleneck counts as a negative percentage. */
  function MarkerFor(cpu: nat, gpu: nat, isCpuBottleneck: bool): (m: Marker)
    ensures 5.0 <= m.position <= 95.0
    ensures cpu == 0 || gpu == 0 ==> m == Marker(50.0, Green, "Chưa xác định")
    ensures m.position < 50.0 <==> isCpuBottleneck && Analyze(cpu, gpu).percentage > 0
    ensures m.position > 50.0 <==> !isCpuBottleneck && Analyze(cpu, gpu).percentage > 0
    ensures Names(m.caption, "CPU") <==> isCpuBottleneck && Analyze(cpu, gpu).percentage > 5
    ensures Names(m.caption, "GPU") <==> !isCpuBottleneck && Analyze(cpu, gpu).percentage > 5
    ensures m.tone == Red <==> Analyze(cpu, gpu).percentage > 30
  {
    if cpu == 0 || gpu == 0 then
      assert "Chưa xác định"[1] == 'h';
      Marker(50.0, Green, "Chưa xác định")
    else
      var b := Analyze(cpu, gpu);
      var signed := if isCpuBottleneck then -b.percentage else b.percentage;
      var tone := if b.percentage <= 10 then Green else if b.percentage <= 30 then Yellow else Red;
      Marker(Position(signed), tone, Caption(signed))
  }

  /** As written: the record has no `isCpuBottleneck` field, so the sign
      is never applied. */
  function MarkerAsWritten(cpu: nat, gpu: nat): Marker {
    MarkerFor(cpu, gpu, false)
  }

  /** As written the marker never moves to the CPU half of the bar, and the
      caption never names the CPU. */
  lemma MarkerAsWrittenRightHalf(cpu: nat, gpu: nat)
    ensures MarkerAsWritten(cpu, gpu).position >= 50.0
    ensures !Names(MarkerAsWritten(cpu, gpu).caption, "CPU")
  {
  }

  /** (100, 50), a 50% CPU bottleneck, puts the marker at 75%, captioned as
      a GPU bottleneck. */
  lemma MarkerAsWrittenHalfScores()
    ensures MarkerAsWritten(100, 50) == Marker(75.0, Red, "GPU bottleneck " + IntToString(50, 10) + "%")
  {
    HalfScores();
  }

  /** The marker with the sign taken from the bottleneck's type. */
  function SignedMarker(cpu: nat, gpu: nat): Marker {
    MarkerFor(cpu, gpu, Analyze(cpu, gpu).kind == CpuBound)
  }

  /** A CPU bottleneck sits left of the middle and is captioned as one, a
      GPU bottleneck right of it, and a balanced or unknown pair in the
      middle. */
  lemma MarkerSides(cpu: nat, gpu: nat)
    ensures Analyze(cpu, gpu).kind == CpuBound ==>
      SignedMarker(cpu, gpu).position < 50.0 && Names(SignedMarker(cpu, gpu).caption, "CPU")
    ensures Analyze(cpu, gpu).kind == GpuBound ==>
      SignedMarker(cpu, gpu).position > 50.0 && Names(SignedMarker(cpu, gpu).caption, "GPU")
    ensures Analyze(cpu, gpu).percentage == 0 ==> SignedMarker(cpu, gpu).position == 50.0
  {
  }

  /** (100, 50) puts the marker at 25%, captioned as a CPU bottleneck. */
  lemma MarkerHalfScores()
    ensures SignedMarker(100, 50) == Marker(25.0, Red, "CPU bottleneck " + IntToString(50, 10) + "%")
  {
    HalfScores();
  }

  // ---------------------------------------------------------------------------
  // `calculateStability`
  // ---------------------------------------------------------------------------

  /** The frame-rate stability verdict from the gap between the scores. */
  function Stability(cpu: int, gpu: int): (s: string)
    ensures s == "Rất ổn định" <==> -10 <= cpu - gpu <= 10
    ensures s == "Có thể không ổn định" <==> cpu - gpu > 30 || gpu - cpu > 30
  {
    var difference := if cpu >= gpu then cpu - gpu else gpu - cpu;
    if difference <= 10 then "Rất ổn định"
    else if difference <= 20 then "Ổn định"
    else if difference <= 30 then "Tương đối ổn định"
    else "Có thể không ổn định"
  }

  /** The verdict does not depend on which score is the CPU's. */
  lemma StabilitySymmetric(cpu: int, gpu: int)
    ensures Stability(cpu, gpu) == Stability(gpu, cpu)
  {
  }
}
