/** The performance metrics of buildsan.js: gaming, graphics and office
    scores as weighted blends of the CPU and GPU scores, the livestream and
    render metrics built from them, and the overall rating with its label. */
module Performance {
  import opened Wrappers
  import opened Numbers
  import opened ScoreTables

  /** `cpu * cpuWeight + gpu * gpuWeight`. */
  function Blend(cpu: nat, gpu: nat, cpuWeight: real, gpuWeight: real): real {
    cpu as real * cpuWeight + gpu as real * gpuWeight
  }

  /** A blend whose weights sum to one lies between the two scores. */
  lemma BlendBetween(cpu: nat, gpu: nat, cpuWeight: real, gpuWeight: real)
    requires cpuWeight >= 0.0 && gpuWeight >= 0.0 && cpuWeight + gpuWeight == 1.0
    ensures MinNat(cpu, gpu) as real <= Blend(cpu, gpu, cpuWeight, gpuWeight) <= MaxNat(cpu, gpu) as real
  {
    MixBetween(cpu as real, gpu as real, cpuWeight, gpuWeight, MinNat(cpu, gpu) as real, MaxNat(cpu, gpu) as real);
  }

  /** A blend with non-negative weights grows with either score. */
  lemma BlendMonotone(c1: nat, g1: nat, c2: nat, g2: nat, cpuWeight: real, gpuWeight: real)
    requires cpuWeight >= 0.0 && gpuWeight >= 0.0 && c1 <= c2 && g1 <= g2
    ensures Blend(c1, g1, cpuWeight, gpuWeight) <= Blend(c2, g2, cpuWeight, gpuWeight)
  {
    ScaleMonotone(c1 as real, c2 as real, cpuWeight);
    ScaleMonotone(g1 as real, g2 as real, gpuWeight);
  }

  /** `Math.min(100, Math.round(x))` of a blend with weights summing to one:
      a whole number between the two scores (and at most 100). */
  lemma RoundedBlend(cpu: nat, gpu: nat, cpuWeight: real, gpuWeight: real)
    requires cpuWeight >= 0.0 && gpuWeight >= 0.0 && cpuWeight + gpuWeight == 1.0
    ensures MinNat(cpu, gpu) <= Round(Blend(cpu, gpu, cpuWeight, gpuWeight)) <= MaxNat(cpu, gpu)
  {
    BlendBetween(cpu, gpu, cpuWeight, gpuWeight);
    RoundMonotone(MinNat(cpu, gpu) as real, Blend(cpu, gpu, cpuWeight, gpuWeight));
    RoundMonotone(Blend(cpu, gpu, cpuWeight, gpuWeight), MaxNat(cpu, gpu) as real);
  }

  function MaxNat(a: nat, b: nat): nat {
    if a >= b then a else b
  }

  // ---------------------------------------------------------------------------
  // `calculateGamePerformance`, `calculateGraphicsPerformance`,
  // `calculateOfficePerformance`
  // ---------------------------------------------------------------------------

  /** The CPU and GPU weights for a game genre. */
  function GameWeights(genre: Genre): (w: (real, real))
    ensures w.0 >= 0.0 && w.1 >= 0.0 && w.0 + w.1 == 1.0
  {
    match genre
    case Esports => (0.5, 0.5)
    case Strategy => (0.6, 0.4)
    case Aaa => (0.2, 0.8)
    case _ => (0.3, 0.7)
  }

  /** `calculateGamePerformance`, the genre of the selected game given:
      0 when a score is undefined, otherwise the rounded genre blend, at most
      100. */
  function GamePerformance(cpu: Option<nat>, gpu: Option<nat>, genre: Genre): (r: nat)
    ensures cpu.None? || gpu.None? ==> r == 0
    ensures cpu.Some? && gpu.Some? ==>
      MinNat(MinNat(cpu.value, gpu.value), 100) <= r <= MinNat(MaxNat(cpu.value, gpu.value), 100)
  {
    if cpu.None? || gpu.None? then 0
    else
      var w := GameWeights(genre);
      RoundedBlend(cpu.value, gpu.value, w.0, w.1);
      MinNat(100, Round(Blend(cpu.value, gpu.value, w.0, w.1)))
  }

  /** The gaming metric never falls when a score rises. */
  lemma GamePerformanceMonotone(c1: nat, g1: nat, c2: nat, g2: nat, genre: Genre)
    requires c1 <= c2 && g1 <= g2
    ensures GamePerformance(Some(c1), Some(g1), genre) <= GamePerformance(Some(c2), Some(g2), genre)
  {
    var w := GameWeights(genre);
    BlendMonotone(c1, g1, c2, g2, w.0, w.1);
    RoundMonotone(Blend(c1, g1, w.0, w.1), Blend(c2, g2, w.0, w.1));
  }

  /** A falsy-guarded blend: 0 when either score is 0 (falsy), otherwise
      `Math.min(100, Math.round(cpu * cpuWeight + gpu * gpuWeight))`. */
  function GuardedBlend(cpu: nat, gpu: nat, cpuWeight: real, gpuWeight: real): (r: nat)
    requires cpuWeight >= 0.0 && gpuWeight >= 0.0 && cpuWeight + gpuWeight == 1.0
    ensures cpu == 0 || gpu == 0 <==> r == 0
    ensures cpu > 0 && gpu > 0 ==> MinNat(MinNat(cpu, gpu), 100) <= r <= MinNat(MaxNat(cpu, gpu), 100)
  {
    if cpu == 0 || gpu == 0 then 0
    else
      RoundedBlend(cpu, gpu, cpuWeight, gpuWeight);
      MinNat(100, Round(Blend(cpu, gpu, cpuWeight, gpuWeight)))
  }

  /** `calculateGraphicsPerformance`: 30% CPU, 70% GPU. */
  function GraphicsPerformance(cpu: nat, gpu: nat): nat {
    GuardedBlend(cpu, gpu, 0.3, 0.7)
  }

  /** `calculateOfficePerformance`: 80% CPU, 20% GPU. */
  function OfficePerformance(cpu: nat, gpu: nat): nat {
    GuardedBlend(cpu, gpu, 0.8, 0.2)
  }

  /** Graphics leans on the GPU and office work on the CPU: with the GPU
      the stronger part, the graphics metric is at least the office one,
      and the other way round with the CPU the stronger. */
  lemma GraphicsAgainstOffice(cpu: nat, gpu: nat)
    ensures cpu <= gpu ==> OfficePerformance(cpu, gpu) <= GraphicsPerformance(cpu, gpu)
    ensures gpu <= cpu ==> GraphicsPerformance(cpu, gpu) <= OfficePerformance(cpu, gpu)
  {
    if cpu > 0 && gpu > 0 {
      var office, graphics := Blend(cpu, gpu, 0.8, 0.2), Blend(cpu, gpu, 0.3, 0.7);
      assert graphics - office == 0.5 * (gpu as real - cpu as real);
      if cpu <= gpu { RoundMonotone(office, graphics); }
      if gpu <= cpu { RoundMonotone(graphics, office); }
    }
  }

  // ---------------------------------------------------------------------------
  // Livestream and render
  // ---------------------------------------------------------------------------

  /** The livestream and render metrics of `updateAllPerformanceMetrics`:
      `min(100, round(game * 0.4 + cpu * 0.6))` and
      `min(100, round(graphics * 0.5 + cpu * 0.3 + gpu * 0.2))`. */
  function StreamAndRender(cpu: nat, gpu: nat, game: nat, graphics: nat): (r: (nat, nat))
    ensures r.0 <= MinNat(100, MaxNat(game, cpu))
    ensures r.1 <= MinNat(100, MaxNat(graphics, MaxNat(cpu, gpu)))
  {
    RoundedBlend(game, cpu, 0.4, 0.6);
    var render := graphics as real * 0.5 + cpu as real * 0.3 + gpu as real * 0.2;
    var top := MaxNat(graphics, MaxNat(cpu, gpu));
    assert render <= top as real;
    RoundMonotone(render, top as real);
    (MinNat(100, Round(Blend(game, cpu, 0.4, 0.6))), MinNat(100, Round(render)))
  }

  /** The livestream and render metrics of
      `updateLivestreamAndRenderPerformance`: blends of the gaming, graphics
      and office metrics, scaled by 0.95 and 0.98 and floored. */
  function StreamAndRenderScaled(game: nat, graphics: nat, office: nat): (r: (int, int))
    ensures 0 <= r.0 <= MaxNat(game, MaxNat(graphics, office)) && 0 <= r.1 <= MaxNat(game, MaxNat(graphics, office))
    ensures MaxNat(game, MaxNat(graphics, office)) > 0 ==>
      r.0 < MaxNat(game, MaxNat(graphics, office)) && r.1 < MaxNat(game, MaxNat(graphics, office))
  {
    var top := MaxNat(game, MaxNat(graphics, office)) as real;
    var stream := (game as real * 0.5 + graphics as real * 0.3 + office as real * 0.2) * 0.95;
    var render := (game as real * 0.2 + graphics as real * 0.7 + office as real * 0.1) * 0.98;
    assert stream <= top * 0.95;
    assert render <= top * 0.98;
    (stream.Floor, render.Floor)
  }

  // ---------------------------------------------------------------------------
  // `calculateOverallPerformance`
  // ---------------------------------------------------------------------------

  datatype Rating = Rating(score: int, verdict: string, color: string)

  /** The label and colour of a score: six bands from 90 down. */
  function Rate(score: int): (r: Rating)
    ensures r.score == score
    ensures r.verdict == "Xuất sắc" <==> score >= 90
    ensures r.verdict == "Rất yếu" <==> score < 30
    ensures r.color == "#dc3545" <==> score < 30
  {
    if score >= 90 then Rating(score, "Xuất sắc", "#28a745")
    else if score >= 75 then Rating(score, "Rất tốt", "#4bbf73")
    else if score >= 60 then Rating(score, "Tốt", "#5cb85c")
    else if score >= 45 then Rating(score, "Trung bình", "#f0ad4e")
    else if score >= 30 then Rating(score, "Yếu", "#fd7e14")
    else Rating(score, "Rất yếu", "#dc3545")
  }

  /** The position of a rating's label from the top, 0 for "Xuất sắc". */
  function Tier(r: Rating): nat {
    if r.score >= 90 then 0 else if r.score >= 75 then 1 else if r.score >= 60 then 2
    else if r.score >= 45 then 3 else if r.score >= 30 then 4 else 5
  }

  /** `calculateOverallPerformance(cpu, gpu, type)`: a weighted, scaled,
      rounded score for "gaming", "graphics" and "office", the rounded mean
      otherwise; clamped to 0..100 and labelled. */
  function Overall(cpu: nat, gpu: nat, usage: string): (r: Rating)
    ensures 0 <= r.score <= 100
    ensures r == Rate(r.score)
  {
    var raw :=
      if usage == "gaming" then Round(Blend(cpu, gpu, 0.4, 0.6) * 1.1)
      else if usage == "graphics" then Round(Blend(cpu, gpu, 0.3, 0.7) * 1.05)
      else if usage == "office" then Round(Blend(cpu, gpu, 0.7, 0.3) * 1.2)
      else Round((cpu + gpu) as real / 2.0);
    Rate(MinInt(100, MaxInt(0, raw)))
  }

  /** The overall rating never falls when a score rises, for any usage. */
  lemma OverallMonotone(c1: nat, g1: nat, c2: nat, g2: nat, usage: string)
    requires c1 <= c2 && g1 <= g2
    ensures Overall(c1, g1, usage).score <= Overall(c2, g2, usage).score
    ensures Tier(Overall(c2, g2, usage)) <= Tier(Overall(c1, g1, usage))
  {
    BlendMonotone(c1, g1, c2, g2, 0.4, 0.6);
    BlendMonotone(c1, g1, c2, g2, 0.3, 0.7);
    BlendMonotone(c1, g1, c2, g2, 0.7, 0.3);
    RoundMonotone(Blend(c1, g1, 0.4, 0.6) * 1.1, Blend(c2, g2, 0.4, 0.6) * 1.1);
    RoundMonotone(Blend(c1, g1, 0.3, 0.7) * 1.05, Blend(c2, g2, 0.3, 0.7) * 1.05);
    RoundMonotone(Blend(c1, g1, 0.7, 0.3) * 1.2, Blend(c2, g2, 0.7, 0.3) * 1.2);
    RoundMonotone((c1 + g1) as real / 2.0, (c2 + g2) as real / 2.0);
  }

  /** The scaling lets gaming, graphics and office ratings exceed the plain
      blend: two scores of 90 rate 99 for gaming, where the mean is 90. */
  lemma OverallScaled()
    ensures Overall(90, 90, "gaming").score == 99
    ensures Overall(90, 90, "other").score == 90
  {
  }
}
