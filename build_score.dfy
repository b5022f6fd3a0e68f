/** The aggregate build score, the recommendation band it falls in, and the
    CPU-versus-mainboard upgrade hint shown beside it. Per-component scores
    are on the catalog's 0-10 scale; a score that is not a number is `None`. */
module BuildScore {
  import opened Wrappers

  /** The eight component scores the page sums (hdd and monitor take no part). */
  datatype Scores = Scores(
    cpu: Option<real>, mainboard: Option<real>, vga: Option<real>, ssd: Option<real>,
    psu: Option<real>, chassis: Option<real>, cooler: Option<real>, ram: Option<real>)
  {
    function All(): seq<Option<real>> {
      [cpu, mainboard, vga, ssd, psu, chassis, cooler, ram]
    }
  }

  /** The five recommendation bands, weakest first. */
  datatype Advice = Weak | Decent | Fair | Strong | Overkill

  datatype Hint = NoHint | UpgradeMainboard | UpgradeCpu

  /** What one scoring pass shows: the total in hundredths (the `toFixed(2)`
      text read as a number), the band message if any, and the upgrade hint. */
  datatype Report = Report(hundredths: int, advice: Option<Advice>, hint: Hint)

  /** The sum of the numeric scores in `xs`; non-numeric ones are skipped. */
  function SumPresent(xs: seq<Option<real>>): real {
    if xs == [] then 0.0
    else (if xs[0].Some? then xs[0].value else 0.0) + SumPresent(xs[1..])
  }

  lemma {:induction false} SumPresentBounds(xs: seq<Option<real>>, hi: real)
    requires 0.0 <= hi
    requires forall i :: 0 <= i < |xs| && xs[i].Some? ==> 0.0 <= xs[i].value <= hi
    ensures 0.0 <= SumPresent(xs) <= hi * |xs| as real
  {
    if xs != [] {
      SumPresentBounds(xs[1..], hi);
    }
  }

  lemma {:induction false} SumPresentNone(xs: seq<Option<real>>)
    requires forall i :: 0 <= i < |xs| ==> xs[i].None?
    ensures SumPresent(xs) == 0.0
  {
    if xs != [] {
      SumPresentNone(xs[1..]);
    }
  }

  /** `x.toFixed(2)` as a count of hundredths: the nearest one, with a
      half-way value rounded away from zero. */
  function Hundredths(x: real): (h: int)
    ensures h as real - 0.5 <= 100.0 * x <= h as real + 0.5
    ensures 0.0 <= x ==> 100.0 * x < h as real + 0.5 && 0 <= h
    ensures x < 0.0 ==> h as real - 0.5 < 100.0 * x && h <= 0
  {
    if 0.0 <= x then (100.0 * x + 0.5).Floor else -((-100.0 * x + 0.5).Floor)
  }

  lemma HundredthsMonotone(x: real, y: real)
    requires x <= y
    ensures Hundredths(x) <= Hundredths(y)
  {
    if 0.0 <= x {
      assert 100.0 * x + 0.5 <= 100.0 * y + 0.5;
    } else if y < 0.0 {
      assert -100.0 * y + 0.5 <= -100.0 * x + 0.5;
    }
  }

  /** The total shown on the page: the mean over all eight slots, absent
      scores counting as nothing but still dividing. */
  function Total(s: Scores): (h: int)
    ensures h as real - 0.5 <= 100.0 * SumPresent(s.All()) / 8.0 <= h as real + 0.5
  {
    Hundredths(SumPresent(s.All()) / 8.0)
  }

  /** The first band the total (in hundredths) falls in; none above 10. */
  function Band(h: int): (a: Option<Advice>)
    ensures a.None? <==> h > 1000
    ensures a == Some(Weak) <==> h <= 250
    ensures a == Some(Decent) <==> 250 < h <= 400
    ensures a == Some(Fair) <==> 400 < h <= 600
    ensures a == Some(Strong) <==> 600 < h <= 800
    ensures a == Some(Overkill) <==> 800 < h <= 1000
  {
    if h <= 250 then Some(Weak)
    else if h <= 400 then Some(Decent)
    else if h <= 600 then Some(Fair)
    else if h <= 800 then Some(Strong)
    else if h <= 1000 then Some(Overkill)
    else None
  }

  function Rank(a: Advice): nat {
    match a
    case Weak => 0
    case Decent => 1
    case Fair => 2
    case Strong => 3
    case Overkill => 4
  }

  /** A higher total never lands in a weaker band. */
  lemma BandMonotone(h1: int, h2: int)
    requires h1 <= h2 <= 1000
    ensures Band(h1).Some? && Band(h2).Some?
    ensures Rank(Band(h1).value) <= Rank(Band(h2).value)
  {
  }

  /** The upgrade hint compares the CPU score with the mainboard score. */
  function UpgradeHint(cpu: Option<real>, board: Option<real>): (r: Hint)
    ensures r == UpgradeMainboard <==> cpu.Some? && board.Some? && cpu.value - board.value >= 3.0
    ensures r == UpgradeCpu <==> cpu.Some? && board.Some? && cpu.value - board.value <= -3.0
  {
    if cpu.None? || board.None? then NoHint
    else if cpu.value - board.value >= 3.0 then UpgradeMainboard
    else if cpu.value - board.value <= -3.0 then UpgradeCpu
    else NoHint
  }

  /** Swapping the two scores swaps the two hints. */
  lemma UpgradeHintSwap(a: Option<real>, b: Option<real>)
    ensures UpgradeHint(a, b) == UpgradeMainboard <==> UpgradeHint(b, a) == UpgradeCpu
    ensures UpgradeHint(a, b) == NoHint <==> UpgradeHint(b, a) == NoHint
  {
  }

  function Summarize(s: Scores): (r: Report)
    ensures r.hundredths == Total(s) && r.advice == Band(Total(s))
    ensures r.hint == UpgradeHint(s.cpu, s.mainboard)
  {
    Report(Total(s), Band(Total(s)), UpgradeHint(s.cpu, s.mainboard))
  }

  /** With nothing numeric the total is 0.00 and the weakest band shows. */
  lemma SummarizeNothing(s: Scores)
    requires forall i :: 0 <= i < 8 ==> s.All()[i].None?
    ensures Summarize(s) == Report(0, Some(Weak), NoHint)
  {
    SumPresentNone(s.All());
  }

  /** Scores on the 0-10 scale give a total in [0, 10], which always has a band. */
  lemma SummarizeInRange(s: Scores)
    requires forall i :: 0 <= i < 8 && s.All()[i].Some? ==> 0.0 <= s.All()[i].value <= 10.0
    ensures 0 <= Summarize(s).hundredths <= 1000
    ensures Summarize(s).advice.Some?
  {
    SumPresentBounds(s.All(), 10.0);
  }

  /** Raising one score (here the CPU's) never lowers the total. */
  lemma TotalMonotone(s: Scores, x: real, y: real)
    requires x <= y
    ensures Total(s.(cpu := Some(x))) <= Total(s.(cpu := Some(y)))
  {
    var a := s.(cpu := Some(x)).All();
    var b := s.(cpu := Some(y)).All();
    assert a[1..] == b[1..];
    HundredthsMonotone(SumPresent(a) / 8.0, SumPresent(b) / 8.0);
  }
}
