/** The configurator page as the engine sees it: one dropdown per component
    category, each with its option list, its current value and its
    `disabled` flag. Rendering (labels as text, cards, modals) is not part
    of the model; an option's label is kept as the data it is built from. */
module Form {
  import opened Wrappers
  import opened Catalog
  import BuildScore

  /** What an option is labelled with. */
  datatype Label =
    | Prompt(category: string)           // the placeholder "Chọn <category>"
    | Listing(name: string, price: int)  // "<name> - <price> VNĐ"
    | Raw(text: string)                  // the bare component ID

  /** One `<option>`: value, caption, `disabled`, and whether `display` is `none`. */
  datatype Opt = Opt(value: string, caption: Label, disabled: bool, hidden: bool)

  function ValuesOf(opts: seq<Opt>): (vs: seq<string>)
    ensures |vs| == |opts| && forall i :: 0 <= i < |opts| ==> vs[i] == opts[i].value
  {
    seq(|opts|, i requires 0 <= i < |opts| => opts[i].value)
  }

  /** The abstract value of the page: dropdown ID to options, value and `disabled`. */
  datatype State = State(options: map<string, seq<Opt>>, values: map<string, string>, locked: map<string, bool>)
  {
    /** Every dropdown has all three parts, and a dropdown's value is either
        empty (nothing selected) or the value of one of its options. */
    predicate Valid() {
      options.Keys == values.Keys && values.Keys == locked.Keys &&
      forall id :: id in values ==> values[id] == "" || values[id] in ValuesOf(options[id])
    }
  }

  /** The record a non-empty selection names (`key && components[category]?.[key]`). */
  function Picked(cat: Catalog, category: string, key: string): (r: Option<Part>)
    ensures r.Some? <==> key != "" && Find(cat, category, key).Some?
    ensures r.Some? ==> r == Find(cat, category, key)
  {
    if key == "" then None else Find(cat, category, key)
  }

  /** How a catalog entry is labelled; an ID without a record shows as itself. */
  function LabelFor(cat: Catalog, category: string, key: string): (l: Label)
    ensures Find(cat, category, key).Some? <==> l.Listing?
    ensures l.Listing? ==> l == Listing(Find(cat, category, key).value.name, Find(cat, category, key).value.price)
  {
    match Find(cat, category, key)
    case Some(p) => Listing(p.name, p.price)
    case None => Raw(key)
  }

  // ---------------------------------------------------------------------
  // The compatibility filter of `updateScores`

  /** Whether a record of `category` ("mainboard" or "ram") may be combined
      with the CPU and with the mainboard that was selected before the pass. */
  predicate Compatible(category: string, cpu: Part, board: Option<Part>, rec: Part) {
    match cpu.spec
    case CpuSpec(socket, ramSupport) =>
      if category == "mainboard" then
        rec.spec.BoardSpec? && socket in rec.spec.sockets
      else
        rec.spec.RamSpec? && rec.spec.kind in ramSupport &&
        board.Some? && board.value.spec.BoardSpec? && board.value.spec.memoryType == rec.spec.kind
    case _ => false
  }

  /** One option after the check: shown and enabled when compatible, hidden
      and disabled otherwise. `None` where the check throws: the option has a
      record but the selected CPU key names none, so reading its attributes fails. */
  function Judge(category: string, o: Opt, cpu: Option<Part>, board: Option<Part>, cat: Catalog): Option<Opt> {
    var rec := Find(cat, category, o.value);
    if rec.None? then Some(o.(disabled := true, hidden := true))
    else if cpu.None? then None
    else
      var on := Compatible(category, cpu.value, board, rec.value);
      Some(o.(disabled := !on, hidden := !on))
  }

  /** A pass over one option list: the list afterwards, whether any option
      ended enabled, and whether the pass ran to the end. */
  datatype Pass = Pass(opts: seq<Opt>, anyOn: bool, completed: bool)

  /** `done` followed by the pass over the rest. */
  function Glue(done: seq<Opt>, anyOn: bool, rest: Pass): Pass {
    Pass(done + rest.opts, anyOn || rest.anyOn, rest.completed)
  }

  /** The pass over `opts`; when it throws, the options from there on stay as they were. */
  function Filtered(category: string, opts: seq<Opt>, cpu: Option<Part>, board: Option<Part>, cat: Catalog): (r: Pass)
    ensures |r.opts| == |opts|
    decreases |opts|
  {
    if opts == [] then Pass([], false, true)
    else match Judge(category, opts[0], cpu, board, cat)
      case None => Pass(opts, false, false)
      case Some(o) => Glue([o], !o.disabled, Filtered(category, opts[1..], cpu, board, cat))
  }

  /** A pass changes no option's value or caption. */
  lemma {:induction false} FilteredKeeps(category: string, opts: seq<Opt>, cpu: Option<Part>, board: Option<Part>, cat: Catalog)
    ensures var r := Filtered(category, opts, cpu, board, cat);
      forall i :: 0 <= i < |opts| ==> r.opts[i].value == opts[i].value && r.opts[i].caption == opts[i].caption
    ensures ValuesOf(Filtered(category, opts, cpu, board, cat).opts) == ValuesOf(opts)
    decreases |opts|
  {
    if opts != [] {
      if Judge(category, opts[0], cpu, board, cat).Some? {
        FilteredKeeps(category, opts[1..], cpu, board, cat);
        var r := Filtered(category, opts, cpu, board, cat);
        var t := Filtered(category, opts[1..], cpu, board, cat);
        assert forall i :: 1 <= i < |opts| ==> r.opts[i] == t.opts[i - 1] && opts[i] == opts[1..][i - 1];
      }
    }
  }

  /** A completed pass judges every option, and reports whether any option
      ended enabled. */
  lemma {:induction false} FilteredRule(category: string, opts: seq<Opt>, cpu: Option<Part>, board: Option<Part>, cat: Catalog)
    requires Filtered(category, opts, cpu, board, cat).completed
    ensures var r := Filtered(category, opts, cpu, board, cat);
      (forall i :: 0 <= i < |opts| ==> Judge(category, opts[i], cpu, board, cat) == Some(r.opts[i])) &&
      (r.anyOn <==> exists i :: 0 <= i < |opts| && !r.opts[i].disabled)
    decreases |opts|
  {
    if opts != [] {
      FilteredRule(category, opts[1..], cpu, board, cat);
      var r := Filtered(category, opts, cpu, board, cat);
      var t := Filtered(category, opts[1..], cpu, board, cat);
      assert forall i :: 1 <= i < |opts| ==> r.opts[i] == t.opts[i - 1] && opts[i] == opts[1..][i - 1];
      if r.anyOn && r.opts[0].disabled {
        var k :| 0 <= k < |opts[1..]| && !t.opts[k].disabled;
        assert !r.opts[k + 1].disabled;
      }
    }
  }

  /** The pass throws exactly when the CPU key names no record and some
      option has one. */
  lemma {:induction false} FilteredCompletes(category: string, opts: seq<Opt>, cpu: Option<Part>, board: Option<Part>, cat: Catalog)
    ensures Filtered(category, opts, cpu, board, cat).completed <==>
      cpu.Some? || forall i :: 0 <= i < |opts| ==> Find(cat, category, opts[i].value).None?
    decreases |opts|
  {
    if opts != [] {
      FilteredCompletes(category, opts[1..], cpu, board, cat);
      assert forall i :: 1 <= i < |opts| ==> opts[i] == opts[1..][i - 1];
    }
  }

  lemma GlueTwice(done: seq<Opt>, anyOn: bool, o: Opt, rest: Pass)
    ensures Glue(done, anyOn, Glue([o], !o.disabled, rest)) == Glue(done + [o], anyOn || !o.disabled, rest)
  {
    assert done + ([o] + rest.opts) == (done + [o]) + rest.opts;
  }

  /** One step of the pass: the option at `i`, then the rest. */
  lemma FilteredStep(category: string, opts: seq<Opt>, i: nat, cpu: Option<Part>, board: Option<Part>, cat: Catalog)
    requires i < |opts|
    ensures Filtered(category, opts[i..], cpu, board, cat) ==
      match Judge(category, opts[i], cpu, board, cat)
      case None => Pass(opts[i..], false, false)
      case Some(o) => Glue([o], !o.disabled, Filtered(category, opts[i + 1..], cpu, board, cat))
  {
    assert opts[i..][0] == opts[i] && opts[i..][1..] == opts[i + 1..];
  }

  /** The loop of `updateScores` over one option list, against `Filtered`. */
  method FilterOptions(category: string, opts: seq<Opt>, cpu: Option<Part>, board: Option<Part>, cat: Catalog)
    returns (r: Pass)
    ensures r == Filtered(category, opts, cpu, board, cat)
  {
    var done: seq<Opt> := [];
    var anyOn := false;
    var i := 0;
    assert opts[0..] == opts;
    while i < |opts|
      invariant 0 <= i <= |opts| && |done| == i
      invariant Filtered(category, opts, cpu, board, cat) == Glue(done, anyOn, Filtered(category, opts[i..], cpu, board, cat))
    {
      FilteredStep(category, opts, i, cpu, board, cat);
      var j := Judge(category, opts[i], cpu, board, cat);
      ghost var rest := Filtered(category, opts[i..], cpu, board, cat);
      if j.None? {
        assert rest == Pass(opts[i..], false, false);
        return Pass(done + opts[i..], anyOn, false);
      }
      assert rest == Glue([j.value], !j.value.disabled, Filtered(category, opts[i + 1..], cpu, board, cat));
      GlueTwice(done, anyOn, j.value, Filtered(category, opts[i + 1..], cpu, board, cat));
      done := done + [j.value];
      anyOn := anyOn || !j.value.disabled;
      i := i + 1;
    }
    assert opts[i..] == [];
    return Pass(done, anyOn, true);
  }

  /** What a call of `updateScores` did. */
  datatype Outcome = Skipped | Aborted | Scored(report: BuildScore.Report)

  function ScoreOf(cat: Catalog, category: string, key: string): Option<real> {
    match Picked(cat, category, key)
    case Some(p) => p.score
    case None => None
  }

  /** The page has the eight dropdowns `updateScores` needs. */
  predicate HasScoredIds(s: State) {
    "cpu" in s.options && "mainboard" in s.options && "vga" in s.options && "ssd" in s.options &&
    "psu" in s.options && "case" in s.options && "cpuCooler" in s.options && "ram" in s.options
  }

  /** A pass's result written back to dropdown `id`; when the pass ran to the
      end without enabling anything, the dropdown's selection is cleared. */
  function Apply(s: State, id: string, p: Pass): State {
    State(s.options[id := p.opts],
          if p.completed && !p.anyOn then s.values[id := ""] else s.values,
          s.locked)
  }

  lemma ApplyValid(s: State, id: string, p: Pass)
    requires s.Valid() && id in s.options && ValuesOf(p.opts) == ValuesOf(s.options[id])
    ensures Apply(s, id, p).Valid()
    ensures Apply(s, id, p).options.Keys == s.options.Keys
  {
  }

  /** The scores summed: the mainboard's under the key read before the
      passes, the RAM's under the RAM selection after them. */
  function Summary(s: State, ramKey: string, cat: Catalog): BuildScore.Report
    requires HasScoredIds(s) && s.Valid()
  {
    BuildScore.Summarize(BuildScore.Scores(
      ScoreOf(cat, "cpu", s.values["cpu"]), ScoreOf(cat, "mainboard", s.values["mainboard"]),
      ScoreOf(cat, "vga", s.values["vga"]), ScoreOf(cat, "ssd", s.values["ssd"]),
      ScoreOf(cat, "psu", s.values["psu"]), ScoreOf(cat, "case", s.values["case"]),
      ScoreOf(cat, "cpuCooler", s.values["cpuCooler"]), ScoreOf(cat, "ram", ramKey)))
  }

  /** The mainboard pass of a run on `s`. */
  function BoardPass(s: State, cat: Catalog): Pass
    requires HasScoredIds(s) && s.Valid()
  {
    Filtered("mainboard", s.options["mainboard"], Find(cat, "cpu", s.values["cpu"]), None, cat)
  }

  /** The RAM pass of a run on `s`: it checks against the mainboard selected in `s`. */
  function RamPass(s: State, cat: Catalog): Pass
    requires HasScoredIds(s) && s.Valid()
  {
    Filtered("ram", s.options["ram"], Find(cat, "cpu", s.values["cpu"]), Find(cat, "mainboard", s.values["mainboard"]), cat)
  }

  /** The page state after one run of `updateScores`. The mainboard key is
      read before the mainboard pass, and the RAM pass checks against it
      even when that pass has just cleared it. */
  function After(s: State, cat: Catalog): (t: State)
    requires s.Valid()
    ensures t.Valid() && t.options.Keys == s.options.Keys && t.locked == s.locked
  {
    if !HasScoredIds(s) || s.values["cpu"] == "" then s
    else
      var cpu := Find(cat, "cpu", s.values["cpu"]);
      FilteredKeeps("mainboard", s.options["mainboard"], cpu, None, cat);
      ApplyValid(s, "mainboard", BoardPass(s, cat));
      var s1 := Apply(s, "mainboard", BoardPass(s, cat));
      if !BoardPass(s, cat).completed then s1
      else
        FilteredKeeps("ram", s.options["ram"], cpu, Find(cat, "mainboard", s.values["mainboard"]), cat);
        assert s1.options["ram"] == s.options["ram"];
        ApplyValid(s1, "ram", RamPass(s, cat));
        Apply(s1, "ram", RamPass(s, cat))
  }

  /** What one run of `updateScores` reports. The mainboard score is the one
      under the key read before the passes. */
  function Result(s: State, cat: Catalog): Outcome
    requires s.Valid()
  {
    if !HasScoredIds(s) || s.values["cpu"] == "" then Skipped
    else if !BoardPass(s, cat).completed || !RamPass(s, cat).completed then Aborted
    else Scored(Summary(s, After(s, cat).values["ram"], cat))
  }

  /** Nothing happens without all eight dropdowns or without a CPU selection. */
  lemma RefreshSkips(s: State, cat: Catalog)
    requires s.Valid()
    ensures Result(s, cat).Skipped? <==> !HasScoredIds(s) || s.values["cpu"] == ""
    ensures Result(s, cat).Skipped? ==> After(s, cat) == s
  {
  }

  /** A run throws part-way exactly when the selected CPU key names no record
      while some mainboard or RAM option names one. */
  lemma RefreshAborts(s: State, cat: Catalog)
    requires s.Valid() && HasScoredIds(s) && s.values["cpu"] != ""
    ensures Result(s, cat).Aborted? <==>
      Find(cat, "cpu", s.values["cpu"]).None? &&
      ((exists i :: 0 <= i < |s.options["mainboard"]| && Find(cat, "mainboard", s.options["mainboard"][i].value).Some?) ||
       (exists i :: 0 <= i < |s.options["ram"]| && Find(cat, "ram", s.options["ram"][i].value).Some?))
  {
    var cpu := Find(cat, "cpu", s.values["cpu"]);
    FilteredCompletes("mainboard", s.options["mainboard"], cpu, None, cat);
    FilteredCompletes("ram", s.options["ram"], cpu, Find(cat, "mainboard", s.values["mainboard"]), cat);
  }

  /** The state after a full run, stage by stage. */
  lemma RefreshStages(s: State, cat: Catalog)
    requires s.Valid() && HasScoredIds(s) && s.values["cpu"] != ""
    requires BoardPass(s, cat).completed && RamPass(s, cat).completed
    ensures After(s, cat).options["mainboard"] == BoardPass(s, cat).opts
    ensures After(s, cat).options["ram"] == RamPass(s, cat).opts
    ensures After(s, cat).values["mainboard"] == if BoardPass(s, cat).anyOn then s.values["mainboard"] else ""
    ensures After(s, cat).values["ram"] == if RamPass(s, cat).anyOn then s.values["ram"] else ""
    ensures forall id :: id in s.values && id != "mainboard" && id != "ram" ==> After(s, cat).values[id] == s.values[id]
  {
  }

  lemma BoardJudged(o: Opt, cpu: Option<Part>, cat: Catalog, x: Opt)
    requires Judge("mainboard", o, cpu, None, cat) == Some(x)
    ensures !x.disabled <==>
      var b := Find(cat, "mainboard", o.value);
      b.Some? && cpu.Some? && cpu.value.spec.CpuSpec? && b.value.spec.BoardSpec? &&
      cpu.value.spec.socket in b.value.spec.sockets
    ensures x.hidden == x.disabled
  {
  }

  lemma RamJudged(o: Opt, cpu: Option<Part>, board: Option<Part>, cat: Catalog, x: Opt)
    requires Judge("ram", o, cpu, board, cat) == Some(x)
    ensures !x.disabled <==>
      var m := Find(cat, "ram", o.value);
      m.Some? && cpu.Some? && cpu.value.spec.CpuSpec? && m.value.spec.RamSpec? &&
      m.value.spec.kind in cpu.value.spec.ramSupport &&
      board.Some? && board.value.spec.BoardSpec? && board.value.spec.memoryType == m.value.spec.kind
    ensures x.hidden == x.disabled
  {
  }

  /** In a completed mainboard pass an option ends enabled iff its record
      exists and lists the CPU's socket, and it is hidden iff disabled. */
  lemma BoardRule(opts: seq<Opt>, cpu: Option<Part>, cat: Catalog)
    requires Filtered("mainboard", opts, cpu, None, cat).completed
    ensures var r := Filtered("mainboard", opts, cpu, None, cat);
      forall i :: 0 <= i < |opts| ==>
        (!r.opts[i].disabled <==>
          var b := Find(cat, "mainboard", opts[i].value);
          b.Some? && cpu.Some? && cpu.value.spec.CpuSpec? && b.value.spec.BoardSpec? &&
          cpu.value.spec.socket in b.value.spec.sockets) &&
        r.opts[i].hidden == r.opts[i].disabled
  {
    var r := Filtered("mainboard", opts, cpu, None, cat);
    FilteredRule("mainboard", opts, cpu, None, cat);
    forall i | 0 <= i < |opts|
      ensures (!r.opts[i].disabled <==>
          var b := Find(cat, "mainboard", opts[i].value);
          b.Some? && cpu.Some? && cpu.value.spec.CpuSpec? && b.value.spec.BoardSpec? &&
          cpu.value.spec.socket in b.value.spec.sockets) &&
        r.opts[i].hidden == r.opts[i].disabled
    {
      BoardJudged(opts[i], cpu, cat, r.opts[i]);
    }
  }

  /** In a completed RAM pass an option ends enabled iff its record exists,
      its type is one the CPU supports, and `board` is a record with that
      memory type; it is hidden iff disabled. */
  lemma RamRule(opts: seq<Opt>, cpu: Option<Part>, board: Option<Part>, cat: Catalog)
        requires Filtered("ram", opts, cpu, board, cat).completed
    ensures var r := Filtered("ram", opts, cpu, board, cat);
      forall i :: 0 <= i < |opts| ==>
        (!r.opts[i].disabled <==>
          var m := Find(cat, "ram", opts[i].value);
          m.Some? && cpu.Some? && cpu.value.spec.CpuSpec? && m.value.spec.RamSpec? &&
          m.value.spec.kind in cpu.value.spec.ramSupport &&
          board.Some? && board.value.spec.BoardSpec? && board.value.spec.memoryType == m.value.spec.kind) &&
        r.opts[i].hidden == r.opts[i].disabled
  {
    var r := Filtered("ram", opts, cpu, board, cat);
    FilteredRule("ram", opts, cpu, board, cat);
    forall i | 0 <= i < |opts|
      ensures (!r.opts[i].disabled <==>
          var m := Find(cat, "ram", opts[i].value);
          m.Some? && cpu.Some? && cpu.value.spec.CpuSpec? && m.value.spec.RamSpec? &&
          m.value.spec.kind in cpu.value.spec.ramSupport &&
          board.Some? && board.value.spec.BoardSpec? && board.value.spec.memoryType == m.value.spec.kind) &&
        r.opts[i].hidden == r.opts[i].disabled
    {
      RamJudged(opts[i], cpu, board, cat, r.opts[i]);
    }
  }

  /** After a full run a mainboard option is enabled (and shown) iff its
      record exists and lists the CPU's socket. */
  lemma RefreshBoards(s: State, cat: Catalog)
    requires s.Valid() && HasScoredIds(s) && s.values["cpu"] != ""
    requires BoardPass(s, cat).completed && RamPass(s, cat).completed
    ensures var t := After(s, cat);
      var cpu := Find(cat, "cpu", s.values["cpu"]);
      |t.options["mainboard"]| == |s.options["mainboard"]| &&
      forall i :: 0 <= i < |s.options["mainboard"]| ==>
        (!t.options["mainboard"][i].disabled <==>
          var b := Find(cat, "mainboard", s.options["mainboard"][i].value);
          b.Some? && cpu.Some? && cpu.value.spec.CpuSpec? && b.value.spec.BoardSpec? &&
          cpu.value.spec.socket in b.value.spec.sockets) &&
        t.options["mainboard"][i].hidden == t.options["mainboard"][i].disabled
  {
    RefreshStages(s, cat);
    BoardRule(s.options["mainboard"], Find(cat, "cpu", s.values["cpu"]), cat);
  }

  /** After a full run a RAM option is enabled (and shown) iff its record
      exists, its type is one the CPU supports, and the mainboard selected
      BEFORE the run has a record with that memory type. */
  lemma RefreshRam(s: State, cat: Catalog)
    requires s.Valid() && HasScoredIds(s) && s.values["cpu"] != ""
    requires BoardPass(s, cat).completed && RamPass(s, cat).completed
    ensures var t := After(s, cat);
      var cpu := Find(cat, "cpu", s.values["cpu"]);
      var board := Find(cat, "mainboard", s.values["mainboard"]);
      |t.options["ram"]| == |s.options["ram"]| &&
      forall i :: 0 <= i < |s.options["ram"]| ==>
        (!t.options["ram"][i].disabled <==>
          var m := Find(cat, "ram", s.options["ram"][i].value);
          m.Some? && cpu.Some? && cpu.value.spec.CpuSpec? && m.value.spec.RamSpec? &&
          m.value.spec.kind in cpu.value.spec.ramSupport &&
          board.Some? && board.value.spec.BoardSpec? && board.value.spec.memoryType == m.value.spec.kind) &&
        t.options["ram"][i].hidden == t.options["ram"][i].disabled
  {
    RefreshStages(s, cat);
    RamRule(s.options["ram"], Find(cat, "cpu", s.values["cpu"]), Find(cat, "mainboard", s.values["mainboard"]), cat);
  }

  /** After a full run the mainboard and RAM selections are each cleared iff
      none of that dropdown's options is enabled, and kept otherwise. */
  lemma RefreshClears(s: State, cat: Catalog)
    requires s.Valid() && HasScoredIds(s) && s.values["cpu"] != ""
    requires BoardPass(s, cat).completed && RamPass(s, cat).completed
    ensures var t := After(s, cat);
      (t.values["mainboard"] ==
        if exists i :: 0 <= i < |t.options["mainboard"]| && !t.options["mainboard"][i].disabled
        then s.values["mainboard"] else "") &&
      (t.values["ram"] ==
        if exists i :: 0 <= i < |t.options["ram"]| && !t.options["ram"][i].disabled
        then s.values["ram"] else "")
  {
    RefreshStages(s, cat);
    var cpu := Find(cat, "cpu", s.values["cpu"]);
    FilteredRule("mainboard", s.options["mainboard"], cpu, None, cat);
    FilteredRule("ram", s.options["ram"], cpu, Find(cat, "mainboard", s.values["mainboard"]), cat);
  }

  /** The upgrade hint compares the CPU with the mainboard selected before
      the run, and the dropdowns other than mainboard and RAM keep their selections. */
  lemma RefreshReport(s: State, cat: Catalog)
    requires s.Valid() && HasScoredIds(s) && s.values["cpu"] != ""
    requires BoardPass(s, cat).completed && RamPass(s, cat).completed
    ensures Result(s, cat).report.hint ==
      BuildScore.UpgradeHint(ScoreOf(cat, "cpu", s.values["cpu"]), ScoreOf(cat, "mainboard", s.values["mainboard"]))
    ensures forall id :: id in s.values && id != "mainboard" && id != "ram" ==>
      After(s, cat).values[id] == s.values[id]
  {
    RefreshStages(s, cat);
  }

  // ---------------------------------------------------------------------
  // `updateDropdown`: insert the value if it is missing, then select it

  /** `opts` with an option for `value` appended when no option has that value. */
  function InsertIfMissing(opts: seq<Opt>, value: string, caption: Label): (r: seq<Opt>)
    ensures value in ValuesOf(r)
    ensures opts <= r && |r| <= |opts| + 1
    ensures r == opts <==> value in ValuesOf(opts)
    ensures r != opts ==> r[|opts|] == Opt(value, caption, false, false)
  {
    if value in ValuesOf(opts) then opts
    else
      var r := opts + [Opt(value, caption, false, false)];
      assert ValuesOf(r)[|opts|] == value;
      r
  }

  /** The page after `updateDropdown(id, value)`: nothing changes for a
      missing dropdown or an empty value. */
  function Chosen(s: State, id: string, value: string, cat: Catalog): (t: State)
    requires s.Valid()
    ensures t.Valid()
  {
    if id !in s.options || value == "" then s
    else State(s.options[id := InsertIfMissing(s.options[id], value, LabelFor(cat, id, value))],
               s.values[id := value], s.locked)
  }

  /** After a non-empty value is chosen in an existing dropdown it is selected
      and is one of the options; the old options keep their order and content,
      at most one option is added, and every other dropdown is untouched. */
  lemma ChosenSelects(s: State, id: string, value: string, cat: Catalog)
    requires s.Valid() && id in s.options && value != ""
    ensures var t := Chosen(s, id, value, cat);
      t.values[id] == value && value in ValuesOf(t.options[id]) &&
      s.options[id] <= t.options[id] && |t.options[id]| <= |s.options[id]| + 1 &&
      (forall k :: k in s.options && k != id ==> t.options[k] == s.options[k] && t.values[k] == s.values[k]) &&
      t.locked == s.locked
  {
  }

  /** An added option is labelled from the catalog record when one exists and
      with the bare value otherwise. */
  lemma ChosenCaption(s: State, id: string, value: string, cat: Catalog)
    requires s.Valid() && id in s.options && value != "" && value !in ValuesOf(s.options[id])
    ensures var t := Chosen(s, id, value, cat);
      |t.options[id]| == |s.options[id]| + 1 &&
      t.options[id][|s.options[id]|].caption ==
        (match Find(cat, id, value)
         case Some(p) => Listing(p.name, p.price)
         case None => Raw(value))
  {
  }

  /** Choosing the same value twice is the same as choosing it once. */
  lemma ChosenIdempotent(s: State, id: string, value: string, cat: Catalog)
    requires s.Valid()
    ensures Chosen(Chosen(s, id, value, cat), id, value, cat) == Chosen(s, id, value, cat)
  {
  }

  lemma NoChoice(s: State, id: string, value: string, cat: Catalog)
    requires s.Valid() && (id !in s.options || value == "")
    ensures Chosen(s, id, value, cat) == s
  {
  }

  // ---------------------------------------------------------------------
  // `populateDropdowns`: rebuild every category's option list

  /** A category's list after rebuilding: a disabled placeholder with value
      "" and then one option per catalog entry, in catalog order. */
  function FreshOptions(category: string, cat: Catalog): seq<Opt> {
    [Opt("", Prompt(category), true, false)] + EntryOptions(category, if category in cat then cat[category].keys else [], cat)
  }

  /** One enabled option per key, labelled from the catalog. */
  function EntryOptions(category: string, keys: seq<string>, cat: Catalog): seq<Opt> {
    if keys == [] then []
    else [Opt(keys[0], LabelFor(cat, category, keys[0]), false, false)] + EntryOptions(category, keys[1..], cat)
  }

  lemma {:induction false} EntryOptionsShape(category: string, keys: seq<string>, cat: Catalog)
    ensures var r := EntryOptions(category, keys, cat);
      |r| == |keys| &&
      forall i :: 0 <= i < |keys| ==> r[i] == Opt(keys[i], LabelFor(cat, category, keys[i]), false, false)
  {
    if keys != [] {
      EntryOptionsShape(category, keys[1..], cat);
      var r := EntryOptions(category, keys, cat);
      assert forall i :: 1 <= i < |keys| ==> r[i] == EntryOptions(category, keys[1..], cat)[i - 1] && keys[i] == keys[1..][i - 1];
    }
  }

  /** The rebuilt list's values are "" and then the table's keys in order;
      only the placeholder is disabled, nothing is hidden, and each catalog
      entry is labelled with its record's name and price. */
  lemma FreshOptionsShape(category: string, cat: Catalog)
    ensures var r := FreshOptions(category, cat);
      |r| >= 1 && r[0] == Opt("", Prompt(category), true, false) &&
      ValuesOf(r) == [""] + (if category in cat then cat[category].keys else []) &&
      (forall i :: 1 <= i < |r| ==> !r[i].disabled && !r[i].hidden) &&
      (forall i :: 1 <= i < |r| && Find(cat, category, r[i].value).Some? ==>
        r[i].caption == Listing(Find(cat, category, r[i].value).value.name, Find(cat, category, r[i].value).value.price))
  {
    var keys := if category in cat then cat[category].keys else [];
    EntryOptionsShape(category, keys, cat);
    var r := FreshOptions(category, cat);
    forall i | 1 <= i < |r|
      ensures r[i] == Opt(keys[i - 1], LabelFor(cat, category, keys[i - 1]), false, false)
    {
    }
  }

  /** `t` is `s` with exactly the dropdowns in `done` rebuilt, each with its
      placeholder selected. */
  ghost predicate Refilled(s: State, t: State, done: seq<string>, cat: Catalog) {
    t.options.Keys == s.options.Keys && t.values.Keys == s.values.Keys && t.locked == s.locked &&
    (forall id :: id in s.options ==> t.options[id] == (if id in done then FreshOptions(id, cat) else s.options[id])) &&
    (forall id :: id in s.values ==> t.values[id] == (if id in done then "" else s.values[id]))
  }

  /** One step of the loop: `c`'s list rebuilt and its placeholder selected. */
  function Rebuild(t: State, c: string, cat: Catalog): State {
    State(t.options[c := FreshOptions(c, cat)], t.values[c := ""], t.locked)
  }

  /** What the loop of `populateDropdowns` leaves over the dropdowns `cats`:
      each rebuilt in turn, until the first one the page does not have (a
      `null` entry of `componentSelects`, on which the loop throws). */
  function RefillRun(s: State, cats: seq<string>, cat: Catalog): State
    decreases |cats|
  {
    if cats == [] || cats[0] !in s.options then s else RefillRun(Rebuild(s, cats[0], cat), cats[1..], cat)
  }

  /** How far that loop gets: the position of the first category the page
      has no dropdown for, or `|cats|`. */
  function Reached<V>(cats: seq<string>, present: map<string, V>): (n: nat)
    ensures n <= |cats|
    ensures n < |cats| ==> cats[n] !in present
  {
    if cats == [] || cats[0] !in present then 0 else 1 + Reached(cats[1..], present)
  }

  /** Every dropdown before that position exists, so the loop runs to the end
      exactly when the page has all of them. */
  lemma {:induction false} ReachedPrefix<V>(cats: seq<string>, present: map<string, V>)
    ensures forall i :: 0 <= i < Reached(cats, present) ==> cats[i] in present
    ensures Reached(cats, present) == |cats| <==> forall c :: c in cats ==> c in present
  {
    if cats != [] && cats[0] in present {
      ReachedPrefix(cats[1..], present);
      assert forall i :: 1 <= i < Reached(cats, present) ==> cats[i] == cats[1..][i - 1];
      assert forall c :: c in cats[1..] ==> c in cats;
      assert forall c :: c in cats && c != cats[0] ==> c in cats[1..];
    }
  }

  /** How far the loop gets depends only on which dropdowns exist. */
  lemma {:induction false} ReachedKeys<V>(cats: seq<string>, a: map<string, V>, b: map<string, V>)
    requires a.Keys == b.Keys
    ensures Reached(cats, a) == Reached(cats, b)
  {
    if cats != [] && cats[0] in a {
      ReachedKeys(cats[1..], a, b);
    }
  }

  /** Rebuilding `c` and then the dropdowns `rest` rebuilds `[c] + rest`. */
  lemma RefilledCompose(s: State, u: State, t: State, c: string, rest: seq<string>, cat: Catalog)
    requires Refilled(s, u, [c], cat) && Refilled(u, t, rest, cat)
    ensures Refilled(s, t, [c] + rest, cat)
  {
    forall id | id in s.options
      ensures t.options[id] == (if id in [c] + rest then FreshOptions(id, cat) else s.options[id])
    {
      assert id in [c] + rest <==> id == c || id in rest;
    }
    forall id | id in s.values
      ensures t.values[id] == (if id in [c] + rest then "" else s.values[id])
    {
      assert id in [c] + rest <==> id == c || id in rest;
    }
  }

  /** Rebuilding one dropdown the page has. */
  lemma RebuildOne(s: State, c: string, cat: Catalog)
    requires c in s.options && c in s.values
    ensures Refilled(s, Rebuild(s, c, cat), [c], cat)
  {
    var u := Rebuild(s, c, cat);
    assert u.options.Keys == s.options.Keys && u.values.Keys == s.values.Keys;
  }

  /** The prefix the loop reaches, split after its first dropdown. */
  lemma ReachedSplit<V>(cats: seq<string>, present: map<string, V>)
    requires cats != [] && cats[0] in present
    ensures cats[..Reached(cats, present)] == [cats[0]] + cats[1..][..Reached(cats[1..], present)]
  {
    var m := Reached(cats[1..], present);
    assert Reached(cats, present) == 1 + m;
    assert cats[..1 + m] == [cats[0]] + cats[1..][..m];
  }

  /** The run rebuilds exactly the dropdowns before the first missing one,
      selects their placeholders, and leaves every other dropdown as it was. */
  lemma {:induction false} RefillRunRebuilds(s: State, cats: seq<string>, cat: Catalog)
    requires s.options.Keys == s.values.Keys
    ensures Refilled(s, RefillRun(s, cats, cat), cats[..Reached(cats, s.options)], cat)
    decreases |cats|
  {
    if cats == [] || cats[0] !in s.options {
      assert cats[..Reached(cats, s.options)] == [];
    } else {
      var c, rest := cats[0], cats[1..];
      var u := Rebuild(s, c, cat);
      RebuildOne(s, c, cat);
      RefillRunRebuilds(u, rest, cat);
      ReachedKeys(rest, u.options, s.options);
      ReachedSplit(cats, s.options);
      RefilledCompose(s, u, RefillRun(u, rest, cat), c, rest[..Reached(rest, s.options)], cat);
    }
  }

  /** The loop's step from position `i`, when `cats[i]` has a dropdown: the
      rest of the run, and how far it gets, carry over to the rebuilt page. */
  lemma RefillRunStep(t: State, cats: seq<string>, i: nat, cat: Catalog)
    requires i < |cats| && cats[i] in t.options
    ensures RefillRun(t, cats[i..], cat) == RefillRun(Rebuild(t, cats[i], cat), cats[i + 1..], cat)
    ensures Reached(cats[i..], t.options) == 1 + Reached(cats[i + 1..], Rebuild(t, cats[i], cat).options)
  {
    assert cats[i..][0] == cats[i] && cats[i..][1..] == cats[i + 1..];
    var u := Rebuild(t, cats[i], cat);
    assert u.options.Keys == t.options.Keys;
    ReachedKeys(cats[i + 1..], u.options, t.options);
  }

  /** Rebuilding keeps the page well formed. */
  lemma RefilledValid(s: State, t: State, done: seq<string>, cat: Catalog)
    requires s.Valid() && Refilled(s, t, done, cat)
    ensures t.Valid()
  {
    forall id | id in t.values
      ensures t.values[id] == "" || t.values[id] in ValuesOf(t.options[id])
    {
    }
  }

  // ---------------------------------------------------------------------
  // The price total of `updateSelectedComponents`

  /** What one category adds to the total: the price of the selected record, if any. */
  function Contribution(cat: Catalog, category: string, key: string): int {
    match Picked(cat, category, key)
    case Some(p) => p.price
    case None => 0
  }

  /** The prices of the records selected in the dropdowns `cats`. A category
      without a dropdown counts as nothing selected; `TotalPrice` never sums
      past one. */
  function PriceSum(cats: seq<string>, values: map<string, string>, cat: Catalog): int {
    if cats == [] then 0
    else Contribution(cat, cats[0], if cats[0] in values then values[cats[0]] else "") + PriceSum(cats[1..], values, cat)
  }

  /** With nothing selected the total is 0. */
  lemma {:induction false} PriceSumEmpty(cats: seq<string>, values: map<string, string>, cat: Catalog)
    requires forall c :: c in cats ==> c in values && values[c] == ""
    ensures PriceSum(cats, values, cat) == 0
  {
    if cats != [] {
      PriceSumEmpty(cats[1..], values, cat);
    }
  }

  /** Changing one category's selection changes the total by exactly the
      difference of the two prices. */
  lemma {:induction false} PriceSumUpdate(cats: seq<string>, values: map<string, string>, c: string, v: string, cat: Catalog)
    requires c in values
    requires forall i, j :: 0 <= i < j < |cats| ==> cats[i] != cats[j]
    ensures PriceSum(cats, values[c := v], cat) ==
      PriceSum(cats, values, cat) + (if c in cats then Contribution(cat, c, v) - Contribution(cat, c, values[c]) else 0)
  {
    if cats != [] {
      PriceSumUpdate(cats[1..], values, c, v, cat);
      if cats[0] == c {
        assert c !in cats[1..];
      }
    }
  }

  /** The option list `populateDropdowns` builds for one category. */
  method ListCategory(category: string, cat: Catalog) returns (opts: seq<Opt>)
    ensures opts == FreshOptions(category, cat)
  {
    opts := [Opt("", Prompt(category), true, false)];
    var keys := if category in cat then cat[category].keys else [];
    var j := 0;
    while j < |keys|
      invariant 0 <= j <= |keys|
      invariant opts + EntryOptions(category, keys[j..], cat) == FreshOptions(category, cat)
    {
      assert keys[j..][1..] == keys[j + 1..];
      opts := opts + [Opt(keys[j], LabelFor(cat, category, keys[j]), false, false)];
      j := j + 1;
    }
    assert keys[j..] == [];
  }

  /** The page. Its three maps are what the DOM holds for each dropdown. */
  class Page {
    var options: map<string, seq<Opt>>
    var values: map<string, string>
    var locked: map<string, bool>

    function Snapshot(): State
      reads this
    {
      State(options, values, locked)
    }

    /** `updateScores`: filter the mainboard and RAM lists, clear a list's
        selection when nothing in it fits, and score the build. */
    method UpdateScores(cat: Catalog) returns (outcome: Outcome)
      requires Snapshot().Valid()
      modifies this
      ensures Snapshot().Valid()
      ensures Snapshot() == After(old(Snapshot()), cat)
      ensures outcome == Result(old(Snapshot()), cat)
    {
      ghost var s := Snapshot();
      if !HasScoredIds(Snapshot()) {
        return Skipped;
      }
      var cpuKey := values["cpu"];
      if cpuKey == "" {
        return Skipped;
      }
      var cpu := Find(cat, "cpu", cpuKey);
      var boardKey := values["mainboard"];
      // The passes below touch only the mainboard and RAM dropdowns, so these
      // keys are the ones the source reads after them.
      var vgaKey, ssdKey, psuKey, caseKey, coolerKey := values["vga"], values["ssd"], values["psu"], values["case"], values["cpuCooler"];
      var boards := FilterOptions("mainboard", options["mainboard"], cpu, None, cat);
      options := options["mainboard" := boards.opts];
      if !boards.completed {
        assert Snapshot() == Apply(s, "mainboard", BoardPass(s, cat)) == After(s, cat);
        return Aborted;
      }
      if !boards.anyOn {
        values := values["mainboard" := ""];
      }
      ghost var s1 := Snapshot();
      assert s1 == Apply(s, "mainboard", BoardPass(s, cat));
      var rams := FilterOptions("ram", options["ram"], cpu, Find(cat, "mainboard", boardKey), cat);
      assert rams == RamPass(s, cat);
      options := options["ram" := rams.opts];
      if !rams.completed {
        assert Snapshot() == Apply(s1, "ram", RamPass(s, cat)) == After(s, cat);
        return Aborted;
      }
      if !rams.anyOn {
        values := values["ram" := ""];
      }
      assert Snapshot() == Apply(s1, "ram", RamPass(s, cat));
      var ramKey := values["ram"];
      assert ramKey == After(s, cat).values["ram"];
      outcome := Scored(BuildScore.Summarize(BuildScore.Scores(
        ScoreOf(cat, "cpu", cpuKey), ScoreOf(cat, "mainboard", boardKey),
        ScoreOf(cat, "vga", vgaKey), ScoreOf(cat, "ssd", ssdKey),
        ScoreOf(cat, "psu", psuKey), ScoreOf(cat, "case", caseKey),
        ScoreOf(cat, "cpuCooler", coolerKey), ScoreOf(cat, "ram", ramKey))));
      assert outcome == Scored(Summary(s, ramKey, cat));
    }

    /** `updateDropdown(id, value)` (the change event it fires is not modelled). */
    method UpdateDropdown(id: string, value: string, cat: Catalog)
      requires Snapshot().Valid()
      modifies this
      ensures Snapshot() == Chosen(old(Snapshot()), id, value, cat)
    {
      if id !in options {
        return;
      }
      if value == "" {
        return;
      }
      var existing := ValuesOf(options[id]);
      if value !in existing {
        options := options[id := options[id] + [Opt(value, LabelFor(cat, id, value), false, false)]];
      }
      values := values[id := value];
    }

    /** `populateDropdowns`: rebuild each category's list in turn and select
        its placeholder; dropdowns outside the ten categories are untouched.
        A category with no dropdown ends the run with the TypeError of
        `select.innerHTML`, after the lists before it have been rebuilt. */
    method PopulateDropdowns(cat: Catalog) returns (completed: bool)
      requires Snapshot().Valid()
      modifies this
      ensures Snapshot() == RefillRun(old(Snapshot()), Categories, cat)
      ensures Snapshot().Valid()
      ensures Refilled(old(Snapshot()), Snapshot(), Categories[..Reached(Categories, old(options))], cat)
      ensures completed <==> forall c :: c in Categories ==> c in old(options)
    {
      completed := Refill(Categories, cat);
    }

    /** The loop of `populateDropdowns`, over the dropdowns `cats` in order;
        it stops at the first one the page does not have. */
    method Refill(cats: seq<string>, cat: Catalog) returns (completed: bool)
      requires Snapshot().Valid()
      modifies this
      ensures Snapshot() == RefillRun(old(Snapshot()), cats, cat)
      ensures Snapshot().Valid()
      ensures Refilled(old(Snapshot()), Snapshot(), cats[..Reached(cats, old(options))], cat)
      ensures completed <==> forall c :: c in cats ==> c in old(options)
    {
      ghost var s := Snapshot();
      ghost var n := Reached(cats, s.options);
      var i := 0;
      assert cats[i..] == cats;
      while i < |cats| && cats[i] in options
        invariant 0 <= i <= |cats|
        invariant i + Reached(cats[i..], options) == n
        invariant RefillRun(Snapshot(), cats[i..], cat) == RefillRun(s, cats, cat)
      {
        var category := cats[i];
        ghost var t := Snapshot();
        RefillRunStep(t, cats, i, cat);
        var rebuilt := ListCategory(category, cat);
        options, values := options[category := rebuilt], values[category := ""];
        assert Snapshot() == Rebuild(t, category, cat);
        i := i + 1;
      }
      assert cats[i..] == [] || cats[i..][0] !in options;
      RefillRunRebuilds(s, cats, cat);
      ReachedPrefix(cats, s.options);
      completed := i == |cats|;
      RefilledValid(s, Snapshot(), cats[..n], cat);
    }

    /** The price loop of `updateSelectedComponents` over the ten category
        dropdowns, in page order. A category with no dropdown ends it with the
        TypeError of `select.value`, and no total is shown. */
    method TotalPrice(cat: Catalog) returns (total: Option<int>)
      ensures total.Some? <==> forall c :: c in Categories ==> c in values
      ensures total.Some? ==> total.value == PriceSum(Categories, values, cat)
    {
      var sum := 0;
      var i := 0;
      while i < |Categories|
        invariant 0 <= i <= |Categories|
        invariant forall j :: 0 <= j < i ==> Categories[j] in values
        invariant sum + PriceSum(Categories[i..], values, cat) == PriceSum(Categories, values, cat)
      {
        var category := Categories[i];
        if category !in values {
          return None;
        }
        var key := values[category];
        assert Categories[i..][1..] == Categories[i + 1..];
        if key != "" && Find(cat, category, key).Some? {
          sum := sum + Find(cat, category, key).value.price;
        }
        i := i + 1;
      }
      total := Some(sum);
    }
  }
}
