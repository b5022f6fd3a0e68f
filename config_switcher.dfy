/** The preset switcher of config-switcher.js: clicking a preset copies its
    component IDs into the dropdowns that already offer them; clicking
    "custom" unlocks every dropdown instead. */
module Switcher {
  import opened Wrappers
  import opened Form

  /** One `category: componentID` pair of a preset, in the preset's key order. */
  datatype Entry = Entry(category: string, id: string)

  /** A preset object, as the list `Object.keys` walks. */
  type Config = seq<Entry>

  /** No category is named twice (as in any object literal). */
  predicate Distinct(config: Config) {
    forall i, j :: 0 <= i < j < |config| ==> config[i].category != config[j].category
  }

  // The `configurations` object: five presets and the empty "custom" one.
  // Each preset lists its IDs under the categories in page order (the
  // fallback stops after the cooler), so a preset is written as its IDs.

  /** The preset whose IDs, in order, go under the first categories. */
  function Preset(ids: seq<string>): (config: Config)
    requires |ids| <= |Catalog.Categories|
    ensures |config| == |ids|
    ensures forall i :: 0 <= i < |ids| ==> config[i] == Entry(Catalog.Categories[i], ids[i])
  {
    seq(|ids|, i requires 0 <= i < |ids| => Entry(Catalog.Categories[i], ids[i]))
  }

  const GamingIds: seq<string> := ["13600k", "MSI-Z690", "3070ti", "corsair-32", "samsung-1TB",
    "COSAIR850", "Corsair-5000D", "NZXT-X63", "4tb", "240hz"]

  const OfficeIds: seq<string> := ["12400f", "HNZ-B760", "1660s", "gskill-16", "crucial-500",
    "VSP650", "H510F", "deepcool", "2tb", "office-24"]

  const DesignIds: seq<string> := ["13600k", "MSI-Z690", "4070", "corsair-32", "crucial-500",
    "COSAIR850", "GA3", "CR1000", "4tb", "designer-27"]

  const StreamingIds: seq<string> := ["13400f", "HNZ-B760", "3060", "sstc-16", "crucial-500",
    "VSP750", "GA3", "ID-SE-224", "2tb", "streaming-monitor"]

  const FallbackIds: seq<string> := ["10400f", "H510", "1660s", "adata-8", "crucial-256",
    "VSP650", "H510F", "deepcool"]

  /** The IDs of `configurations[configType]`: `None` (undefined) for an unknown type. */
  function LookupIds(configType: string): (ids: Option<seq<string>>)
    ensures ids.Some? ==> |ids.value| <= |Catalog.Categories|
  {
    match configType
    case "gaming" => Some(GamingIds)
    case "office" => Some(OfficeIds)
    case "design" => Some(DesignIds)
    case "streaming" => Some(StreamingIds)
    case "fallback" => Some(FallbackIds)
    case "custom" => Some([])
    case _ => None
  }

  /** `configurations[configType]`. */
  function Lookup(configType: string): Option<Config> {
    match LookupIds(configType)
    case Some(ids) => Some(Preset(ids))
    case None => None
  }

  // ---------------------------------------------------------------------
  // `applyConfiguration`

  /** Whether a pair takes effect: its dropdown exists and already offers the ID. */
  predicate Takes(s: State, e: Entry) {
    e.category in s.options && e.id in ValuesOf(s.options[e.category])
  }

  /** The page after one pair: an existing dropdown is enabled, and its value
      becomes the ID when the ID is one of its options. */
  function Put(s: State, e: Entry): (t: State)
    requires s.Valid()
    ensures t.Valid() && t.options == s.options
  {
    if e.category !in s.options then s
    else State(s.options,
               if e.id in ValuesOf(s.options[e.category]) then s.values[e.category := e.id] else s.values,
               s.locked[e.category := false])
  }

  /** The page after the pairs of `config`, in order. No option is ever added. */
  function PutAll(s: State, config: Config): (t: State)
    requires s.Valid()
    ensures t.Valid() && t.options == s.options
    decreases |config|
  {
    if config == [] then s else Put(PutAll(s, config[..|config| - 1]), config[|config| - 1])
  }

  /** How many pairs take effect (`changedComponents`). */
  function Count(s: State, config: Config): (n: nat)
    ensures n <= |config|
    ensures n == |config| <==> forall i :: 0 <= i < |config| ==> Takes(s, config[i])
    decreases |config|
  {
    if config == [] then 0
    else Count(s, config[..|config| - 1]) + (if Takes(s, config[|config| - 1]) then 1 else 0)
  }

  /** The page after `applyConfiguration(config)`; a missing preset changes nothing. */
  function Applied(s: State, config: Option<Config>): (t: State)
    requires s.Valid()
    ensures t.Valid() && t.options == s.options
    ensures config.None? ==> t == s
  {
    match config
    case None => s
    case Some(c) => PutAll(s, c)
  }

  /** A dropdown no pair names keeps its value and its flag. */
  lemma {:induction false} PutAllOthers(s: State, config: Config, c: string)
    requires s.Valid() && c in s.values
    requires forall i :: 0 <= i < |config| ==> config[i].category != c
    ensures PutAll(s, config).values[c] == s.values[c] && PutAll(s, config).locked[c] == s.locked[c]
    decreases |config|
  {
    if config != [] {
      PutAllOthers(s, config[..|config| - 1], c);
    }
  }

  /** In a preset with distinct categories, a configured dropdown that exists
      ends enabled, and holds the ID exactly when it offers it. */
  lemma {:induction false} PutAllConfigured(s: State, config: Config, i: nat)
    requires s.Valid() && Distinct(config) && i < |config| && config[i].category in s.options
    ensures PutAll(s, config).locked[config[i].category] == false
    ensures PutAll(s, config).values[config[i].category] ==
      (if Takes(s, config[i]) then config[i].id else s.values[config[i].category])
    decreases |config|
  {
    var init := config[..|config| - 1];
    var c := config[i].category;
    if i == |config| - 1 {
      PutAllOthers(s, init, c);
    } else {
      assert init[i] == config[i];
      PutAllConfigured(s, init, i);
    }
  }

  /** The contrast with `updateDropdown`: for an ID a dropdown does not offer,
      a preset leaves the value and the options alone, while choosing the ID
      by hand appends it and selects it. */
  lemma StrictAgainstLenient(s: State, category: string, id: string, cat: Catalog.Catalog)
    requires s.Valid() && category in s.options && id != "" && id !in ValuesOf(s.options[category])
    ensures var t := Applied(s, Some([Entry(category, id)]));
      t.values[category] == s.values[category] && t.options == s.options && t.locked[category] == false
    ensures var u := Chosen(s, category, id, cat);
      u.values[category] == id && |u.options[category]| == |s.options[category]| + 1
  {
    assert [Entry(category, id)][..0] == [];
    assert PutAll(s, [Entry(category, id)]) == Put(s, Entry(category, id));
    ChosenSelects(s, category, id, cat);
  }

  /** The page model's `applyConfiguration(config)`, returning
      `attemptedComponents` and `changedComponents`. */
  method ApplyConfiguration(page: Page, config: Option<Config>) returns (attempted: nat, changed: nat)
    requires page.Snapshot().Valid()
    modifies page
    ensures page.Snapshot() == Applied(old(page.Snapshot()), config)
    ensures attempted == (if config.Some? then |config.value| else 0)
    ensures changed == (if config.Some? then Count(old(page.Snapshot()), config.value) else 0)
  {
    if config.None? {
      return 0, 0;
    }
    var entries := config.value;
    ghost var s := page.Snapshot();
    var options, values, locked := page.options, page.values, page.locked;
    attempted, changed := 0, 0;
    var i := 0;
    while i < |entries|
      invariant 0 <= i <= |entries|
      invariant page.Snapshot() == s && options == s.options
      invariant State(options, values, locked) == PutAll(s, entries[..i])
      invariant attempted == i && changed == Count(s, entries[..i])
    {
      var e := entries[i];
      PutAllStep(s, entries, i);
      attempted := attempted + 1;
      if e.category in options {
        locked := locked[e.category := false];
        var offered := e.id in ValuesOf(options[e.category]);
        if offered {
          values := values[e.category := e.id];
          changed := changed + 1;
        }
      }
      i := i + 1;
    }
    assert entries[..i] == entries;
    assert Applied(s, config) == State(options, values, locked);
    page.values, page.locked := values, locked;
    assert page.Snapshot() == State(options, values, locked);
  }

  lemma PutAllStep(s: State, config: Config, i: nat)
    requires s.Valid() && i < |config|
    ensures PutAll(s, config[..i + 1]) == Put(PutAll(s, config[..i]), config[i])
    ensures Count(s, config[..i + 1]) == Count(s, config[..i]) + (if Takes(s, config[i]) then 1 else 0)
  {
    assert config[..i + 1][..i] == config[..i];
  }

  // ---------------------------------------------------------------------
  // `highlightCustomOption`

  /** A list with only the placeholder (value "") disabled. */
  function Unblocked(opts: seq<Opt>): (r: seq<Opt>)
    ensures |r| == |opts|
    ensures forall k :: 0 <= k < |r| ==> (r[k].disabled <==> r[k].value == "")
    ensures forall k :: 0 <= k < |r| ==>
      r[k].value == opts[k].value && r[k].caption == opts[k].caption && r[k].hidden == opts[k].hidden
  {
    if opts == [] then [] else [opts[0].(disabled := opts[0].value == "")] + Unblocked(opts[1..])
  }

  /** The page after `highlightCustomOption`, which acts only when the
      "custom" preset button exists. */
  function Highlighted(s: State, present: bool): State {
    if !present then s
    else State(map id | id in s.options :: Unblocked(s.options[id]), s.values, map id | id in s.locked :: false)
  }

  lemma UnblockedValues(opts: seq<Opt>)
    ensures ValuesOf(Unblocked(opts)) == ValuesOf(opts)
  {
  }

  /** Unlocking keeps the page well formed: values stay among the options. */
  lemma HighlightedValid(s: State, present: bool)
    requires s.Valid()
    ensures Highlighted(s, present).Valid()
  {
    if present {
      var t := Highlighted(s, true);
      forall id | id in t.values
        ensures t.values[id] == "" || t.values[id] in ValuesOf(t.options[id])
      {
        UnblockedValues(s.options[id]);
      }
    }
  }

  /** The inner loop of `highlightCustomOption` over one dropdown's options. */
  method UnblockOptions(opts: seq<Opt>) returns (r: seq<Opt>)
    ensures r == Unblocked(opts)
  {
    r := opts;
    var k := 0;
    while k < |r|
      invariant 0 <= k <= |r| == |opts|
      invariant forall m :: 0 <= m < k ==> r[m] == opts[m].(disabled := opts[m].value == "")
      invariant forall m :: k <= m < |r| ==> r[m] == opts[m]
    {
      r := r[k := r[k].(disabled := r[k].value == "")];
      k := k + 1;
    }
    assert forall m :: 0 <= m < |r| ==> r[m] == Unblocked(opts)[m];
  }

  /** The page model's `highlightCustomOption`: every dropdown is enabled and
      every option but the placeholder becomes selectable; the selections
      stay as they are. */
  method HighlightCustomOption(page: Page, present: bool)
    requires page.Snapshot().Valid()
    modifies page
    ensures page.Snapshot() == Highlighted(old(page.Snapshot()), present)
  {
    if !present {
      return;
    }
    ghost var s := page.Snapshot();
    var options, locked := page.options, page.locked;
    var pending := options.Keys;
    while pending != {}
      invariant Unlocking(s, options, locked, pending)
      modifies {}
      decreases |pending|
    {
      var id :| id in pending;
      UnlockingStep(s, options, locked, pending, id);
      var opts := UnblockOptions(options[id]);
      options := options[id := opts];
      locked := locked[id := false];
      pending := pending - {id};
    }
    HighlightedAll(s, options, locked);
    page.options, page.locked := options, locked;
  }

  /** Halfway through `highlightCustomOption`: the dropdowns still `pending`
      are as they were, the others are unlocked. */
  ghost predicate Unlocking(s: State, options: map<string, seq<Opt>>, locked: map<string, bool>, pending: set<string>) {
    pending <= s.options.Keys &&
    options.Keys == s.options.Keys && locked.Keys == s.locked.Keys &&
    (forall id :: id in s.options ==> options[id] == (if id in pending then s.options[id] else Unblocked(s.options[id]))) &&
    (forall id :: id in s.locked ==> locked[id] == (if id in pending then s.locked[id] else false))
  }

  lemma UnlockingStep(s: State, options: map<string, seq<Opt>>, locked: map<string, bool>, pending: set<string>, id: string)
    requires s.options.Keys == s.locked.Keys && Unlocking(s, options, locked, pending) && id in pending
    ensures id in options && options[id] == s.options[id]
    ensures Unlocking(s, options[id := Unblocked(options[id])], locked[id := false], pending - {id})
  {
  }

  /** Once every dropdown has been visited, the page is `Highlighted`. */
  lemma HighlightedAll(s: State, options: map<string, seq<Opt>>, locked: map<string, bool>)
    requires s.Valid() && Unlocking(s, options, locked, {})
    ensures Highlighted(s, true) == State(options, s.values, locked)
  {
    var t := Highlighted(s, true);
    assert t.options == options;
    assert t.locked == locked;
  }

  // ---------------------------------------------------------------------
  // The click handler of a preset button

  /** A click on the button for `configType`: "custom" unlocks the page,
      anything else applies `configurations[configType]`. */
  function Clicked(s: State, configType: string, customPresent: bool): State
    requires s.Valid()
  {
    if configType != "custom" then Applied(s, Lookup(configType)) else Highlighted(s, customPresent)
  }

  /** "custom" keeps every selection, and an unknown type changes nothing. */
  lemma ClickedCustom(s: State, configType: string, customPresent: bool)
    requires s.Valid()
    ensures configType == "custom" ==> Clicked(s, configType, customPresent).values == s.values
    ensures Lookup(configType).None? ==> Clicked(s, configType, customPresent) == s
  {
  }

  /** The ten categories are ten different names. */
  lemma CategoriesDistinct()
    ensures forall i, j :: 0 <= i < j < |Catalog.Categories| ==> Catalog.Categories[i] != Catalog.Categories[j]
  {
  }

  /** Every preset names each category at most once. */
  lemma PresetsDistinct(configType: string)
    requires Lookup(configType).Some?
    ensures Distinct(Lookup(configType).value)
  {
    var config := Preset(LookupIds(configType).value);
    CategoriesDistinct();
    forall i, j | 0 <= i < j < |config| ensures config[i].category != config[j].category {
      assert config[i].category == Catalog.Categories[i] && config[j].category == Catalog.Categories[j];
    }
  }

  /** A preset click never adds an option, enables every configured dropdown
      that exists and selects the preset's ID exactly where it is offered. */
  lemma ClickedPreset(s: State, configType: string, customPresent: bool, i: nat)
    requires s.Valid() && configType != "custom" && Lookup(configType).Some?
    requires i < |Lookup(configType).value| && Lookup(configType).value[i].category in s.options
    ensures var t := Clicked(s, configType, customPresent); var e := Lookup(configType).value[i];
      t.options == s.options && t.locked[e.category] == false &&
      t.values[e.category] == (if e.id in ValuesOf(s.options[e.category]) then e.id else s.values[e.category])
  {
    PresetsDistinct(configType);
    PutAllConfigured(s, Lookup(configType).value, i);
  }

  /** The click handler. */
  method OnConfigClick(page: Page, configType: string, customPresent: bool)
    requires page.Snapshot().Valid()
    modifies page
    ensures page.Snapshot() == Clicked(old(page.Snapshot()), configType, customPresent)
  {
    if configType != "custom" {
      var attempted, changed := ApplyConfiguration(page, Lookup(configType));
    } else {
      HighlightCustomOption(page, customPresent);
    }
  }
}
