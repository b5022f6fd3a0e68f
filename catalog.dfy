/** The component catalog: one table of records per category, keyed by
    opaque component IDs. The data itself lives in modules outside this
    model; only the fields the engine reads are kept. */
module Catalog {
  import opened Wrappers

  /** The category-specific attributes of a record. */
  datatype Spec =
    | CpuSpec(socket: string, ramSupport: seq<string>)
    | BoardSpec(sockets: seq<string>, memoryType: string)
    | RamSpec(kind: string)
    | NoSpec

  /** One component record; `score` is `None` when `Number(record.score)` is NaN. */
  datatype Part = Part(name: string, price: int, score: Option<real>, spec: Spec)

  /** One category: its records and the order in which the object enumerates their keys. */
  datatype Table = Table(keys: seq<string>, parts: map<string, Part>)

  /** The `components` object: category name to table. */
  type Catalog = map<string, Table>

  /** The ten categories in the order the page's `componentSelects` lists them. */
  const Categories: seq<string> :=
    ["cpu", "mainboard", "vga", "ram", "ssd", "psu", "case", "cpuCooler", "hdd", "monitor"]

  /** `components[category]?.[key]`. */
  function Find(cat: Catalog, category: string, key: string): Option<Part> {
    if category in cat && key in cat[category].parts then Some(cat[category].parts[key]) else None
  }
}
