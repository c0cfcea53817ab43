/** The literal registry: the modules the patcher imports into the settings module. */
module Registry {

  /** Imported in this order, one `import` statement per entry. */
  const MODULES_TO_IMPORT: seq<string> := ["environ", "os"]
}
