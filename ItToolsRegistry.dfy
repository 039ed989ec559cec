/**
 * The it-tools side table: a second constant table of tools taken from the
 * it-tools project, with its own lookup by id.
 */
module ItToolsRegistry {
  import opened Wrappers
  import opened Sequences
  import opened ToolTypes

  /**
   * `ITTool`. Its `category` is written out as the same five literals as
   * `ToolCategory`, so it has type `Category` here.
   */
  datatype ItTool = ItTool(
    id: string,
    name: string,
    description: string,
    category: Category,
    icon: string,
    component: string,
    keywords: seq<string>)

  /** `IT_TOOLS`, in table order. */
  const ItTools: seq<ItTool> := [
    ItTool("json-to-yaml", "JSON to YAML Converter",
      "Convert JSON to YAML and vice versa with syntax highlighting",
      Converter, "🔄", "JsonToYaml", ["json", "yaml", "converter", "format"]),
    ItTool("uuid-generator", "UUID Generator",
      "Generate UUID/GUID v1, v4, and other versions",
      Generator, "🆔", "UuidGenerator", ["uuid", "guid", "generator", "unique"]),
    ItTool("color-converter", "Color Converter",
      "Convert between HEX, RGB, HSL, and other color formats",
      Converter, "🎨", "ColorConverter", ["color", "hex", "rgb", "hsl", "converter"]),
    ItTool("cron-expression", "Cron Expression Generator",
      "Generate and explain cron expressions",
      Developer, "⏰", "CronExpression", ["cron", "schedule", "expression", "generator"]),
    ItTool("sql-formatter", "SQL Formatter",
      "Format and beautify SQL queries",
      Developer, "💾", "SqlFormatter", ["sql", "formatter", "beautify", "database"])
  ]

  /** The five entries of `IT_TOOLS` have pairwise distinct ids. */
  lemma ItToolIdsDistinct()
    ensures forall i, j :: 0 <= i < j < |ItTools| ==> ItTools[i].id != ItTools[j].id
  {
    var ids := Map(ItTools, (t: ItTool) => t.id);
    assert ids ==
      ["json-to-yaml", "uuid-generator", "color-converter", "cron-expression", "sql-formatter"];
    assert NoDuplicates(ids);
  }

  /** Every `IT_TOOLS` entry is a converter, a generator or a developer tool. */
  lemma ItToolCategories(t: ItTool)
    requires t in ItTools
    ensures t.category in {Converter, Generator, Developer}
    ensures ParseCategory(CategoryName(t.category)) == Some(t.category)
  {
  }

  /**
   * `getITToolById`: the first entry of the table with exactly this id, or
   * `None` when no entry has it.
   */
  function GetItToolById(id: string): (r: Option<ItTool>)
    ensures r.None? <==> forall t :: t in ItTools ==> t.id != id
    ensures r.Some? ==>
      exists i :: 0 <= i < |ItTools| && ItTools[i] == r.value && r.value.id == id &&
        forall j :: 0 <= j < i ==> ItTools[j].id != id
  {
    FindFirst(ItTools, (t: ItTool) => t.id == id)
  }

  /** Each `IT_TOOLS` entry is found by its own id, and nothing else is. */
  lemma GetItToolByIdFindsEntry(t: ItTool)
    requires t in ItTools
    ensures GetItToolById(t.id) == Some(t)
  {
    ItToolIdsDistinct();
    FindFirstUnique(ItTools, (u: ItTool) => u.id == t.id, t);
  }
}
