/**
 * The tool record and its closed enumerations, with the two constant lookup
 * tables for categories and privacy tiers.
 */
module ToolTypes {
  import opened Wrappers

  /** `ToolCategory`: a closed set of five string literals. */
  datatype Category = Text | Calculator | Generator | Developer | Converter

  /** The string literal that stands for each category. */
  function CategoryName(c: Category): (name: string)
  {
    match c
    case Text => "text"
    case Calculator => "calculator"
    case Generator => "generator"
    case Developer => "developer"
    case Converter => "converter"
  }

  /**
   * The category a string names, if any: the five literals are the only
   * strings a `ToolCategory` can hold.
   */
  function ParseCategory(s: string): (r: Option<Category>)
    ensures r.Some? ==> CategoryName(r.value) == s
    ensures r.None? ==> forall c: Category :: CategoryName(c) != s
  {
    if s == "text" then Some(Text)
    else if s == "calculator" then Some(Calculator)
    else if s == "generator" then Some(Generator)
    else if s == "developer" then Some(Developer)
    else if s == "converter" then Some(Converter)
    else None
  }

  /** Distinct categories have distinct names, and each name parses back. */
  lemma CategoryNameRoundTrip(c: Category, d: Category)
    ensures ParseCategory(CategoryName(c)) == Some(c)
    ensures CategoryName(c) == CategoryName(d) ==> c == d
  {
  }

  /** `ToolType`: where a tool's implementation comes from. */
  datatype ToolType = V1Port | ItToolsPort | Native

  /** `PrivacyTier`: the numbers 1, 2 and 3. */
  type PrivacyTier = t: int | 1 <= t <= 3 witness 1

  /**
   * `Tool`. Optional fields are `Option`s; `featured` counts as set only
   * when it is `Some(true)`. The metadata fields without behaviour
   * (`disclaimer`, `component`, `legacyPath`, `author`, `version`,
   * `lastUpdated`) are not part of this model.
   */
  datatype Tool = Tool(
    id: string,
    name: string,
    description: string,
    icon: string,
    category: Category,
    keywords: seq<string>,
    toolType: ToolType,
    featured: Option<bool> := None,
    tier: Option<PrivacyTier> := None,
    privacyNote: Option<string> := None)
  {
    predicate IsFeatured()
    {
      featured == Some(true)
    }
  }

  /** `ToolCategoryInfo`. */
  datatype CategoryInfo = CategoryInfo(id: Category, name: string, description: string, icon: string)

  /** `TOOL_CATEGORIES`: a record keyed by every `ToolCategory`. */
  const ToolCategories: map<Category, CategoryInfo> := map[
    Text := CategoryInfo(Text, "Text Tools", "Process and manipulate text with ease", "📝"),
    Calculator := CategoryInfo(Calculator, "Calculators", "Quick and accurate calculations", "🔢"),
    Generator := CategoryInfo(Generator, "Generators", "Generate random content and codes", "🎲"),
    Developer := CategoryInfo(Developer, "Developer Tools", "Essential tools for developers", "💻"),
    Converter := CategoryInfo(Converter, "Converters", "Convert between formats and types", "🔄")
  ]

  /** `TOOL_CATEGORIES` is total, and each entry's `id` is its own key. */
  lemma ToolCategoriesTotal(c: Category)
    ensures c in ToolCategories && ToolCategories[c].id == c
  {
  }

  /** One entry of `PRIVACY_TIERS`. */
  datatype TierInfo = TierInfo(name: string, color: string, icon: string, description: string)

  /** `PRIVACY_TIERS`: display data for each privacy tier. */
  const PrivacyTiers: map<PrivacyTier, TierInfo> := map[
    1 := TierInfo("Client-Side Only", "green", "🟢",
                  "All processing in your browser. No data sent to servers."),
    2 := TierInfo("Uses Trusted API", "yellow", "🟡",
                  "Uses privacy-focused third-party services."),
    3 := TierInfo("Server-Assisted", "orange", "🟠",
                  "Processing may require our server. Minimal logging, auto-deleted.")
  ]

  /** `PRIVACY_TIERS` has exactly one entry per tier. */
  lemma PrivacyTiersExactlyTiers(t: int)
    ensures t in PrivacyTiers.Keys <==> 1 <= t <= 3
  {
  }
}
