# Tool registry model

A Dafny model of the tool registry of a static utility website. The site
lists small browser-side tools (word counter, password generator, JSON
formatter, ...). The registry is a constant, ordered table of tool records.
Five query functions run over that table: find by id, filter by category,
filter featured tools, case-insensitive search, and the list of categories
in use. A second constant table holds tools taken from the it-tools project
and has its own find-by-id. The record schema defines a closed set of five
categories, a privacy tier of 1, 2 or 3, and two constant lookup tables for
category and tier display data.

Everything in the core is pure and sequential, so the model is datatypes,
functions and lemmas:

- `Wrappers.dfy` holds `Option`, the model of `T | undefined`.
- `Sequences.dfy` holds the JavaScript array operations the queries are built
  from: `find` (`FindFirst`), `filter` (`Filter`), `map` (`Map`) and
  `Array.from(new Set(xs))` (`Dedup`, which keeps first occurrences in order
  because a JavaScript `Set` iterates in insertion order). Each has its
  characterising lemmas.
- `Strings.dfy` holds `toLowerCase` (`Lower`, ASCII letters only) and
  `includes` (`Includes`). `IncludesIsSubstring` proves that `Includes` is
  exactly the substring relation (`IsSubstring`, "occurs at some index").
- `ToolTypes.dfy` models `src/types/tool.ts`: `Category`, `ToolType`,
  `PrivacyTier` (a subset type of the integers 1 to 3), `Tool`,
  `CategoryInfo`, and the tables `ToolCategories` (`TOOL_CATEGORIES`) and
  `PrivacyTiers` (`PRIVACY_TIERS`).
- `ToolRegistry.dfy` models `src/data/tools-registry.ts`: the 15-entry table
  `Tools` (`TOOLS`) and the five queries.
- `ItToolsRegistry.dfy` models `src/lib/it-tools-registry.ts`: `ItTool`,
  the 5-entry table `ItTools` (`IT_TOOLS`) and `GetItToolById`.

The registry queries take the table they scan as an explicit first argument,
`tools`; the site always passes `Tools`. This separates what each query does
from what the table holds: the queries' contracts hold for any table, and
facts that depend on the literal are separate lemmas about `Tools` (its ids
are distinct, no entry is a converter, no entry sets a tier).
`GetItToolById` reads the constant `ItTools` directly, as the source does.

`getToolsByCategory` takes a plain string and compares it with the tool's
category literal. `CategoryName` gives each `Category` its literal and
`ParseCategory` is its inverse. So a string that is not one of the five
literals selects nothing. `featured` is `Option<bool>`; a tool is featured
exactly when the field is present and true, which is the truthiness test the
source applies to a `boolean | undefined` field.

There is no tier query: `tier` is only a field, and `ToolsEntryShape` proves
that no entry of `TOOLS` sets it.

## Model

| member | source | states |
|---|---|---|
| `Sequences.FindFirst` | src/data/tools-registry.ts:163 | `find` returns `None` exactly when no element satisfies the predicate; otherwise it returns the element at some index that satisfies it, and no earlier element does |
| `Sequences.FindFirstUnique` | src/lib/it-tools-registry.ts:65-67 | when exactly one element satisfies the predicate, `find` returns that element |
| `Sequences.Filter` | src/data/tools-registry.ts:167 | `filter` keeps exactly the elements that satisfy the predicate (membership both ways) and is no longer than its input |
| `Sequences.FilterMultiplicity` | src/data/tools-registry.ts:167 | every passing element occurs in the result exactly as often as in the input, every other element not at all |
| `Sequences.FilterIsSubsequence` | src/data/tools-registry.ts:166-172 | the filtered sequence is a subsequence of the input, so registry order is kept |
| `Sequences.FilterAppend` | src/data/tools-registry.ts:167 | filtering distributes over concatenation; with `FilterSingleton` this determines the result completely, including order and multiplicity |
| `Sequences.FilterSingleton` | src/data/tools-registry.ts:167 | a one-element sequence is kept exactly when its element passes |
| `Sequences.FilterAllKept` | src/data/tools-registry.ts:176-180 | when every element passes, the result is the whole input |
| `Sequences.FilterNoneKept` | src/data/tools-registry.ts:167 | when no element passes, the result is empty |
| `Sequences.FilterCongruent` | src/data/tools-registry.ts:167 | two predicates that agree on every element give the same result |
| `Sequences.Map` | src/data/tools-registry.ts:184 | `map` keeps the length and puts `f` of the i-th element at position i |
| `Sequences.Dedup` | src/data/tools-registry.ts:184 | `Array.from(new Set(xs))` contains exactly the elements of `xs`, each once |
| `Sequences.DedupFirstOccurrenceOrder` | src/data/tools-registry.ts:184 | for any two positions in the deduplicated list, an occurrence of the earlier element in the input precedes every occurrence of the later one (first-seen order) |
| `Strings.LowerChar` | src/data/tools-registry.ts:175 | `toLowerCase` on one character maps 'A'..'Z' to 'a'..'z', leaves every other character alone, and never yields an upper-case letter |
| `Strings.Lower` | src/data/tools-registry.ts:175 | `toLowerCase` keeps the length and lower-cases every character by `LowerChar`; `LowerIsLowered` and `LowerIdempotent` give its properties |
| `Strings.LowerIsLowered` | src/data/tools-registry.ts:175 | lower-casing keeps the length and leaves no upper-case letter |
| `Strings.LowerOfLowered` | src/data/tools-registry.ts:175 | a string without upper-case letters is unchanged by lower-casing |
| `Strings.LowerIdempotent` | src/data/tools-registry.ts:175 | lower-casing twice equals lower-casing once |
| `Strings.LowerAppend` | src/data/tools-registry.ts:175 | lower-casing commutes with concatenation |
| `Strings.Includes` | src/data/tools-registry.ts:177-179 | `includes` holds only when the query is no longer than the string, and always holds for the empty query; `IncludesIsSubstring` characterises it exactly |
| `Strings.IncludesIsSubstring` | src/data/tools-registry.ts:177-179 | `s.includes(q)` holds exactly when `q` occurs in `s` at some index |
| `Strings.IncludesEmpty` | src/data/tools-registry.ts:177-179 | every string includes the empty string |
| `ToolTypes.CategoryName` | src/types/tool.ts:3 | no contract: the string literal of each `ToolCategory` value; `CategoryNameRoundTrip` proves the literals distinct and `ParseCategory` its inverse |
| `ToolTypes.ParseCategory` | src/types/tool.ts:3 | a string names a category only if it is that category's literal, and a string that parses to nothing is none of the five literals |
| `ToolTypes.CategoryNameRoundTrip` | src/types/tool.ts:3 | every category's literal parses back to it, and distinct categories have distinct literals |
| `ToolTypes.ToolCategoriesTotal` | src/types/tool.ts:41-72 | `TOOL_CATEGORIES` has an entry for every category, and each entry's `id` is its own key |
| `ToolTypes.PrivacyTiersExactlyTiers` | src/types/tool.ts:75-94 | `PRIVACY_TIERS` has keys exactly 1, 2 and 3 |
| `ToolRegistry.ToolIdsDistinct` | src/data/tools-registry.ts:9-158 | no two entries of `TOOLS` share an id |
| `ToolRegistry.ToolsEntryShape` | src/data/tools-registry.ts:9-158 | every entry of `TOOLS` is a `v1-port` tool, none sets `tier`, and none has category `converter` |
| `ToolRegistry.GetToolById` | src/data/tools-registry.ts:162-164 | returns `None` exactly when no entry has the id; otherwise returns an entry with that exact id, and no earlier entry has it |
| `ToolRegistry.GetToolByIdFindsEntry` | src/data/tools-registry.ts:162-164 | in a table with distinct ids, looking up an entry's id returns that entry |
| `ToolRegistry.ToolsLookupUnambiguous` | src/data/tools-registry.ts:9-164 | every entry of `TOOLS` is exactly what `getToolById` returns for its id |
| `ToolRegistry.HasCategoryName` | src/data/tools-registry.ts:167 | no contract: the callback `tool => tool.category === category`, comparing the category's literal with the argument; `GetToolsByCategory`'s ensures states the filter result directly |
| `ToolRegistry.GetToolsByCategory` | src/data/tools-registry.ts:166-168 | returns exactly the entries whose category literal equals the argument, each as often as in the table, as a subsequence of the table |
| `ToolRegistry.GetToolsByCategoryOfName` | src/data/tools-registry.ts:166-168 | a category's literal selects the same entries as filtering on that category |
| `ToolRegistry.GetToolsByCategoryOutsideCategories` | src/data/tools-registry.ts:166-168 | a string that is none of the five category literals selects nothing |
| `ToolRegistry.NoConverterTools` | src/data/tools-registry.ts:166-168 | `getToolsByCategory('converter')` over `TOOLS` is empty |
| `ToolTypes.Tool.IsFeatured` | src/data/tools-registry.ts:171 | no contract: the callback `tool => tool.featured`, true exactly when the optional field is present and true; `GetFeaturedTools`' ensures states the filter result directly |
| `ToolRegistry.GetFeaturedTools` | src/data/tools-registry.ts:170-172 | returns exactly the entries whose `featured` is present and true (entries without the field are excluded), each as often as in the table, as a subsequence of the table |
| `ToolRegistry.MatchesQuery` | src/data/tools-registry.ts:176-180 | the callback holds exactly when the lowered query is a substring of the lowered name, the lowered description or some lowered keyword |
| `ToolRegistry.Matches` | src/data/tools-registry.ts:176-180 | no contract: the `filter` callback of `searchTools` for the lowered query, `MatchesQuery` as a function value; `MatchesQuery` and `SearchTools` state its meaning |
| `ToolRegistry.SearchTools` | src/data/tools-registry.ts:174-181 | an entry is in the result exactly when the lower-cased query is a substring of its lower-cased name, its lower-cased description, or some lower-cased keyword; each matching entry occurs as often as in the table; the result is a subsequence of the table |
| `ToolRegistry.SearchEmptyQuery` | src/data/tools-registry.ts:174-181 | the empty query returns the whole table |
| `ToolRegistry.SearchIgnoresQueryCase` | src/data/tools-registry.ts:175 | two queries with the same lower-case form return the same result |
| `ToolRegistry.SearchLoweredQuery` | src/data/tools-registry.ts:175 | a query and its lower-case form return the same result |
| `ToolRegistry.SearchJsonFindsFormatter` | src/data/tools-registry.ts:149-181 | searching `TOOLS` for "json" returns the JSON Formatter entry |
| `ToolRegistry.CategoryNames` | src/data/tools-registry.ts:184 | `TOOLS.map(tool => tool.category)`: one category literal per entry, position by position |
| `ToolRegistry.GetAllCategories` | src/data/tools-registry.ts:183-185 | returns exactly the category literals used by some entry, each once |
| `ToolRegistry.GetAllCategoriesOrder` | src/data/tools-registry.ts:183-185 | the categories are listed in order of first use in the table |
| `ItToolsRegistry.ItToolIdsDistinct` | src/lib/it-tools-registry.ts:16-63 | the five entries of `IT_TOOLS` have pairwise distinct ids |
| `ItToolsRegistry.ItToolCategories` | src/lib/it-tools-registry.ts:16-63 | every `IT_TOOLS` entry is a converter, generator or developer tool, so its category is one of the five `ToolCategory` literals |
| `ItToolsRegistry.GetItToolById` | src/lib/it-tools-registry.ts:65-67 | returns `None` exactly when no entry of `IT_TOOLS` has the id; otherwise returns an entry of `IT_TOOLS` with that id, and no earlier entry has it |
| `ItToolsRegistry.GetItToolByIdFindsEntry` | src/lib/it-tools-registry.ts:16-67 | each `IT_TOOLS` entry is exactly what `getITToolById` returns for its id |

## Left out

- Unicode case mapping: `Lower` changes only ASCII 'A'..'Z'. JavaScript's `toLowerCase` also lower-cases non-ASCII letters, and the model does not capture that. The search properties are stated in terms of `Lower`.
- Metadata fields without behaviour (`disclaimer`, `component`, `legacyPath`, `author`, `version`, `lastUpdated`) are not in the `Tool` datatype, since no query reads them. The record's `type` field is called `toolType` because `type` is a Dafny keyword, and its value `'it-tools'` is `ItToolsPort`.
- Icons, display names, colours and SEO descriptions are kept as opaque strings. No property depends on their contents except the search texts.
- The registry queries take the table as a parameter instead of closing over the module constant; the call the site makes is the call with `Tools`. The contracts hold for any table, and facts about the literal are separate lemmas.
- The exclusion half of the "json" search example is not proved: that searching `TOOLS` for "json" does not return the Age Calculator. Proving it requires showing that the 146-character description literal contains no 'j', which is beyond the solver's budget here. `SearchTools`' membership clause states the rule that excludes it, and `SearchJsonFindsFormatter` proves the inclusion half.
- Immutability of `TOOLS` and `IT_TOOLS` is not stated as a lemma. Both are Dafny constants, so it holds by construction. For the same reason, repeated calls to a query always return equal results.
- The tool implementations themselves (counting, hashing, QR codes and so on) are not part of this model.
- astro.config.mjs is not part of this model: it is build configuration for the site framework and has no behaviour of its own.
