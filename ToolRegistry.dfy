/**
 * The central tool registry: a constant, ordered table of tools and the
 * queries the site runs over it. Every query is a single `find`, `filter`
 * or `Set` expression over the table.
 */
module ToolRegistry {
  import opened Wrappers
  import opened Sequences
  import opened Strings
  import opened ToolTypes

  /** A registry entry as every literal entry is written: a ported V1 tool. */
  function V1Tool(id: string, name: string, description: string, icon: string,
                  category: Category, keywords: seq<string>, featured: bool := false): (t: Tool)
  {
    Tool(id, name, description, icon, category, keywords, V1Port,
         featured := if featured then Some(true) else None)
  }

  /** `TOOLS`, in registry order. */
  const Tools: seq<Tool> := [
    // Text tools
    V1Tool("word-counter", "Word Counter",
      "Free word counter tool. Count words, characters, sentences, paragraphs, and reading time instantly. Perfect for essays, articles, and social media posts. No sign-up required.",
      "📊", Text,
      ["word counter", "character count", "text analysis", "essay word count", "reading time calculator"],
      featured := true),
    V1Tool("case-converter", "Case Converter",
      "Convert text to UPPERCASE, lowercase, Title Case, Sentence case, or aLtErNaTiNg cAsE. Free online text case converter with instant results.",
      "🔤", Text,
      ["case converter", "uppercase", "lowercase", "title case", "text formatter"],
      featured := true),
    V1Tool("text-reverser", "Text Reverser",
      "Reverse text, words, or lines instantly. Free online text reverser tool. Perfect for creative text effects and fun transformations.",
      "🔄", Text,
      ["text reverser", "reverse text", "backwards text", "flip text", "mirror text"]),
    V1Tool("remove-line-breaks", "Remove Line Breaks",
      "Remove or add line breaks in text. Clean up text copied from PDFs, emails, or websites. Free online line break formatter.",
      "📄", Text,
      ["remove line breaks", "text formatter", "clean text", "format text"]),
    // Calculators
    V1Tool("percentage-calculator", "Percentage Calculator",
      "Free percentage calculator. Calculate percentages, percentage increase/decrease, discounts, and ratios instantly. Mobile-friendly with multiple calculators.",
      "🔢", Calculator,
      ["percentage calculator", "percent calculator", "discount calculator", "percentage increase", "percentage decrease"],
      featured := true),
    V1Tool("age-calculator", "Age Calculator",
      "Calculate your exact age in years, months, days, hours, and minutes. Free age calculator with next birthday countdown. Accurate date calculations.",
      "🎂", Calculator,
      ["age calculator", "birthday calculator", "how old am i", "age in days", "next birthday"],
      featured := true),
    V1Tool("bmi-calculator", "BMI Calculator",
      "Free BMI calculator. Calculate your Body Mass Index and health category instantly. Supports metric and imperial units. Get health insights.",
      "⚖️", Calculator,
      ["bmi calculator", "body mass index", "health calculator", "weight calculator", "bmi chart"]),
    // Generators
    V1Tool("password-generator", "Password Generator",
      "Generate strong, secure random passwords. Customizable length and character types. Free password generator with instant copy. Privacy-focused, no data stored.",
      "🔒", Generator,
      ["password generator", "random password", "secure password", "strong password", "password maker"],
      featured := true),
    V1Tool("qr-generator", "QR Code Generator",
      "Create high-quality QR codes for URLs, text, WiFi, and more. Free QR code generator optimized for phone scanning. Customizable colors and sizes.",
      "📱", Generator,
      ["qr code generator", "qr code maker", "create qr code", "free qr code", "qr scanner"]),
    V1Tool("lorem-ipsum", "Lorem Ipsum Generator",
      "Generate Lorem Ipsum placeholder text for designs and mockups. Free dummy text generator with paragraphs, sentences, or words. Instant copy.",
      "📝", Generator,
      ["lorem ipsum", "placeholder text", "dummy text", "fake text generator", "text filler"]),
    V1Tool("random-number", "Random Number Generator",
      "Generate random numbers, integers, and decimals. Free random number generator with customizable range. Perfect for games, raffles, and statistics.",
      "🎲", Generator,
      ["random number generator", "random integer", "number picker", "rng", "random dice"]),
    // Developer tools
    V1Tool("base64-encoder", "Base64 Encoder/Decoder",
      "Encode and decode Base64 text instantly. Free Base64 converter for developers. Safe, private, works in your browser. No server upload.",
      "🔐", Developer,
      ["base64 encoder", "base64 decoder", "base64 converter", "encode base64", "decode base64"],
      featured := true),
    V1Tool("url-encoder", "URL Encoder/Decoder",
      "Encode and decode URLs and URI components. Free URL encoder for special characters. Essential tool for developers and webmasters.",
      "🔗", Developer,
      ["url encoder", "url decoder", "uri encoder", "encode url", "percent encoding"]),
    V1Tool("hash-generator", "Hash Generator",
      "Generate MD5, SHA-1, SHA-256, and SHA-512 hashes instantly. Free hash generator for checksums and data integrity. Multiple algorithms.",
      "🔑", Developer,
      ["hash generator", "md5 generator", "sha256 generator", "checksum calculator", "hash calculator"]),
    V1Tool("json-formatter", "JSON Formatter",
      "Format, beautify, minify, and validate JSON data. Free JSON formatter with syntax highlighting. Essential tool for developers and API testing.",
      "📋", Developer,
      ["json formatter", "json validator", "json beautifier", "json minifier", "format json"])
  ]

  /** The registry invariant: no two entries share an id. */
  ghost predicate DistinctIds(tools: seq<Tool>)
  {
    forall i, j :: 0 <= i < j < |tools| ==> tools[i].id != tools[j].id
  }

  lemma ToolIdsDistinct()
    ensures DistinctIds(Tools)
  {
    var ids := Map(Tools, (t: Tool) => t.id);
    assert ids == ["word-counter", "case-converter", "text-reverser", "remove-line-breaks",
      "percentage-calculator", "age-calculator", "bmi-calculator", "password-generator",
      "qr-generator", "lorem-ipsum", "random-number", "base64-encoder", "url-encoder",
      "hash-generator", "json-formatter"];
    assert NoDuplicates(ids);
  }

  // ------------------------------------------------------------- queries
  //
  // Each query takes the table it scans as `tools`; the site always passes
  // `Tools`. Facts about the literal itself are the `Tools` lemmas above.

  /**
   * `getToolById`: the first entry with exactly this id (case-sensitive),
   * or `None` when no entry has it.
   */
  function GetToolById(tools: seq<Tool>, id: string): (r: Option<Tool>)
    ensures r.None? <==> forall t :: t in tools ==> t.id != id
    ensures r.Some? ==>
      exists i :: 0 <= i < |tools| && tools[i] == r.value && r.value.id == id &&
        forall j :: 0 <= j < i ==> tools[j].id != id
  {
    FindFirst(tools, (t: Tool) => t.id == id)
  }

  /** With distinct ids, `getToolById` finds every entry by its own id. */
  lemma GetToolByIdFindsEntry(tools: seq<Tool>, t: Tool)
    requires DistinctIds(tools)
    requires t in tools
    ensures GetToolById(tools, t.id) == Some(t)
  {
    var r := GetToolById(tools, t.id);
    var i :| 0 <= i < |tools| && tools[i] == t;
    var k :| 0 <= k < |tools| && tools[k] == r.value && r.value.id == t.id &&
      forall j :: 0 <= j < k ==> tools[j].id != t.id;
    assert !(k < i) && !(i < k);
  }

  /** Every entry of `Tools` is what `getToolById` returns for its id. */
  lemma ToolsLookupUnambiguous(t: Tool)
    requires t in Tools
    ensures GetToolById(Tools, t.id) == Some(t)
  {
    ToolIdsDistinct();
    GetToolByIdFindsEntry(Tools, t);
  }

  /** The callback of `getToolsByCategory`: `tool => tool.category === category`. */
  function HasCategoryName(category: string): (p: Tool -> bool)
  {
    (t: Tool) => CategoryName(t.category) == category
  }

  /**
   * `getToolsByCategory`: the entries whose category literal equals the
   * argument string, in registry order.
   */
  function GetToolsByCategory(tools: seq<Tool>, category: string): (r: seq<Tool>)
    ensures forall t :: t in r ==> t in tools && CategoryName(t.category) == category
    ensures forall t :: t in tools && CategoryName(t.category) == category ==> t in r
    ensures forall t :: t in tools ==>
      multiset(r)[t] == if CategoryName(t.category) == category then multiset(tools)[t] else 0
    ensures IsSubsequence(r, tools)
  {
    forall t | t in tools ensures multiset(Filter(tools, HasCategoryName(category)))[t] ==
      if CategoryName(t.category) == category then multiset(tools)[t] else 0 {
      FilterMultiplicity(tools, HasCategoryName(category), t);
    }
    FilterIsSubsequence(tools, HasCategoryName(category));
    Filter(tools, HasCategoryName(category))
  }

  /** A string that names a category selects exactly that category's tools. */
  lemma GetToolsByCategoryOfName(tools: seq<Tool>, c: Category)
    ensures GetToolsByCategory(tools, CategoryName(c)) == Filter(tools, (t: Tool) => t.category == c)
  {
    forall t | t in tools
      ensures (CategoryName(t.category) == CategoryName(c)) == (t.category == c)
    {
      CategoryNameRoundTrip(t.category, c);
    }
    FilterCongruent(tools, HasCategoryName(CategoryName(c)), (t: Tool) => t.category == c);
  }

  /** A string outside the five category literals selects nothing. */
  lemma GetToolsByCategoryOutsideCategories(tools: seq<Tool>, category: string)
    requires ParseCategory(category).None?
    ensures GetToolsByCategory(tools, category) == []
  {
  }

  /** `getFeaturedTools`: the entries whose `featured` is present and true. */
  function GetFeaturedTools(tools: seq<Tool>): (r: seq<Tool>)
    ensures forall t :: t in r ==> t in tools && t.featured == Some(true)
    ensures forall t :: t in tools && t.featured == Some(true) ==> t in r
    ensures forall t :: t in tools ==>
      multiset(r)[t] == if t.featured == Some(true) then multiset(tools)[t] else 0
    ensures IsSubsequence(r, tools)
  {
    var featured := (t: Tool) => t.IsFeatured();
    forall t | t in tools ensures multiset(Filter(tools, featured))[t] ==
      if t.featured == Some(true) then multiset(tools)[t] else 0 {
      FilterMultiplicity(tools, featured, t);
    }
    FilterIsSubsequence(tools, featured);
    Filter(tools, featured)
  }

  /**
   * The callback of `searchTools`: whether a tool matches an already
   * lower-cased query.
   */
  predicate MatchesQuery(t: Tool, lowerQuery: string)
    ensures MatchesQuery(t, lowerQuery) <==>
      || IsSubstring(lowerQuery, Lower(t.name))
      || IsSubstring(lowerQuery, Lower(t.description))
      || exists k :: k in t.keywords && IsSubstring(lowerQuery, Lower(k))
  {
    forall s: string ensures Includes(s, lowerQuery) <==> IsSubstring(lowerQuery, s) {
      IncludesIsSubstring(s, lowerQuery);
    }
    || Includes(Lower(t.name), lowerQuery)
    || Includes(Lower(t.description), lowerQuery)
    || exists k :: k in t.keywords && Includes(Lower(k), lowerQuery)
  }

  /** The callback of `searchTools`, for an already lower-cased query. */
  function Matches(lowerQuery: string): (p: Tool -> bool)
  {
    (t: Tool) => MatchesQuery(t, lowerQuery)
  }

  /**
   * `searchTools`: the entries where the lower-cased query is a substring of
   * the lower-cased name, description or some keyword, in registry order.
   */
  function SearchTools(tools: seq<Tool>, query: string): (r: seq<Tool>)
    ensures forall t :: t in r ==>
      && t in tools
      && (|| IsSubstring(Lower(query), Lower(t.name))
          || IsSubstring(Lower(query), Lower(t.description))
          || exists k :: k in t.keywords && IsSubstring(Lower(query), Lower(k)))
    ensures forall t ::
      (&& t in tools
       && (|| IsSubstring(Lower(query), Lower(t.name))
           || IsSubstring(Lower(query), Lower(t.description))
           || exists k :: k in t.keywords && IsSubstring(Lower(query), Lower(k))))
      ==> t in r
    ensures forall t :: t in tools ==>
      multiset(r)[t] == if MatchesQuery(t, Lower(query)) then multiset(tools)[t] else 0
    ensures IsSubsequence(r, tools)
  {
    var q := Lower(query);
    forall t | t in tools ensures multiset(Filter(tools, Matches(q)))[t] ==
      if MatchesQuery(t, q) then multiset(tools)[t] else 0 {
      FilterMultiplicity(tools, Matches(q), t);
    }
    FilterIsSubsequence(tools, Matches(q));
    Filter(tools, Matches(q))
  }

  /** The empty query matches every entry: the result is the whole table. */
  lemma SearchEmptyQuery(tools: seq<Tool>)
    ensures SearchTools(tools, "") == tools
  {
    assert Lower("") == "";
    forall t | t in tools ensures MatchesQuery(t, "") {
      IncludesEmpty(Lower(t.name));
    }
    FilterAllKept(tools, Matches(""));
  }

  /** Queries that lower-case alike return the same result. */
  lemma SearchIgnoresQueryCase(tools: seq<Tool>, query: string, query': string)
    requires Lower(query) == Lower(query')
    ensures SearchTools(tools, query) == SearchTools(tools, query')
  {
  }

  /** In particular a query and its lower-case form return the same result. */
  lemma SearchLoweredQuery(tools: seq<Tool>, query: string)
    ensures SearchTools(tools, Lower(query)) == SearchTools(tools, query)
  {
    LowerIdempotent(query);
    SearchIgnoresQueryCase(tools, Lower(query), query);
  }

  /** `tools.map(tool => tool.category)`. */
  function CategoryNames(tools: seq<Tool>): (r: seq<string>)
    ensures |r| == |tools| && forall i :: 0 <= i < |tools| ==> r[i] == CategoryName(tools[i].category)
  {
    Map(tools, (t: Tool) => CategoryName(t.category))
  }

  /**
   * `getAllCategories`: each category literal used by some entry, once, in
   * order of first use.
   */
  function GetAllCategories(tools: seq<Tool>): (r: seq<string>)
    ensures forall c :: c in r ==> exists t :: t in tools && CategoryName(t.category) == c
    ensures forall t :: t in tools ==> CategoryName(t.category) in r
    ensures NoDuplicates(r)
  {
    var names := CategoryNames(tools);
    assert forall t :: t in tools ==> CategoryName(t.category) in names by {
      forall t | t in tools ensures CategoryName(t.category) in names {
        var i :| 0 <= i < |tools| && tools[i] == t;
        assert names[i] == CategoryName(t.category);
      }
    }
    Dedup(names)
  }

  /** The categories come out in the order of their first use. */
  lemma GetAllCategoriesOrder(tools: seq<Tool>)
    ensures forall i, j :: 0 <= i < j < |GetAllCategories(tools)| ==>
      OccursFirst(CategoryNames(tools), GetAllCategories(tools)[i], GetAllCategories(tools)[j])
  {
    DedupFirstOccurrenceOrder(CategoryNames(tools));
  }

  // ------------------------------------------------ facts about the table

  /** Every entry is a ported V1 tool, none sets a privacy tier, and none is a converter. */
  lemma ToolsEntryShape(t: Tool)
    requires t in Tools
    ensures t.toolType == V1Port && t.tier == None && t.category != Converter
  {
  }

  /** So the converter category lists nothing. */
  lemma NoConverterTools()
    ensures GetToolsByCategory(Tools, "converter") == []
  {
    forall t | t in Tools ensures !HasCategoryName("converter")(t) {
      ToolsEntryShape(t);
    }
    FilterNoneKept(Tools, HasCategoryName("converter"));
  }

  /** Searching for "json" finds the JSON Formatter through its keywords. */
  lemma SearchJsonFindsFormatter()
    ensures Tools[14].id == "json-formatter" && Tools[14] in SearchTools(Tools, "json")
  {
    var t := Tools[14];
    var k := "json formatter";
    assert k in t.keywords;
    assert Lower("json") == "json";
    assert Lower(k)[0..4] == "json";
    assert OccursAt(Lower(k), "json", 0);
  }
}
