/** Go's `strconv.ParseBool` and `strconv.FormatBool`. */
module GoBool {
  import opened Wrappers

  /** The twelve spellings `strconv.ParseBool` accepts, split by the value they denote. */
  const TrueSpellings: set<string> := {"1", "t", "T", "TRUE", "true", "True"}
  const FalseSpellings: set<string> := {"0", "f", "F", "FALSE", "false", "False"}

  /** `strconv.ParseBool`: `None` stands for the syntax error Go returns. */
  function ParseBool(s: string): (r: Option<bool>)
    ensures r == Some(true) <==> s in TrueSpellings
    ensures r == Some(false) <==> s in FalseSpellings
    ensures r == None <==> s !in TrueSpellings + FalseSpellings
  {
    match s
    case "1" | "t" | "T" | "TRUE" | "true" | "True" => Some(true)
    case "0" | "f" | "F" | "FALSE" | "false" | "False" => Some(false)
    case _ => None
  }

  /** `strconv.FormatBool`: the canonical spelling. The plugin never formats a
      boolean; this function and the two round trips below only illustrate that
      `ParseBool` agrees with Go's canonical spellings. */
  function FormatBool(b: bool): string
  {
    if b then "true" else "false"
  }

  /** Parsing the canonical spelling gives the value back. */
  lemma ParseFormatRoundTrip(b: bool)
    ensures ParseBool(FormatBool(b)) == Some(b)
  {
  }

  /** Every accepted spelling is canonical up to the value it denotes: formatting
      what was parsed and parsing again gives the same answer. */
  lemma FormatParseRoundTrip(s: string)
    requires ParseBool(s).Some?
    ensures ParseBool(FormatBool(ParseBool(s).value)) == ParseBool(s)
  {
  }

  /** Parsing is case-sensitive beyond the three listed capitalisations, and
      words other than these are errors. */
  lemma ParseBoolRejects()
    ensures ParseBool("not-a-bool") == None
    ensures ParseBool("tRUE") == None && ParseBool("FaLsE") == None
    ensures ParseBool("yes") == None && ParseBool("no") == None
    ensures ParseBool("") == None && ParseBool(" true") == None
  {
  }
}
