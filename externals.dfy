/** The three crates the cleaner calls into (`regex`, `url` and `urlencoding`), reduced to the
    operations it uses. Their internals are not modelled: a `Crates` value supplies one
    (total, deterministic) behaviour for each operation, and every result about the cleaner
    holds for every such behaviour. */
module Externals {
  import opened Wrappers

  /** A compiled `regex::Regex`, known by its source pattern and its case-insensitivity flag. */
  datatype Regex = Regex(source: string, caseInsensitive: bool)

  /** One decoded `key=value` entry of a query string, as `Url::query_pairs` yields it. */
  type QueryPair = (string, string)

  /** A parsed `url::Url`. The query is kept as its decoded pairs; `None` is a URL without `?`. */
  datatype Url = Url(
    scheme: string,
    host: Option<string>,
    port: Option<nat>,
    path: string,
    query: Option<seq<QueryPair>>,
    fragment: Option<string>)

  /** The crate operations the cleaner relies on. */
  datatype Crates = Crates(
    /** `Regex::new(p).is_ok()` (for `RegexBuilder`, the pattern with its flag). */
    valid: string -> bool,
    /** `Regex::is_match`. */
    isMatch: (Regex, string) -> bool,
    /** `regex.captures(s)` followed by `get(1)`: the text of capture group 1, if the regex
        matches and the group took part in the match. */
    capture1: (Regex, string) -> Option<string>,
    /** `regex.replace_all(s, "")`. */
    replaceAll: (Regex, string) -> string,
    /** `Url::parse`. */
    parse: string -> Option<Url>,
    /** `Url::as_str`, the serialized form. */
    asStr: Url -> string,
    /** `urlencoding::decode`, which fails when the decoded bytes are not UTF-8. */
    decode: string -> Option<string>)

  /** `Regex::new(pattern)`. */
  function Compile(crates: Crates, pattern: string): (r: Option<Regex>)
    ensures r.Some? <==> crates.valid(pattern)
    ensures r.Some? ==> r.value.source == pattern && !r.value.caseInsensitive
  {
    if crates.valid(pattern) then Some(Regex(pattern, false)) else None
  }

  /** `Url::query_pairs`: a URL without a query has no pairs. */
  function QueryPairs(url: Url): seq<QueryPair>
  {
    if url.query.Some? then url.query.value else []
  }

  /** `Url::host_str`. */
  function HostStr(url: Url): Option<string>
  {
    url.host
  }
}
