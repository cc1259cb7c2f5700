/** Providers: the rule database's entries, their compilation into regexes, and the test of
    whether a provider applies to a URL. */
module Rules {
  import opened Wrappers
  import opened Externals

  /** A provider as the rule database declares it: patterns still as strings. */
  datatype Provider = Provider(
    urlPattern: string,
    rules: seq<string>,
    rawRules: seq<string>,
    exceptions: seq<string>,
    redirections: seq<string>,
    referralMarketing: seq<string>,
    completeProvider: bool,
    forceRedirection: bool)

  /** A provider whose patterns have all compiled. `forceRedirection` is carried, never read. */
  datatype CompiledProvider = CompiledProvider(
    name: string,
    urlPattern: Regex,
    rules: seq<Regex>,
    rawRules: seq<Regex>,
    exceptions: seq<Regex>,
    redirections: seq<Regex>,
    referralMarketing: seq<Regex>,
    completeProvider: bool,
    forceRedirection: bool)

  /** Which field of a provider failed to compile (the context of the compile error). */
  datatype CompileError =
    | InvalidUrlPattern
    | InvalidRules
    | InvalidRawRules
    | InvalidExceptions
    | InvalidRedirections
    | InvalidReferralMarketing

  /** The source patterns of a list of regexes. */
  function Sources(rs: seq<Regex>): seq<string>
  {
    seq(|rs|, i requires 0 <= i < |rs| => rs[i].source)
  }

  predicate AllValid(crates: Crates, patterns: seq<string>)
  {
    forall i :: 0 <= i < |patterns| ==> crates.valid(patterns[i])
  }

  predicate NoneCaseInsensitive(rs: seq<Regex>)
  {
    forall i :: 0 <= i < |rs| ==> !rs[i].caseInsensitive
  }

  /** `patterns.iter().map(Regex::new).collect::<Result<Vec<_>, _>>()`: all patterns compile,
      in order, or the whole list fails. */
  function CompileEach(crates: Crates, patterns: seq<string>): (r: Option<seq<Regex>>)
    ensures r.Some? <==> AllValid(crates, patterns)
    ensures r.Some? ==> Sources(r.value) == patterns && NoneCaseInsensitive(r.value)
  {
    if patterns == [] then Some([])
    else
      match Compile(crates, patterns[0])
      case None => None
      case Some(first) =>
        match CompileEach(crates, patterns[1..])
        case None => None
        case Some(rest) =>
          assert Sources([first] + rest) == [first.source] + Sources(rest);
          assert AllValid(crates, patterns) by {
            forall i | 1 <= i < |patterns| ensures crates.valid(patterns[i]) {
              assert patterns[1..][i - 1] == patterns[i];
            }
          }
          Some([first] + rest)
  }

  /** A referral-marketing pattern is a whole parameter name: `^pattern$`. */
  function Anchored(pattern: string): (r: string)
  {
    "^" + pattern + "$"
  }

  function AnchorEach(patterns: seq<string>): seq<string>
  {
    seq(|patterns|, i requires 0 <= i < |patterns| => Anchored(patterns[i]))
  }

  /** Every pattern of the provider compiles (referral-marketing ones in anchored form). */
  predicate Compilable(crates: Crates, p: Provider)
  {
    && crates.valid(p.urlPattern)
    && AllValid(crates, p.rules)
    && AllValid(crates, p.rawRules)
    && AllValid(crates, p.exceptions)
    && AllValid(crates, p.redirections)
    && AllValid(crates, AnchorEach(p.referralMarketing))
  }

  /** `cp` is what compiling provider `p` under `name` yields. */
  predicate CompiledFrom(name: string, p: Provider, cp: CompiledProvider)
  {
    && cp.name == name
    && cp.urlPattern == Regex(p.urlPattern, false)
    && Sources(cp.rules) == p.rules && NoneCaseInsensitive(cp.rules)
    && Sources(cp.rawRules) == p.rawRules && NoneCaseInsensitive(cp.rawRules)
    && Sources(cp.exceptions) == p.exceptions && NoneCaseInsensitive(cp.exceptions)
    && Sources(cp.redirections) == p.redirections && NoneCaseInsensitive(cp.redirections)
    && Sources(cp.referralMarketing) == AnchorEach(p.referralMarketing)
    && NoneCaseInsensitive(cp.referralMarketing)
    && cp.completeProvider == p.completeProvider
    && cp.forceRedirection == p.forceRedirection
  }

  /** `UrlCleaner::compile_provider`: compile every field, failing on the first field (in the
      order url pattern, rules, raw rules, exceptions, redirections, referral marketing) that
      holds a pattern that does not compile. */
  function CompileProvider(crates: Crates, name: string, p: Provider): (r: Result<CompiledProvider, CompileError>)
    ensures r.Success? <==> Compilable(crates, p)
    ensures r.Success? ==> CompiledFrom(name, p, r.value)
    ensures r == Failure(InvalidUrlPattern) <==> !crates.valid(p.urlPattern)
    ensures r == Failure(InvalidReferralMarketing) ==> !AllValid(crates, AnchorEach(p.referralMarketing))
  {
    var rules := CompileEach(crates, p.rules);
    var rawRules := CompileEach(crates, p.rawRules);
    var exceptions := CompileEach(crates, p.exceptions);
    var redirections := CompileEach(crates, p.redirections);
    var referral := CompileEach(crates, AnchorEach(p.referralMarketing));
    if !crates.valid(p.urlPattern) then Failure(InvalidUrlPattern)
    else if rules.None? then Failure(InvalidRules)
    else if rawRules.None? then Failure(InvalidRawRules)
    else if exceptions.None? then Failure(InvalidExceptions)
    else if redirections.None? then Failure(InvalidRedirections)
    else if referral.None? then Failure(InvalidReferralMarketing)
    else
      Success(CompiledProvider(name, Regex(p.urlPattern, false), rules.value, rawRules.value,
                               exceptions.value, redirections.value, referral.value,
                               p.completeProvider, p.forceRedirection))
  }

  /** Some regex of `rs` matches `s` (the search loops of the source, with early return). */
  function AnyMatch(crates: Crates, rs: seq<Regex>, s: string): (r: bool)
    ensures r <==> exists i :: 0 <= i < |rs| && crates.isMatch(rs[i], s)
  {
    if rs == [] then false
    else
      assert forall i :: 1 <= i < |rs| ==> rs[1..][i - 1] == rs[i];
      crates.isMatch(rs[0], s) || AnyMatch(crates, rs[1..], s)
  }

  /** `CompiledProvider::matches_url`. */
  function MatchesUrl(crates: Crates, p: CompiledProvider, url: Url): bool
  {
    crates.isMatch(p.urlPattern, crates.asStr(url))
  }

  /** `CompiledProvider::matches_exception`: some exception matches the serialized URL. */
  function MatchesException(crates: Crates, p: CompiledProvider, url: Url): (r: bool)
    ensures r <==> exists i :: 0 <= i < |p.exceptions| && crates.isMatch(p.exceptions[i], crates.asStr(url))
  {
    AnyMatch(crates, p.exceptions, crates.asStr(url))
  }

  /** A provider applies to a URL when its pattern matches and none of its exceptions does. */
  predicate IsActive(crates: Crates, p: CompiledProvider, url: Url)
  {
    MatchesUrl(crates, p, url) && !MatchesException(crates, p, url)
  }
}
