/** The URL cleaner: options, the cleaning result, construction from a rule database, and the
    per-URL pipeline (scheme normalisation, skip checks, provider rules, additional parameters). */
module Cleaner {
  import opened Wrappers
  import opened Seqs
  import opened Text
  import opened Externals
  import opened Rules

  /** Caller-supplied switches and lists, fixed for the cleaner's lifetime. */
  datatype CleaningOptions = CleaningOptions(
    skipLocalhost: bool,
    applyReferralMarketing: bool,
    domainBlocking: bool,
    additionalBlockedParams: seq<string>,
    blacklistedDomains: seq<string>)

  /** `CleaningOptions::default()`: every switch on, both lists empty. */
  function DefaultOptions(): CleaningOptions
  {
    CleaningOptions(true, true, true, [], [])
  }

  /** What one cleaning call reports. */
  datatype CleaningResult = CleaningResult(
    url: Url,
    changed: bool,
    redirect: bool,
    cancel: bool,
    appliedRules: seq<string>)

  /** The compiled providers, in the rule database's enumeration order, and the options. */
  datatype UrlCleaner = UrlCleaner(providers: seq<CompiledProvider>, options: CleaningOptions)

  /** Why a cleaning call fails (the contexts the source attaches to its errors). */
  datatype CleanError =
    | ParseFailed
    | RedirectDecodeFailed
    | RedirectParseFailed
    | RawRuleParseFailed

  // ---------------------------------------------------------------------------------------
  // Construction

  /** The rule database: provider names with their definitions, in `HashMap` enumeration order. */
  type Config = seq<(string, Provider)>

  /** What one database entry contributes: its compiled provider, or nothing if it fails. */
  function CompiledEntry(crates: Crates, entry: (string, Provider)): seq<CompiledProvider>
  {
    match CompileProvider(crates, entry.0, entry.1)
    case Success(cp) => [cp]
    case Failure(_) => []
  }

  /** The providers `new` keeps for a database. What they are (each compiled from an entry,
      every compilable entry kept, in database order) is proved in `Properties`:
      `CompiledProvidersFromEntries`, `CompiledProvidersKeep`, `CompiledProvidersAppend`. */
  function CompiledProviders(crates: Crates, config: Config): (r: seq<CompiledProvider>)
    ensures |r| <= |config|
    decreases |config|
  {
    if config == [] then []
    else CompiledProviders(crates, config[..|config| - 1]) + CompiledEntry(crates, config[|config| - 1])
  }

  /** `UrlCleaner::new`: compile each entry in turn, keeping those that compile and dropping
      the others without failing. */
  method New(crates: Crates, config: Config, options: CleaningOptions) returns (cleaner: UrlCleaner)
    ensures cleaner.providers == CompiledProviders(crates, config)
    ensures cleaner.options == options
  {
    var providers: seq<CompiledProvider> := [];
    for i := 0 to |config|
      invariant providers == CompiledProviders(crates, config[..i])
    {
      var (name, provider) := config[i];
      assert config[..i + 1][..i] == config[..i];
      match CompileProvider(crates, name, provider)
      case Success(compiled) =>
        providers := providers + [compiled];
      case Failure(_) =>
    }
    assert config[..|config|] == config;
    cleaner := UrlCleaner(providers, options);
  }

  // ---------------------------------------------------------------------------------------
  // Scheme normalisation and skip checks

  /** Prepend `https://` unless the input already starts with `https://` or `http://`. */
  function WithScheme(input: string): (r: string)
    ensures StartsWith(r, "https://") || StartsWith(r, "http://")
    ensures EndsWith(r, input)
    ensures r == input <==> StartsWith(input, "https://") || StartsWith(input, "http://")
    ensures !StartsWith(input, "https://") && !StartsWith(input, "http://") ==> r == "https://" + input
  {
    if !StartsWith(input, "https://") && !StartsWith(input, "http://") then "https://" + input else input
  }

  /** `UrlCleaner::is_localhost`. */
  predicate IsLocalhost(url: Url)
  {
    match HostStr(url)
    case None => false
    case Some(host) =>
      host == "localhost"
      || StartsWith(host, "127.")
      || StartsWith(host, "192.168.")
      || StartsWith(host, "10.")
      || StartsWith(host, "172.")
  }

  /** The blacklist loop: `host` ends with one of `suffixes`. */
  function EndsWithAny(host: string, suffixes: seq<string>): (r: bool)
    ensures r <==> exists i :: 0 <= i < |suffixes| && EndsWith(host, suffixes[i])
  {
    if suffixes == [] then false
    else
      assert forall i :: 1 <= i < |suffixes| ==> suffixes[1..][i - 1] == suffixes[i];
      EndsWith(host, suffixes[0]) || EndsWithAny(host, suffixes[1..])
  }

  /** `UrlCleaner::should_skip_url`: a local or private host when that skip is on, or a host
      ending with a blacklisted suffix whatever that switch says. */
  function ShouldSkipUrl(options: CleaningOptions, url: Url): (r: bool)
    ensures r <==> (url.host.Some? &&
      ((options.skipLocalhost &&
        (url.host.value == "localhost" || StartsWith(url.host.value, "127.")
         || StartsWith(url.host.value, "192.168.") || StartsWith(url.host.value, "10.")
         || StartsWith(url.host.value, "172.")))
       || (exists i :: 0 <= i < |options.blacklistedDomains| && EndsWith(url.host.value, options.blacklistedDomains[i]))))
  {
    if options.skipLocalhost && IsLocalhost(url) then true
    else
      match HostStr(url)
      case Some(host) => EndsWithAny(host, options.blacklistedDomains)
      case None => false
  }

  // ---------------------------------------------------------------------------------------
  // Redirections

  /** Redirection `k` is the first whose capture group 1 exists on `s`. */
  predicate FirstCapturing(crates: Crates, rs: seq<Regex>, s: string, k: int)
  {
    0 <= k < |rs| && crates.capture1(rs[k], s).Some?
    && forall j :: 0 <= j < k ==> crates.capture1(rs[j], s).None?
  }

  /** The capture of the first redirection (in list order) that yields group 1. */
  function FirstCapture(crates: Crates, rs: seq<Regex>, s: string): (r: Option<string>)
    ensures r.None? <==> forall i :: 0 <= i < |rs| ==> crates.capture1(rs[i], s).None?
    ensures r.Some? ==> exists k :: FirstCapturing(crates, rs, s, k) && crates.capture1(rs[k], s) == r
  {
    if rs == [] then None
    else
      var first := crates.capture1(rs[0], s);
      var rest := FirstCapture(crates, rs[1..], s);
      assert forall i :: 1 <= i < |rs| ==> rs[1..][i - 1] == rs[i];
      if first.Some? then
        assert FirstCapturing(crates, rs, s, 0);
        first
      else
        assert rest.Some? ==> exists k :: FirstCapturing(crates, rs, s, k) && crates.capture1(rs[k], s) == rest by {
          if rest.Some? {
            var k :| FirstCapturing(crates, rs[1..], s, k) && crates.capture1(rs[1..][k], s) == rest;
            assert FirstCapturing(crates, rs, s, k + 1);
          }
        }
        rest
  }

  /** Percent-decode a captured target and parse it as a URL. */
  function Resolve(crates: Crates, captured: string): (r: Result<Url, CleanError>)
    ensures r == Failure(RedirectDecodeFailed) <==> crates.decode(captured).None?
    ensures r == Failure(RedirectParseFailed) <==>
      crates.decode(captured).Some? && crates.parse(crates.decode(captured).value).None?
    ensures r.Success? ==> crates.decode(captured).Some? && crates.parse(crates.decode(captured).value) == Some(r.value)
  {
    match crates.decode(captured)
    case None => Failure(RedirectDecodeFailed)
    case Some(decoded) =>
      match crates.parse(decoded)
      case None => Failure(RedirectParseFailed)
      case Some(target) => Success(target)
  }

  /** `UrlCleaner::apply_redirections`: no target when no redirection captures; otherwise the
      first capturing redirection decides, and a decode or parse failure fails outright. */
  function ApplyRedirections(crates: Crates, p: CompiledProvider, url: Url): (r: Result<Option<Url>, CleanError>)
    ensures r == Success(None) <==>
      forall i :: 0 <= i < |p.redirections| ==> crates.capture1(p.redirections[i], crates.asStr(url)).None?
    ensures r.Success? && r.value.Some? ==>
      exists k :: FirstCapturing(crates, p.redirections, crates.asStr(url), k)
        && Resolve(crates, crates.capture1(p.redirections[k], crates.asStr(url)).value) == Success(r.value.value)
    ensures r.Failure? ==>
      exists k :: FirstCapturing(crates, p.redirections, crates.asStr(url), k)
        && Resolve(crates, crates.capture1(p.redirections[k], crates.asStr(url)).value) == Failure(r.error)
  {
    match FirstCapture(crates, p.redirections, crates.asStr(url))
    case None => Success(None)
    case Some(captured) =>
      match Resolve(crates, captured)
      case Failure(e) => Failure(e)
      case Success(target) => Success(Some(target))
  }

  // ---------------------------------------------------------------------------------------
  // Raw rules

  /** The applied-rule name of raw rule `i`: `<provider>_raw_<i>`. */
  function RawRuleName(name: string, i: nat): string
  {
    name + "_raw_" + NatToString(i)
  }

  /** The raw-rule loop from rule `i` on: each rule deletes its matches from the serialized
      URL; a rule that alters the string re-parses it (failing the call if that fails) and
      records its name. */
  function RawRules(crates: Crates, name: string, raws: seq<Regex>, i: nat, url: Url, names: seq<string>)
    : (r: Result<(Url, seq<string>), CleanError>)
    requires i <= |raws|
    ensures r.Failure? ==> r.error == RawRuleParseFailed
    ensures r.Success? ==> |names| <= |r.value.1| <= |names| + |raws| - i
    ensures r.Success? ==> StartsWith(r.value.1, names)
    ensures r.Success? && |r.value.1| == |names| ==> r.value.0 == url
    decreases |raws| - i
  {
    if i == |raws| then Success((url, names))
    else
      var original := crates.asStr(url);
      var cleaned := crates.replaceAll(raws[i], original);
      if cleaned == original then RawRules(crates, name, raws, i + 1, url, names)
      else
        match crates.parse(cleaned)
        case None => Failure(RawRuleParseFailed)
        case Some(reparsed) => RawRules(crates, name, raws, i + 1, reparsed, names + [RawRuleName(name, i)])
  }

  // ---------------------------------------------------------------------------------------
  // Query parameters

  /** The rule a parameter name is tested with: `^rule$`, case-insensitive. */
  function WholeNameRule(rule: Regex): Regex
  {
    Regex(Anchored(rule.source), true)
  }

  /** A parameter name matches one of the rules as a whole, case-insensitively. */
  function KeyMatchesAny(crates: Crates, rules: seq<Regex>, key: string): (r: bool)
    ensures r <==> exists i :: 0 <= i < |rules| && crates.isMatch(WholeNameRule(rules[i]), key)
  {
    var whole := seq(|rules|, i requires 0 <= i < |rules| => WholeNameRule(rules[i]));
    assert forall i :: 0 <= i < |rules| ==> whole[i] == WholeNameRule(rules[i]);
    AnyMatch(crates, whole, key)
  }

  /** The provider's rules, followed by its referral-marketing rules when the caller opts in. */
  function ActiveRules(options: CleaningOptions, p: CompiledProvider): seq<Regex>
  {
    p.rules + (if options.applyReferralMarketing then p.referralMarketing else [])
  }

  /** Keep a pair whose name no rule matches. */
  function KeepUnmatched(crates: Crates, rules: seq<Regex>): QueryPair -> bool
  {
    (q: QueryPair) => !KeyMatchesAny(crates, rules, q.0)
  }

  /** Keep a pair whose name is not literally in the list. */
  function KeepUnlisted(names: seq<string>): QueryPair -> bool
  {
    (q: QueryPair) => q.0 !in names
  }

  /** `set_query` with the surviving pairs, dropping the query entirely when none survive. */
  function RebuildQuery(url: Url, kept: seq<QueryPair>): Url
  {
    url.(query := if kept == [] then None else Some(kept))
  }

  /** The shared shape of both parameter-removal steps: drop every pair `keep` rejects; leave
      the URL exactly as it was when nothing is rejected. */
  function DropPairs(url: Url, keep: QueryPair -> bool): (r: (Url, bool))
    ensures r.1 <==> exists i :: 0 <= i < |QueryPairs(url)| && !keep(QueryPairs(url)[i])
    ensures !r.1 ==> r.0 == url
    ensures r.0 == url.(query := r.0.query)
    ensures r.1 ==> QueryPairs(r.0) == Filter(keep, QueryPairs(url))
    ensures r.1 ==> (r.0.query.None? <==> forall i :: 0 <= i < |QueryPairs(url)| ==> !keep(QueryPairs(url)[i]))
    ensures forall i :: 0 <= i < |QueryPairs(r.0)| ==> keep(QueryPairs(r.0)[i]) && QueryPairs(r.0)[i] in QueryPairs(url)
    ensures forall i :: 0 <= i < |QueryPairs(url)| && keep(QueryPairs(url)[i]) ==> QueryPairs(url)[i] in QueryPairs(r.0)
  {
    var pairs := QueryPairs(url);
    var kept := Filter(keep, pairs);
    FilterKeepsAll(keep, pairs);
    if |kept| == |pairs| then (url, false)
    else
      assert kept == [] <==> forall i :: 0 <= i < |pairs| ==> !keep(pairs[i]) by {
        if kept != [] {
          assert kept[0] in pairs;
        }
      }
      (RebuildQuery(url, kept), true)
  }

  /** The effect of `apply_parameter_rules`: pairs whose name matches an active rule go. */
  function StripParams(crates: Crates, options: CleaningOptions, p: CompiledProvider, url: Url): (Url, bool)
  {
    DropPairs(url, KeepUnmatched(crates, ActiveRules(options, p)))
  }

  /** Keep a pair whose name some rule matches. */
  function KeepMatched(crates: Crates, rules: seq<Regex>): QueryPair -> bool
  {
    (q: QueryPair) => KeyMatchesAny(crates, rules, q.0)
  }

  /** `params_to_remove`: the names of the pairs that match a rule, one per matching pair. */
  function MatchingKeys(crates: Crates, rules: seq<Regex>, pairs: seq<QueryPair>): seq<string>
  {
    var matching := Filter(KeepMatched(crates, rules), pairs);
    seq(|matching|, i requires 0 <= i < |matching| => matching[i].0)
  }

  /** A pair's name is among the collected names exactly when it matches a rule itself,
      because matching depends on the name alone. */
  lemma MatchingKeysExact(crates: Crates, rules: seq<Regex>, pairs: seq<QueryPair>)
    ensures forall i :: 0 <= i < |pairs| ==>
      (pairs[i].0 in MatchingKeys(crates, rules, pairs) <==> KeyMatchesAny(crates, rules, pairs[i].0))
    ensures MatchingKeys(crates, rules, pairs) == [] <==> forall i :: 0 <= i < |pairs| ==> !KeyMatchesAny(crates, rules, pairs[i].0)
  {
    var matches := KeepMatched(crates, rules);
    var matching := Filter(matches, pairs);
    var keys := MatchingKeys(crates, rules, pairs);
    forall i | 0 <= i < |pairs|
      ensures pairs[i].0 in keys <==> KeyMatchesAny(crates, rules, pairs[i].0)
    {
      if matches(pairs[i]) {
        assert pairs[i] in matching;
        var m :| 0 <= m < |matching| && matching[m] == pairs[i];
        assert keys[m] == pairs[i].0;
      }
      if pairs[i].0 in keys {
        var m :| 0 <= m < |keys| && keys[m] == pairs[i].0;
        assert matches(matching[m]);
      }
    }
    if keys != [] {
      assert matching[0] in pairs && matches(matching[0]);
    }
  }

  /** `UrlCleaner::apply_parameter_rules`: collect the names of pairs that match an active rule,
      then keep the pairs whose name is not among them. */
  method ApplyParameterRules(crates: Crates, options: CleaningOptions, provider: CompiledProvider, url: Url)
    returns (newUrl: Url, changed: bool)
    ensures (newUrl, changed) == StripParams(crates, options, provider, url)
    ensures changed <==> (exists i :: 0 <= i < |QueryPairs(url)|
                            && KeyMatchesAny(crates, ActiveRules(options, provider), QueryPairs(url)[i].0))
    ensures forall i :: 0 <= i < |QueryPairs(newUrl)| ==>
      !KeyMatchesAny(crates, ActiveRules(options, provider), QueryPairs(newUrl)[i].0)
  {
    var allRules := provider.rules;
    if options.applyReferralMarketing {
      allRules := allRules + provider.referralMarketing;
    }
    assert allRules == ActiveRules(options, provider);
    var pairs := QueryPairs(url);
    var paramsToRemove := MatchingKeys(crates, allRules, pairs);
    MatchingKeysExact(crates, allRules, pairs);
    if paramsToRemove != [] {
      var newParams := Filter(KeepUnlisted(paramsToRemove), pairs);
      FilterCongruent(KeepUnlisted(paramsToRemove), KeepUnmatched(crates, allRules), pairs);
      newUrl := RebuildQuery(url, newParams);
      changed := true;
    } else {
      newUrl := url;
      changed := false;
    }
  }

  /** The effect of `apply_additional_param_rules`: with a non-empty block list, pairs whose
      name is exactly (case-sensitively) in it go. */
  function AdditionalParams(options: CleaningOptions, url: Url): (r: (Url, bool))
    ensures options.additionalBlockedParams == [] ==> r == (url, false)
    ensures r.1 <==> exists i :: 0 <= i < |QueryPairs(url)| && QueryPairs(url)[i].0 in options.additionalBlockedParams
    ensures r.0 == url.(query := r.0.query)
    ensures r.1 ==> QueryPairs(r.0) == Filter(KeepUnlisted(options.additionalBlockedParams), QueryPairs(url))
    ensures forall i :: 0 <= i < |QueryPairs(r.0)| ==>
      QueryPairs(r.0)[i].0 !in options.additionalBlockedParams && QueryPairs(r.0)[i] in QueryPairs(url)
  {
    if options.additionalBlockedParams == [] then (url, false)
    else DropPairs(url, KeepUnlisted(options.additionalBlockedParams))
  }

  /** `UrlCleaner::apply_additional_param_rules`: report a change iff the pair count dropped. */
  method ApplyAdditionalParamRules(options: CleaningOptions, url: Url) returns (newUrl: Url, changed: bool)
    ensures (newUrl, changed) == AdditionalParams(options, url)
  {
    if options.additionalBlockedParams == [] {
      return url, false;
    }
    var paramsToRemove := options.additionalBlockedParams;
    var originalCount := |QueryPairs(url)|;
    var newParams := Filter(KeepUnlisted(paramsToRemove), QueryPairs(url));
    if |newParams| != originalCount {
      return RebuildQuery(url, newParams), true;
    }
    return url, false;
  }

  // ---------------------------------------------------------------------------------------
  // One provider

  /** The effect of `apply_provider_rules` on one active provider, in strict order: blocking,
      redirection, raw rules, parameter rules. On success the result's URL is the URL the
      caller continues with. */
  function ProviderStep(crates: Crates, options: CleaningOptions, p: CompiledProvider, url: Url)
    : Result<CleaningResult, CleanError>
  {
    if p.completeProvider && options.domainBlocking then
      Success(CleaningResult(url, false, false, true, [p.name]))
    else
      match ApplyRedirections(crates, p, url)
      case Failure(e) => Failure(e)
      case Success(Some(target)) => Success(CleaningResult(target, true, true, false, [p.name + "_redirect"]))
      case Success(None) =>
        match RawRules(crates, p.name, p.rawRules, 0, url, [])
        case Failure(e) => Failure(e)
        case Success((rewritten, names)) =>
          var (stripped, paramsChanged) := StripParams(crates, options, p, rewritten);
          Success(CleaningResult(stripped, names != [] || paramsChanged, false, false, names))
  }

  /** `UrlCleaner::apply_provider_rules`. */
  method ApplyProviderRules(crates: Crates, options: CleaningOptions, provider: CompiledProvider, url: Url)
    returns (r: Result<CleaningResult, CleanError>)
    ensures r == ProviderStep(crates, options, provider, url)
  {
    var changed := false;
    var appliedRules: seq<string> := [];
    if provider.completeProvider && options.domainBlocking {
      return Success(CleaningResult(url, false, false, true, [provider.name]));
    }
    var redirect := ApplyRedirections(crates, provider, url);
    if redirect.Failure? {
      return Failure(redirect.error);
    }
    if redirect.value.Some? {
      return Success(CleaningResult(redirect.value.value, true, true, false, [provider.name + "_redirect"]));
    }
    var current := url;
    for i := 0 to |provider.rawRules|
      invariant RawRules(crates, provider.name, provider.rawRules, i, current, appliedRules)
             == RawRules(crates, provider.name, provider.rawRules, 0, url, [])
      invariant changed <==> appliedRules != []
    {
      var original := crates.asStr(current);
      var cleaned := crates.replaceAll(provider.rawRules[i], original);
      if cleaned != original {
        var reparsed := crates.parse(cleaned);
        if reparsed.None? {
          return Failure(RawRuleParseFailed);
        }
        current := reparsed.value;
        changed := true;
        appliedRules := appliedRules + [RawRuleName(provider.name, i)];
      }
    }
    var stripped, paramsChanged := ApplyParameterRules(crates, options, provider, current);
    current := stripped;
    if paramsChanged {
      changed := true;
    }
    return Success(CleaningResult(current, changed, false, false, appliedRules));
  }

  // ---------------------------------------------------------------------------------------
  // The whole call

  /** The provider loop of `clean_url` from provider `i` on, with the URL, the `changed` flag
      and the applied-rule list as they stand; after the last provider, the additional
      parameter step. */
  function RunProviders(crates: Crates, cleaner: UrlCleaner, i: nat, url: Url, changed: bool, applied: seq<string>)
    : Result<CleaningResult, CleanError>
    requires i <= |cleaner.providers|
    decreases |cleaner.providers| - i
  {
    if i == |cleaner.providers| then
      var (finalUrl, extra) := AdditionalParams(cleaner.options, url);
      Success(CleaningResult(finalUrl, changed || extra, false, false,
                             applied + (if extra then ["additional_params"] else [])))
    else
      var p := cleaner.providers[i];
      if !IsActive(crates, p, url) then RunProviders(crates, cleaner, i + 1, url, changed, applied)
      else
        match ProviderStep(crates, cleaner.options, p, url)
        case Failure(e) => Failure(e)
        case Success(res) =>
          var named := applied + [p.name];
          if res.redirect then Success(CleaningResult(res.url, true, true, false, named))
          else if res.cancel then Success(CleaningResult(res.url, false, false, true, named))
          else if res.changed then RunProviders(crates, cleaner, i + 1, res.url, true, named + res.appliedRules)
          else RunProviders(crates, cleaner, i + 1, res.url, changed, named)
  }

  /** `UrlCleaner::clean_url` as a function of the input. */
  function Clean(crates: Crates, cleaner: UrlCleaner, input: string): Result<CleaningResult, CleanError>
  {
    match crates.parse(WithScheme(input))
    case None => Failure(ParseFailed)
    case Some(url) =>
      if ShouldSkipUrl(cleaner.options, url) then Success(CleaningResult(url, false, false, false, []))
      else RunProviders(crates, cleaner, 0, url, false, [])
  }

  /** `UrlCleaner::clean_url`: normalise, parse, check the skips, thread one URL through every
      active provider (stopping at a redirect or a cancel), then apply the additional block list. */
  method CleanUrl(crates: Crates, cleaner: UrlCleaner, input: string) returns (r: Result<CleaningResult, CleanError>)
    ensures r == Clean(crates, cleaner, input)
  {
    var s := input;
    if !StartsWith(s, "https://") && !StartsWith(s, "http://") {
      s := "https://" + s;
    }
    var parsed := crates.parse(s);
    if parsed.None? {
      return Failure(ParseFailed);
    }
    var url := parsed.value;
    if ShouldSkipUrl(cleaner.options, url) {
      return Success(CleaningResult(url, false, false, false, []));
    }
    ghost var start := url;
    var changed := false;
    var appliedRules: seq<string> := [];
    for i := 0 to |cleaner.providers|
      invariant RunProviders(crates, cleaner, i, url, changed, appliedRules)
             == RunProviders(crates, cleaner, 0, start, false, [])
    {
      var provider := cleaner.providers[i];
      if MatchesUrl(crates, provider, url) && !MatchesException(crates, provider, url) {
        appliedRules := appliedRules + [provider.name];
        var result := ApplyProviderRules(crates, cleaner.options, provider, url);
        if result.Failure? {
          return Failure(result.error);
        }
        url := result.value.url;
        if result.value.redirect {
          return Success(CleaningResult(url, true, true, false, appliedRules));
        }
        if result.value.cancel {
          return Success(CleaningResult(url, false, false, true, appliedRules));
        }
        if result.value.changed {
          changed := true;
          appliedRules := appliedRules + result.value.appliedRules;
        }
      }
    }
    assert RunProviders(crates, cleaner, |cleaner.providers|, url, changed, appliedRules)
        == RunProviders(crates, cleaner, 0, start, false, []);
    var finalUrl, extra := ApplyAdditionalParamRules(cleaner.options, url);
    url := finalUrl;
    if extra {
      changed := true;
      appliedRules := appliedRules + ["additional_params"];
    } else {
      assert appliedRules + [] == appliedRules;
    }
    return Success(CleaningResult(url, changed, false, false, appliedRules));
  }
}
