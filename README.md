# plink URL cleaner — a Dafny model

This project models the cleaning core of `plink`. `plink` removes tracking parameters from URLs using a
ClearURLs-style rule database. A database entry is a *provider*. Each provider has:

- a URL pattern;
- parameter rules and referral-marketing rules;
- raw rules, which delete text from the whole URL;
- exceptions and redirections;
- a "complete provider" flag, which blocks URLs outright.

The model covers these parts:

- **Construction** (`UrlCleaner::new`, `compile_provider`). Each entry is compiled. An entry whose patterns do
  not all compile is dropped, and the rest are kept in database order. Referral rules are compiled as `^rule$`.
- **One cleaning call** (`clean_url`), in this order:
  1. prepend `https://` unless a scheme prefix is present;
  2. parse;
  3. skip local and blacklisted hosts;
  4. thread the one URL through every provider whose pattern matches and no exception does: blocking, then
     the first capturing redirection, then raw rules, then parameter rules. A redirect or a cancel ends the call;
  5. apply the caller's additional block list.
- **The CLI's `parse_csv`**: a comma-separated option value becomes trimmed, non-empty items.

The regex, URL and percent-decoding libraries are not modelled. They are one parameter, `Externals.Crates`, a
record of total functions:

- pattern validity;
- `is_match`;
- capture group 1;
- `replace_all` with the empty string;
- URL parsing and serialisation;
- percent-decoding.

Every result therefore holds for every behaviour of those libraries. A URL is a record whose query is a list of
`(name, value)` pairs, or absent.

Modules:

- `Wrappers`: `Option`, `Result`.
- `Seqs`: prefix and suffix tests, and an order-keeping `Filter`.
- `Text`: Unicode-whitespace `Trim`, `Split` with its inverse `Join`, and decimal rendering of a `nat`.
- `Csv`: `parse_csv`.
- `Externals`: regexes, URLs and the library parameter.
- `Rules`: providers and their compilation, URL and exception matching.
- `Cleaner`: options, results, construction and the pipeline.
- `Properties`: lemmas about the whole.

Each step that changes state in the source has two forms:

- a method, with the source's loop and its local variables;
- a function that specifies it: `CompiledProviders`, `RunProviders`/`Clean`, `ProviderStep`/`RawRules`,
  `StripParams`, `AdditionalParams`.

The lemmas are stated over the functions.

## Model

| member | source | states |
|---|---|---|
| Csv.ParseCsv | src/main.rs:40-49 | an absent value gives no items; every item is non-empty, already trimmed and contains no comma |
| Csv.ParseCsvAppend | src/main.rs:43-46 | items keep input order: a comma splits the result into the results for the text on each side |
| Csv.ParseCsvPiece | src/main.rs:43-45 | a comma-free value gives its trimmed text, or nothing; nothing exactly when the value is all whitespace |
| Text.Split | src/main.rs:43 | `split(',')` yields at least one piece and no piece contains the separator |
| Text.JoinSplit | src/main.rs:43 | rejoining the pieces with the separator gives the input back, so splitting loses nothing |
| Text.SplitJoin | src/main.rs:43 | splitting a join of separator-free parts gives the parts back |
| Text.SplitAppend | src/main.rs:43 | splitting `a,b` gives the pieces of `a` followed by the pieces of `b` |
| Text.SplitNoSeparator | src/main.rs:43 | a separator-free string is one piece |
| Text.TrimStart | src/main.rs:44 | the result is a suffix of the input that starts with no whitespace, and everything removed is whitespace |
| Text.TrimEnd | src/main.rs:44 | the result is a prefix of the input that ends with no whitespace, and everything removed is whitespace |
| Text.Trim | src/main.rs:44 | the result is no longer than the input and has no whitespace at either end |
| Text.TrimIsInfix | src/main.rs:44 | the trimmed text is a contiguous slice of the input with only whitespace on both sides |
| Text.TrimIdempotent | src/main.rs:44 | trimming twice is trimming once |
| Text.TrimEmpty | src/main.rs:44-45 | trimming gives the empty string exactly when the input is all whitespace (the `is_empty` filter) |
| Text.NatToString | src/lib.rs:371 | the rendering of the raw-rule index is a non-empty string of decimal digits |
| Text.NatToStringRoundTrip | src/lib.rs:371 | the digits read back as the index |
| Text.NatToStringInjective | src/lib.rs:371 | distinct indices render differently |
| Seqs.Filter | src/lib.rs:441-444 | survivors pass the test and come from the input; every passing element survives; never longer than the input |
| Seqs.FilterAppend | src/lib.rs:482-486 | filtering keeps relative order: the filter of a concatenation is the concatenation of the filters |
| Seqs.FilterKeepsAll | src/lib.rs:488 | the count is unchanged exactly when every element passes, and then the result is the input |
| Seqs.FilterCongruent | src/lib.rs:443 | two tests that agree on every element filter alike |
| Externals.Compile | src/lib.rs:244-245 | `Regex::new` succeeds exactly for a valid pattern; the regex keeps its source and is case-sensitive |
| Rules.CompileEach | src/lib.rs:248-253 | a list compiles only when every pattern is valid, and then it keeps every source in order |
| Rules.CompileProvider | src/lib.rs:243-298 | success exactly when the URL pattern and every list compile (referral rules as `^rule$`), carrying name and flags; an invalid URL pattern is reported as such before any list; an invalid-referral failure means an anchored referral rule is invalid |
| Rules.AnyMatch | src/lib.rs:512-518 | true exactly when some regex of the list matches |
| Properties.ProviderMatchesOwnPatterns | src/lib.rs:506-519 | a compiled provider matches a URL exactly when its own URL pattern, compiled case-sensitively, matches the serialized URL, and an exception exactly when one of its own exception patterns does |
| Rules.MatchesException | src/lib.rs:511-519 | true exactly when some exception matches the serialized URL |
| Cleaner.CompiledProviders | src/lib.rs:114-124 | construction never keeps more providers than the database has |
| Cleaner.New | src/lib.rs:108-129 | the loop keeps exactly the compiled providers of the database, in order, with the options given |
| Properties.CompiledProvidersAppend | src/lib.rs:116-124 | database order is kept: the providers of two halves are those of each half in turn |
| Properties.CompiledProvidersFromEntries | src/lib.rs:117-118 | every kept provider is the compilation of some entry |
| Properties.CompiledProvidersKeep | src/lib.rs:117-118 | every entry whose patterns all compile is kept |
| Properties.CompiledProvidersAll | src/lib.rs:116-124 | nothing is dropped exactly when every entry compiles |
| Cleaner.WithScheme | src/lib.rs:153-155 | the result starts with `https://` or `http://` and ends with the input; it is the input exactly when a scheme prefix was present, and `https://` followed by the input otherwise |
| Properties.WithSchemeIdempotent | src/lib.rs:153-155 | normalising twice is normalising once |
| Cleaner.EndsWithAny | src/lib.rs:309-313 | true exactly when the host ends with some blacklisted suffix |
| Cleaner.ShouldSkipUrl | src/lib.rs:301-330 | skip exactly when there is a host and either localhost skipping is on and the host is `localhost` or starts with `127.`, `192.168.`, `10.` or `172.`, or the host ends with a blacklisted domain |
| Properties.LocalHosts | src/lib.rs:320-330 | `localhost` and every host starting with `127.`, `192.168.`, `10.` or `172.`, whatever follows, is local; a URL without a host is not |
| Properties.LetterHostNotLocal | src/lib.rs:320-330 | a host of any length starting with a lower-case letter, other than `localhost`, is not local, so with an empty blacklist it is not skipped |
| Cleaner.Resolve | src/lib.rs:395-397 | a capture that does not decode gives the decode error; one that decodes but does not parse gives the redirect-parse error; otherwise the parsed decoded target |
| Cleaner.FirstCapture | src/lib.rs:392-394 | no capture exactly when no redirection yields group 1; otherwise the capture of the first redirection that does |
| Cleaner.ApplyRedirections | src/lib.rs:391-404 | no target exactly when no redirection captures; otherwise the first capturing redirection's decoded and parsed target, or that decode or parse failure |
| Cleaner.KeyMatchesAny | src/lib.rs:421-427 | a name matches exactly when one rule, rebuilt as case-insensitive `^rule$`, matches it |
| Properties.ReferralRulesOnlyWhenOptedIn | src/lib.rs:411-414 | referral rules take part in matching exactly when the caller opts in |
| Cleaner.DropPairs | src/lib.rs:439-461 | changed exactly when some pair is rejected; unchanged means the same URL; only the query changes; on change the pairs are the kept ones in order, and the query is absent exactly when none is kept |
| Cleaner.MatchingKeysExact | src/lib.rs:418-437 | a pair's name is among the collected names exactly when it matches a rule; none is collected exactly when no name matches |
| Cleaner.ApplyParameterRules | src/lib.rs:407-464 | the method computes `StripParams`: a change exactly when some name matches an active rule, and no surviving name matches one |
| Properties.StripParamsIdempotent | src/lib.rs:439-461 | stripping a provider's parameters a second time changes nothing |
| Cleaner.AdditionalParams | src/lib.rs:467-503 | an empty list changes nothing; a change exactly when some name is listed; only the query changes; survivors are the unlisted pairs in order |
| Cleaner.ApplyAdditionalParamRules | src/lib.rs:467-503 | the method computes `AdditionalParams` |
| Properties.AdditionalParamsIdempotent | src/lib.rs:480-500 | applying the block list a second time changes nothing |
| Properties.RawRuleNameInjective | src/lib.rs:371 | two raw rules of one provider have the same name exactly when they are the same rule |
| Cleaner.RawRules | src/lib.rs:365-374 | the raw-rule loop fails only with the re-parse error of line 369; it keeps the incoming names as a prefix and appends at most as many names as rules remain (which rule each name belongs to, in order: `Properties.RawRulesNames`); appending none leaves the URL as it was |
| Properties.RawNamesFromDistinct | src/lib.rs:371 | names `<provider>_raw_<j>` with strictly increasing `j` in a range are distinct, one per index, and no more than the range holds |
| Properties.RawRulesInOrder | src/lib.rs:365-374 | the loop only appends to the names it was given, and what it appends is a run of `<provider>_raw_<j>` names with strictly increasing rule indices |
| Properties.RawRulesNames | src/lib.rs:365-374 | the loop only appends names `<provider>_raw_<j>`, with rule indices `j` strictly increasing (rule order), so all appended names are distinct; appending none leaves the URL as it was |
| Properties.RawRulesIdle | src/lib.rs:366-368 | when no rule alters the serialized URL, the loop returns the URL and names unchanged |
| Cleaner.ApplyProviderRules | src/lib.rs:333-388 | the method computes `ProviderStep` |
| Properties.ProviderStepShape | src/lib.rs:333-388 | cancel exactly when blocking, and then no change, same URL, the provider's name; a redirect reports a change, the `_redirect` name and the first capturing redirection's target; otherwise the names are raw-rule names, a name implies a change, and no change means the same URL |
| Properties.RawRuleFailureFailsCall | src/lib.rs:369 | a raw rewrite that does not parse fails the provider with that error |
| Properties.InactiveProviderSkipped | src/lib.rs:179 | a provider that does not match, or whose exception matches, contributes nothing |
| Properties.CancelAtProvider | src/lib.rs:200-210 | an active blocking provider ends the call: cancelled, unchanged, the URL as it stood, its name last |
| Properties.RedirectAtProvider | src/lib.rs:185-198 | an active provider with a capturing redirection ends the call with the target, changed, and only the provider's name recorded, or fails the call |
| Properties.NormalProviderStep | src/lib.rs:181-215 | otherwise the provider contributes its name and then the names of its applying raw rules, and the loop continues on the rewritten URL |
| Properties.NoActiveProviderNoChange | src/lib.rs:178-239 | with no active provider, the loop only applies the additional block list of lines 219-223: the URL is that list's result, the flag is set when it removed something, and `additional_params` is appended to the rules exactly then |
| Properties.RunProvidersFlags | src/lib.rs:178-239 | redirect and cancel never both hold; a cancel is unchanged and ends with a blocking provider's name; a redirect is changed and ends with the name of a non-blocking provider with redirections; rule names only accumulate; a change is never lost except by a cancel |
| Properties.RunProvidersUnchanged | src/lib.rs:174-239 | a normal result (no redirect, no cancel) that reports no change, started with no change, is the URL the loop started with |
| Properties.RunProvidersErrors | src/lib.rs:178-217 | the provider loop never fails with the input-parse error |
| Cleaner.CleanUrl | src/lib.rs:148-240 | the method computes `Clean` |
| Properties.CleanFlags | src/lib.rs:148-240 | an input fails with the parse error exactly when the normalised input does not parse; redirect and cancel exclude each other; a cancel is unchanged and a redirect changed; a normal result reporting no change is the parsed URL; a skipped URL comes back unchanged with no rules |
| Properties.CleanWithoutActiveProvider | src/lib.rs:173-239 | with no active provider, a skipped URL comes back as parsed; any other comes back with only the additional block list applied, a change reported and `additional_params` named exactly when it removed something; with no block list the parsed URL comes back unchanged with no rules |
| Properties.DefaultOptionsBehaviour | src/lib.rs:87-97 | under the default options referral rules take part, a complete provider blocks, only local hosts are skipped, and no additional parameter is removed |
| Properties.LocalhostExample | src/lib.rs:87-97 | with the default options a localhost URL comes back unchanged, whatever the providers |
| Properties.ExampleBlockList | src/lib.rs:548-561 | blocking `fbclid` and `gclid` keeps only `test=1` of `test=1&fbclid=123&gclid=456` |
| Properties.AdditionalParamsExample | src/lib.rs:547-562 | an empty database with that block list cleans `https://example.com/?test=1&fbclid=123&gclid=456` to `?test=1`, changed, with rule `additional_params` |
| Properties.GoogleCompiles | src/lib.rs:528-536 | the `Google` provider of the inline configuration compiles and is kept |
| Properties.GoogleStripsTracking | src/lib.rs:527-545 | its rules drop `utm_source` and keep `q` |
| Properties.GoogleStep | src/lib.rs:527-545 | the whole step of that provider on the test URL: no block, no redirect, no raw rule, `utm_source` dropped, changed |
| Properties.BasicCleaningExample | src/lib.rs:526-545 | that database cleans `https://google.com/search?q=test&utm_source=newsletter` to `?q=test`, changed, with rule `Google` |

## Left out

- `UrlCleaner::from_data` (src/lib.rs:132-145) and `build.rs` decode a bincode blob embedded at build time. They
  are not part of this model. The database is a parameter of `New` instead.
- Both unit tests call `from_data`, so they run against the embedded database and never use their inline
  `config` strings. `AdditionalParamsExample` and `BasicCleaningExample` instead use the database that each
  inline configuration describes. They rely only on what the stated regexes do for the names involved.
- The database is a `HashMap`, so the order in which providers are tried is the map's enumeration order. The
  model takes the entries as a sequence in that order and says nothing about what the order is.
- `src/wasm.rs` and everything in `src/main.rs` apart from `parse_csv`: argument parsing, reading input and
  printing. These are I/O with no logic of the core.
- The regex, url and urlencoding libraries are not modelled. They are the `Crates` parameter, so pattern syntax
  and matching are not modelled.
- A `Regex`'s `Display` is taken to be its source text. Re-anchoring at line 423 therefore produces
  `^source$`, so an already-anchored referral rule becomes `^^rule$$`, as in the source.
- The `expect` at src/lib.rs:425 is not modelled: the re-anchored rule is taken to build. Matching is a total
  function, so the panic is not modelled.
- Query rebuilding: `set_query` receives `name=value` pairs joined with `&`, and the model takes the new query
  to be exactly the kept pairs. It does not capture that names and values are written back without
  re-encoding. A decoded `&` or `=` would therefore re-parse differently. The byte-level serialisation of URLs
  is left out with the url library.
- `UrlCleaner::new` returns `Result` but never fails. `matches_url` and `matches_exception` return `Result` but
  are always `Ok`. They are modelled as a plain value and plain booleans.
- Logging (`info!`, `debug!`, `warn!`) has no effect on results and is left out.
- `force_redirection` is carried into the compiled provider. Nothing in the source reads it.
- StripParamsIdempotent, AdditionalParamsIdempotent: these hold only for the model's query, a list of pairs
  that the rebuild replaces exactly. In the source a second pass can remove more. The rebuild writes decoded
  names and values back unescaped (src/lib.rs:452-457), so the next parse can split them differently. For
  example, with rule `utm_source`, `?a=b%26utm_source%3D1&utm_source=2` becomes `?a=b&utm_source=1`, and a
  second pass then removes `utm_source=1`. Idempotence of the whole call is not claimed. It also depends on
  what raw rules and redirections do to the rewritten text, which is left out with the regex library.
- On a cancel, `clean_url` returns the URL as earlier providers in the same call have already rewritten it,
  not the URL as parsed. The model follows the code (`CancelAtProvider`).
- On a redirect, the `<provider>_redirect` name that `apply_provider_rules` builds is discarded by
  `clean_url`. Only the provider's own name is reported. The model follows the code (`RedirectAtProvider`).
- Whitespace for `trim` is Unicode's White_Space property, listed by code point. `char` is a Unicode scalar
  value, as in Rust.
