/** What the cleaning pipeline guarantees, stated over the functions that specify it. */
module Properties {
  import opened Wrappers
  import opened Seqs
  import opened Text
  import opened Externals
  import opened Rules
  import opened Cleaner

  // ---------------------------------------------------------------------------------------
  // Scheme normalisation

  /** Normalising twice is normalising once. */
  lemma WithSchemeIdempotent(input: string)
    ensures WithScheme(WithScheme(input)) == WithScheme(input)
  {
  }

  // ---------------------------------------------------------------------------------------
  // Construction

  /** Compilation keeps database order: the providers of two halves are those of each half. */
  lemma {:induction false} CompiledProvidersAppend(crates: Crates, a: Config, b: Config)
    ensures CompiledProviders(crates, a + b) == CompiledProviders(crates, a) + CompiledProviders(crates, b)
    decreases |b|
  {
    if b == [] {
      assert a + b == a;
    } else {
      var b' := b[..|b| - 1];
      assert (a + b)[..|a + b| - 1] == a + b';
      assert (a + b)[|a + b| - 1] == b[|b| - 1];
      CompiledProvidersAppend(crates, a, b');
    }
  }

  /** `cp` is the compilation of some entry of `config`. */
  predicate FromEntry(crates: Crates, config: Config, cp: CompiledProvider)
  {
    exists i :: 0 <= i < |config| && CompileProvider(crates, config[i].0, config[i].1) == Success(cp)
  }

  /** Every kept provider is the compilation of some entry. */
  lemma {:induction false} CompiledProvidersFromEntries(crates: Crates, config: Config)
    ensures forall j :: 0 <= j < |CompiledProviders(crates, config)| ==> FromEntry(crates, config, CompiledProviders(crates, config)[j])
    decreases |config|
  {
    if config != [] {
      var init, last := config[..|config| - 1], config[|config| - 1];
      CompiledProvidersFromEntries(crates, init);
      var r, ri := CompiledProviders(crates, config), CompiledProviders(crates, init);
      forall j | 0 <= j < |r|
        ensures FromEntry(crates, config, r[j])
      {
        if j < |ri| {
          assert FromEntry(crates, init, ri[j]);
          var i :| 0 <= i < |init| && CompileProvider(crates, init[i].0, init[i].1) == Success(ri[j]);
          assert config[i] == init[i];
        } else {
          assert CompileProvider(crates, last.0, last.1) == Success(r[j]);
          assert config[|config| - 1] == last;
        }
      }
    }
  }

  /** Every entry whose patterns all compile is kept. */
  lemma {:induction false} CompiledProvidersKeep(crates: Crates, config: Config, i: nat)
    requires i < |config| && Compilable(crates, config[i].1)
    ensures CompileProvider(crates, config[i].0, config[i].1).value in CompiledProviders(crates, config)
    decreases |config|
  {
    var init := config[..|config| - 1];
    if i < |init| {
      assert config[i] == init[i];
      CompiledProvidersKeep(crates, init, i);
    }
  }

  /** Nothing is dropped exactly when every entry compiles. */
  lemma {:induction false} CompiledProvidersAll(crates: Crates, config: Config)
    ensures |CompiledProviders(crates, config)| == |config| <==> forall i :: 0 <= i < |config| ==> Compilable(crates, config[i].1)
    decreases |config|
  {
    if config != [] {
      var init, last := config[..|config| - 1], config[|config| - 1];
      CompiledProvidersAll(crates, init);
      assert forall i :: 0 <= i < |init| ==> config[i] == init[i];
      assert (forall i :: 0 <= i < |config| ==> Compilable(crates, config[i].1))
         <==> (forall i :: 0 <= i < |init| ==> Compilable(crates, init[i].1)) && Compilable(crates, last.1);
    }
  }

  /** A compiled provider applies to a URL exactly when the provider's own URL pattern matches
      the serialized URL (case-sensitively) and none of its own exception patterns does. */
  lemma ProviderMatchesOwnPatterns(crates: Crates, name: string, p: Provider, url: Url)
    requires CompileProvider(crates, name, p).Success?
    ensures var cp := CompileProvider(crates, name, p).value;
      && (MatchesUrl(crates, cp, url) <==> crates.isMatch(Regex(p.urlPattern, false), crates.asStr(url)))
      && (MatchesException(crates, cp, url) <==>
            exists i :: 0 <= i < |p.exceptions| && crates.isMatch(Regex(p.exceptions[i], false), crates.asStr(url)))
  {
    var cp := CompileProvider(crates, name, p).value;
    assert |cp.exceptions| == |p.exceptions| by {
      assert |Sources(cp.exceptions)| == |cp.exceptions|;
    }
    forall i | 0 <= i < |p.exceptions|
      ensures cp.exceptions[i] == Regex(p.exceptions[i], false)
    {
      assert Sources(cp.exceptions)[i] == cp.exceptions[i].source;
    }
  }

  // ---------------------------------------------------------------------------------------
  // Parameter rules

  /** Referral-marketing rules take part in parameter matching exactly when the caller opts in. */
  lemma ReferralRulesOnlyWhenOptedIn(crates: Crates, options: CleaningOptions, p: CompiledProvider, key: string)
    ensures KeyMatchesAny(crates, ActiveRules(options, p), key) <==>
      KeyMatchesAny(crates, p.rules, key)
      || (options.applyReferralMarketing && KeyMatchesAny(crates, p.referralMarketing, key))
  {
    var all := ActiveRules(options, p);
    if KeyMatchesAny(crates, all, key) {
      var i :| 0 <= i < |all| && crates.isMatch(WholeNameRule(all[i]), key);
      if i >= |p.rules| {
        assert all[i] == p.referralMarketing[i - |p.rules|];
      }
    }
    if KeyMatchesAny(crates, p.rules, key) {
      var i :| 0 <= i < |p.rules| && crates.isMatch(WholeNameRule(p.rules[i]), key);
      assert all[i] == p.rules[i];
    }
    if options.applyReferralMarketing && KeyMatchesAny(crates, p.referralMarketing, key) {
      var i :| 0 <= i < |p.referralMarketing| && crates.isMatch(WholeNameRule(p.referralMarketing[i]), key);
      assert all[|p.rules| + i] == p.referralMarketing[i];
    }
  }

  /** Stripping a provider's parameters a second time changes nothing. */
  lemma StripParamsIdempotent(crates: Crates, options: CleaningOptions, p: CompiledProvider, url: Url)
    ensures var once := StripParams(crates, options, p, url).0;
      StripParams(crates, options, p, once) == (once, false)
  {
  }

  /** Applying the additional block list a second time changes nothing. */
  lemma AdditionalParamsIdempotent(options: CleaningOptions, url: Url)
    ensures var once := AdditionalParams(options, url).0;
      AdditionalParams(options, once) == (once, false)
  {
  }

  // ---------------------------------------------------------------------------------------
  // Raw rules

  /** Distinct raw rules of one provider get distinct names. */
  lemma RawRuleNameInjective(name: string, i: nat, j: nat)
    ensures RawRuleName(name, i) == RawRuleName(name, j) <==> i == j
  {
    if RawRuleName(name, i) == RawRuleName(name, j) {
      var prefix := name + "_raw_";
      assert RawRuleName(name, i)[|prefix|..] == NatToString(i);
      assert RawRuleName(name, j)[|prefix|..] == NatToString(j);
      NatToStringInjective(i, j);
    }
  }

  /** `extra` is a run of raw-rule names `<name>_raw_<j>` whose indices `j` strictly increase
      and lie in `[lo, hi)`: one name per applying rule, in rule order. */
  predicate RawNamesFrom(name: string, extra: seq<string>, lo: nat, hi: nat)
    decreases |extra|
  {
    extra == [] || exists j: nat :: lo <= j < hi && extra[0] == RawRuleName(name, j) && RawNamesFrom(name, extra[1..], j + 1, hi)
  }

  /** A run of raw-rule names with increasing indices in `[lo, hi)` has distinct names, at
      most `hi - lo` of them (when there are any), each the name of a rule in that range. */
  lemma {:induction false} RawNamesFromDistinct(name: string, extra: seq<string>, lo: nat, hi: nat)
    requires RawNamesFrom(name, extra, lo, hi)
    ensures extra != [] ==> lo + |extra| <= hi
    ensures forall k :: 0 <= k < |extra| ==> exists j :: lo <= j < hi && extra[k] == RawRuleName(name, j)
    ensures forall k1, k2 :: 0 <= k1 < k2 < |extra| ==> extra[k1] != extra[k2]
    decreases |extra|
  {
    if extra != [] {
      var j: nat :| lo <= j < hi && extra[0] == RawRuleName(name, j) && RawNamesFrom(name, extra[1..], j + 1, hi);
      var rest := extra[1..];
      RawNamesFromDistinct(name, rest, j + 1, hi);
      forall k | 0 <= k < |extra|
        ensures exists j' :: lo <= j' < hi && extra[k] == RawRuleName(name, j')
      {
        if k > 0 {
          assert extra[k] == rest[k - 1];
        }
      }
      forall k1, k2 | 0 <= k1 < k2 < |extra|
        ensures extra[k1] != extra[k2]
      {
        assert extra[k2] == rest[k2 - 1];
        if k1 == 0 {
          var j2 :| j + 1 <= j2 < hi && rest[k2 - 1] == RawRuleName(name, j2);
          RawRuleNameInjective(name, j, j2);
        } else {
          assert extra[k1] == rest[k1 - 1];
        }
      }
    }
  }

  /** The raw-rule loop only appends names, and what it appends is a run of raw-rule names in
      increasing rule order. */
  lemma {:induction false} RawRulesInOrder(crates: Crates, name: string, raws: seq<Regex>, i: nat, url: Url, names: seq<string>)
    requires i <= |raws|
    ensures var r := RawRules(crates, name, raws, i, url, names);
      r.Success? ==> StartsWith(r.value.1, names) && RawNamesFrom(name, r.value.1[|names|..], i, |raws|)
    decreases |raws| - i
  {
    var r := RawRules(crates, name, raws, i, url, names);
    if i < |raws| && r.Success? {
      var original := crates.asStr(url);
      var cleaned := crates.replaceAll(raws[i], original);
      var ns := r.value.1;
      if cleaned == original {
        RawRulesInOrder(crates, name, raws, i + 1, url, names);
        var extra := ns[|names|..];
        if extra != [] {
          var j: nat :| i + 1 <= j < |raws| && extra[0] == RawRuleName(name, j) && RawNamesFrom(name, extra[1..], j + 1, |raws|);
          assert i <= j;
        }
      } else {
        var names' := names + [RawRuleName(name, i)];
        RawRulesInOrder(crates, name, raws, i + 1, crates.parse(cleaned).value, names');
        assert ns[..|names'|] == names';
        assert ns[..|names|] == names;
        var extra := ns[|names|..];
        assert extra[0] == RawRuleName(name, i);
        assert extra[1..] == ns[|names'|..];
      }
    }
  }

  /** The raw-rule loop only appends names: one `<name>_raw_<j>` per rule `j` it applies, in
      increasing rule order and therefore all distinct; when it appends none the URL is untouched. */
  lemma RawRulesNames(crates: Crates, name: string, raws: seq<Regex>, i: nat, url: Url, names: seq<string>)
    requires i <= |raws|
    ensures var r := RawRules(crates, name, raws, i, url, names);
      r.Success? ==>
        && StartsWith(r.value.1, names)
        && RawNamesFrom(name, r.value.1[|names|..], i, |raws|)
        && |r.value.1| <= |names| + |raws| - i
        && (r.value.1 == names ==> r.value.0 == url)
        && (forall k :: |names| <= k < |r.value.1| ==> exists j :: i <= j < |raws| && r.value.1[k] == RawRuleName(name, j))
        && (forall k1, k2 :: |names| <= k1 < k2 < |r.value.1| ==> r.value.1[k1] != r.value.1[k2])
  {
    var r := RawRules(crates, name, raws, i, url, names);
    RawRulesInOrder(crates, name, raws, i, url, names);
    if r.Success? {
      var ns := r.value.1;
      var extra := ns[|names|..];
      RawNamesFromDistinct(name, extra, i, |raws|);
      forall k | |names| <= k < |ns|
        ensures exists j :: i <= j < |raws| && ns[k] == RawRuleName(name, j)
      {
        assert ns[k] == extra[k - |names|];
      }
      forall k1, k2 | |names| <= k1 < k2 < |ns|
        ensures ns[k1] != ns[k2]
      {
        assert ns[k1] == extra[k1 - |names|] && ns[k2] == extra[k2 - |names|];
      }
    }
  }

  /** A raw rule that leaves the serialized URL alone does nothing: with no rule altering it,
      the loop returns the URL and the names as they were. */
  lemma {:induction false} RawRulesIdle(crates: Crates, name: string, raws: seq<Regex>, i: nat, url: Url, names: seq<string>)
    requires i <= |raws|
    requires forall j :: i <= j < |raws| ==> crates.replaceAll(raws[j], crates.asStr(url)) == crates.asStr(url)
    ensures RawRules(crates, name, raws, i, url, names) == Success((url, names))
    decreases |raws| - i
  {
    if i < |raws| {
      RawRulesIdle(crates, name, raws, i + 1, url, names);
    }
  }

  // ---------------------------------------------------------------------------------------
  // One provider

  /** Blocking applies under domain blocking to a complete provider. */
  predicate Blocks(options: CleaningOptions, p: CompiledProvider)
  {
    p.completeProvider && options.domainBlocking
  }

  /** The outcomes of one provider: a cancel (only when blocking, nothing rewritten), a
      redirect to the first capturing redirection's decoded target, or a cleaning whose rule
      names are raw-rule names and which leaves the URL alone when it reports no change. */
  lemma ProviderStepShape(crates: Crates, options: CleaningOptions, p: CompiledProvider, url: Url)
    ensures var r := ProviderStep(crates, options, p, url);
      && (r.Failure? ==> !Blocks(options, p))
      && (r.Success? ==>
        && (r.value.cancel <==> Blocks(options, p))
        && !(r.value.redirect && r.value.cancel)
        && (r.value.cancel ==> !r.value.changed && r.value.url == url && r.value.appliedRules == [p.name])
        && (r.value.redirect ==>
              r.value.changed && r.value.appliedRules == [p.name + "_redirect"]
              && exists k :: FirstCapturing(crates, p.redirections, crates.asStr(url), k)
                   && Resolve(crates, crates.capture1(p.redirections[k], crates.asStr(url)).value) == Success(r.value.url))
        && (!r.value.redirect && !r.value.cancel ==>
              && (r.value.appliedRules != [] ==> r.value.changed)
              && (!r.value.changed ==> r.value.url == url)
              && |r.value.appliedRules| <= |p.rawRules|
              && forall k :: 0 <= k < |r.value.appliedRules| ==>
                   exists j :: 0 <= j < |p.rawRules| && r.value.appliedRules[k] == RawRuleName(p.name, j)))
  {
    if !Blocks(options, p) && ApplyRedirections(crates, p, url) == Success(None) {
      RawRulesNames(crates, p.name, p.rawRules, 0, url, []);
    }
  }

  /** A raw-rule result that does not parse fails the provider, and with it the call. */
  lemma RawRuleFailureFailsCall(crates: Crates, options: CleaningOptions, p: CompiledProvider, url: Url)
    requires !Blocks(options, p)
    requires ApplyRedirections(crates, p, url) == Success(None)
    requires RawRules(crates, p.name, p.rawRules, 0, url, []).Failure?
    ensures ProviderStep(crates, options, p, url) == Failure(RawRuleParseFailed)
  {
  }

  // ---------------------------------------------------------------------------------------
  // The provider loop

  /** A provider that is not active contributes nothing. */
  lemma InactiveProviderSkipped(crates: Crates, cleaner: UrlCleaner, i: nat, url: Url, changed: bool, applied: seq<string>)
    requires i < |cleaner.providers|
    requires !IsActive(crates, cleaner.providers[i], url)
    ensures RunProviders(crates, cleaner, i, url, changed, applied) == RunProviders(crates, cleaner, i + 1, url, changed, applied)
  {
  }

  /** The first active blocking provider ends the call: cancelled, not changed, the URL as it
      stood when the provider was reached, and the provider's name last. */
  lemma CancelAtProvider(crates: Crates, cleaner: UrlCleaner, i: nat, url: Url, changed: bool, applied: seq<string>)
    requires i < |cleaner.providers|
    requires IsActive(crates, cleaner.providers[i], url) && Blocks(cleaner.options, cleaner.providers[i])
    ensures RunProviders(crates, cleaner, i, url, changed, applied)
         == Success(CleaningResult(url, false, false, true, applied + [cleaner.providers[i].name]))
  {
  }

  /** An active non-blocking provider with a capturing redirection ends the call with the
      decoded target, or fails it when decoding or parsing fails; the `_redirect` name is not
      recorded, only the provider's name. */
  lemma RedirectAtProvider(crates: Crates, cleaner: UrlCleaner, i: nat, url: Url, changed: bool, applied: seq<string>)
    requires i < |cleaner.providers|
    requires IsActive(crates, cleaner.providers[i], url) && !Blocks(cleaner.options, cleaner.providers[i])
    requires exists k :: 0 <= k < |cleaner.providers[i].redirections|
               && crates.capture1(cleaner.providers[i].redirections[k], crates.asStr(url)).Some?
    ensures var r := RunProviders(crates, cleaner, i, url, changed, applied);
      match ApplyRedirections(crates, cleaner.providers[i], url)
      case Failure(e) => r == Failure(e)
      case Success(target) => r == Success(CleaningResult(target.value, true, true, false, applied + [cleaner.providers[i].name]))
  {
  }

  /** In the normal path an active provider contributes its name followed by the names of the
      raw rules that altered the URL, and the loop continues with the rewritten URL. */
  lemma NormalProviderStep(crates: Crates, cleaner: UrlCleaner, i: nat, url: Url, changed: bool, applied: seq<string>,
                           res: CleaningResult)
    requires i < |cleaner.providers|
    requires IsActive(crates, cleaner.providers[i], url)
    requires ProviderStep(crates, cleaner.options, cleaner.providers[i], url) == Success(res)
    requires !res.redirect && !res.cancel
    ensures RunProviders(crates, cleaner, i, url, changed, applied)
         == RunProviders(crates, cleaner, i + 1, res.url, changed || res.changed,
                         applied + [cleaner.providers[i].name] + res.appliedRules)
  {
    ProviderStepShape(crates, cleaner.options, cleaner.providers[i], url);
    if !res.changed {
      assert res.appliedRules == [];
      assert applied + [cleaner.providers[i].name] + res.appliedRules == applied + [cleaner.providers[i].name];
    }
  }

  /** With no provider active from `i` on and no additional block list, the loop returns the
      URL, the flag and the rule list as they stand. */
  lemma {:induction false} NoActiveProviderNoChange(crates: Crates, cleaner: UrlCleaner, i: nat, url: Url,
                                                   changed: bool, applied: seq<string>)
    requires i <= |cleaner.providers|
    requires forall j :: i <= j < |cleaner.providers| ==> !IsActive(crates, cleaner.providers[j], url)
    ensures var (finalUrl, extra) := AdditionalParams(cleaner.options, url);
      RunProviders(crates, cleaner, i, url, changed, applied)
        == Success(CleaningResult(finalUrl, changed || extra, false, false,
                                  applied + (if extra then ["additional_params"] else [])))
    decreases |cleaner.providers| - i
  {
    if i < |cleaner.providers| {
      NoActiveProviderNoChange(crates, cleaner, i + 1, url, changed, applied);
    }
  }

  /** Every result of the loop: redirect and cancel never both hold; a cancel reports no change
      and ends with the name of a blocking provider; a redirect reports a change and ends with
      the name of a non-blocking provider that has a redirection; rule names only accumulate. */
  lemma {:induction false} RunProvidersFlags(crates: Crates, cleaner: UrlCleaner, i: nat, url: Url,
                                            changed: bool, applied: seq<string>)
    requires i <= |cleaner.providers|
    ensures var r := RunProviders(crates, cleaner, i, url, changed, applied);
      r.Success? ==>
        && !(r.value.redirect && r.value.cancel)
        && (r.value.cancel ==> !r.value.changed)
        && (r.value.redirect ==> r.value.changed)
        && (changed ==> r.value.changed || r.value.cancel)
        && StartsWith(r.value.appliedRules, applied)
        && (r.value.cancel ==>
              exists j :: (i <= j < |cleaner.providers| && Blocks(cleaner.options, cleaner.providers[j])
                           && EndsWith(r.value.appliedRules, [cleaner.providers[j].name])))
        && (r.value.redirect ==>
              exists j :: (i <= j < |cleaner.providers| && !Blocks(cleaner.options, cleaner.providers[j])
                           && |cleaner.providers[j].redirections| > 0
                           && EndsWith(r.value.appliedRules, [cleaner.providers[j].name])))
    decreases |cleaner.providers| - i
  {
    if i == |cleaner.providers| {
      var extra := AdditionalParams(cleaner.options, url).1;
      var rules := applied + (if extra then ["additional_params"] else []);
      assert rules[..|applied|] == applied;
    } else {
      var p := cleaner.providers[i];
      if !IsActive(crates, p, url) {
        RunProvidersFlags(crates, cleaner, i + 1, url, changed, applied);
      } else {
        ProviderStepShape(crates, cleaner.options, p, url);
        match ProviderStep(crates, cleaner.options, p, url)
        case Failure(_) =>
        case Success(res) =>
          var named := applied + [p.name];
          assert named[..|applied|] == applied;
          assert named[|named| - 1..] == [p.name];
          if res.redirect {
            assert |p.redirections| > 0;
          } else if !res.cancel {
            var next := if res.changed then named + res.appliedRules else named;
            assert next[..|applied|] == applied;
            RunProvidersFlags(crates, cleaner, i + 1, res.url, changed || res.changed, next);
            var r := RunProviders(crates, cleaner, i + 1, res.url, changed || res.changed, next);
            if r.Success? {
              assert r.value.appliedRules[..|next|] == next;
              assert r.value.appliedRules[..|applied|] == next[..|applied|];
            }
            if !res.changed {
              assert next == named;
            }
          }
      }
    }
  }

  /** The converse of change tracking: a normal result (no redirect, no cancel) that reports
      no change, reached from a state with no change yet, returns the URL the loop started with. */
  lemma {:induction false} RunProvidersUnchanged(crates: Crates, cleaner: UrlCleaner, i: nat, url: Url, applied: seq<string>)
    requires i <= |cleaner.providers|
    ensures var r := RunProviders(crates, cleaner, i, url, false, applied);
      r.Success? && !r.value.changed && !r.value.redirect && !r.value.cancel ==> r.value.url == url
    decreases |cleaner.providers| - i
  {
    if i < |cleaner.providers| {
      var p := cleaner.providers[i];
      if !IsActive(crates, p, url) {
        RunProvidersUnchanged(crates, cleaner, i + 1, url, applied);
      } else {
        ProviderStepShape(crates, cleaner.options, p, url);
        match ProviderStep(crates, cleaner.options, p, url)
        case Failure(_) =>
        case Success(res) =>
          var named := applied + [p.name];
          if !res.redirect && !res.cancel {
            if res.changed {
              RunProvidersFlags(crates, cleaner, i + 1, res.url, true, named + res.appliedRules);
            } else {
              RunProvidersUnchanged(crates, cleaner, i + 1, res.url, named);
            }
          }
      }
    }
  }

  /** What the default options mean for one provider and one URL: referral rules take part,
      a complete provider blocks, nothing is blacklisted, and no additional parameter is removed. */
  lemma DefaultOptionsBehaviour(crates: Crates, p: CompiledProvider, url: Url)
    ensures ActiveRules(DefaultOptions(), p) == p.rules + p.referralMarketing
    ensures p.completeProvider ==>
      ProviderStep(crates, DefaultOptions(), p, url) == Success(CleaningResult(url, false, false, true, [p.name]))
    ensures ShouldSkipUrl(DefaultOptions(), url) <==> IsLocalhost(url)
    ensures AdditionalParams(DefaultOptions(), url) == (url, false)
  {
  }

  // ---------------------------------------------------------------------------------------
  // The whole call

  /** Redirect and cancel are exclusive; a cancel reports no change and a redirect reports one;
      a normal result that reports no change is the parsed URL; an input that does not parse
      fails; a skipped URL comes back untouched with no rules. */
  lemma CleanFlags(crates: Crates, cleaner: UrlCleaner, input: string)
    ensures var r := Clean(crates, cleaner, input);
      && (crates.parse(WithScheme(input)).None? <==> r == Failure(ParseFailed))
      && (r.Success? ==>
            && !(r.value.redirect && r.value.cancel)
            && (r.value.cancel ==> !r.value.changed)
            && (r.value.redirect ==> r.value.changed))
      && (r.Success? && !r.value.changed && !r.value.redirect && !r.value.cancel ==>
            r.value.url == crates.parse(WithScheme(input)).value)
      && (crates.parse(WithScheme(input)).Some? && ShouldSkipUrl(cleaner.options, crates.parse(WithScheme(input)).value) ==>
            r == Success(CleaningResult(crates.parse(WithScheme(input)).value, false, false, false, [])))
  {
    match crates.parse(WithScheme(input))
    case None =>
    case Some(url) =>
      RunProvidersFlags(crates, cleaner, 0, url, false, []);
      RunProvidersUnchanged(crates, cleaner, 0, url, []);
      assert RunProviders(crates, cleaner, 0, url, false, []) != Failure(ParseFailed) by {
        RunProvidersErrors(crates, cleaner, 0, url, false, []);
      }
  }

  /** The loop's own failures come from redirections and raw rules, never from parsing the input. */
  lemma {:induction false} RunProvidersErrors(crates: Crates, cleaner: UrlCleaner, i: nat, url: Url,
                                             changed: bool, applied: seq<string>)
    requires i <= |cleaner.providers|
    ensures RunProviders(crates, cleaner, i, url, changed, applied).Failure? ==>
      RunProviders(crates, cleaner, i, url, changed, applied).error != ParseFailed
    decreases |cleaner.providers| - i
  {
    if i < |cleaner.providers| {
      var p := cleaner.providers[i];
      if !IsActive(crates, p, url) {
        RunProvidersErrors(crates, cleaner, i + 1, url, changed, applied);
      } else {
        match ProviderStep(crates, cleaner.options, p, url)
        case Failure(_) =>
        case Success(res) =>
          var named := applied + [p.name];
          if !res.redirect && !res.cancel {
            RunProvidersErrors(crates, cleaner, i + 1, res.url, if res.changed then true else changed,
                               if res.changed then named + res.appliedRules else named);
          }
      }
    }
  }

  /** With no provider active on the parsed URL, a skipped URL comes back as parsed; any other
      URL comes back with only the additional block list applied, and a change is reported
      exactly when that list removed something. With no block list nothing changes at all. */
  lemma CleanWithoutActiveProvider(crates: Crates, cleaner: UrlCleaner, input: string, url: Url)
    requires crates.parse(WithScheme(input)) == Some(url)
    requires forall j :: 0 <= j < |cleaner.providers| ==> !IsActive(crates, cleaner.providers[j], url)
    ensures ShouldSkipUrl(cleaner.options, url) ==>
      Clean(crates, cleaner, input) == Success(CleaningResult(url, false, false, false, []))
    ensures var (finalUrl, extra) := AdditionalParams(cleaner.options, url);
      !ShouldSkipUrl(cleaner.options, url) ==>
        Clean(crates, cleaner, input)
          == Success(CleaningResult(finalUrl, extra, false, false, if extra then ["additional_params"] else []))
    ensures cleaner.options.additionalBlockedParams == [] ==>
      Clean(crates, cleaner, input) == Success(CleaningResult(url, false, false, false, []))
  {
    if !ShouldSkipUrl(cleaner.options, url) {
      NoActiveProviderNoChange(crates, cleaner, 0, url, false, []);
      var extra := AdditionalParams(cleaner.options, url).1;
      assert [] + (if extra then ["additional_params"] else []) == if extra then ["additional_params"] else [];
    }
  }

  // ---------------------------------------------------------------------------------------
  // Documented examples

  /** With the default options a localhost URL is returned unchanged, whatever the providers. */
  lemma LocalhostExample(crates: Crates, providers: seq<CompiledProvider>, url: Url)
    requires crates.parse("http://localhost:8080/?utm_source=x") == Some(url)
    requires url.host == Some("localhost")
    ensures Clean(crates, UrlCleaner(providers, DefaultOptions()), "http://localhost:8080/?utm_source=x")
         == Success(CleaningResult(url, false, false, false, []))
  {
    assert StartsWith("http://localhost:8080/?utm_source=x", "http://");
  }

  /** Which hosts count as local: `localhost` and every host that starts with `127.`,
      `192.168.`, `10.` or `172.`, whatever follows (so a name such as `10.example.com` counts
      too); a URL without a host never does. */
  lemma LocalHosts(url: Url, rest: string)
    ensures url.host.None? ==> !IsLocalhost(url)
    ensures url.host == Some("localhost") ==> IsLocalhost(url)
    ensures url.host == Some("127." + rest) ==> IsLocalhost(url)
    ensures url.host == Some("192.168." + rest) ==> IsLocalhost(url)
    ensures url.host == Some("10." + rest) ==> IsLocalhost(url)
    ensures url.host == Some("172." + rest) ==> IsLocalhost(url)
  {
    assert ("127." + rest)[..4] == "127.";
    assert ("192.168." + rest)[..8] == "192.168.";
    assert ("10." + rest)[..3] == "10.";
    assert ("172." + rest)[..4] == "172.";
  }

  /** A host that starts with a letter, other than `localhost`, is not a local address, so only
      the blacklist can skip it. */
  lemma LetterHostNotLocal(options: CleaningOptions, url: Url)
    requires url.host.Some? && url.host.value != [] && 'a' <= url.host.value[0] <= 'z'
    requires url.host.value != "localhost"
    ensures !IsLocalhost(url)
    ensures options.blacklistedDomains == [] ==> !ShouldSkipUrl(options, url)
  {
    var host := url.host.value;
    assert |host| >= 3 ==> host[..3][0] == host[0];
    assert |host| >= 4 ==> host[..4][0] == host[0];
    assert |host| >= 8 ==> host[..8][0] == host[0];
  }

  /** The block list of the example removes `fbclid` and `gclid` and keeps `test`. */
  lemma ExampleBlockList(url: Url)
    requires url.query == Some([("test", "1"), ("fbclid", "123"), ("gclid", "456")])
    ensures AdditionalParams(DefaultOptions().(additionalBlockedParams := ["fbclid", "gclid"]), url)
         == (url.(query := Some([("test", "1")])), true)
  {
    var options := DefaultOptions().(additionalBlockedParams := ["fbclid", "gclid"]);
    var pairs := QueryPairs(url);
    var keep := KeepUnlisted(options.additionalBlockedParams);
    assert keep(pairs[0]) && !keep(pairs[1]) && !keep(pairs[2]);
    assert Filter(keep, pairs) == [("test", "1")] by {
      assert pairs[1..][1..][1..] == [];
      assert Filter(keep, pairs[1..][1..]) == [];
      assert Filter(keep, pairs[1..]) == [];
    }
  }

  /** An empty database with `fbclid` and `gclid` blocked turns `?test=1&fbclid=123&gclid=456`
      into `?test=1`. */
  lemma AdditionalParamsExample(crates: Crates, url: Url)
    requires crates.parse("https://" + "example.com/?test=1&fbclid=123&gclid=456") == Some(url)
    requires url.host == Some("example.com")
    requires url.query == Some([("test", "1"), ("fbclid", "123"), ("gclid", "456")])
    ensures Clean(crates, UrlCleaner(CompiledProviders(crates, []), DefaultOptions().(additionalBlockedParams := ["fbclid", "gclid"])),
                  "https://" + "example.com/?test=1&fbclid=123&gclid=456")
         == Success(CleaningResult(url.(query := Some([("test", "1")])), true, false, false, ["additional_params"]))
  {
    // The scheme is a separate literal so that the verifier sees the `https://` prefix.
    var input := "https://" + "example.com/?test=1&fbclid=123&gclid=456";
    assert StartsWith(input, "https://");
    var options := DefaultOptions().(additionalBlockedParams := ["fbclid", "gclid"]);
    LetterHostNotLocal(options, url);
    ExampleBlockList(url);
    assert CompiledProviders(crates, []) == [];
    assert [] + ["additional_params"] == ["additional_params"];
  }

  /** The `Google` provider of the library's own example: three tracking rules, nothing else. */
  function Google(): Provider
  {
    Provider(".*google\\.com.*", ["utm_source", "utm_medium", "utm_campaign"], [], [], [], [], false, false)
  }

  /** What `Google` compiles to. */
  function GoogleCompiled(): CompiledProvider
  {
    CompiledProvider("Google", Regex(".*google\\.com.*", false),
                     [Regex("utm_source", false), Regex("utm_medium", false), Regex("utm_campaign", false)],
                     [], [], [], [], false, false)
  }

  /** With its patterns valid, `Google` compiles and is kept. */
  lemma GoogleCompiles(crates: Crates)
    requires crates.valid(".*google\\.com.*")
    requires crates.valid("utm_source") && crates.valid("utm_medium") && crates.valid("utm_campaign")
    ensures CompiledProviders(crates, [("Google", Google())]) == [GoogleCompiled()]
  {
    var config: Config := [("Google", Google())];
    assert config[..0] == [];
    assert AnchorEach([]) == [];
    var r := CompileProvider(crates, "Google", Google());
    assert r.Success?;
    var cp := r.value;
    assert Sources(cp.rules) == ["utm_source", "utm_medium", "utm_campaign"];
    assert |cp.rules| == 3;
    assert cp.rules[0] == Regex("utm_source", false) by { assert Sources(cp.rules)[0] == cp.rules[0].source; }
    assert cp.rules[1] == Regex("utm_medium", false) by { assert Sources(cp.rules)[1] == cp.rules[1].source; }
    assert cp.rules[2] == Regex("utm_campaign", false) by { assert Sources(cp.rules)[2] == cp.rules[2].source; }
    assert |cp.rawRules| == |cp.exceptions| == |cp.redirections| == |cp.referralMarketing| == 0 by {
      assert |Sources(cp.rawRules)| == |cp.rawRules| && |Sources(cp.exceptions)| == |cp.exceptions|;
      assert |Sources(cp.redirections)| == |cp.redirections| && |Sources(cp.referralMarketing)| == |cp.referralMarketing|;
    }
    assert cp == GoogleCompiled();
  }

  /** On `?q=test&utm_source=newsletter` the rules of `Google` drop `utm_source` and keep `q`. */
  lemma GoogleStripsTracking(crates: Crates, url: Url)
    requires url.query == Some([("q", "test"), ("utm_source", "newsletter")])
    requires crates.isMatch(Regex("^utm_source$", true), "utm_source")
    requires !crates.isMatch(Regex("^utm_source$", true), "q")
    requires !crates.isMatch(Regex("^utm_medium$", true), "q")
    requires !crates.isMatch(Regex("^utm_campaign$", true), "q")
    ensures StripParams(crates, DefaultOptions(), GoogleCompiled(), url) == (url.(query := Some([("q", "test")])), true)
  {
    var rules := ActiveRules(DefaultOptions(), GoogleCompiled());
    assert rules == GoogleCompiled().rules;
    assert WholeNameRule(rules[0]) == Regex("^utm_source$", true);
    assert WholeNameRule(rules[1]) == Regex("^utm_medium$", true);
    assert WholeNameRule(rules[2]) == Regex("^utm_campaign$", true);
    assert !KeyMatchesAny(crates, rules, "q");
    assert KeyMatchesAny(crates, rules, "utm_source");
    var pairs := QueryPairs(url);
    assert Filter(KeepUnmatched(crates, rules), pairs) == [("q", "test")] by {
      assert pairs[1..][1..] == [];
      assert Filter(KeepUnmatched(crates, rules), pairs[1..]) == [];
    }
  }

  /** The whole step of `Google` on that URL: not blocking, no redirection, no raw rule,
      `utm_source` dropped. */
  lemma GoogleStep(crates: Crates, url: Url)
    requires url.query == Some([("q", "test"), ("utm_source", "newsletter")])
    requires crates.isMatch(Regex("^utm_source$", true), "utm_source")
    requires !crates.isMatch(Regex("^utm_source$", true), "q")
    requires !crates.isMatch(Regex("^utm_medium$", true), "q")
    requires !crates.isMatch(Regex("^utm_campaign$", true), "q")
    ensures ProviderStep(crates, DefaultOptions(), GoogleCompiled(), url)
         == Success(CleaningResult(url.(query := Some([("q", "test")])), true, false, false, []))
  {
    GoogleStripsTracking(crates, url);
    assert ApplyRedirections(crates, GoogleCompiled(), url) == Success(None);
    assert RawRules(crates, "Google", [], 0, url, []) == Success((url, []));
  }

  /** A provider `Google` for `.*google\.com.*` with rules `utm_source`, `utm_medium` and
      `utm_campaign` turns `?q=test&utm_source=newsletter` into `?q=test` and reports a change,
      given regexes that behave as their patterns say on the names involved. */
  lemma BasicCleaningExample(crates: Crates, url: Url)
    requires crates.valid(".*google\\.com.*")
    requires crates.valid("utm_source") && crates.valid("utm_medium") && crates.valid("utm_campaign")
    requires crates.parse("https://" + "google.com/search?q=test&utm_source=newsletter") == Some(url)
    requires url.host == Some("google.com")
    requires url.query == Some([("q", "test"), ("utm_source", "newsletter")])
    requires crates.isMatch(Regex(".*google\\.com.*", false), crates.asStr(url))
    requires crates.isMatch(Regex("^utm_source$", true), "utm_source")
    requires !crates.isMatch(Regex("^utm_source$", true), "q")
    requires !crates.isMatch(Regex("^utm_medium$", true), "q")
    requires !crates.isMatch(Regex("^utm_campaign$", true), "q")
    ensures Clean(crates, UrlCleaner(CompiledProviders(crates, [("Google", Google())]), DefaultOptions()),
                  "https://" + "google.com/search?q=test&utm_source=newsletter")
         == Success(CleaningResult(url.(query := Some([("q", "test")])), true, false, false, ["Google"]))
  {
    // The scheme is a separate literal so that the verifier sees the `https://` prefix.
    var input := "https://" + "google.com/search?q=test&utm_source=newsletter";
    assert StartsWith(input, "https://");
    GoogleCompiles(crates);
    var cleaner := UrlCleaner([GoogleCompiled()], DefaultOptions());
    LetterHostNotLocal(cleaner.options, url);
    GoogleStep(crates, url);
    var cleaned := url.(query := Some([("q", "test")]));
    assert IsActive(crates, GoogleCompiled(), url);
    assert WithScheme(input) == input;
    var named: seq<string> := [] + ["Google"] + [];
    assert named == ["Google"] && named + [] == named;
    assert RunProviders(crates, cleaner, 0, url, false, []) == RunProviders(crates, cleaner, 1, cleaned, true, named);
    assert RunProviders(crates, cleaner, 1, cleaned, true, named) == Success(CleaningResult(cleaned, true, false, false, named + []));
  }
}
