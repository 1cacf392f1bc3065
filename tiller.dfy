/**
 * The deferred-loading client configuration of package tiller: a resolver
 * that loads and merges the kubeconfig the first time it is needed, keeps
 * the merged client configuration it built, and falls back to in-cluster
 * credentials and namespace when no explicit configuration was found.
 */
module Tiller {
  import opened ClientCmd

  /** The outcome of resolving the merged client configuration. */
  datatype Result<T> = Ok(value: T) | Err(error: Error)

  /** The nil dereferences the source can reach. */
  datatype PanicReason =
    | NilInClusterConfig   // `icc` was never set
    | NilMergedConfig      // the merged rest config is nil where its fields are written

  /** What a call does: it returns its results, or it panics. */
  datatype Outcome<T> = Returned(value: T) | Panicked(reason: PanicReason)

  // ---------------------------------------------------------------------
  // The write-once cache
  // ---------------------------------------------------------------------

  /**
   * One resolution: the cache afterwards, what the caller gets, and
   * whether the loader was asked.
   */
  datatype Resolution = Resolution(
    cache: Option<MergedClientConfig>,
    result: Result<MergedClientConfig>,
    loaded: bool)

  /**
   * One call of `createClientConfig`, given the cache before it and what
   * the loader answers if it is asked.
   */
  function ResolveStep(cache: Option<MergedClientConfig>, reply: LoadReply): (r: Resolution)
    // the loader is asked exactly when nothing is cached
    ensures r.loaded <==> cache.None?
    // a cached handle is returned as is and stays
    ensures cache.Some? ==> r.cache == cache && r.result == Ok(cache.value)
    // a failed load is passed through and not cached
    ensures cache.None? && reply.LoadFailed? ==> r.cache == None && r.result == Err(reply.err)
    // a successful load is cached
    ensures cache.None? && reply.Loaded? ==> r.cache == Some(reply.merged)
    // a caller gets a handle exactly when one is cached, and then it gets that one
    ensures r.result.Ok? <==> r.cache.Some?
    ensures r.result.Ok? ==> r.cache == Some(r.result.value)
  {
    if cache.Some? then
      Resolution(cache, Ok(cache.value), false)
    else
      match reply
      case LoadFailed(e) => Resolution(None, Err(e), true)
      case Loaded(m) => Resolution(Some(m), Ok(m), true)
  }

  /** The effect of a sequence of resolving calls. */
  datatype Run = Run(
    cache: Option<MergedClientConfig>,
    loads: nat,
    results: seq<Result<MergedClientConfig>>)

  /**
   * Resolving calls made one after another: `replies[i]` is what the
   * loader answers if call `i` asks it.
   */
  function Calls(cache: Option<MergedClientConfig>, replies: seq<LoadReply>): (r: Run)
    ensures |r.results| == |replies|
    ensures r.loads <= |replies|
    ensures cache.Some? ==> r.cache == cache
    decreases |replies|
  {
    if replies == [] then
      Run(cache, 0, [])
    else
      var s := ResolveStep(cache, replies[0]);
      var rest := Calls(s.cache, replies[1..]);
      Run(rest.cache, rest.loads + (if s.loaded then 1 else 0), [s.result] + rest.results)
  }

  /** Once a handle is cached, no call loads again and every call gets that handle. */
  lemma {:induction false} CachedHandleIsKept(m: MergedClientConfig, replies: seq<LoadReply>)
    ensures Calls(Some(m), replies).cache == Some(m)
    ensures Calls(Some(m), replies).loads == 0
    ensures forall i :: 0 <= i < |replies| ==> Calls(Some(m), replies).results[i] == Ok(m)
    decreases |replies|
  {
    if replies != [] {
      CachedHandleIsKept(m, replies[1..]);
      var rest := Calls(Some(m), replies[1..]);
      assert Calls(Some(m), replies).results == [Ok(m)] + rest.results;
    }
  }

  /**
   * On a fresh resolver, failed loads are not cached: every call loads
   * until the first success, whose handle every later call gets.
   */
  lemma {:induction false} FirstSuccessIsCached(replies: seq<LoadReply>, k: nat)
    requires k < |replies| && replies[k].Loaded?
    requires forall i :: 0 <= i < k ==> replies[i].LoadFailed?
    ensures Calls(None, replies).loads == k + 1
    ensures Calls(None, replies).cache == Some(replies[k].merged)
    ensures forall i :: 0 <= i < k ==> Calls(None, replies).results[i] == Err(replies[i].err)
    ensures forall i :: k <= i < |replies| ==> Calls(None, replies).results[i] == Ok(replies[k].merged)
    decreases k
  {
    var r := Calls(None, replies);
    if k == 0 {
      var m := replies[0].merged;
      CachedHandleIsKept(m, replies[1..]);
      assert r.results == [Ok(m)] + Calls(Some(m), replies[1..]).results;
    } else {
      FirstSuccessIsCached(replies[1..], k - 1);
      assert r.results == [Err(replies[0].err)] + Calls(None, replies[1..]).results;
    }
  }

  /** When every load fails, nothing is cached and every call asks the loader again. */
  lemma {:induction false} FailuresAreRetried(replies: seq<LoadReply>)
    requires forall i :: 0 <= i < |replies| ==> replies[i].LoadFailed?
    ensures Calls(None, replies).loads == |replies|
    ensures Calls(None, replies).cache == None
    ensures forall i :: 0 <= i < |replies| ==> Calls(None, replies).results[i] == Err(replies[i].err)
    decreases |replies|
  {
    if replies != [] {
      FailuresAreRetried(replies[1..]);
      assert Calls(None, replies).results == [Err(replies[0].err)] + Calls(None, replies[1..]).results;
    }
  }

  // ---------------------------------------------------------------------
  // The client-config decision
  // ---------------------------------------------------------------------

  /** An error that is reported at once: any error except the empty-config kind. */
  predicate HardError(err: Option<Error>) {
    err.Some? && !IsEmptyConfig(err.value)
  }

  /** The merged rest config is explicit: present, without error, and not the loader's default. */
  predicate IsExplicit(reply: ConfigReply, isDefaultConfig: RestConfig -> bool) {
    reply.err.None? && reply.config.Some? && !isDefaultConfig(reply.config.value)
  }

  /** The merged rest config with the resolver's user and groups written as its impersonation. */
  function Impersonated(c: RestConfig, user: string, groups: seq<string>): (r: RestConfig)
    ensures r.impersonate.userName == user && r.impersonate.groups == groups
    ensures r.impersonate.extra == c.impersonate.extra
    ensures r.host == c.host && r.bearerToken == c.bearerToken
  {
    c.(impersonate := c.impersonate.(userName := user, groups := groups))
  }

  /**
   * What `ClientConfig` returns once the merged client configuration is
   * resolved, given what that configuration answers, the loader's default
   * test, the in-cluster detector and the impersonation identity.
   */
  function ClientConfigRule(reply: ConfigReply, isDefaultConfig: RestConfig -> bool,
                            icc: Option<InClusterConfig>, user: string, groups: seq<string>): (o: Outcome<ConfigReply>)
    // a hard error is returned with a nil config; neither in-cluster nor impersonation is consulted
    ensures HardError(reply.err) ==> o == Returned(ConfigReply(None, reply.err))
    // an explicit config wins, whatever the in-cluster detector says, and is not impersonated
    ensures IsExplicit(reply, isDefaultConfig) ==> o == Returned(reply)
    // otherwise the in-cluster detector is asked, and panics when it was never set
    ensures !HardError(reply.err) && !IsExplicit(reply, isDefaultConfig) && icc.None? ==>
              o == Panicked(NilInClusterConfig)
    // in-cluster use, when possible, returns the detector's answer untouched by the identity
    ensures !HardError(reply.err) && !IsExplicit(reply, isDefaultConfig) && icc.Some? && icc.value.possible ==>
              o == Returned(icc.value.clientConfig)
    // otherwise the identity is written onto the merged config, returned with the original error
    ensures !HardError(reply.err) && !IsExplicit(reply, isDefaultConfig) && icc.Some? && !icc.value.possible ==>
              if reply.config.None? then o == Panicked(NilMergedConfig)
              else o == Returned(ConfigReply(Some(Impersonated(reply.config.value, user, groups)), reply.err))
  {
    if HardError(reply.err) then
      Returned(ConfigReply(None, reply.err))
    else if IsExplicit(reply, isDefaultConfig) then
      Returned(reply)
    else if icc.None? then
      Panicked(NilInClusterConfig)
    else if icc.value.possible then
      Returned(icc.value.clientConfig)
    else if reply.config.None? then
      Panicked(NilMergedConfig)
    else
      Returned(ConfigReply(Some(Impersonated(reply.config.value, user, groups)), reply.err))
  }

  /**
   * The impersonation identity is scoped to the last fallback: unless
   * in-cluster use is impossible and the merged config is not explicit,
   * the outcome is the same for every user and groups.
   */
  lemma IdentityOnlyOnLastFallback(reply: ConfigReply, isDefaultConfig: RestConfig -> bool,
                                   icc: Option<InClusterConfig>,
                                   user: string, groups: seq<string>, user': string, groups': seq<string>)
    requires HardError(reply.err) || IsExplicit(reply, isDefaultConfig) || icc.None? || icc.value.possible
    ensures ClientConfigRule(reply, isDefaultConfig, icc, user, groups) ==
            ClientConfigRule(reply, isDefaultConfig, icc, user', groups')
  {
  }

  // ---------------------------------------------------------------------
  // The namespace decision
  // ---------------------------------------------------------------------

  /** The raw kubeconfig's current context exists and names a namespace itself. */
  predicate ContextSetsNamespace(raw: ApiConfig) {
    raw.currentContext in raw.contexts && |raw.contexts[raw.currentContext].namespace| > 0
  }

  /**
   * The merged namespace was chosen by the caller: a non-empty namespace
   * other than the default, or the default named by the current context.
   */
  predicate ExplicitNamespace(ns: string, raw: RawReply) {
    |ns| > 0 && (ns != NamespaceDefault || (raw.err.None? && ContextSetsNamespace(raw.raw)))
  }

  /**
   * What `Namespace` returns once the merged client configuration is
   * resolved, given its namespace and raw-config answers and the
   * in-cluster detector.
   */
  function NamespaceRule(reply: NamespaceReply, raw: RawReply, icc: Option<InClusterConfig>): (o: Outcome<NamespaceReply>)
    // a hard error or an overridden namespace is returned unchanged, without asking the detector
    ensures HardError(reply.err) || reply.overridden ==> o == Returned(reply)
    // otherwise the detector is asked, and panics when it was never set
    ensures !HardError(reply.err) && !reply.overridden && icc.None? ==> o == Panicked(NilInClusterConfig)
    // no in-cluster use: the merged answer is returned unchanged
    ensures !HardError(reply.err) && !reply.overridden && icc.Some? && !icc.value.possible ==> o == Returned(reply)
    // in-cluster use possible: an explicit namespace is kept, not overridden and without error,
    // and anything else (an implicit default, no namespace, a raw-config error) is the detector's
    ensures !HardError(reply.err) && !reply.overridden && icc.Some? && icc.value.possible ==>
              o == if ExplicitNamespace(reply.ns, raw) then Returned(NamespaceReply(reply.ns, false, None))
                   else Returned(icc.value.namespace)
  {
    if HardError(reply.err) || reply.overridden then
      Returned(reply)
    else if icc.None? then
      Panicked(NilInClusterConfig)
    else if !icc.value.possible then
      Returned(reply)
    else if |reply.ns| > 0 && reply.ns != NamespaceDefault then
      Returned(NamespaceReply(reply.ns, false, None))
    else if |reply.ns| > 0 && raw.err.None? && ContextSetsNamespace(raw.raw) then
      Returned(NamespaceReply(reply.ns, false, None))
    else
      Returned(icc.value.namespace)
  }

  /**
   * An explicit "default" is honoured and an implicit one is not: with
   * in-cluster use possible, a merged "default" namespace is returned as
   * not overridden exactly when the current context names a namespace;
   * otherwise the detector's namespace is returned.
   */
  lemma DefaultNamespaceExplicitOrImplicit(reply: NamespaceReply, raw: RawReply, icc: InClusterConfig)
    requires !HardError(reply.err) && !reply.overridden && icc.possible
    requires reply.ns == NamespaceDefault
    ensures raw.err.None? && ContextSetsNamespace(raw.raw) ==>
              NamespaceRule(reply, raw, Some(icc)) == Returned(NamespaceReply(NamespaceDefault, false, None))
    ensures !(raw.err.None? && ContextSetsNamespace(raw.raw)) ==>
              NamespaceRule(reply, raw, Some(icc)) == Returned(icc.namespace)
  {
  }

  /** The raw-config answer is only consulted for the default namespace. */
  lemma RawConfigOnlyForDefault(reply: NamespaceReply, raw: RawReply, raw': RawReply, icc: Option<InClusterConfig>)
    requires reply.ns != NamespaceDefault
    ensures NamespaceRule(reply, raw, icc) == NamespaceRule(reply, raw', icc)
  {
  }

  // ---------------------------------------------------------------------
  // The resolver
  // ---------------------------------------------------------------------

  class DeferredLoadingClientConfig {
    const loader: Loader
    const overrides: Overrides
    const user: string
    const groups: seq<string>

    /** The cached merged client configuration; set at most once. */
    var clientConfig: Option<MergedClientConfig>
    /**
     * The in-cluster detector, "provided for testing": the constructor leaves it
     * unset and only code of the same package can assign it.
     */
    var icc: Option<InClusterConfig>
    /** How often the loader has been asked. */
    ghost var loadCalls: nat

    /** The state after one resolution from `cache` with `calls` loads made before it. */
    ghost predicate ResolvedFrom(cache: Option<MergedClientConfig>, calls: nat, reply: LoadReply)
      reads this
    {
      var s := ResolveStep(cache, reply);
      clientConfig == s.cache && loadCalls == calls + (if s.loaded then 1 else 0)
    }

    constructor NewImpersonationClientConfig(loader: Loader, overrides: Overrides, user: string, groups: seq<string>)
      ensures this.loader == loader && this.overrides == overrides
      ensures this.user == user && this.groups == groups
      ensures clientConfig == None && icc == None && loadCalls == 0
    {
      this.loader := loader;
      this.overrides := overrides;
      this.user := user;
      this.groups := groups;
      clientConfig := None;
      icc := None;
      loadCalls := 0;
    }

    /** Returns the cached merged client configuration, loading it first if there is none. */
    method CreateClientConfig(reply: LoadReply) returns (res: Result<MergedClientConfig>)
      modifies this`clientConfig, this`loadCalls
      ensures ResolvedFrom(old(clientConfig), old(loadCalls), reply)
      ensures res == ResolveStep(old(clientConfig), reply).result
      ensures old(clientConfig).Some? ==> clientConfig == old(clientConfig)
    {
      if clientConfig.None? {
        loadCalls := loadCalls + 1;
        match reply {
          case LoadFailed(e) =>
            return Err(e);
          case Loaded(merged) =>
            clientConfig := Some(merged);
        }
      }
      res := Ok(clientConfig.value);
    }

    method RawConfig(reply: LoadReply) returns (r: RawReply)
      modifies this`clientConfig, this`loadCalls
      ensures ResolvedFrom(old(clientConfig), old(loadCalls), reply)
      ensures r == match ResolveStep(old(clientConfig), reply).result
                   case Err(e) => RawReply(EmptyApiConfig, Some(e))
                   case Ok(m) => m.raw
    {
      var merged := CreateClientConfig(reply);
      if merged.Err? {
        return RawReply(EmptyApiConfig, Some(merged.error));
      }
      r := merged.value.raw;
    }

    method ClientConfig(reply: LoadReply) returns (r: Outcome<ConfigReply>)
      modifies this`clientConfig, this`loadCalls
      ensures ResolvedFrom(old(clientConfig), old(loadCalls), reply)
      ensures r == match ResolveStep(old(clientConfig), reply).result
                   case Err(e) => Returned(ConfigReply(None, Some(e)))
                   case Ok(m) => ClientConfigRule(m.clientConfig, loader.isDefaultConfig, icc, user, groups)
    {
      var mergedClientConfig := CreateClientConfig(reply);
      if mergedClientConfig.Err? {
        return Returned(ConfigReply(None, Some(mergedClientConfig.error)));
      }

      var mergedConfig, err := mergedClientConfig.value.clientConfig.config, mergedClientConfig.value.clientConfig.err;
      if err.Some? {
        if !IsEmptyConfig(err.value) {
          return Returned(ConfigReply(None, err));
        }
      } else if mergedConfig.Some? {
        if !loader.isDefaultConfig(mergedConfig.value) {
          return Returned(ConfigReply(mergedConfig, None));
        }
      }

      if icc.None? {
        return Panicked(NilInClusterConfig);
      }
      if icc.value.possible {
        return Returned(icc.value.clientConfig);
      }
      if mergedConfig.None? {
        return Panicked(NilMergedConfig);
      }
      var config := mergedConfig.value;
      config := config.(impersonate := config.impersonate.(userName := user));
      config := config.(impersonate := config.impersonate.(groups := groups));
      r := Returned(ConfigReply(Some(config), err));
    }

    method Namespace(reply: LoadReply) returns (r: Outcome<NamespaceReply>)
      modifies this`clientConfig, this`loadCalls
      ensures ResolvedFrom(old(clientConfig), old(loadCalls), reply)
      ensures r == match ResolveStep(old(clientConfig), reply).result
                   case Err(e) => Returned(NamespaceReply("", false, Some(e)))
                   case Ok(m) => NamespaceRule(m.namespace, m.raw, icc)
    {
      var mergedKubeConfig := CreateClientConfig(reply);
      if mergedKubeConfig.Err? {
        return Returned(NamespaceReply("", false, Some(mergedKubeConfig.error)));
      }
      r := NamespaceRule(mergedKubeConfig.value.namespace, mergedKubeConfig.value.raw, icc);
    }

    /** The loader itself, as the config-access handle; nothing is resolved. */
    method ConfigAccess() returns (access: Loader)
      ensures access == loader
    {
      access := loader;
    }
  }

  // ---------------------------------------------------------------------
  // What callers of a resolver observe
  // ---------------------------------------------------------------------

  /**
   * A resolver built by `NewImpersonationClientConfig` has no in-cluster
   * detector, so `ClientConfig` panics whenever it falls back.
   */
  method FreshResolverPanicsOnFallback(loader: Loader, overrides: Overrides, user: string, groups: seq<string>,
                                       merged: MergedClientConfig) returns (r: Outcome<ConfigReply>)
    requires !HardError(merged.clientConfig.err) && !IsExplicit(merged.clientConfig, loader.isDefaultConfig)
    ensures r == Panicked(NilInClusterConfig)
  {
    var c := new DeferredLoadingClientConfig.NewImpersonationClientConfig(loader, overrides, user, groups);
    r := c.ClientConfig(Loaded(merged));
  }

  /**
   * Three calls on one resolver: a failed load is reported and not cached,
   * the next load is cached, and the third call gets the cached handle's
   * answer whatever the loader would have said.
   */
  method RetryThenCache(loader: Loader, overrides: Overrides, user: string, groups: seq<string>,
                        e: Error, first: MergedClientConfig, second: MergedClientConfig)
    returns (failed: RawReply, ns: Outcome<NamespaceReply>, raw: RawReply, ghost loads: nat)
    ensures failed == RawReply(EmptyApiConfig, Some(e))
    ensures ns == NamespaceRule(first.namespace, first.raw, None)
    ensures raw == first.raw
    ensures loads == 2
  {
    var c := new DeferredLoadingClientConfig.NewImpersonationClientConfig(loader, overrides, user, groups);
    failed := c.RawConfig(LoadFailed(e));
    ns := c.Namespace(Loaded(first));
    raw := c.RawConfig(Loaded(second));
    loads := c.loadCalls;
  }
}
