# Deferred-loading client configuration (Helm's tiller)

This project models `DeferredLoadingClientConfig` from package `tiller`. It is a Kubernetes
client configuration that puts off loading the kubeconfig until it is first needed. It then
caches the merged client configuration it built from that kubeconfig and the caller's
overrides. When no explicit configuration was found, it falls back to in-cluster credentials
and the in-cluster namespace. On the last fallback it writes an impersonation user and groups
onto the merged rest configuration.

Two Dafny modules:

- `ClientCmd` (`clientcmd.dfy`) holds the values exchanged with the collaborators, reduced to
  what the resolver looks at. Errors carry their "empty configuration" classification. A rest
  config has an `Impersonate{UserName, Groups, Extra}` part. A raw kubeconfig has a current
  context and a map from context name to context. The merged client configuration is given by
  what its `ClientConfig`, `Namespace` and `RawConfig` queries answer. The loader holds its
  `IsDefaultConfig` test as a total function. The in-cluster detector is its `Possible` flag
  plus its own answers.
- `Tiller` (`tiller.dfy`) holds the model itself:
  - the write-once cache as a pure step function (`ResolveStep`), a fold over a sequence of
    calls (`Calls`), and lemmas about that fold;
  - the two fallback rules as pure functions (`ClientConfigRule`, `NamespaceRule`);
  - the class `DeferredLoadingClientConfig`, whose methods update the cached field and are
    proved against those functions.

How the collaborators are modelled:

- Each resolving method takes a `LoadReply`: what `loader.Load()` answers if this call asks it.
  A ghost counter `loadCalls` records how often the loader was asked.
- The two nil dereferences the source can reach are a distinct `Panicked` outcome:
  - the constructor never sets `icc`, so every path that reaches `icc.Possible()` panics;
  - line 129 writes through `mergedConfig`, which is nil when the merged query returned an
    empty-config error (or no error) without a config and in-cluster use is not possible.

  No recovery is invented for either.
- `icc` is unexported in the source and is commented there only as "provided for testing" (lines 46-47). The constructor never sets it and returns the interface type (line 57), so only code inside package `tiller` can assign it. The Dafny `var icc` is more open than this: any caller may assign it.

## Model

| member | source | states |
|---|---|---|
| `Tiller.ResolveStep` | pkg/tiller/client_config.go:66-89 | The loader is asked exactly when nothing is cached. A cached handle is returned and kept. A failed load is passed through and nothing is cached. A successful load is cached. The caller gets a handle exactly when one is cached, and it is that handle. |
| `Tiller.Calls` | pkg/tiller/client_config.go:66-89 | Over any sequence of calls there is one result per call and at most one load per call. A cache that was set stays set to the same handle. |
| `Tiller.CachedHandleIsKept` | pkg/tiller/client_config.go:67-88 | Once a handle is cached, no later call asks the loader. Every later call gets that same handle, whatever the loader would answer. |
| `Tiller.FirstSuccessIsCached` | pkg/tiller/client_config.go:72-84 | On a fresh resolver whose first success is call k: the loader is asked exactly k+1 times; calls before k get their own load errors; call k and every later call get the handle loaded at k. |
| `Tiller.FailuresAreRetried` | pkg/tiller/client_config.go:72-75 | When every load fails, every call asks the loader again, gets that call's error, and nothing is cached. |
| `Tiller.Impersonated` | pkg/tiller/client_config.go:129-130 | Writing the identity sets `Impersonate.UserName` to the user and `Impersonate.Groups` to the groups. It leaves `Impersonate.Extra` and every other field unchanged. |
| `Tiller.ClientConfigRule` | pkg/tiller/client_config.go:107-133 | A non-empty-config error gives (nil, err). An explicit config (no error, non-nil, not the default) is returned unchanged whatever the in-cluster detector says. Otherwise: an unset detector panics; a possible in-cluster config is returned untouched; if not possible, the merged config is returned impersonated with the original error, or the call panics if that config is nil. |
| `Tiller.IdentityOnlyOnLastFallback` | pkg/tiller/client_config.go:110-133 | On the hard-error, explicit-config and in-cluster paths, the outcome is the same for every user and groups. |
| `Tiller.NamespaceRule` | pkg/tiller/client_config.go:143-168 | A non-empty-config error or an overridden namespace is returned unchanged, and the detector is not asked. Otherwise: an unset detector panics; impossible in-cluster use returns the merged answer unchanged; if possible, an explicit namespace gives (ns, false, nil) and anything else gives the detector's namespace. |
| `Tiller.DefaultNamespaceExplicitOrImplicit` | pkg/tiller/client_config.go:151-168 | With in-cluster use possible, a merged "default" namespace is honoured as (default, false, nil) if the readable current context names a namespace. Otherwise (no context, an empty context namespace, or a raw-config error) the detector's namespace is returned. |
| `Tiller.RawConfigOnlyForDefault` | pkg/tiller/client_config.go:151-162 | The raw-config answer affects the outcome only when the merged namespace is "default". |
| `Tiller.DeferredLoadingClientConfig.NewImpersonationClientConfig` | pkg/tiller/client_config.go:57-59 | Keeps the loader, overrides, user and groups. It starts unresolved, with no in-cluster detector and no load made. |
| `Tiller.DeferredLoadingClientConfig.CreateClientConfig` | pkg/tiller/client_config.go:66-89 | The new cache, the result and the load count follow `ResolveStep`. A set cache is never overwritten. |
| `Tiller.DeferredLoadingClientConfig.RawConfig` | pkg/tiller/client_config.go:91-98 | A resolution error gives (empty raw config, err). Otherwise the merged configuration's raw answer is returned as is. |
| `Tiller.DeferredLoadingClientConfig.ClientConfig` | pkg/tiller/client_config.go:101-134 | A resolution error gives (nil, err). Otherwise the outcome is `ClientConfigRule` applied to the merged answer, the loader's default test, the detector and the stored identity. |
| `Tiller.DeferredLoadingClientConfig.Namespace` | pkg/tiller/client_config.go:137-169 | A resolution error gives ("", false, err). Otherwise the outcome is `NamespaceRule` applied to the merged namespace and raw answers and the detector. |
| `Tiller.DeferredLoadingClientConfig.ConfigAccess` | pkg/tiller/client_config.go:172-174 | Returns the loader itself and resolves nothing. |
| `Tiller.FreshResolverPanicsOnFallback` | pkg/tiller/client_config.go:124-128 | The only constructor leaves `icc` unset. So on a fresh resolver, a merged config that is neither a hard error nor explicit makes `ClientConfig` panic. |
| `Tiller.RetryThenCache` | pkg/tiller/client_config.go:66-98 | One resolver across three calls: a failed load is reported and not cached; the next successful load is cached; a third call gets the cached handle's raw config rather than the loader's new answer; the loader is asked twice. |

## Left out

- Locking: the mutex and the double-checked test (lines 44, 68-69) exist only for concurrent callers. The cache is modelled for calls made one after another, so the two nil tests collapse into one.
- Logging: the `glog` calls (lines 126, 165) have no effect on results.
- Building the merged client configuration: how client-go turns the loaded kubeconfig and the overrides into a client configuration (lines 77-82) is not modelled. A successful `LoadReply` carries the built configuration's answers directly.
- `fallbackReader` and the interactive branch (lines 39, 78-79) are not modelled, because the only constructor never sets the reader (its interactive variant at lines 61-64 is commented out).
- A loader that returns a nil kubeconfig with no error cannot be expressed in this model. `LoadReply` has no such case, so the dereference at lines 79/81 is not modelled.
- A context entry that is present in the kubeconfig map but nil is not modelled. A nil entry behaves like a missing one at line 159.
- Reference identity of the cached handle is modelled as equality of an immutable value. The counter `loadCalls` shows that the handle is never rebuilt.
- The other fields of a rest config (TLS material, auth settings and so on) are not modelled one by one. `host` and `bearerToken` stand for all of them. Line 119 passes the whole merged config to `loader.IsDefaultConfig`, so any of those fields can decide the explicit-config branch. The model keeps that only through the opaque `isDefaultConfig` test on the whole `RestConfig` value.
- The other parts of a kubeconfig (clusters, auth infos beyond their names) are left out. Only the current context and each context's namespace are read (line 159).
- `Tiller.DeferredLoadingClientConfig.ClientConfig`: does not model a delegate that hands out a shared rest config. The source asks the cached handle again on every call (lines 97, 109, 143, 158). The model fixes the handle's three answers when the handle is built. It also assumes the delegate returns a fresh `*restclient.Config` on each call, so the identity write at lines 129-130 is modelled on a copy. As a result, repeated calls on a resolved resolver give the same outcome. With a shared pointer, a second call's `IsDefaultConfig` at line 119 would see the already impersonated config.
- A nil `overrides` is not modelled: `Overrides` is a value, so the dereference of `config.overrides` at lines 79/81 cannot fail here.
