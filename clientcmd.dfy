/**
 * The values that the deferred client configuration exchanges with its
 * collaborators: the kubeconfig loader, the merged client configuration it
 * builds, and the in-cluster detector. Only the parts the resolver inspects
 * or writes are kept; everything else a real rest or kubeconfig record holds
 * is summarised by a few opaque fields.
 */
module ClientCmd {

  datatype Option<+T> = None | Some(value: T)

  /**
   * An error returned by a collaborator. Whether an error is of the
   * "empty configuration" kind is part of the error itself, so the
   * classification the resolver relies on is explicit.
   */
  datatype Error =
    | EmptyConfigError(message: string)
    | OtherError(message: string)

  predicate IsEmptyConfig(e: Error) {
    e.EmptyConfigError?
  }

  /** The name of the namespace that is used when none is chosen. */
  const NamespaceDefault: string := "default"

  /** The impersonation part of a rest client configuration. */
  datatype ImpersonationConfig = ImpersonationConfig(
    userName: string,
    groups: seq<string>,
    extra: map<string, seq<string>>)

  /**
   * A rest client configuration: `host` and `bearerToken` stand for every
   * field the resolver never writes. The loader's default test still sees
   * them, since it is applied to the whole value.
   */
  datatype RestConfig = RestConfig(
    host: string,
    bearerToken: string,
    impersonate: ImpersonationConfig)

  /** One named context of a kubeconfig. */
  datatype Context = Context(cluster: string, authInfo: string, namespace: string)

  /** A raw kubeconfig: the current context and the contexts by name. */
  datatype ApiConfig = ApiConfig(currentContext: string, contexts: map<string, Context>)

  /** The zero value of a raw kubeconfig. */
  const EmptyApiConfig: ApiConfig := ApiConfig("", map[])

  /** The two results of a `ClientConfig()` call; `None` is a nil pointer. */
  datatype ConfigReply = ConfigReply(config: Option<RestConfig>, err: Option<Error>)

  /** The three results of a `Namespace()` call. */
  datatype NamespaceReply = NamespaceReply(ns: string, overridden: bool, err: Option<Error>)

  /** The two results of a `RawConfig()` call. */
  datatype RawReply = RawReply(raw: ApiConfig, err: Option<Error>)

  /**
   * The merged client configuration built from what the loader loaded and
   * the caller's overrides, given by what each of its queries answers.
   */
  datatype MergedClientConfig = MergedClientConfig(
    clientConfig: ConfigReply,
    namespace: NamespaceReply,
    raw: RawReply)

  /** What one call of the loader's `Load` produces. */
  datatype LoadReply =
    | Loaded(merged: MergedClientConfig)
    | LoadFailed(err: Error)

  /**
   * The loader: its `IsDefaultConfig` test, and the files it reads, which
   * is what it exposes as a config-access handle.
   */
  datatype Loader = Loader(
    isDefaultConfig: RestConfig -> bool,
    loadingPrecedence: seq<string>)

  /** The caller's overrides; only the context to use is kept. */
  datatype Overrides = Overrides(currentContext: string)

  /** The in-cluster detector: whether in-cluster use is possible, and its own answers. */
  datatype InClusterConfig = InClusterConfig(
    possible: bool,
    clientConfig: ConfigReply,
    namespace: NamespaceReply)
}
