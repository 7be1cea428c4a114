/** The collaborators of the Google lister's options, reduced to what the
    options do with them. Transports and contexts are stored and never
    inspected, so they are opaque handles; an authenticator is compared only
    against the `Anonymous` sentinel; a keychain is asked for exactly one
    thing, the authenticator of a registry. */
module Collaborators {
  import opened Wrappers

  /** A registry host (the `name.Registry` a repository belongs to). */
  datatype Registry = Registry(host: string)

  /** A repository reference: its registry and its path inside it. */
  datatype Repository = Repository(registry: Registry, path: string)

  /** An `http.RoundTripper`, stored and never inspected. */
  datatype Transport = Transport(handle: nat)

  /** A `context.Context`, stored and never inspected. */
  datatype Context = Context(handle: nat)

  /** An `authn.Authenticator`: either the shared `Anonymous` sentinel
      ("no credentials") or some credential-supplying value. */
  datatype Authenticator = Anonymous | Credential(handle: nat)

  /** A Go `error` value that is not nil. */
  datatype Error = Error(message: string)

  /** What `Keychain.Resolve` answers for one registry. */
  type Resolution = Result<Authenticator, Error>

  /** An `authn.Keychain`, as the function its `Resolve` computes. */
  type Keychain = Registry -> Resolution
}
