# Google lister options, modelled in Dafny

This project models the functional options of the Google registry lister in
go-containerregistry (`pkg/v1/google/options.go`). Each of the four option
constructors returns a closure that, run on a `lister`, updates one of its
fields in place and returns an error or nil:

- `WithTransport(t)` stores the HTTP transport;
- `WithAuth(a)` stores the authenticator;
- `WithContext(ctx)` stores the context for the listing requests;
- `WithAuthFromKeychain(keys)` asks the keychain for the authenticator of the
  lister's registry. If that fails it returns the keychain's error as it is
  and changes nothing. Otherwise it logs a warning when the answer is the
  `Anonymous` sentinel, stores the answer (Anonymous included) and returns nil.

Files:

- `wrappers.dfy` (module `Wrappers`): `Option` (a Go error that may be nil)
  and `Result` (a value or an error).
- `collaborators.dfy` (module `Collaborators`): the collaborators the options
  only store or consult. Transports and contexts are opaque handles. An
  authenticator is `Anonymous` or an opaque credential. A keychain is the
  function `Registry -> Result<Authenticator, Error>` that its `Resolve` computes.
- `options.dfy` (module `Options`): the options as values (`ListerOption`), the
  lister's fields as a value (`ListerState`) and `Apply`, the meaning of one
  application. Lemmas relate two applications: idempotence, last write wins,
  commutation of options on different fields, and the keychain being consulted
  only at the lister's registry.
- `lister.dfy` (module `Google`): the `lister` as the class `Lister` with the
  fields `transport`, `auth`, `ctx` and `repo`. Each option is a method with
  `modifies this` that updates the fields in place. The logger is replaced by
  a ghost counter, `warnings`. The method `Lister.Apply` runs any option and is
  proved to do what `Options.Apply` says. The class constructor only fills the
  fields; building a lister with its defaults happens elsewhere in the package.
- `harness.dfy` (module `Harness`): a TEST HARNESS that options.go does not
  contain. `ApplyAll` applies a sequence of options left to right and stops at
  the first error, as a lister constructor consumes its options. It exists to
  state how the options compose: last write wins, fail fast, one warning per
  anonymous fallback. The two scenario lemmas are worked examples.

## Model

| member | source | states |
|---|---|---|
| Options.Apply | pkg/v1/google/options.go:27-65 | No option changes the repository, and each changes only the field it targets. The three setters store their argument, return nil and never warn. The keychain option fails exactly when resolving the lister's registry fails; it then returns that error unwrapped and leaves the lister as it was. Otherwise it stores the resolved authenticator, Anonymous included. A warning is logged if and only if resolution succeeded with Anonymous. |
| Options.ApplyIsIdempotent | pkg/v1/google/options.go:27-65 | A second application of any option leaves the same lister and returns the same error and warning flag as the first. Because the warning is logged on every run, an anonymous fallback is logged again. |
| Options.LaterWriteWins | pkg/v1/google/options.go:36-56 | Of two options writing the same field, the second decides it once it succeeds. Whether the second fails does not depend on the first. |
| Options.DistinctFieldsCommute | pkg/v1/google/options.go:27-65 | Two options writing different fields leave the same lister in either order, provided both run whatever the first returns. A run that stops at the first error does not commute them. Neither option's error or warning depends on the other. |
| Options.KeychainReadAtRegistryOnly | pkg/v1/google/options.go:47 | The keychain option's outcome depends on the keychain only through its answer for the lister's registry. |
| Google.Lister.WithTransport | pkg/v1/google/options.go:27-31 | Sets `transport` to `t` and returns nil. `auth`, `ctx`, `repo` and the warning count are unchanged. |
| Google.Lister.WithAuth | pkg/v1/google/options.go:36-40 | Sets `auth` to `a` and returns nil. `transport`, `ctx`, `repo` and the warning count are unchanged. |
| Google.Lister.WithAuthFromKeychain | pkg/v1/google/options.go:45-57 | Resolves the lister's own registry. On failure it returns the same error, and `auth` and the warning count are unchanged. On success it returns nil and sets `auth` to the answer. One warning is added exactly when the answer is Anonymous. `transport`, `ctx` and `repo` never change. |
| Google.Lister.WithContext | pkg/v1/google/options.go:61-65 | Sets `ctx` to `c` and returns nil. `transport`, `auth`, `repo` and the warning count are unchanged. |
| Google.Lister.Apply | pkg/v1/google/options.go:27-65 | Running an option on the object changes its fields to `Options.Apply`'s state and returns `Options.Apply`'s error. It adds one warning exactly when that application warns. |
| Harness.ApplyAll | pkg/v1/google/options.go:47-50 | The harness stops exactly when some option fails, and the failing option is not counted as applied. Warnings never outnumber the applied options. The repository is never changed. |
| Harness.ApplyAllAppend | pkg/v1/google/options.go:27-65 | Running `a + b` is running `a` and then, only if `a` succeeded, running `b` from where `a` left the lister. |
| Harness.FailFast | pkg/v1/google/options.go:47-50 | If the options before a failing option succeed, the run returns that option's error unchanged. The lister stays as the earlier options left it, and no later option is applied. |
| Harness.KeychainErrorAbortsRun | pkg/v1/google/options.go:47-50 | A keychain that cannot resolve the lister's registry aborts the run with exactly its error, after whatever options preceded it. |
| Harness.RepeatedOptionLogsAgain | pkg/v1/google/options.go:51-54 | Running an option twice in a row leaves the same lister and error as running it once. Its warnings are logged twice. |
| Harness.SuccessfulRunLastWriteWins | pkg/v1/google/options.go:27-65 | After a run in which every option succeeded, each field holds the value from the last option that writes it. That value comes from an independent right-to-left definition. A field no option writes keeps its value. |
| Harness.WarningsCountAnonymousFallbacks | pkg/v1/google/options.go:51-53 | A run logs exactly one warning per applied keychain option that resolved to Anonymous, and no other warnings. |
| Harness.AnonymousFallbackScenario | pkg/v1/google/options.go:51-55 | A transport, then a keychain that finds no credentials, then a context: the run succeeds with auth Anonymous and logs one warning. |
| Harness.FailingKeychainScenario | pkg/v1/google/options.go:47-50 | A failing keychain, then a transport: the run returns the keychain's error and the transport is never set. |

## Left out

- Logging (`logs.Warn.Println`): the warning is a ghost counter on `Lister` and a flag in `Options.Outcome`. The message text is not modelled.
- `authn.Keychain.Resolve` is modelled as a total, deterministic function of the registry. Its credential-store lookups, its I/O and any change in its answer between two calls are not modelled.
- `http.RoundTripper`, `context.Context` and non-anonymous authenticators are opaque values. They are stored and never inspected, so their behaviour is not modelled.
- Equality with `authn.Anonymous` is equality with the `Anonymous` constructor. The source compares interface values, which for the shared sentinel amounts to the same test.
- The `lister` type, its construction with default values and the listing loop that applies the options are not part of this model. The fail-fast sequence in `Harness.ApplyAll` is a harness for stating how options compose, not modelled code.
- Go's closures are modelled in two ways. In module `Options`, a `ListerOption` value is built first and `Options.Apply` runs it later, as with the closure. The methods of `Google.Lister` build an option and run it in one call.
