/** The four functional options of the Google lister, as values.

    An option, applied to a lister, either changes one of its fields and
    succeeds, or fails with an error and changes nothing. `Apply` is the
    meaning of one application; the `Lister` class in module Google carries
    out the same updates in place and is proved to agree with it. */
module Options {
  import opened Wrappers
  import opened Collaborators

  /** The fields of a `lister` that the options read or write. */
  datatype ListerState = ListerState(
    transport: Transport,
    auth: Authenticator,
    ctx: Context,
    repo: Repository)

  /** One `ListerOption`, by the constructor that made it and its argument. */
  datatype ListerOption =
    | WithTransport(t: Transport)
    | WithAuth(a: Authenticator)
    | WithAuthFromKeychain(keys: Keychain)
    | WithContext(c: Context)

  /** The field of the lister an option writes. */
  datatype Field = TransportField | AuthField | ContextField

  function Target(o: ListerOption): Field
  {
    match o
    case WithTransport(_) => TransportField
    case WithAuth(_) => AuthField
    case WithAuthFromKeychain(_) => AuthField
    case WithContext(_) => ContextField
  }

  /** What applying one option produces: the lister afterwards, the error
      the option returned (None for nil), and whether it logged the
      "falling back on anonymous" warning. */
  datatype Outcome = Outcome(state: ListerState, err: Option<Error>, warned: bool)

  /** Applies option `o` to the lister `s`. */
  function Apply(o: ListerOption, s: ListerState): (r: Outcome)
    // no option touches the repository, and only the targeted field changes
    ensures r.state.repo == s.repo
    ensures Target(o) != TransportField ==> r.state.transport == s.transport
    ensures Target(o) != AuthField ==> r.state.auth == s.auth
    ensures Target(o) != ContextField ==> r.state.ctx == s.ctx
    // the three plain setters store their argument and never fail or warn
    ensures o.WithTransport? ==> r.state.transport == o.t && r.err == None && !r.warned
    ensures o.WithAuth? ==> r.state.auth == o.a && r.err == None && !r.warned
    ensures o.WithContext? ==> r.state.ctx == o.c && r.err == None && !r.warned
    // the keychain option fails exactly when resolving the lister's registry fails;
    // it then returns the resolver's error as it is and leaves the lister untouched
    ensures o.WithAuthFromKeychain? ==>
              (r.err.Some? <==> o.keys(s.repo.registry).Failure?)
    ensures o.WithAuthFromKeychain? && o.keys(s.repo.registry).Failure? ==>
              r.err == Some(o.keys(s.repo.registry).error) && r.state == s
    // otherwise it stores whatever was resolved, Anonymous included
    ensures o.WithAuthFromKeychain? && o.keys(s.repo.registry).Success? ==>
              r.state.auth == o.keys(s.repo.registry).value
    // a warning is logged exactly when resolution succeeded with Anonymous
    ensures r.warned <==> o.WithAuthFromKeychain? && o.keys(s.repo.registry) == Success(Anonymous)
  {
    match o
    case WithTransport(t) => Outcome(s.(transport := t), None, false)
    case WithAuth(a) => Outcome(s.(auth := a), None, false)
    case WithContext(c) => Outcome(s.(ctx := c), None, false)
    case WithAuthFromKeychain(keys) =>
      var resolved := keys(s.repo.registry);
      if resolved.Failure? then Outcome(s, Some(resolved.error), false)
      else Outcome(s.(auth := resolved.value), None, resolved.value == Anonymous)
  }

  /** A second application leaves the same lister and returns the same
      error and warning flag as the first. The warning is logged on every
      run of the option, so an anonymous fallback is logged again. */
  lemma ApplyIsIdempotent(o: ListerOption, s: ListerState)
    ensures Apply(o, Apply(o, s).state) == Apply(o, s)
  {
  }

  /** Of two options writing the same field, the later one decides it: once
      the second succeeds, the first leaves no trace, and whether the second
      fails does not depend on the first. */
  lemma LaterWriteWins(first: ListerOption, second: ListerOption, s: ListerState)
    requires Target(first) == Target(second)
    ensures Apply(second, Apply(first, s).state).err == Apply(second, s).err
    ensures Apply(second, s).err == None ==>
              Apply(second, Apply(first, s).state).state == Apply(second, s).state
  {
  }

  /** Options writing different fields commute when both are run whatever
      the first returns (a run that stops at the first error does not): the
      lister ends the same in either order, and neither option's error or
      warning depends on whether the other ran before it. */
  lemma DistinctFieldsCommute(o1: ListerOption, o2: ListerOption, s: ListerState)
    requires Target(o1) != Target(o2)
    ensures Apply(o2, Apply(o1, s).state).state == Apply(o1, Apply(o2, s).state).state
    ensures Apply(o2, Apply(o1, s).state).err == Apply(o2, s).err
    ensures Apply(o2, Apply(o1, s).state).warned == Apply(o2, s).warned
    ensures Apply(o1, Apply(o2, s).state).err == Apply(o1, s).err
    ensures Apply(o1, Apply(o2, s).state).warned == Apply(o1, s).warned
  {
  }

  /** The keychain option consults its keychain at the lister's registry and
      nowhere else: two keychains that agree there give the same outcome. */
  lemma KeychainReadAtRegistryOnly(k1: Keychain, k2: Keychain, s: ListerState)
    requires k1(s.repo.registry) == k2(s.repo.registry)
    ensures Apply(WithAuthFromKeychain(k1), s) == Apply(WithAuthFromKeychain(k2), s)
  {
  }
}
