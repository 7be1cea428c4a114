/** The `lister` of package google as an object, and the four options as
    methods that update it in place the way the returned closures do. The
    logger is replaced by a ghost counter of the warnings written to it. */
module Google {
  import opened Wrappers
  import opened Collaborators
  import Options

  class Lister {
    var transport: Transport
    var auth: Authenticator
    var ctx: Context
    var repo: Repository

    /** The number of "no matching credentials" warnings logged so far. */
    ghost var warnings: nat

    /** The fields the options work on, as a value. */
    ghost function State(): Options.ListerState
      reads this
    {
      Options.ListerState(transport, auth, ctx, repo)
    }

    /** Sets up a lister whose options have not run yet (its construction
        with default values is done elsewhere in the package). */
    constructor (repo: Repository, transport: Transport, auth: Authenticator, ctx: Context)
      ensures State() == Options.ListerState(transport, auth, ctx, repo)
      ensures warnings == 0
    {
      this.repo := repo;
      this.transport := transport;
      this.auth := auth;
      this.ctx := ctx;
      warnings := 0;
    }

    /** The closure returned by `WithTransport(t)`, run on this lister. */
    method WithTransport(t: Transport) returns (err: Option<Error>)
      modifies this
      ensures err == None
      ensures transport == t
      ensures auth == old(auth) && ctx == old(ctx) && repo == old(repo)
      ensures warnings == old(warnings)
    {
      transport := t;
      return None;
    }

    /** The closure returned by `WithAuth(a)`, run on this lister. */
    method WithAuth(a: Authenticator) returns (err: Option<Error>)
      modifies this
      ensures err == None
      ensures auth == a
      ensures transport == old(transport) && ctx == old(ctx) && repo == old(repo)
      ensures warnings == old(warnings)
    {
      auth := a;
      return None;
    }

    /** The closure returned by `WithAuthFromKeychain(keys)`, run on this
        lister: resolve this lister's registry; on failure return the error
        and change nothing; otherwise warn if the answer is Anonymous and
        store it. */
    method WithAuthFromKeychain(keys: Keychain) returns (err: Option<Error>)
      modifies this
      ensures keys(old(repo).registry).Failure? ==>
                err == Some(keys(old(repo).registry).error) &&
                auth == old(auth) && warnings == old(warnings)
      ensures keys(old(repo).registry).Success? ==>
                err == None && auth == keys(old(repo).registry).value &&
                warnings == old(warnings) + (if auth == Anonymous then 1 else 0)
      ensures transport == old(transport) && ctx == old(ctx) && repo == old(repo)
    {
      var resolved := keys(repo.registry);
      if resolved.Failure? {
        return Some(resolved.error);
      }
      if resolved.value == Anonymous {
        warnings := warnings + 1;
      }
      auth := resolved.value;
      return None;
    }

    /** The closure returned by `WithContext(c)`, run on this lister. */
    method WithContext(c: Context) returns (err: Option<Error>)
      modifies this
      ensures err == None
      ensures ctx == c
      ensures transport == old(transport) && auth == old(auth) && repo == old(repo)
      ensures warnings == old(warnings)
    {
      ctx := c;
      return None;
    }

    /** Runs option `o` on this lister (the call `o(l)` a constructor of the
        lister makes); what it does is what `Options.Apply` says, with one
        more warning counted exactly when that application warns. */
    method Apply(o: Options.ListerOption) returns (err: Option<Error>)
      modifies this
      ensures State() == Options.Apply(o, old(State())).state
      ensures err == Options.Apply(o, old(State())).err
      ensures warnings == old(warnings) + (if Options.Apply(o, old(State())).warned then 1 else 0)
    {
      match o
      case WithTransport(t) => err := WithTransport(t);
      case WithAuth(a) => err := WithAuth(a);
      case WithAuthFromKeychain(keys) => err := WithAuthFromKeychain(keys);
      case WithContext(c) => err := WithContext(c);
    }
  }
}
