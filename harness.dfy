/** A test harness, not part of options.go: applying a sequence of options
    left to right against one lister, stopping at the first error, the way a
    constructor of the lister consumes its options. It is used only to state
    how the options compose (last write wins, fail fast, one warning per
    anonymous fallback). */
module Harness {
  import opened Wrappers
  import opened Collaborators
  import opened Options

  /** The result of running a sequence of options: the lister afterwards,
      the first error (None if every option succeeded), the warnings logged
      and how many options succeeded before the run stopped. */
  datatype Run = Run(state: ListerState, err: Option<Error>, warnings: nat, applied: nat)

  /** Applies `opts` in order to `s`, stopping at the first failing option. */
  function ApplyAll(opts: seq<ListerOption>, s: ListerState): (r: Run)
    // the run stops exactly when some option failed, and that option is never
    // counted as applied
    ensures r.applied <= |opts|
    ensures r.err == None <==> r.applied == |opts|
    ensures r.warnings <= r.applied
    ensures r.state.repo == s.repo
    decreases |opts|
  {
    if opts == [] then Run(s, None, 0, 0)
    else
      var first := Apply(opts[0], s);
      if first.err.Some? then Run(s, first.err, 0, 0)
      else
        var rest := ApplyAll(opts[1..], first.state);
        Run(rest.state, rest.err,
            rest.warnings + (if first.warned then 1 else 0), rest.applied + 1)
  }

  /** Running `a + b` is running `a` and, if it succeeded, running `b` from
      where `a` left the lister. */
  lemma {:induction false} ApplyAllAppend(a: seq<ListerOption>, b: seq<ListerOption>, s: ListerState)
    ensures ApplyAll(a + b, s) ==
              var ra := ApplyAll(a, s);
              if ra.err.Some? then ra
              else
                var rb := ApplyAll(b, ra.state);
                Run(rb.state, rb.err, ra.warnings + rb.warnings, ra.applied + rb.applied)
  {
    if a == [] {
      assert a + b == b;
    } else {
      assert (a + b)[0] == a[0];
      assert (a + b)[1..] == a[1..] + b;
      var first := Apply(a[0], s);
      if first.err == None {
        ApplyAllAppend(a[1..], b, first.state);
      }
    }
  }

  /** Fail fast: if the options before `o` succeed and `o` fails, the run
      returns `o`'s error as it is, the lister as the earlier options left
      it, and none of the options after `o` is applied. */
  lemma FailFast(pre: seq<ListerOption>, o: ListerOption, post: seq<ListerOption>, s: ListerState)
    requires ApplyAll(pre, s).err == None
    requires Apply(o, ApplyAll(pre, s).state).err.Some?
    ensures ApplyAll(pre + [o] + post, s) ==
              Run(ApplyAll(pre, s).state, Apply(o, ApplyAll(pre, s).state).err,
                  ApplyAll(pre, s).warnings, |pre|)
  {
    ApplyAllAppend(pre + [o], post, s);
    ApplyAllAppend(pre, [o], s);
  }

  /** The keychain option's resolution error aborts the whole run unchanged,
      whatever options came before it, since none of them moves the lister
      to another registry. */
  lemma KeychainErrorAbortsRun(pre: seq<ListerOption>, keys: Keychain, post: seq<ListerOption>, s: ListerState)
    requires ApplyAll(pre, s).err == None
    requires keys(s.repo.registry).Failure?
    ensures ApplyAll(pre + [WithAuthFromKeychain(keys)] + post, s).err ==
              Some(keys(s.repo.registry).error)
    ensures ApplyAll(pre + [WithAuthFromKeychain(keys)] + post, s).applied == |pre|
  {
    FailFast(pre, WithAuthFromKeychain(keys), post, s);
  }

  /** Running an option twice in a row leaves the lister as running it once
      and returns the same error, but every warning is logged twice: the
      warning is written each time the option runs. */
  lemma RepeatedOptionLogsAgain(o: ListerOption, s: ListerState)
    ensures ApplyAll([o, o], s).state == ApplyAll([o], s).state
    ensures ApplyAll([o, o], s).err == ApplyAll([o], s).err
    ensures ApplyAll([o, o], s).warnings == 2 * ApplyAll([o], s).warnings
  {
    ApplyAllAppend([o], [o], s);
    assert [o] + [o] == [o, o];
    ApplyIsIdempotent(o, s);
  }

  /** The value the last option in `opts` that writes a field gives it, with
      `written` telling which options write it and what; `initial` if none
      does. An independent, right-to-left reading of "last write wins". */
  function LastWrite<T>(opts: seq<ListerOption>, written: ListerOption -> Option<T>, initial: T): T
    decreases |opts|
  {
    if opts == [] then initial
    else
      match written(opts[|opts| - 1])
      case Some(v) => v
      case None => LastWrite(opts[..|opts| - 1], written, initial)
  }

  function TransportWritten(o: ListerOption): Option<Transport>
  {
    if o.WithTransport? then Some(o.t) else None
  }

  function ContextWritten(o: ListerOption): Option<Context>
  {
    if o.WithContext? then Some(o.c) else None
  }

  /** The authenticator an option would store on a lister of registry `r`. */
  function AuthWritten(r: Registry, o: ListerOption): Option<Authenticator>
  {
    match o
    case WithAuth(a) => Some(a)
    case WithAuthFromKeychain(keys) =>
      if keys(r).Success? then Some(keys(r).value) else None
    case _ => None
  }

  /** Last write wins: after a run in which every option succeeded, each
      field holds the value the last option writing it gave it, or its value
      before the run if no option wrote it. */
  lemma {:induction false} SuccessfulRunLastWriteWins(opts: seq<ListerOption>, s: ListerState)
    requires ApplyAll(opts, s).err == None
    ensures ApplyAll(opts, s).state.transport == LastWrite(opts, TransportWritten, s.transport)
    ensures ApplyAll(opts, s).state.ctx == LastWrite(opts, ContextWritten, s.ctx)
    ensures ApplyAll(opts, s).state.auth ==
              LastWrite(opts, o => AuthWritten(s.repo.registry, o), s.auth)
    ensures ApplyAll(opts, s).state.repo == s.repo
    decreases |opts|
  {
    if opts != [] {
      var n := |opts| - 1;
      var pre, last := opts[..n], opts[n];
      assert opts == pre + [last];
      ApplyAllAppend(pre, [last], s);
      SuccessfulRunLastWriteWins(pre, s);
      var mid := ApplyAll(pre, s).state;
      assert ApplyAll([last], mid).state == Apply(last, mid).state;
    }
  }

  /** The number of keychain options in `opts` that resolve registry `r` to
      Anonymous. */
  function AnonymousFallbacks(opts: seq<ListerOption>, r: Registry): nat
    decreases |opts|
  {
    if opts == [] then 0
    else
      (if opts[0].WithAuthFromKeychain? && opts[0].keys(r) == Success(Anonymous) then 1 else 0)
      + AnonymousFallbacks(opts[1..], r)
  }

  /** A run logs exactly one warning for each option it applied that fell
      back on anonymous credentials, and none for anything else. */
  lemma {:induction false} WarningsCountAnonymousFallbacks(opts: seq<ListerOption>, s: ListerState)
    ensures ApplyAll(opts, s).warnings ==
              AnonymousFallbacks(opts[..ApplyAll(opts, s).applied], s.repo.registry)
    decreases |opts|
  {
    if opts != [] {
      var first := Apply(opts[0], s);
      if first.err == None {
        var rest := ApplyAll(opts[1..], first.state);
        WarningsCountAnonymousFallbacks(opts[1..], first.state);
        var done := opts[..rest.applied + 1];
        assert done[0] == opts[0];
        assert done[1..] == opts[1..][..rest.applied];
      }
    }
  }

  /** A transport, a keychain that finds no credentials and a context: the
      run succeeds with the anonymous authenticator and one warning. */
  lemma AnonymousFallbackScenario(s: ListerState, t: Transport, c: Context)
    ensures var run := ApplyAll([WithTransport(t), WithAuthFromKeychain(_ => Success(Anonymous)), WithContext(c)], s);
            run.err == None && run.warnings == 1 &&
            run.state == ListerState(t, Anonymous, c, s.repo)
  {
    var opts := [WithTransport(t), WithAuthFromKeychain(_ => Success(Anonymous)), WithContext(c)];
    var s1 := s.(transport := t);
    var s2 := s1.(auth := Anonymous);
    assert opts[1..][1..] == [WithContext(c)];
    assert ApplyAll(opts[1..][1..], s2) == Run(s2.(ctx := c), None, 0, 1);
    assert ApplyAll(opts[1..], s1) == Run(s2.(ctx := c), None, 1, 2);
  }

  /** A failing keychain followed by a transport: the run returns the
      keychain's error and the transport is never set. */
  lemma FailingKeychainScenario(s: ListerState, t: Transport, e: Error)
    ensures var run := ApplyAll([WithAuthFromKeychain(_ => Failure(e)), WithTransport(t)], s);
            run.err == Some(e) && run.state == s && run.applied == 0
  {
  }
}
