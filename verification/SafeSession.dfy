/** Preparing the certified sign-in: a procedure that may fail at any step and must leave consistent files. */
module SafeSession {
  import opened Json
  import SessionReady

  type Storage = seq<SessionReady.Entry>

  datatype Step =
    | Configure | MakeDirectory | RemoveOld | OpenContext | OpenPage | SignIn | Identity | Redirect | Capture
    | CloseContext | WriteTemp | Rename

  datatype Seen = Seen(home: bool, seed: bool)

  /**
   * Everything the procedure does not control: which step throws, what the guard sees while the context is open
   * during a step (and while `finally` closes it), the storage at each identity poll, the storage captured, and how
   * the writing of the report goes.
   */
  datatype Env = Env(
    email: string, fails: Step -> bool, sees: Step -> Seen, seesLate: Seen, polls: seq<Storage>, captured: Storage,
    report: ReportWrite)

  /** `Refused`: it fails and leaves the old report; `Torn`: it fails and leaves a file that does not parse. */
  datatype ReportWrite = Written | Refused | Torn

  datatype Preflight = Preflight(passed: bool, firebase: bool, profile: bool, home: bool, seed: bool)

  /**
   * Why a preparation rejects: a forbidden navigation if one was seen, otherwise the stage; but an error from writing
   * the report in `finally` takes the place of either.
   */
  datatype Cause = SeedObserved | HomeObserved | FailedDuring(stage: Stage) | ReportNotWritten

  datatype Stage = CONFIGURATION | SIGN_IN | IDENTITY | DIRECT_COMPOSE_REDIRECT | SAVE_STATE

  class Disk {
    var state: Option<Storage>
    var temp: Option<Storage>
    var preflight: Option<Preflight>
  }

  /** Some poll matches: the first such poll, and the flags it leaves. */
  function PollEnd(polls: seq<Storage>, email: string, flags: SessionReady.Flags): (bool, SessionReady.Flags) {
    if polls == [] then (false, flags)
    else
      var now := SessionReady.PrepFlags(polls[0], email);
      if SessionReady.PrepReady(polls[0], email) then (true, now) else PollEnd(polls[1..], email, now)
  }

  /** The steps during which the browser context is open. */
  predicate WhileOpen(step: Step) {
    step in {OpenContext, OpenPage, SignIn, Identity, Redirect, Capture, CloseContext}
  }

  const OPEN_STEPS: set<Step> := {OpenContext, OpenPage, SignIn, Identity, Redirect, Capture, CloseContext}

  /** Nothing forbidden is seen during these steps. */
  ghost predicate Quiet(env: Env, steps: set<Step>) {
    forall step :: step in steps ==> env.sees(step) == Seen(false, false)
  }

  /** Exactly when preparation succeeds: no step throws, some poll matches, nothing forbidden is ever seen. */
  ghost predicate Succeeds(env: Env) {
    && (forall step :: !env.fails(step))
    && (exists i :: 0 <= i < |env.polls| && SessionReady.PrepReady(env.polls[i], env.email))
    && (forall step :: WhileOpen(step) ==> env.sees(step) == Seen(false, false))
  }

  /** Everything before the sign-in has gone well. */
  predicate Configured(env: Env) {
    && !env.fails(Configure) && !env.fails(MakeDirectory) && !env.fails(RemoveOld)
    && !env.fails(OpenContext) && !env.fails(OpenPage)
  }

  /** The identity has been polled. */
  predicate Polled(env: Env) {
    Configured(env) && !env.fails(SignIn) && !env.fails(Identity)
  }

  ghost predicate SomePollMatches(env: Env) {
    exists i :: 0 <= i < |env.polls| && SessionReady.PrepReady(env.polls[i], env.email)
  }

  /** The stage in which a preparation first goes wrong without a forbidden navigation. */
  ghost predicate FailsIn(env: Env, stage: Stage) {
    match stage
    case CONFIGURATION => !Configured(env)
    case SIGN_IN => Configured(env) && env.fails(SignIn)
    case IDENTITY => Configured(env) && !env.fails(SignIn) && (env.fails(Identity) || !SomePollMatches(env))
    case DIRECT_COMPOSE_REDIRECT =>
      Polled(env) && SomePollMatches(env) && (env.fails(Redirect) || env.fails(Capture) || env.fails(CloseContext))
    case SAVE_STATE =>
      && Polled(env) && SomePollMatches(env)
      && !env.fails(Redirect) && !env.fails(Capture) && !env.fails(CloseContext)
      && (env.fails(WriteTemp) || env.fails(Rename))
  }

  lemma SucceedsIff(env: Env)
    ensures Succeeds(env) <==>
              && Polled(env) && SomePollMatches(env) && Quiet(env, OPEN_STEPS)
              && !env.fails(Redirect) && !env.fails(Capture) && !env.fails(CloseContext)
              && !env.fails(WriteTemp) && !env.fails(Rename)
  {
    hide SessionReady.PrepReady;
    forall step ensures WhileOpen(step) <==> step in OPEN_STEPS {
      EveryStep(step);
    }
    if Configured(env) && !env.fails(SignIn) && !env.fails(Identity) && !env.fails(Redirect) && !env.fails(Capture)
       && !env.fails(CloseContext) && !env.fails(WriteTemp) && !env.fails(Rename)
    {
      forall step ensures !env.fails(step) {
        EveryStep(step);
      }
    }
  }

  predicate Known(step: Step) {
    step in OPEN_STEPS || step in {Configure, MakeDirectory, RemoveOld, WriteTemp, Rename}
  }

  lemma EveryStep(step: Step)
    ensures Known(step)
  {
    match step
    case _ =>
  }

  /** The flags of the last evaluation: the first that matches, or the last of all. */
  ghost predicate LastFlags(env: Env, flags: SessionReady.Flags) {
    exists k :: 0 <= k < |env.polls| && flags == SessionReady.PrepFlags(env.polls[k], env.email) && LastPoll(env, k)
  }

  ghost predicate LastPoll(env: Env, k: nat)
    requires k < |env.polls|
  {
    && (forall j :: 0 <= j < k ==> !SessionReady.PrepReady(env.polls[j], env.email))
    && (SessionReady.PrepReady(env.polls[k], env.email) || k == |env.polls| - 1)
  }

  lemma {:induction false} PollEndFlags(polls: seq<Storage>, email: string, flags: SessionReady.Flags) returns (k: nat)
    requires polls != []
    ensures k < |polls| && PollEnd(polls, email, flags).1 == SessionReady.PrepFlags(polls[k], email)
    ensures forall j :: 0 <= j < k ==> !SessionReady.PrepReady(polls[j], email)
    ensures SessionReady.PrepReady(polls[k], email) || k == |polls| - 1
  {
    hide SessionReady.PrepFlags;
    if SessionReady.PrepReady(polls[0], email) || |polls| == 1 {
      k := 0;
      assert |polls| == 1 ==> polls[1..] == [];
    } else {
      hide SessionReady.PrepReady;
      k := PollEndFlags(polls[1..], email, SessionReady.PrepFlags(polls[0], email));
      k := k + 1;
    }
  }

  lemma {:induction false} PollEndMeans(polls: seq<Storage>, email: string, flags: SessionReady.Flags)
    ensures PollEnd(polls, email, flags).0 <==> exists i :: 0 <= i < |polls| && SessionReady.PrepReady(polls[i], email)
    ensures PollEnd(polls, email, flags).0 ==> PollEnd(polls, email, flags).1 == SessionReady.Flags(true, true)
  {
    hide SessionReady.PrepFlags;
    if polls != [] && !SessionReady.PrepReady(polls[0], email) {
      PollEndMeans(polls[1..], email, SessionReady.PrepFlags(polls[0], email));
      forall i | 0 <= i < |polls| && SessionReady.PrepReady(polls[i], email)
        ensures exists j :: 0 <= j < |polls[1..]| && SessionReady.PrepReady(polls[1..][j], email)
      {
        assert polls[1..][i - 1] == polls[i];
      }
      if exists j :: 0 <= j < |polls[1..]| && SessionReady.PrepReady(polls[1..][j], email) {
        var j :| 0 <= j < |polls[1..]| && SessionReady.PrepReady(polls[1..][j], email);
        assert polls[j + 1] == polls[1..][j];
      }
    } else if polls != [] {
      assert SessionReady.PrepReady(polls[0], email);
    }
  }

  /** The identity flags that a preparation reports. */
  function FlagsOf(env: Env): (bool, bool) {
    if !Polled(env) then (false, false)
    else
      var flags := PollEnd(env.polls, env.email, SessionReady.Flags(false, false)).1;
      (flags.firebase, flags.profile)
  }

  lemma FlagsAreLast(env: Env)
    ensures Polled(env) && env.polls != [] ==> LastFlags(env, SessionReady.Flags(FlagsOf(env).0, FlagsOf(env).1))
    ensures !Polled(env) || env.polls == [] ==> FlagsOf(env) == (false, false)
  {
    if Polled(env) && env.polls != [] {
      var k := PollEndFlags(env.polls, env.email, SessionReady.Flags(false, false));
      hide PollEnd, SessionReady.PrepFlags, SessionReady.PrepReady;
      assert LastPoll(env, k);
    }
  }

  /** The mutable `result` object, the stage and the open context of one preparation. */
  class Preparation {
    const env: Env
    const disk: Disk
    var passed: bool
    var firebase: bool
    var profile: bool
    var home: bool
    var seed: bool
    var open: bool
    var stage: Stage
    ghost var sawHome: bool
    ghost var sawSeed: bool

    ghost predicate Valid()
      reads this
    {
      home == sawHome && seed == sawSeed
    }

    constructor (env: Env, disk: Disk)
      ensures this.env == env && this.disk == disk && Valid()
      ensures !passed && !firebase && !profile && !home && !seed && !open && stage == CONFIGURATION
    {
      this.env, this.disk := env, disk;
      passed, firebase, profile, home, seed, open := false, false, false, false, false, false;
      stage, sawHome, sawSeed := CONFIGURATION, false, false;
    }

    /** The route guard and the navigation listener: they only ever raise a flag. */
    method Guard(seen: Seen)
      requires Valid()
      modifies this`home, this`seed, this`sawHome, this`sawSeed
      ensures Valid() && home == (old(home) || seen.home) && seed == (old(seed) || seen.seed)
    {
      if seen.seed {
        seed := true;
      }
      if seen.home {
        home := true;
      }
      sawHome, sawSeed := sawHome || seen.home, sawSeed || seen.seed;
    }

    /** One awaited step while the context is open; false when it throws. */
    method Browse(step: Step) returns (ok: bool)
      requires Valid()
      modifies this`home, this`seed, this`sawHome, this`sawSeed
      ensures Valid() && home == (old(home) || env.sees(step).home) && seed == (old(seed) || env.sees(step).seed)
      ensures ok == !env.fails(step)
    {
      Guard(env.sees(step));
      ok := !env.fails(step);
    }

    /** `expect.poll` on the identity, copying each evaluation into the result. */
    method PollIdentity() returns (ok: bool)
      requires Valid() && !firebase && !profile
      modifies this`firebase, this`profile
      ensures Valid()
      ensures (ok, SessionReady.Flags(firebase, profile))
           == PollEnd(env.polls, env.email, SessionReady.Flags(false, false))
    {
      hide SessionReady.PrepFlags;
      var i := 0;
      while i < |env.polls|
        invariant 0 <= i <= |env.polls|
        invariant PollEnd(env.polls[i..], env.email, SessionReady.Flags(firebase, profile))
               == PollEnd(env.polls, env.email, SessionReady.Flags(false, false))
      {
        assert env.polls[i..][0] == env.polls[i] && env.polls[i..][1..] == env.polls[i + 1..];
        var flags := SessionReady.EvaluateIdentity(env.polls[i], env.email);
        firebase, profile := flags.firebase, flags.profile;
        if flags.firebase && flags.profile {
          return true;
        }
        i := i + 1;
      }
      return false;
    }

    /** From opening the context to the identity page; false when a step throws. */
    method SignInSteps() returns (ok: bool)
      requires Valid() && !home && !seed && !open && stage == CONFIGURATION
      requires !env.fails(Configure) && !env.fails(MakeDirectory) && !env.fails(RemoveOld)
      modifies this`home, this`seed, this`sawHome, this`sawSeed, this`open, this`stage
      ensures Valid() && ok == Polled(env)
      ensures ok ==> open && stage == IDENTITY
      ensures ok && !home && !seed ==> Quiet(env, {OpenContext, OpenPage, SignIn, Identity})
      ensures Quiet(env, {OpenContext, OpenPage, SignIn, Identity}) ==> !home && !seed
      ensures !ok ==> FailsIn(env, stage)
    {
      hide SessionReady.PrepReady;
      ok := Browse(OpenContext);
      if !ok { return; }
      open := true;
      ok := Browse(OpenPage);
      if !ok { return; }
      stage := SIGN_IN;
      ok := Browse(SignIn);
      if !ok { return; }
      stage := IDENTITY;
      ok := Browse(Identity);
    }

    /** From the compose page to the closed context; false when a step throws. */
    method CaptureSteps() returns (ok: bool)
      requires Valid() && Polled(env) && SomePollMatches(env) && open
      modifies this`home, this`seed, this`sawHome, this`sawSeed, this`open, this`stage
      ensures Valid() && stage == DIRECT_COMPOSE_REDIRECT && open == !ok
      ensures ok == (!env.fails(Redirect) && !env.fails(Capture) && !env.fails(CloseContext))
      ensures ok && !home && !seed ==> !old(home) && !old(seed) && Quiet(env, {Redirect, Capture, CloseContext})
      ensures !old(home) && !old(seed) && Quiet(env, {Redirect, Capture, CloseContext}) ==> !home && !seed
      ensures !ok ==> FailsIn(env, stage)
    {
      hide SessionReady.PrepReady, SomePollMatches, Polled;
      stage := DIRECT_COMPOSE_REDIRECT;
      ok := Browse(Redirect);
      if !ok { return; }
      ok := Browse(Capture);
      if !ok { return; }
      ok := Browse(CloseContext);
      if !ok { return; }
      open := false;
    }

    /** The part of the `try` block with an open context; false when it throws. */
    method UseContext() returns (ok: bool)
      requires Valid() && !home && !seed && !firebase && !profile && !open && stage == CONFIGURATION
      requires !env.fails(Configure) && !env.fails(MakeDirectory) && !env.fails(RemoveOld)
      modifies this`home, this`seed, this`sawHome, this`sawSeed, this`firebase, this`profile, this`open, this`stage
      ensures Valid()
      ensures ok ==> !open && firebase && profile
      ensures ok <==> Polled(env) && SomePollMatches(env)
                      && !env.fails(Redirect) && !env.fails(Capture) && !env.fails(CloseContext)
      ensures ok && !home && !seed ==> Quiet(env, OPEN_STEPS)
      ensures Quiet(env, OPEN_STEPS) ==> !home && !seed
      ensures !ok ==> FailsIn(env, stage)
      ensures ok ==> stage == DIRECT_COMPOSE_REDIRECT
      ensures (firebase, profile) == FlagsOf(env)
    {
      PollEndMeans(env.polls, env.email, SessionReady.Flags(false, false));
      hide PollEnd, SessionReady.PrepReady;
      ok := SignInSteps();
      if !ok { return; }
      ok := PollIdentity();
      if !ok { return; }
      ok := CaptureSteps();
    }

    /** The `try` block; false when it throws. */
    method Attempt() returns (ok: bool)
      requires Valid() && !passed && !home && !seed && !firebase && !profile && !open && stage == CONFIGURATION
      modifies this, disk
      ensures Valid() && passed == ok == Succeeds(env) && disk.preflight == old(disk.preflight)
      ensures !ok && !home && !seed ==> FailsIn(env, stage)
      ensures (firebase, profile) == FlagsOf(env)
      ensures ok ==> !home && !seed && firebase && profile && !open && disk.state == Some(env.captured)
    {
      SucceedsIff(env);
      hide Succeeds, Quiet, SomePollMatches, PollEnd, SessionReady.PrepReady;
      if env.fails(Configure) || env.fails(MakeDirectory) || env.fails(RemoveOld) {
        return false;
      }
      disk.state := None;
      ok := UseContext();
      if !ok { return; }
      if home || seed {
        return false;
      }
      stage := SAVE_STATE;
      if env.fails(WriteTemp) {
        disk.temp := Some([]);          // whatever part of the file was written
        return false;
      }
      disk.temp := Some(env.captured);
      if env.fails(Rename) {
        return false;
      }
      disk.state, disk.temp := disk.temp, None;
      passed := true;
    }

    /** The message of the thrown error, chosen in the `catch` before `finally` runs. */
    function Report(): Cause
      reads this
    {
      if seed then SeedObserved else if home then HomeObserved else FailedDuring(stage)
    }

    /**
     * `prepareInssaSafeSession`: the try block, then the `finally` block on every path. `ok` tells whether the call
     * returns; otherwise it rejects with the cause.
     */
    method Prepare() returns (ok: bool, cause: Cause)
      requires Valid() && !passed && !home && !seed && !firebase && !profile && !open && stage == CONFIGURATION
      modifies this, disk
      ensures cause.FailedDuring? && !passed ==> FailsIn(env, cause.stage)
      ensures Polled(env) && env.polls != [] ==> LastFlags(env, SessionReady.Flags(firebase, profile))
      ensures !Polled(env) || env.polls == [] ==> !firebase && !profile
      ensures Valid() && passed == Succeeds(env) && ok == (passed && env.report.Written?)
      ensures disk.temp.None? && (disk.state.Some? <==> passed)
      ensures passed ==> disk.state == Some(env.captured) && !sawHome && !sawSeed && firebase && profile
      ensures (cause.ReportNotWritten? <==> !env.report.Written?) && (cause.SeedObserved? ==> seed)
      ensures (cause.HomeObserved? ==> home)
      ensures env.report.Written? && env.seesLate == Seen(false, false) ==>
                (cause.SeedObserved? <==> seed) && (cause.FailedDuring? <==> !seed && !home)
      ensures env.report.Written? ==> disk.preflight == Some(Preflight(passed, firebase, profile, home, seed))
      ensures env.report.Refused? ==> disk.preflight == old(disk.preflight)
      ensures env.report.Torn? ==> disk.preflight == None
    {
      ok := Attempt();
      FlagsAreLast(env);
      cause := Report();
      if open {
        Guard(env.seesLate);
        open := false;
      }
      if !passed {
        disk.state := None;
      }
      disk.temp := None;
      match env.report
      case Written =>
        disk.preflight := Some(Preflight(passed, firebase, profile, home, seed));
      case Refused =>
        ok, cause := false, ReportNotWritten;
      case Torn =>
        disk.preflight := None;
        ok, cause := false, ReportNotWritten;
    }
  }

  /** The report says PASS, with both identities matched and nothing forbidden seen. */
  predicate Certifies(report: Option<Preflight>) {
    report == Some(Preflight(true, true, true, false, false))
  }

  /** `readPreparedInssaSafeState`: the prepared storage, or None when it rejects. */
  function ReadPrepared(state: Option<Storage>, preflight: Option<Preflight>, email: string): Option<Storage> {
    if preflight.None? || state.None? then None
    else
      var p := preflight.value;
      if !p.passed || !p.firebase || !p.profile || p.home || p.seed
          || !SessionReady.Complete(state.value, email) then None
      else state
  }

  /**
   * A preparation and a read that follows it. After one that returns, the read accepts iff the captured session is
   * complete. After one that rejects, it rejects too, except when everything but the report's writing went well, an
   * old report that certifies was left in place, and the captured session is complete.
   */
  method PrepareThenRead(env: Env, disk: Disk) returns (read: Option<Storage>, ok: bool)
    modifies disk
    ensures ok == (Succeeds(env) && env.report.Written?)
    ensures ok ==> (read.Some? <==> SessionReady.Complete(env.captured, env.email))
    ensures !ok ==>
              (read.Some? <==>
               && Succeeds(env) && env.report.Refused?
               && Certifies(old(disk.preflight)) && SessionReady.Complete(env.captured, env.email))
    ensures read.Some? ==> read.value == env.captured
  {
    hide SessionReady.Complete, Succeeds;
    var preparation := new Preparation(env, disk);
    var cause;
    ok, cause := preparation.Prepare();
    read := ReadPrepared(disk.state, disk.preflight, env.email);
  }
}
