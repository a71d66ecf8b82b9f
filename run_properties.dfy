/** What a run promises, stated over the invocation history it produces:
    the retry behaviour of tunnel creation, the order of the steps, and that
    the run's result is the first error met (or `Ok`). */
module RunProperties {
  import opened Types
  import opened KeyPath
  import opened Commands
  import opened Outcomes
  import opened Configuration
  import opened Orchestration

  /** The verdict the step behind `inv` reaches from the environment's reply. */
  function StepVerdict(inv: Invocation, reply: Reply): Result<()> {
    match PhaseOf(inv)
    case Create =>
      (match CreateAttempt(reply.io)
       case Done => Ok(())
       case Transient(e) => Err(e)
       case Permanent(e) => Err(e))
    case Validate => ValidateVerdict(Observe(inv, reply))
    case Detect =>
      (match DetectVerdict(Observe(inv, reply))
       case Ok(arch) => ArmVerdict(arch)
       case Err(e) => Err(e))
    case Transfer => TransferVerdict(reply.io)
    case Foreign => Ok(())
  }

  /** The environment's reply to the invocation at index `i` of a history. */
  function ReplyAt(env: Env, calls: seq<Invocation>, i: nat): Reply
    requires i < |calls|
  {
    env(calls[..i + 1])
  }

  /** The verdict reached by the step behind the invocation at index `i`. */
  function VerdictAt(env: Env, calls: seq<Invocation>, i: nat): Result<()>
    requires i < |calls|
  {
    StepVerdict(calls[i], ReplyAt(env, calls, i))
  }

  /** The invocation at index `i` was a creation attempt that failed transiently. */
  predicate RetriedAt(env: Env, calls: seq<Invocation>, i: nat)
    requires i < |calls|
  {
    PhaseOf(calls[i]) == Create && CreateAttempt(ReplyAt(env, calls, i).io).Transient?
  }

  /** The invocation at index `i` is one its predecessor allows: another
      creation attempt only after a transient failure, validation only after a
      successful creation, detection only after a successful validation (and
      only when the check is not skipped), transfer only after the architecture
      gate passed (and only when the run is not tunnel-only). */
  predicate FollowsAt(env: Env, calls: seq<Invocation>, i: nat, config: Config, req: Request)
    requires 0 < i < |calls|
  {
    var prevPhase := PhaseOf(calls[i - 1]);
    match PhaseOf(calls[i])
    case Create => RetriedAt(env, calls, i - 1)
    case Validate => prevPhase == Create && VerdictAt(env, calls, i - 1).Ok?
    case Detect => !config.skipArchValidation && prevPhase == Validate && VerdictAt(env, calls, i - 1).Ok?
    case Transfer =>
      && !req.skipKeyTransfer
      && prevPhase == (if config.skipArchValidation then Validate else Detect)
      && VerdictAt(env, calls, i - 1).Ok?
    case Foreign => false
  }

  /** Extending a history does not change what its earlier entries saw. */
  lemma ExtensionKeepsPast(env: Env, calls: seq<Invocation>, longer: seq<Invocation>, i: nat, config: Config, req: Request)
    requires calls <= longer && i < |calls|
    ensures ReplyAt(env, longer, i) == ReplyAt(env, calls, i)
    ensures VerdictAt(env, longer, i) == VerdictAt(env, calls, i)
    ensures RetriedAt(env, longer, i) == RetriedAt(env, calls, i)
    ensures 0 < i ==> FollowsAt(env, longer, i, config, req) == FollowsAt(env, calls, i, config, req)
  {
    assert longer[..i + 1] == calls[..i + 1];
    if 0 < i {
      assert longer[..i] == calls[..i];
    }
  }

  /** `inv` is one of the commands this request runs. */
  ghost predicate Issued(inv: Invocation, req: Request, local: Local) {
    || inv == TunnelInvocation(req.port, req.user, req.host)
    || inv == ValidationInvocation(req.user, req.port)
    || inv == DetectionInvocation(req.user, req.port)
    || (var key := ValidateKeyPath(req.keyPath, local.home, local.existing);
        key.Ok? && inv == TransferInvocation(key.value, req.user, req.port))
  }

  /** The step a fully successful run ends with. */
  function FinalPhase(config: Config, req: Request): Phase {
    if !req.skipKeyTransfer then Transfer
    else if !config.skipArchValidation then Detect
    else Validate
  }

  /** Every invocation after index `n` follows from its predecessor. */
  ghost predicate Chained(env: Env, calls: seq<Invocation>, n: nat, config: Config, req: Request) {
    forall i | n < i < |calls| :: FollowsAt(env, calls, i, config, req)
  }

  lemma ChainExtends(env: Env, calls: seq<Invocation>, inv: Invocation, n: nat, config: Config, req: Request)
    requires n < |calls| && Chained(env, calls, n, config, req)
    requires FollowsAt(env, calls + [inv], |calls|, config, req)
    ensures Chained(env, calls + [inv], n, config, req)
  {
    var longer := calls + [inv];
    forall i | n < i < |calls| ensures FollowsAt(env, longer, i, config, req) {
      ExtensionKeepsPast(env, calls, longer, i, config, req);
    }
  }

  /** Tunnel creation under the retry policy: it only ever runs the tunnel
      command, at least once and at most `retries + 1` times; every attempt
      but the last failed transiently; the result is `Ok` exactly when the last
      attempt succeeded, and otherwise that attempt's error; and a last
      transient failure means the schedule was used up. */
  lemma {:induction false} CreateRetryBehaviour(env: Env, log: seq<Invocation>, host: string, user: string, port: u16, retries: nat)
    ensures var t := CreateSpec(env, log, host, user, port, retries);
            var n := |log|;
            && log < t.log
            && |t.log| <= n + retries + 1
            && (forall i | n <= i < |t.log| :: t.log[i] == TunnelInvocation(port, user, host))
            && (forall i | n <= i < |t.log| - 1 :: RetriedAt(env, t.log, i))
            && var last := CreateAttempt(ReplyAt(env, t.log, |t.log| - 1).io);
               && (t.result.Ok? <==> last.Done?)
               && (t.result.Err? ==> t.result.error == last.error)
               && (last.Transient? ==> |t.log| == n + retries + 1)
    decreases retries
  {
    var inv := TunnelInvocation(port, user, host);
    var calls := log + [inv];
    var t := CreateSpec(env, log, host, user, port, retries);
    PhasesRecognised(port, user, host, "");
    if CreateAttempt(env(calls).io).Transient? && retries > 0 {
      CreateRetryBehaviour(env, calls, host, user, port, retries - 1);
      assert t == CreateSpec(env, calls, host, user, port, retries - 1);
      assert t.log[..|log| + 1] == calls;
      forall i | |log| <= i < |t.log| - 1 ensures RetriedAt(env, t.log, i) {
        if i == |log| {
          assert t.log[i] == inv;
        }
      }
    } else {
      assert t.log == calls;
      assert t.log[..|log| + 1] == calls;
    }
  }

  /** The history after `j` attempts of the same invocation. */
  function Attempts(log: seq<Invocation>, inv: Invocation, j: nat): seq<Invocation> {
    log + seq(j, _ => inv)
  }

  /** A creation that fails transiently `k` times and then succeeds, with a
      schedule that grants at least `k` retries, succeeds after exactly `k + 1`
      attempts. */
  lemma {:induction false} CreateSucceedsAfterTransients(env: Env, log: seq<Invocation>, host: string, user: string, port: u16, retries: nat, k: nat)
    requires k <= retries
    requires forall j | 1 <= j <= k ::
               CreateAttempt(env(Attempts(log, TunnelInvocation(port, user, host), j)).io).Transient?
    requires CreateAttempt(env(Attempts(log, TunnelInvocation(port, user, host), k + 1)).io).Done?
    ensures CreateSpec(env, log, host, user, port, retries)
              == Traced(Ok(()), Attempts(log, TunnelInvocation(port, user, host), k + 1))
    decreases k
  {
    var inv := TunnelInvocation(port, user, host);
    var calls := log + [inv];
    assert Attempts(log, inv, 1) == calls;
    if k > 0 {
      forall j | 1 <= j <= k
        ensures Attempts(calls, inv, j) == Attempts(log, inv, j + 1)
      {
      }
      CreateSucceedsAfterTransients(env, calls, host, user, port, retries - 1, k - 1);
    }
  }

  /** Creation as the first stage of a run: it opens the history with the
      tunnel command, and its result is the verdict of its last attempt. */
  lemma CreationStage(env: Env, log: seq<Invocation>, req: Request, retries: nat)
    ensures var c := CreateSpec(env, log, req.host, req.user, req.port, retries);
            var last := |c.log| - 1;
            && log < c.log
            && (forall i | |log| <= i < |c.log| :: c.log[i] == TunnelInvocation(req.port, req.user, req.host))
            && PhaseOf(c.log[last]) == Create
            && (c.result.Err? ==> c.result == VerdictAt(env, c.log, last))
            && (c.result.Ok? ==> VerdictAt(env, c.log, last).Ok?)
  {
    CreateRetryBehaviour(env, log, req.host, req.user, req.port, retries);
    PhasesRecognised(req.port, req.user, req.host, "");
  }

  /** Every creation attempt after the first follows a transient failure. */
  lemma CreationChained(env: Env, log: seq<Invocation>, config: Config, req: Request, retries: nat)
    ensures var c := CreateSpec(env, log, req.host, req.user, req.port, retries);
            Chained(env, c.log, |log|, config, req)
  {
    var c := CreateSpec(env, log, req.host, req.user, req.port, retries);
    CreateRetryBehaviour(env, log, req.host, req.user, req.port, retries);
    PhasesRecognised(req.port, req.user, req.host, "");
    forall i | |log| < i < |c.log| ensures FollowsAt(env, c.log, i, config, req) {
      assert RetriedAt(env, c.log, i - 1);
    }
  }

  /** Validation appends one probe whose verdict is the stage's result. */
  lemma ValidationStage(env: Env, calls: seq<Invocation>, req: Request)
    ensures var v := ValidateSpec(env, calls, req.user, req.port);
            && v.log == calls + [ValidationInvocation(req.user, req.port)]
            && PhaseOf(v.log[|calls|]) == Validate
            && VerdictAt(env, v.log, |calls|) == v.result
  {
    var v := ValidateSpec(env, calls, req.user, req.port);
    PhasesRecognised(req.port, req.user, req.host, "");
    assert v.log[..|calls| + 1] == v.log;
  }

  /** The architecture gate leaves the history alone when skipped; otherwise it
      appends one detection probe whose verdict is the gate's result. */
  lemma ArchitectureStage(env: Env, calls: seq<Invocation>, config: Config, req: Request)
    ensures var a := ArmCheckSpec(env, calls, config.skipArchValidation, req.user, req.port);
            && (config.skipArchValidation ==> a == Traced(Ok(()), calls))
            && (!config.skipArchValidation ==>
                  && a.log == calls + [DetectionInvocation(req.user, req.port)]
                  && PhaseOf(a.log[|calls|]) == Detect
                  && VerdictAt(env, a.log, |calls|) == a.result)
  {
    var a := ArmCheckSpec(env, calls, config.skipArchValidation, req.user, req.port);
    if !config.skipArchValidation {
      PhasesRecognised(req.port, req.user, req.host, "");
      assert a.log[..|calls| + 1] == a.log;
    }
  }

  /** Key transfer fails with the resolution error and runs nothing when the
      key path does not resolve; otherwise it appends one `ssh-copy-id` on the
      resolved file whose verdict is the stage's result. */
  lemma TransferStage(env: Env, calls: seq<Invocation>, req: Request, local: Local)
    ensures var x := TransferSpec(env, calls, req.keyPath, req.user, req.port, local);
            var key := ValidateKeyPath(req.keyPath, local.home, local.existing);
            && (key.Err? ==> x == Traced(Err(key.error), calls))
            && (key.Ok? ==>
                  && x.log == calls + [TransferInvocation(key.value, req.user, req.port)]
                  && PhaseOf(x.log[|calls|]) == Transfer
                  && VerdictAt(env, x.log, |calls|) == x.result)
  {
    var x := TransferSpec(env, calls, req.keyPath, req.user, req.port, local);
    var key := ValidateKeyPath(req.keyPath, local.home, local.existing);
    if key.Ok? {
      PhasesRecognised(req.port, req.user, req.host, key.value);
      assert x.log[..|calls| + 1] == x.log;
    }
  }

  /** Appending an invocation to a chained history keeps it chained when the
      invocation follows from the history's last entry. */
  lemma AppendChained(env: Env, calls: seq<Invocation>, inv: Invocation, n: nat, config: Config, req: Request)
    requires n < |calls| && Chained(env, calls, n, config, req)
    requires var prevPhase := PhaseOf(calls[|calls| - 1]);
             var prevOk := VerdictAt(env, calls, |calls| - 1).Ok?;
             match PhaseOf(inv)
             case Create => RetriedAt(env, calls, |calls| - 1)
             case Validate => prevPhase == Create && prevOk
             case Detect => !config.skipArchValidation && prevPhase == Validate && prevOk
             case Transfer =>
               !req.skipKeyTransfer && prevPhase == (if config.skipArchValidation then Validate else Detect) && prevOk
             case Foreign => false
    ensures Chained(env, calls + [inv], n, config, req)
  {
    ExtensionKeepsPast(env, calls, calls + [inv], |calls| - 1, config, req);
    ChainExtends(env, calls, inv, n, config, req);
  }

  /** The order of a run. It starts with a creation attempt and every later
      invocation follows from its predecessor: validation only after creation
      succeeded, detection only after validation succeeded and the check is on,
      transfer only after the architecture gate passed and only when the run is
      not tunnel-only. */
  lemma RunOrder(env: Env, log: seq<Invocation>, config: Config, req: Request, local: Local, retries: nat)
    ensures var t := RunSpec(env, log, config, req, local, retries);
            && log < t.log
            && PhaseOf(t.log[|log|]) == Create
            && Chained(env, t.log, |log|, config, req)
  {
    var n := |log|;
    var c := CreateSpec(env, log, req.host, req.user, req.port, retries);
    CreationStage(env, log, req, retries);
    CreationChained(env, log, config, req, retries);
    if c.result.Ok? {
      var v := ValidateSpec(env, c.log, req.user, req.port);
      ValidationStage(env, c.log, req);
      PhasesRecognised(req.port, req.user, req.host, "");
      AppendChained(env, c.log, ValidationInvocation(req.user, req.port), n, config, req);
      if v.result.Ok? {
        AfterValidation(env, log, v.log, config, req, local);
      }
    }
  }

  /** The tail of `RunOrder`: from a chained history ending in a successful
      validation, the architecture gate and the transfer keep it chained. */
  lemma AfterValidation(env: Env, log: seq<Invocation>, calls: seq<Invocation>, config: Config, req: Request, local: Local)
    requires log < calls && PhaseOf(calls[|log|]) == Create
    requires |calls| >= |log| + 2
    requires Chained(env, calls, |log|, config, req)
    requires PhaseOf(calls[|calls| - 1]) == Validate && VerdictAt(env, calls, |calls| - 1).Ok?
    ensures var a := ArmCheckSpec(env, calls, config.skipArchValidation, req.user, req.port);
            var t := if a.result.Err? || req.skipKeyTransfer then a
                     else TransferSpec(env, a.log, req.keyPath, req.user, req.port, local);
            && log < t.log
            && PhaseOf(t.log[|log|]) == Create
            && Chained(env, t.log, |log|, config, req)
  {
    var n := |log|;
    var a := ArmCheckSpec(env, calls, config.skipArchValidation, req.user, req.port);
    ArchitectureStage(env, calls, config, req);
    var key := ValidateKeyPath(req.keyPath, local.home, local.existing);
    PhasesRecognised(req.port, req.user, req.host, if key.Ok? then key.value else "");
    if !config.skipArchValidation {
      AppendChained(env, calls, DetectionInvocation(req.user, req.port), n, config, req);
    }
    assert a.log[n] == calls[n];
    if a.result.Ok? && !req.skipKeyTransfer {
      TransferStage(env, a.log, req, local);
      if key.Ok? {
        AppendChained(env, a.log, TransferInvocation(key.value, req.user, req.port), n, config, req);
      }
      var x := TransferSpec(env, a.log, req.keyPath, req.user, req.port, local);
      assert x.log[n] == calls[n];
    }
  }

  /** A run only ever runs the request's own four commands, the transfer with
      the resolved key file. */
  lemma RunIssuesOwnCommands(env: Env, log: seq<Invocation>, config: Config, req: Request, local: Local, retries: nat)
    ensures var t := RunSpec(env, log, config, req, local, retries);
            forall i | |log| <= i < |t.log| :: Issued(t.log[i], req, local)
  {
    var n := |log|;
    var t := RunSpec(env, log, config, req, local, retries);
    var c := CreateSpec(env, log, req.host, req.user, req.port, retries);
    CreationStage(env, log, req, retries);
    if c.result.Err? {
      return;
    }
    var v := ValidateSpec(env, c.log, req.user, req.port);
    ValidationStage(env, c.log, req);
    if v.result.Err? {
      return;
    }
    var a := ArmCheckSpec(env, v.log, config.skipArchValidation, req.user, req.port);
    ArchitectureStage(env, v.log, config, req);
    assert forall i | n <= i < |a.log| :: Issued(a.log[i], req, local) by {
      forall i | n <= i < |a.log| ensures Issued(a.log[i], req, local) {
        if i < |c.log| {
          assert a.log[i] == c.log[i];
        }
      }
    }
    if a.result.Err? || req.skipKeyTransfer {
      return;
    }
    TransferStage(env, a.log, req, local);
  }

  /** The result of a run. It is `Ok` exactly when the last invocation's step
      succeeded and that step is the last one the run asks for; an error is the
      error of the last invocation's step, or, when the key path does not
      resolve, the `InvalidKeyPath` error raised right after the architecture
      gate passed (after validation when the gate is skipped), before
      `ssh-copy-id` would run. */
  lemma RunOutcome(env: Env, log: seq<Invocation>, config: Config, req: Request, local: Local, retries: nat)
    ensures var t := RunSpec(env, log, config, req, local, retries);
            var key := ValidateKeyPath(req.keyPath, local.home, local.existing);
            var last := |t.log| - 1;
            && |t.log| > |log|
            && (t.result.Ok? <==> VerdictAt(env, t.log, last).Ok? && PhaseOf(t.log[last]) == FinalPhase(config, req))
            && (t.result.Err? ==>
                  || t.result == VerdictAt(env, t.log, last)
                  || (&& VerdictAt(env, t.log, last).Ok?
                      && PhaseOf(t.log[last]) == (if config.skipArchValidation then Validate else Detect)
                      && !req.skipKeyTransfer
                      && key.Err?
                      && t.result == Err(key.error)))
  {
    var n := |log|;
    var c := CreateSpec(env, log, req.host, req.user, req.port, retries);
    CreationStage(env, log, req, retries);
    if c.result.Err? {
      return;
    }
    var v := ValidateSpec(env, c.log, req.user, req.port);
    ValidationStage(env, c.log, req);
    if v.result.Err? {
      return;
    }
    var a := ArmCheckSpec(env, v.log, config.skipArchValidation, req.user, req.port);
    ArchitectureStage(env, v.log, config, req);
    if a.result.Err? || req.skipKeyTransfer {
      return;
    }
    TransferStage(env, a.log, req, local);
  }

  /** First error wins: every invocation before the last one either succeeded
      or was a creation attempt that failed transiently and was retried. */
  lemma {:induction false} FirstErrorWins(env: Env, log: seq<Invocation>, config: Config, req: Request, local: Local, retries: nat)
    ensures var t := RunSpec(env, log, config, req, local, retries);
            forall i | |log| <= i < |t.log| - 1 :: VerdictAt(env, t.log, i).Ok? || RetriedAt(env, t.log, i)
  {
    var t := RunSpec(env, log, config, req, local, retries);
    RunOrder(env, log, config, req, local, retries);
    forall i | |log| <= i < |t.log| - 1 ensures VerdictAt(env, t.log, i).Ok? || RetriedAt(env, t.log, i) {
      assert FollowsAt(env, t.log, i + 1, config, req);
    }
  }

  /** Skipping: a tunnel-only run never runs `ssh-copy-id`, and a run with the
      architecture check off never runs `uname -m`. */
  lemma {:induction false} SkippedStepsNeverRun(env: Env, log: seq<Invocation>, config: Config, req: Request, local: Local, retries: nat)
    ensures var t := RunSpec(env, log, config, req, local, retries);
            && (req.skipKeyTransfer ==> forall i | |log| <= i < |t.log| :: PhaseOf(t.log[i]) != Transfer)
            && (config.skipArchValidation ==> forall i | |log| <= i < |t.log| :: PhaseOf(t.log[i]) != Detect)
  {
    var t := RunSpec(env, log, config, req, local, retries);
    RunOrder(env, log, config, req, local, retries);
    forall i | |log| < i < |t.log|
      ensures req.skipKeyTransfer ==> PhaseOf(t.log[i]) != Transfer
      ensures config.skipArchValidation ==> PhaseOf(t.log[i]) != Detect
    {
      assert FollowsAt(env, t.log, i, config, req);
    }
  }

  /** The configured `max_retries` is never consulted: two configurations that
      differ only there give the same run. Retries are bounded by the time
      budget alone. */
  lemma RunIgnoresMaxRetries(env: Env, log: seq<Invocation>, config: Config, req: Request, local: Local, retries: nat, maxRetries: u32)
    ensures RunSpec(env, log, config.(maxRetries := maxRetries), req, local, retries)
              == RunSpec(env, log, config, req, local, retries)
  {
  }

  /** Everything succeeds at the first try: one creation, one validation, one
      detection (on an ARM device) and one transfer, and the run is `Ok`. */
  lemma HappyPath(env: Env, log: seq<Invocation>, config: Config, req: Request, local: Local, retries: nat, keyFile: string)
    requires !config.skipArchValidation && !req.skipKeyTransfer
    requires ValidateKeyPath(req.keyPath, local.home, local.existing) == Ok(keyFile)
    requires var c1 := log + [TunnelInvocation(req.port, req.user, req.host)];
             var c2 := c1 + [ValidationInvocation(req.user, req.port)];
             var c3 := c2 + [DetectionInvocation(req.user, req.port)];
             var c4 := c3 + [TransferInvocation(keyFile, req.user, req.port)];
             && CreateAttempt(env(c1).io).Done?
             && Succeeded(Observe(ValidationInvocation(req.user, req.port), env(c2)))
             && Succeeded(Observe(DetectionInvocation(req.user, req.port), env(c3)))
             && Arch.IsArm(env(c3).io.stdout)
             && env(c4).io.Output? && env(c4).io.success
    ensures RunSpec(env, log, config, req, local, retries)
              == Traced(Ok(()), log + [TunnelInvocation(req.port, req.user, req.host),
                                       ValidationInvocation(req.user, req.port),
                                       DetectionInvocation(req.user, req.port),
                                       TransferInvocation(keyFile, req.user, req.port)])
  {
  }
}
