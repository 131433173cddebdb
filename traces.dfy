/** Runs of the lobby: a sequence of invocations applied one after another to
    the stored state, as the host orders them. Over any run that starts from an
    empty registry, every stored entry was created by an accepted registration,
    and no successful change of the trust pin has happened since. */
module Traces {
  import opened Cosmwasm
  import opened StateTypes
  import opened Messages
  import opened Handlers

  /** One invocation: its environment and its message. */
  datatype Step = Step(env: Env, msg: HandleMsg)

  /** The state stored after running `steps` from `s`. */
  function Run(s: State, steps: seq<Step>): State
    decreases |steps|
  {
    if steps == [] then s
    else
      var last := steps[|steps| - 1];
      Handle(Run(s, steps[..|steps| - 1]), last.env, last.msg).state
  }

  /** `step` is a registration that passes the referrer check and creates `e`. */
  predicate Admits(step: Step, e: Contract) {
    && step.msg.RegisteredCallback?
    && step.msg.referrer == step.env.contractCodeHash
    && e == Contract(step.msg.address, step.msg.tableLabel, step.msg.private, step.env.block.time)
  }

  /** `step`, applied to `s`, successfully changes the trusted game code hash
      (the code-id update or, as written, the stamper update). */
  predicate Repins(s: State, step: Step) {
    (step.msg.UpdateValidCodeId? || step.msg.UpdateStamper?) && step.env.message.sender == s.admin
  }

  /** Step `i` of the run admitted `e`, and no later step re-pinned. */
  predicate AdmittedSincePin(s0: State, steps: seq<Step>, e: Contract, i: int) {
    && 0 <= i < |steps|
    && Admits(steps[i], e)
    && forall j :: i < j < |steps| ==> !Repins(Run(s0, steps[..j]), steps[j])
  }

  /** Every entry stored after `steps` was admitted since the last re-pin. */
  ghost predicate Authenticated(s0: State, steps: seq<Step>) {
    forall e :: e in Run(s0, steps).contracts ==> exists i :: AdmittedSincePin(s0, steps, e, i)
  }

  /** One invocation either keeps an entry it found, when it does not re-pin,
      or created the entry itself. */
  lemma StepProvenance(s: State, step: Step, e: Contract)
    requires e in Handle(s, step.env, step.msg).state.contracts
    ensures (e in s.contracts && !Repins(s, step)) || Admits(step, e)
  {
    match step.msg
    case RegisteredCallback(address, private, tableLabel, referrer) =>
      if referrer == step.env.contractCodeHash {
        assert e in s.contracts + [Contract(address, tableLabel, private, step.env.block.time)];
      }
    case _ =>
  }

  /** An admission that no step of a run re-pinned after stays so when one
      more step that does not re-pin is appended. */
  lemma ExtendAdmission(s0: State, steps: seq<Step>, e: Contract, i: int)
    requires steps != []
    requires AdmittedSincePin(s0, steps[..|steps| - 1], e, i)
    requires !Repins(Run(s0, steps[..|steps| - 1]), steps[|steps| - 1])
    ensures AdmittedSincePin(s0, steps, e, i)
  {
    var n := |steps|;
    var prefix := steps[..n - 1];
    forall j | i < j < n
      ensures !Repins(Run(s0, steps[..j]), steps[j])
    {
      if j < n - 1 {
        assert prefix[..j] == steps[..j];
        assert !Repins(Run(s0, prefix[..j]), prefix[j]);
      } else {
        assert steps[..j] == prefix;
      }
    }
  }

  /** The induction step: an entry stored after one more step has a
      provenance, given that every entry stored before it had one. */
  lemma EntryProvenance(s0: State, steps: seq<Step>, e: Contract)
    requires steps != []
    requires Authenticated(s0, steps[..|steps| - 1])
    requires e in Run(s0, steps).contracts
    ensures exists i :: AdmittedSincePin(s0, steps, e, i)
  {
    var n := |steps|;
    var before := Run(s0, steps[..n - 1]);
    StepProvenance(before, steps[n - 1], e);
    if Admits(steps[n - 1], e) {
      assert AdmittedSincePin(s0, steps, e, n - 1);
    } else {
      var i :| AdmittedSincePin(s0, steps[..n - 1], e, i);
      ExtendAdmission(s0, steps, e, i);
    }
  }

  lemma {:induction false} RegistryEntriesAreAuthenticated(s0: State, steps: seq<Step>)
    requires s0.contracts == []
    ensures forall e :: e in Run(s0, steps).contracts ==> exists i :: AdmittedSincePin(s0, steps, e, i)
    decreases |steps|
  {
    if steps != [] {
      RegistryEntriesAreAuthenticated(s0, steps[..|steps| - 1]);
      forall e | e in Run(s0, steps).contracts
        ensures exists i :: AdmittedSincePin(s0, steps, e, i)
      {
        EntryProvenance(s0, steps, e);
      }
    }
  }

  /** From the state `init` creates. */
  lemma InitRegistryEntriesAreAuthenticated(env: Env, msg: InitMsg, steps: seq<Step>)
    ensures forall e :: e in Run(Init(env, msg), steps).contracts ==> exists i :: AdmittedSincePin(Init(env, msg), steps, e, i)
  {
    RegistryEntriesAreAuthenticated(Init(env, msg), steps);
  }
}
