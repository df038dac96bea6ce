/**
  The publisher itself, statement by statement, in lock-step with the publication protocol:
  before each of its file operations the other processes take any number of steps, and each
  operation is the next step of this process, which may fail.
 */
module ToolingBundle {
  import opened Basics
  import opened BundleHash
  import opened BundlePublication
  import opened BundleInvariant
  import opened BundleTheorems

  /** One state can be followed by another. */
  ghost predicate Reaches(setup: Setup, s: State, s': State) {
    setup.Valid() && Inv(setup, s) && exists steps :: Run(setup, s, steps) == Some(s')
  }

  lemma ReachesItself(setup: Setup, s: State)
    requires setup.Valid() && Inv(setup, s)
    ensures Reaches(setup, s, s)
  {
    assert Run(setup, s, []) == Some(s);
  }

  lemma {:induction false} RunConcat(setup: Setup, s: State, a: seq<Step>, b: seq<Step>)
    requires setup.Valid() && Inv(setup, s) && Run(setup, s, a).Some?
    ensures Run(setup, s, a + b) == Run(setup, Run(setup, s, a).value, b)
    decreases |a|
  {
    hide StagingInv, OwnScratch, ScratchInv, Enabled, Apply, StagingGrows;
    if a == [] {
      assert a + b == b;
    } else {
      StepKeepsInv(setup, s, a[0]);
      RunConcat(setup, Apply(setup, s, a[0]), a[1..], b);
      assert (a + b)[1..] == a[1..] + b;
    }
  }

  lemma ReachesStep(setup: Setup, s: State, s': State, step: Step)
    requires Reaches(setup, s, s') && Inv(setup, s') && Enabled(setup, s', step)
    ensures Reaches(setup, s, Apply(setup, s', step)) && Inv(setup, Apply(setup, s', step))
  {
    hide StagingInv, OwnScratch, ScratchInv, Enabled, Apply, StagingGrows;
    var steps :| Run(setup, s, steps) == Some(s');
    StepKeepsInv(setup, s', step);
    RunConcat(setup, s, steps, [step]);
    assert Run(setup, Apply(setup, s', step), []) == Some(Apply(setup, s', step));
    assert [step][1..] == [];
    assert Run(setup, s', [step]) == Some(Apply(setup, s', step));
    assert Run(setup, s, steps + [step]) == Some(Apply(setup, s', step));
  }

  predicate Concerns(step: Step, p: nat) {
    !step.Spawn? && step.p == p
  }

  lemma OthersKeepProc(setup: Setup, s: State, step: Step, p: nat)
    requires setup.Valid() && Inv(setup, s) && Enabled(setup, s, step) && p < |s.procs| && !Concerns(step, p)
    ensures p < |Apply(setup, s, step).procs| && Apply(setup, s, step).procs[p] == s.procs[p]
  {
    hide StagingInv, OwnScratch, ScratchInv;
  }

  /** Where an operation other than a probe leads when it works, and when it does not. */
  function Next(setup: Setup, pc: Pc): Pc {
    match pc
    case Making => Writing(0)
    case Writing(k) => if k < |setup.files| then Writing(k + 1) else Renaming
    case Renaming => Returned
    case Clearing => Probing(0, true)
    case _ => pc
  }

  function Handler(pc: Pc): Pc { if pc.Writing? || pc.Renaming? then Clearing else Thrown }

  lemma ActLeads(setup: Setup, s: State, p: nat)
    requires p < |s.procs| && WellTyped(setup, s.procs[p]) && !s.procs[p].pc.Final() && !s.procs[p].pc.Probing?
    ensures |DoAct(setup, s, p).procs| == |s.procs|
    ensures var proc := DoAct(setup, s, p).procs[p];
      && proc.bodies == s.procs[p].bodies
      && (proc.pc == Next(setup, s.procs[p].pc) || (s.procs[p].pc.Renaming? && proc.pc.Clearing?))
  {
  }

  lemma ProbeLeads(setup: Setup, s: State, p: nat)
    requires p < |s.procs| && WellTyped(setup, s.procs[p]) && s.procs[p].pc.Probing?
    ensures |DoAct(setup, s, p).procs| == |s.procs|
    ensures var pc := s.procs[p].pc;
      var found := Probe(setup, s.staging, setup.Version(s.procs[p].bodies), pc.k);
      DoAct(setup, s, p).procs[p] == s.procs[p].(pc := AfterProbe(setup, pc.k, pc.again, found))
  {
  }

  lemma ErrorLeads(setup: Setup, s: State, p: nat, left: Dir)
    requires p < |s.procs| && WellTyped(setup, s.procs[p]) && !s.procs[p].pc.Final()
    ensures |DoError(setup, s, p, left).procs| == |s.procs|
    ensures var pc, proc := s.procs[p].pc, DoError(setup, s, p, left).procs[p];
      proc.bodies == s.procs[p].bodies
      && proc.pc == if pc.Probing? then AfterProbe(setup, pc.k, pc.again, false) else Handler(pc)
  {
  }

  class TemporaryDirectory {
    const setup: Setup
    var state: State

    constructor (setup: Setup)
      requires setup.Valid()
      ensures this.setup == setup && state == EMPTY_DIRECTORY && Reaches(setup, EMPTY_DIRECTORY, state)
    {
      this.setup := setup;
      state := EMPTY_DIRECTORY;
      NothingKeepsInv(setup);
      ReachesItself(setup, EMPTY_DIRECTORY);
    }

    /** Process p exists, is at `pc`, and has read `bodies`. */
    ghost predicate Stands(start: State, p: nat, bodies: seq<string>, pc: Pc)
      reads this
    {
      Reaches(setup, start, state) && Inv(setup, state) && setup.Bodies(bodies)
      && p < |state.procs| && state.procs[p].bodies == bodies && state.procs[p].pc == pc
    }

    method Take(step: Step, ghost start: State)
      requires Reaches(setup, start, state) && Inv(setup, state) && Enabled(setup, state, step)
      modifies this
      ensures Reaches(setup, start, state) && Inv(setup, state)
      ensures Inv(setup, old(state)) && state == Apply(setup, old(state), step)
    {
      hide Apply, Enabled, StagingInv, OwnScratch, ScratchInv;
      ReachesStep(setup, start, state, step);
      state := Apply(setup, state, step);
    }

    /** Any number of steps of the other processes. */
    method Others(p: nat, ghost bodies: seq<string>, ghost pc: Pc, ghost start: State)
      requires Stands(start, p, bodies, pc)
      modifies this
      ensures Stands(start, p, bodies, pc)
    {
      hide Inv, Apply, Enabled;
      var rounds: int := *;
      while rounds > 0
        invariant Stands(start, p, bodies, pc)
      {
        var step: Step := *;
        if Enabled(setup, state, step) && !Concerns(step, p) {
          OthersKeepProc(setup, state, step, p);
          Take(step, start);
        }
        rounds := rounds - 1;
      }
    }

    lemma StandsTyped(start: State, p: nat, bodies: seq<string>, pc: Pc)
      requires Stands(start, p, bodies, pc)
      ensures WellTyped(setup, state.procs[p])
      ensures forall q :: 0 <= q < |state.procs| ==> WellTyped(setup, state.procs[q])
      ensures pc.Returned? ==>
        setup.Version(bodies) in state.staging && state.staging[setup.Version(bodies)] == setup.Complete(bodies)
    {
      forall q | 0 <= q < |state.procs| ensures WellTyped(setup, state.procs[q]) {
        assert ProcInv(setup, state.staging, state.scratch, state.next, state.procs[q]);
      }
      assert ProcInv(setup, state.staging, state.scratch, state.next, state.procs[p]);
      if pc.Returned? { PublishedIsComplete(setup, state.staging, bodies, 0); }
    }

    /** Creates the scratch directory, writes the next file, renames, or removes the scratch. */
    method Operate(p: nat, ghost bodies: seq<string>, pc: Pc, ghost start: State) returns (ok: bool)
      requires Stands(start, p, bodies, pc) && !pc.Final() && !pc.Probing?
      modifies this
      ensures Stands(start, p, bodies, if ok then Next(setup, pc) else Handler(pc))
    {
      hide Inv, DoAct, DoError, WellTyped;
      Others(p, bodies, pc, start);
      StandsTyped(start, p, bodies, pc);
      var fails: bool := *;
      if fails {
        var left: Dir := *;
        ErrorLeads(setup, state, p, left);
        Take(IoError(p, left), start);
        return false;
      }
      ActLeads(setup, state, p);
      Take(Act(p), start);
      ok := !(pc.Renaming? && state.procs[p].pc.Clearing?);
    }

    /** One look at the staging directory. */
    method Look(p: nat, bodies: seq<string>, k: nat, again: bool, ghost start: State) returns (found: bool)
      requires k <= |setup.files| && Stands(start, p, bodies, Probing(k, again))
      modifies this
      ensures Stands(start, p, bodies, AfterProbe(setup, k, again, found))
    {
      hide Inv, DoAct, DoError, WellTyped, Probe, AfterProbe;
      Others(p, bodies, Probing(k, again), start);
      StandsTyped(start, p, bodies, Probing(k, again));
      var fails: bool := *;
      if fails {
        ErrorLeads(setup, state, p, map[]);
        Take(IoError(p, map[]), start);
        return false;
      }
      found := Probe(setup, state.staging, setup.Version(bodies), k);
      ProbeLeads(setup, state, p);
      Take(Act(p), start);
    }

    /** `isPublishedBundle`. */
    method IsPublished(p: nat, bodies: seq<string>, again: bool, ghost start: State) returns (published: bool)
      requires Stands(start, p, bodies, Probing(0, again))
      modifies this
      ensures Stands(start, p, bodies, if published then Returned else if again then Thrown else Making)
    {
      hide Inv;
      var stamped := Look(p, bodies, 0, again, start);
      if !stamped { return false; }
      for k := 0 to |setup.files|
        invariant Stands(start, p, bodies, if k < |setup.files| then Probing(k + 1, again) else Returned)
      {
        var found := Look(p, bodies, k + 1, again, start);
        if !found { return false; }
      }
      return true;
    }

    /** The body of the `try` block: it either publishes or ends in the handler. */
    method Publish(p: nat, bodies: seq<string>, ghost start: State) returns (ok: bool)
      requires Stands(start, p, bodies, Writing(0))
      modifies this
      ensures Stands(start, p, bodies, if ok then Returned else Clearing)
    {
      hide Inv;
      for k := 0 to |setup.files|
        invariant Stands(start, p, bodies, Writing(k))
      {
        ok := Operate(p, bodies, Writing(k), start);
        if !ok { return; }
      }
      ok := Operate(p, bodies, Writing(|setup.files|), start);
      if !ok { return; }
      ok := Operate(p, bodies, Renaming, start);
    }

    /** `assembleToolingBundle`, after the sources were read: it returns its own version exactly
        when its process returned, and then the path holds its own contents. */
    method Assemble(bodies: seq<string>, ghost start: State) returns (r: Result<string, string>, ghost p: nat)
      requires Reaches(setup, start, state) && Inv(setup, state) && setup.Bodies(bodies)
      modifies this
      ensures Stands(start, p, bodies, if r.Ok? then Returned else Thrown)
      ensures r.Ok? ==> r.value == setup.Version(bodies) && r.value in state.staging
      ensures r.Ok? ==> state.staging[r.value] == setup.Complete(bodies)
    {
      hide Inv;
      var input := HashInput(setup.files, bodies);
      var version := setup.digest(input);
      var me := |state.procs|;
      p := me;
      Spawned(setup, state, bodies);
      Take(Spawn(bodies), start);
      var published := IsPublished(me, bodies, false, start);
      if published {
        StandsTyped(start, p, bodies, Returned);
        return Ok(version), me;
      }
      var made := Operate(me, bodies, Making, start);
      if !made { return Err("mkdtemp"), me; }
      var ok := Publish(me, bodies, start);
      if !ok {
        var cleared := Operate(me, bodies, Clearing, start);
        if !cleared { return Err("rm"), me; }
        var there := IsPublished(me, bodies, true, start);
        if !there { return Err("publish"), me; }
      }
      StandsTyped(start, p, bodies, Returned);
      return Ok(version), me;
    }

    /** The whole function: a source file that cannot be read fails it before anything else. */
    method AssembleSources(sources: seq<Option<string>>, ghost start: State) returns (r: Result<string, string>)
      requires Reaches(setup, start, state) && Inv(setup, state) && |sources| == |setup.files|
      requires forall i :: 0 <= i < |sources| && sources[i].Some? ==> NUL !in sources[i].value
      modifies this
      ensures Reaches(setup, start, state) && Inv(setup, state)
      ensures (exists i :: 0 <= i < |sources| && sources[i].None?) ==> r.Err? && state == old(state)
      ensures r.Ok? ==> r.value in state.staging && forall i :: 0 <= i < |sources| ==>
        setup.files[i] in state.staging[r.value] && Some(state.staging[r.value][setup.files[i]]) == sources[i]
    {
      hide Inv;
      var bodies: seq<string> := [];
      for i := 0 to |sources|
        invariant |bodies| == i && forall k :: 0 <= k < i ==> sources[k] == Some(bodies[k])
      {
        if sources[i].None? { return Err("missing source"); }
        bodies := bodies + [sources[i].value];
      }
      ghost var p: nat;
      r, p := Assemble(bodies, start);
      setup.WrittenHas(bodies, |setup.files|);
    }
  }

  lemma Spawned(setup: Setup, s: State, bodies: seq<string>)
    requires setup.Valid() && Inv(setup, s) && setup.Bodies(bodies)
    ensures Enabled(setup, s, Spawn(bodies))
    ensures Apply(setup, s, Spawn(bodies)).procs == s.procs + [Proc(bodies, Probing(0, false), None, false)]
  {
  }
}
