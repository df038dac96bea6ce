/** What the publication protocol guarantees over whole runs. */
module BundleTheorems {
  import opened Basics
  import opened BundlePublication
  import opened BundleInvariant

  // ---- Whole runs ----

  /** The state after a sequence of steps, if each of them can be taken. */
  ghost function Run(setup: Setup, s: State, steps: seq<Step>): (r: Option<State>)
    requires setup.Valid() && Inv(setup, s)
    ensures r.Some? ==> Inv(setup, r.value) && StagingGrows(s.staging, r.value.staging)
    decreases |steps|
  {
    if steps == [] then Some(s)
    else if !Enabled(setup, s, steps[0]) then None
    else
      StepKeepsInv(setup, s, steps[0]);
      Run(setup, Apply(setup, s, steps[0]), steps[1..])
  }

  lemma NothingKeepsInv(setup: Setup)
    ensures Inv(setup, EMPTY_DIRECTORY)
  {
  }

  /** The state after a sequence of steps from an empty temporary directory. */
  ghost function After(setup: Setup, steps: seq<Step>): (r: Option<State>)
    requires setup.Valid()
    ensures r.Some? ==> Inv(setup, r.value)
  {
    NothingKeepsInv(setup);
    Run(setup, EMPTY_DIRECTORY, steps)
  }

  /** At every moment, whatever failed or was killed before, a staging path does not exist or
      holds a complete bundle of that version, and from then on it holds the same for ever. */
  lemma AbsentOrCompleteForEver(setup: Setup, before: seq<Step>, later: seq<Step>, version: string)
    requires setup.Valid() && After(setup, before).Some? && Run(setup, After(setup, before).value, later).Some?
    ensures var s, s' := After(setup, before).value, Run(setup, After(setup, before).value, later).value;
      version in s.staging ==>
        HoldsABundle(setup, s.staging, version) && version in s'.staging && s'.staging[version] == s.staging[version]
  {
  }

  /** A process that returns finds at its path exactly the files it read itself, whoever wrote
      them there. */
  lemma ReturnedHoldsOwnContent(setup: Setup, steps: seq<Step>, p: nat)
    requires setup.Valid() && After(setup, steps).Some? && p < |After(setup, steps).value.procs|
    requires After(setup, steps).value.procs[p].pc.Returned?
    ensures var s := After(setup, steps).value;
      var bodies, version := s.procs[p].bodies, setup.Version(s.procs[p].bodies);
      && version in s.staging && s.staging[version].Keys == (set f | f in setup.files) + {"VERSION"}
      && s.staging[version]["VERSION"] == version + "\n" + setup.notes
      && forall i :: 0 <= i < |bodies| ==> s.staging[version][setup.files[i]] == bodies[i]
  {
    var s := After(setup, steps).value;
    assert ProcInv(setup, s.staging, s.scratch, s.next, s.procs[p]);
    PublishedIsComplete(setup, s.staging, s.procs[p].bodies, 0);
    setup.WrittenHas(s.procs[p].bodies, |setup.files|);
    setup.WrittenKeys(s.procs[p].bodies, |setup.files|);
  }

  // ---- Without failures ----

  /** An upper bound on the operations that a process still performs. */
  function Rank(n: nat, pc: Pc): int {
    match pc
    case Probing(k, again) => if again then n - k + 1 else 3 * n + 6 - k
    case Making => 2 * n + 5
    case Writing(k) => 2 * n + 4 - k
    case Renaming => n + 3
    case Clearing => n + 2
    case _ => 0
  }

  function Acts(steps: seq<Step>, p: nat): nat {
    if steps == [] then 0 else (if steps[0] == Act(p) then 1 else 0) + Acts(steps[1..], p)
  }

  /** Process p meets with no failure. */
  ghost predicate Undisturbed(steps: seq<Step>, p: nat) {
    forall i :: 0 <= i < |steps| ==> !(steps[i].IoError? && steps[i].p == p) && steps[i] != Kill(p)
  }

  /** Process p has performed `acts` operations between the two states, and met with a failure
      only if it was disturbed. */
  ghost predicate Progress(n: nat, before: seq<Proc>, after: seq<Proc>, p: nat, acts: nat, disturbed: bool) {
    && p < |before| && p < |after| && after[p].bodies == before[p].bodies
    && Rank(n, after[p].pc) + acts <= Rank(n, before[p].pc)
    && (after[p].faulted ==> before[p].faulted || disturbed)
  }

  lemma OwnActLowersRank(setup: Setup, s: State, p: nat)
    requires p < |s.procs| && WellTyped(setup, s.procs[p]) && !s.procs[p].pc.Final()
    ensures Progress(|setup.files|, s.procs, DoAct(setup, s, p).procs, p, 1, false)
  {
  }

  lemma OwnErrorKeepsRank(setup: Setup, s: State, p: nat)
    requires p < |s.procs| && WellTyped(setup, s.procs[p]) && !s.procs[p].pc.Final()
    ensures forall left :: Progress(|setup.files|, s.procs, DoError(setup, s, p, left).procs, p, 0, true)
  {
  }

  lemma OtherStepsKeepRank(setup: Setup, s: State, q: nat, p: nat)
    requires p < |s.procs| && q < |s.procs| && p != q && WellTyped(setup, s.procs[q]) && !s.procs[q].pc.Final()
    ensures Progress(|setup.files|, s.procs, DoAct(setup, s, q).procs, p, 0, false)
    ensures forall left :: Progress(|setup.files|, s.procs, DoError(setup, s, q, left).procs, p, 0, false)
  {
  }

  lemma StepLowersRank(setup: Setup, s: State, step: Step, p: nat)
    requires setup.Valid() && Inv(setup, s) && Enabled(setup, s, step) && p < |s.procs|
    ensures Progress(|setup.files|, s.procs, Apply(setup, s, step).procs, p, Acts([step], p), !Undisturbed([step], p))
  {
    hide StagingInv, OwnScratch, ScratchInv, DoAct, DoError;
    forall q | 0 <= q < |s.procs| ensures WellTyped(setup, s.procs[q]) {
      assert ProcInv(setup, s.staging, s.scratch, s.next, s.procs[q]);
    }
    assert !Undisturbed([step], p) <==> (step.IoError? && step.p == p) || step == Kill(p) by {
      assert [step][0] == step;
    }
    assert Acts([step], p) == if step == Act(p) then 1 else 0;
    match step
    case Spawn(_) =>
    case Act(q) => if q == p { OwnActLowersRank(setup, s, p); } else { OtherStepsKeepRank(setup, s, q, p); }
    case IoError(q, _) => if q == p { OwnErrorKeepsRank(setup, s, p); } else { OtherStepsKeepRank(setup, s, q, p); }
    case Kill(q) =>
      assert WellTyped(setup, s.procs[p]);
      if p < |s.procs| { RankIsNatural(|setup.files|, s.procs[p].pc); }
  }

  lemma RankIsNatural(n: nat, pc: Pc)
    requires pc.Probing? || pc.Writing? ==> pc.k <= n
    ensures Rank(n, pc) >= 0 && (Rank(n, pc) == 0 <==> pc.Final())
  {
  }

  lemma {:induction false} RunLowersRank(setup: Setup, s: State, steps: seq<Step>, p: nat)
    requires setup.Valid() && Inv(setup, s) && Run(setup, s, steps).Some? && p < |s.procs|
    ensures Progress(|setup.files|, s.procs, Run(setup, s, steps).value.procs, p,
                     Acts(steps, p), !Undisturbed(steps, p))
    decreases |steps|
  {
    if steps != [] {
      hide Inv, StagingGrows, Rank, Enabled;
      var next := Apply(setup, s, steps[0]);
      StepKeepsInv(setup, s, steps[0]);
      StepLowersRank(setup, s, steps[0], p);
      RunLowersRank(setup, next, steps[1..], p);
      SplitFirst(steps, p);
    }
  }

  lemma SplitFirst(steps: seq<Step>, p: nat)
    requires steps != []
    ensures Acts(steps, p) == Acts([steps[0]], p) + Acts(steps[1..], p)
    ensures Undisturbed(steps, p) <==> Undisturbed([steps[0]], p) && Undisturbed(steps[1..], p)
  {
    assert steps == [steps[0]] + steps[1..];
  }

  /** The process returned, its path holds what it read, and its scratch directory is gone. */
  ghost predicate Succeeded(setup: Setup, s: State, p: nat)
    requires p < |s.procs| && setup.Bodies(s.procs[p].bodies)
  {
    var version := setup.Version(s.procs[p].bodies);
    && s.procs[p].pc.Returned? && version in s.staging && s.staging[version] == setup.Complete(s.procs[p].bodies)
    && (s.procs[p].scratch.Some? ==> s.procs[p].scratch.value !in s.scratch)
  }

  lemma FinishedUndisturbed(setup: Setup, s: State, p: nat)
    requires setup.Valid() && Inv(setup, s) && p < |s.procs| && s.procs[p].pc.Final() && !s.procs[p].faulted
    ensures setup.Bodies(s.procs[p].bodies) && Succeeded(setup, s, p)
  {
    assert ProcInv(setup, s.staging, s.scratch, s.next, s.procs[p]);
    PublishedIsComplete(setup, s.staging, s.procs[p].bodies, 0);
  }

  /** Without failures of its own a process performs at most 3n + 6 operations, and when it has
      no further one it has returned, holding what it read and leaving no scratch behind; the
      loser of a rename race included. */
  lemma EveryProcessReturns(setup: Setup, s: State, steps: seq<Step>, p: nat)
    requires setup.Valid() && Inv(setup, s) && Run(setup, s, steps).Some?
    requires p < |s.procs| && s.procs[p].pc == Probing(0, false) && !s.procs[p].faulted && Undisturbed(steps, p)
    ensures Acts(steps, p) <= 3 * |setup.files| + 6 && p < |Run(setup, s, steps).value.procs|
    ensures var s' := Run(setup, s, steps).value;
      p < |s'.procs| && !Enabled(setup, s', Act(p)) ==>
        setup.Bodies(s'.procs[p].bodies) && s'.procs[p].bodies == s.procs[p].bodies && Succeeded(setup, s', p)
  {
    hide StagingInv, OwnScratch, ScratchInv, StagingGrows, Succeeded, Run;
    var s' := Run(setup, s, steps).value;
    RunLowersRank(setup, s, steps, p);
    assert ProcInv(setup, s'.staging, s'.scratch, s'.next, s'.procs[p]);
    RankIsNatural(|setup.files|, s'.procs[p].pc);
    if s'.procs[p].pc.Final() { FinishedUndisturbed(setup, s', p); }
  }

  /** When every process has finished and none met with a failure, no scratch is left. */
  lemma NoScratchIsLeft(setup: Setup, s: State)
    requires Inv(setup, s)
    requires forall p :: 0 <= p < |s.procs| ==> s.procs[p].pc.Final() && !s.procs[p].faulted
    ensures s.scratch == map[]
  {
    forall p, id | 0 <= p < |s.procs| ensures !UsesScratch(s.procs[p], id) {
    }
  }
}
