/** Every step of every process keeps the invariant, and nothing published ever changes. */
module BundleInvariant {
  import opened Basics
  import opened Text
  import opened BundlePublication

  /** A published directory is the complete bundle of everyone with that version, and passes
      every probe. */
  lemma PublishedIsComplete(setup: Setup, staging: map<string, Dir>, bodies: seq<string>, k: nat)
    requires setup.Valid() && StagingInv(setup, staging) && setup.Bodies(bodies) && k <= |setup.files|
    requires setup.Version(bodies) in staging
    ensures staging[setup.Version(bodies)] == setup.Complete(bodies)
    ensures Probe(setup, staging, setup.Version(bodies), k)
  {
    var version := setup.Version(bodies);
    assert HoldsABundle(setup, staging, version);
    var bodies' :|
      setup.Bodies(bodies') && setup.Version(bodies') == version && staging[version] == setup.Complete(bodies');
    setup.VersionsDiffer(bodies, bodies');
    setup.WrittenHas(bodies, |setup.files|);
    assert '\n' !in version;
    UntilStops(version, '\n', setup.notes);
    assert version + ['\n'] + setup.notes == setup.Manifest(version);
  }

  /** The step of one process, seen from the others: it touches no scratch directory but its
      own, and what was published stays. */
  ghost predicate Moves(setup: Setup, s: State, p: nat, s': State, id: nat)
    requires p < |s.procs|
  {
    && |s'.procs| == |s.procs| && s'.procs == s.procs[p := s'.procs[p]] && s'.next >= s.next
    && StagingInv(setup, s'.staging) && StagingGrows(s.staging, s'.staging)
    && ProcInv(setup, s'.staging, s'.scratch, s'.next, s'.procs[p])
    && ScratchMoves(s.procs[p], s.scratch, s.next, s'.procs[p], s'.scratch, s'.next, id)
  }

  ghost predicate ScratchMoves(proc: Proc, scratch: map<nat, Dir>, next: nat,
                               proc': Proc, scratch': map<nat, Dir>, next': nat, id: nat) {
    && (forall i :: i != id ==> (i in scratch' <==> i in scratch) && (i in scratch ==> scratch'[i] == scratch[i]))
    && (id >= next || (proc.pc.HoldsScratch() && proc.scratch == Some(id)))
    && (proc'.scratch == Some(next) || proc'.scratch == proc.scratch)
    && (forall i :: i in scratch' && (i !in scratch || UsesScratch(proc, i)) ==> UsesScratch(proc', i) && i < next')
  }

  lemma OthersAreUntouched(setup: Setup, s: State, p: nat, s': State, id: nat)
    requires Inv(setup, s) && p < |s.procs| && Moves(setup, s, p, s', id)
    ensures ProcsInv(setup, s')
  {
    hide StagingInv, ScratchInv;
    forall q | 0 <= q < |s.procs| && q != p ensures ProcInv(setup, s'.staging, s'.scratch, s'.next, s'.procs[q]) {
      assert s'.procs[q] == s.procs[q] && ProcInv(setup, s.staging, s.scratch, s.next, s.procs[q]);
      if s.procs[q].pc.HoldsScratch() { assert s.procs[q].scratch.value != id; }
    }
  }

  lemma ScratchStaysOwn(setup: Setup, s: State, p: nat, s': State, id: nat)
    requires Inv(setup, s) && p < |s.procs| && Moves(setup, s, p, s', id)
    ensures OwnScratch(s'.procs)
  {
    hide StagingInv, ScratchInv, StagingGrows, Probe;
    forall q | 0 <= q < |s.procs| && q != p && s.procs[q].scratch.Some?
      ensures s.procs[q].scratch != s'.procs[p].scratch
    {
      assert ProcInv(setup, s.staging, s.scratch, s.next, s.procs[q]);
    }
  }

  lemma ScratchStaysUsed(setup: Setup, s: State, p: nat, s': State, id: nat)
    requires Inv(setup, s) && p < |s.procs| && Moves(setup, s, p, s', id)
    ensures ScratchInv(s'.procs, s'.scratch, s'.next)
  {
    hide StagingInv, OwnScratch, StagingGrows, ProcsInv, ProcInv;
    var procs, procs' := s.procs, s'.procs;
    forall i | i in s'.scratch ensures i < s'.next && exists q :: 0 <= q < |procs'| && UsesScratch(procs'[q], i) {
      if i in s.scratch && !UsesScratch(procs[p], i) {
        var q :| 0 <= q < |procs| && UsesScratch(procs[q], i);
        assert UsesScratch(procs'[q], i);
      } else {
        assert UsesScratch(procs'[p], i);
      }
    }
  }

  lemma MoveKeepsInv(setup: Setup, s: State, p: nat, s': State, id: nat)
    requires Inv(setup, s) && p < |s.procs| && Moves(setup, s, p, s', id)
    ensures Inv(setup, s')
  {
    hide ProcsInv, OwnScratch, ScratchInv;
    OthersAreUntouched(setup, s, p, s', id);
    ScratchStaysOwn(setup, s, p, s', id);
    ScratchStaysUsed(setup, s, p, s', id);
  }

  lemma SpawnKeepsInv(setup: Setup, s: State, bodies: seq<string>)
    requires Inv(setup, s) && setup.Bodies(bodies)
    ensures Inv(setup, s.(procs := s.procs + [Proc(bodies, Probing(0, false), None, false)]))
  {
    var s' := s.(procs := s.procs + [Proc(bodies, Probing(0, false), None, false)]);
    forall p | 0 <= p < |s'.procs| ensures ProcInv(setup, s'.staging, s'.scratch, s'.next, s'.procs[p]) {
      if p < |s.procs| { assert s'.procs[p] == s.procs[p]; }
    }
    forall i | i in s.scratch ensures exists q :: 0 <= q < |s'.procs| && UsesScratch(s'.procs[q], i) {
      var q :| 0 <= q < |s.procs| && UsesScratch(s.procs[q], i);
      assert UsesScratch(s'.procs[q], i);
    }
  }

  lemma LostRenameKeepsInv(setup: Setup, s: State, p: nat)
    requires setup.Valid() && Inv(setup, s) && p < |s.procs| && s.procs[p].pc.Renaming?
    requires setup.Version(s.procs[p].bodies) in s.staging
    ensures Inv(setup, DoAct(setup, s, p)) && StagingGrows(s.staging, DoAct(setup, s, p).staging)
  {
    hide OwnScratch, ScratchInv;
    var proc, version := s.procs[p], setup.Version(s.procs[p].bodies);
    assert ProcInv(setup, s.staging, s.scratch, s.next, proc);
    PublishedIsComplete(setup, s.staging, proc.bodies, 0);
    assert VERSION_FILE in s.staging[version];
    assert s.staging[version] != map[];
    MoveKeepsInv(setup, s, p, DoAct(setup, s, p), s.next);
  }

  lemma WonRenameKeepsInv(setup: Setup, s: State, p: nat)
    requires setup.Valid() && Inv(setup, s) && p < |s.procs| && s.procs[p].pc.Renaming?
    requires setup.Version(s.procs[p].bodies) !in s.staging
    ensures Inv(setup, DoAct(setup, s, p)) && StagingGrows(s.staging, DoAct(setup, s, p).staging)
  {
    hide OwnScratch, ScratchInv;
    var proc, s' := s.procs[p], DoAct(setup, s, p);
    var version := setup.Version(proc.bodies);
    assert ProcInv(setup, s.staging, s.scratch, s.next, proc);
    assert HoldsABundle(setup, s'.staging, version);
    forall other | other in s'.staging && other != version ensures HoldsABundle(setup, s'.staging, other) {
      assert HoldsABundle(setup, s.staging, other);
    }
    MoveKeepsInv(setup, s, p, s', proc.scratch.value);
  }

  /** The rename: the path was free, so that nothing published changes, and what appears there
      is complete at once. */
  lemma RenameKeepsInv(setup: Setup, s: State, p: nat)
    requires setup.Valid() && Inv(setup, s) && p < |s.procs| && s.procs[p].pc.Renaming?
    ensures Inv(setup, DoAct(setup, s, p)) && StagingGrows(s.staging, DoAct(setup, s, p).staging)
  {
    hide DoAct, StagingGrows, StagingInv, OwnScratch, ScratchInv;
    assert ProcInv(setup, s.staging, s.scratch, s.next, s.procs[p]);
    if setup.Version(s.procs[p].bodies) in s.staging {
      LostRenameKeepsInv(setup, s, p);
    } else {
      WonRenameKeepsInv(setup, s, p);
    }
  }

  lemma ProbeKeepsInv(setup: Setup, s: State, p: nat)
    requires setup.Valid() && Inv(setup, s) && p < |s.procs| && s.procs[p].pc.Probing?
    ensures Inv(setup, DoAct(setup, s, p)) && StagingGrows(s.staging, DoAct(setup, s, p).staging)
  {
    hide OwnScratch, ScratchInv, StagingInv;
    var proc := s.procs[p];
    assert ProcInv(setup, s.staging, s.scratch, s.next, proc);
    if setup.Version(proc.bodies) in s.staging { PublishedIsComplete(setup, s.staging, proc.bodies, proc.pc.k); }
    MoveKeepsInv(setup, s, p, DoAct(setup, s, p), s.next);
  }

  lemma NoScratchYet(setup: Setup, s: State)
    requires Inv(setup, s)
    ensures s.next !in s.scratch
  {
  }

  lemma MakeKeepsInv(setup: Setup, s: State, p: nat)
    requires setup.Valid() && Inv(setup, s) && p < |s.procs| && s.procs[p].pc.Making?
    ensures Inv(setup, DoAct(setup, s, p)) && StagingGrows(s.staging, DoAct(setup, s, p).staging)
  {
    hide OwnScratch, ScratchInv, StagingInv;
    var proc := s.procs[p];
    assert ProcInv(setup, s.staging, s.scratch, s.next, proc);
    NoScratchYet(setup, s);
    MoveKeepsInv(setup, s, p, DoAct(setup, s, p), s.next);
  }

  lemma WriteKeepsInv(setup: Setup, s: State, p: nat)
    requires setup.Valid() && Inv(setup, s) && p < |s.procs| && s.procs[p].pc.Writing?
    ensures Inv(setup, DoAct(setup, s, p)) && StagingGrows(s.staging, DoAct(setup, s, p).staging)
  {
    hide OwnScratch, ScratchInv, StagingInv;
    var proc := s.procs[p];
    assert ProcInv(setup, s.staging, s.scratch, s.next, proc);
    MoveKeepsInv(setup, s, p, DoAct(setup, s, p), proc.scratch.value);
  }

  lemma ClearKeepsInv(setup: Setup, s: State, p: nat)
    requires setup.Valid() && Inv(setup, s) && p < |s.procs| && s.procs[p].pc.Clearing?
    ensures Inv(setup, DoAct(setup, s, p)) && StagingGrows(s.staging, DoAct(setup, s, p).staging)
  {
    hide OwnScratch, ScratchInv, StagingInv;
    var proc := s.procs[p];
    assert ProcInv(setup, s.staging, s.scratch, s.next, proc);
    MoveKeepsInv(setup, s, p, DoAct(setup, s, p), proc.scratch.value);
  }

  lemma ActKeepsInv(setup: Setup, s: State, p: nat)
    requires setup.Valid() && Inv(setup, s) && p < |s.procs| && !s.procs[p].pc.Final()
    ensures Inv(setup, DoAct(setup, s, p)) && StagingGrows(s.staging, DoAct(setup, s, p).staging)
  {
    hide OwnScratch, ScratchInv, StagingInv, StagingGrows;
    match s.procs[p].pc
    case Probing(_, _) => ProbeKeepsInv(setup, s, p);
    case Making => MakeKeepsInv(setup, s, p);
    case Writing(_) => WriteKeepsInv(setup, s, p);
    case Renaming => RenameKeepsInv(setup, s, p);
    case Clearing => ClearKeepsInv(setup, s, p);
    case _ =>
  }

  lemma ErrorKeepsInv(setup: Setup, s: State, p: nat, left: Dir)
    requires setup.Valid() && Inv(setup, s) && p < |s.procs| && !s.procs[p].pc.Final()
    ensures Inv(setup, DoError(setup, s, p, left)) && DoError(setup, s, p, left).staging == s.staging
  {
    hide OwnScratch, ScratchInv, StagingInv;
    var proc, s' := s.procs[p], DoError(setup, s, p, left);
    assert ProcInv(setup, s.staging, s.scratch, s.next, proc);
    MoveKeepsInv(setup, s, p, s', if proc.pc.Writing? then proc.scratch.value else s.next);
  }

  lemma KillKeepsInv(setup: Setup, s: State, p: nat)
    requires Inv(setup, s) && p < |s.procs| && !s.procs[p].pc.Final()
    ensures Inv(setup, Put(s, p, s.procs[p].(pc := Killed, faulted := true)))
  {
    hide OwnScratch, ScratchInv, StagingInv;
    assert ProcInv(setup, s.staging, s.scratch, s.next, s.procs[p]);
    MoveKeepsInv(setup, s, p, Put(s, p, s.procs[p].(pc := Killed, faulted := true)), s.next);
  }

  lemma StepKeepsInv(setup: Setup, s: State, step: Step)
    requires setup.Valid() && Inv(setup, s) && Enabled(setup, s, step)
    ensures Inv(setup, Apply(setup, s, step)) && StagingGrows(s.staging, Apply(setup, s, step).staging)
  {
    hide OwnScratch, ScratchInv, StagingInv;
    match step
    case Spawn(bodies) => SpawnKeepsInv(setup, s, bodies);
    case Act(p) => ActKeepsInv(setup, s, p);
    case IoError(p, left) => ErrorKeepsInv(setup, s, p, left);
    case Kill(p) => KillKeepsInv(setup, s, p);
  }
}
