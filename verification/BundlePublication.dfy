/**
  Publication of tooling bundles by any number of synth processes that share one temporary
  directory: each writes a scratch directory of its own and renames it to a path that carries
  the digest of the contents. Every step of every process may be interleaved with the others;
  any file operation may fail, and any process may be killed.
 */
module BundlePublication {
  import opened Basics
  import opened Text
  import opened BundleHash

  type Dir = map<string, string>

  const VERSION_FILE := "VERSION"

  /** The files of a bundle in sorted order, and the digest function. */
  datatype Setup = Setup(files: seq<string>, digest: string -> string, notes: string) {

    predicate HasBodies(bodies: seq<string>) { |bodies| == |files| }

    function Version(bodies: seq<string>): string
      requires HasBodies(bodies)
    {
      digest(Frame(files, bodies))
    }

    /** The text of the VERSION file; its first line is the version. */
    function Manifest(version: string): string { version + "\n" + notes }

    /** What is assumed: distinct file names, and a digest without collisions. The bodies are
        free of NUL bytes. */
    ghost predicate Valid() {
      && (forall i, j :: 0 <= i < j < |files| ==> files[i] != files[j])
      && VERSION_FILE !in files && NulFree(files)
      && (forall a, b :: digest(a) == digest(b) ==> a == b)
      && (forall a :: '\n' !in digest(a))
    }

    predicate Bodies(bodies: seq<string>) { HasBodies(bodies) && NulFree(bodies) }

    /** A directory into which the first `k` files have been written. */
    function Written(bodies: seq<string>, k: nat): Dir
      requires HasBodies(bodies) && k <= |files|
    {
      if k == 0 then map[] else Written(bodies, k - 1)[files[k - 1] := bodies[k - 1]]
    }

    function Complete(bodies: seq<string>): Dir
      requires HasBodies(bodies)
    {
      Written(bodies, |files|)[VERSION_FILE := Manifest(Version(bodies))]
    }

    lemma {:induction false} WrittenHas(bodies: seq<string>, k: nat)
      requires Valid() && HasBodies(bodies) && k <= |files|
      ensures forall i :: 0 <= i < k ==> files[i] in Written(bodies, k) && Written(bodies, k)[files[i]] == bodies[i]
      ensures VERSION_FILE !in Written(bodies, k)
    {
      if k > 0 { WrittenHas(bodies, k - 1); }
    }

    lemma {:induction false} WrittenKeys(bodies: seq<string>, k: nat)
      requires HasBodies(bodies) && k <= |files|
      ensures Written(bodies, k).Keys == set f | f in files[..k]
    {
      if k > 0 {
        WrittenKeys(bodies, k - 1);
        assert files[..k] == files[..k - 1] + [files[k - 1]];
      }
    }

    /** Distinct contents never share a version. */
    lemma VersionsDiffer(a: seq<string>, b: seq<string>)
      requires Valid() && Bodies(a) && Bodies(b)
      ensures Version(a) == Version(b) <==> a == b
    {
      FramingIsInjective(files, a, b);
    }
  }

  // ---- Processes ----

  datatype Pc =
    | Probing(k: nat, again: bool)   // inside `isPublishedBundle`: 0 reads VERSION, k looks for file k - 1
    | Making                         // before `mkdtemp`
    | Writing(k: nat)                // before file k, or VERSION after the last one
    | Renaming
    | Clearing                       // in the handler, before the scratch directory is removed
    | Returned
    | Thrown
    | Killed
  {
    predicate Final() { Returned? || Thrown? || Killed? }

    /** The scratch directory exists. */
    predicate HoldsScratch() { Writing? || Renaming? || Clearing? }
  }

  datatype Proc = Proc(bodies: seq<string>, pc: Pc, scratch: Option<nat>, faulted: bool)

  datatype State = State(procs: seq<Proc>, staging: map<string, Dir>, scratch: map<nat, Dir>, next: nat)

  datatype Step =
    | Spawn(bodies: seq<string>)
    | Act(p: nat)                    // the next operation of process p
    | IoError(p: nat, left: Dir)     // it fails; `left` is what a failed write leaves behind
    | Kill(p: nat)

  predicate Enabled(setup: Setup, s: State, step: Step) {
    match step
    case Spawn(bodies) => setup.Bodies(bodies)
    case Act(p) => p < |s.procs| && !s.procs[p].pc.Final()
    case IoError(p, _) => p < |s.procs| && !s.procs[p].pc.Final()
    case Kill(p) => p < |s.procs| && !s.procs[p].pc.Final()
  }

  /** One look of `isPublishedBundle`: the first line of VERSION, or one of the files. */
  predicate Probe(setup: Setup, staging: map<string, Dir>, version: string, k: nat)
    requires k <= |setup.files|
  {
    version in staging &&
    if k == 0 then VERSION_FILE in staging[version] && Until(staging[version][VERSION_FILE], '\n') == version
    else setup.files[k - 1] in staging[version]
  }

  function AfterProbe(setup: Setup, k: nat, again: bool, found: bool): Pc {
    if !found then (if again then Thrown else Making)
    else if k < |setup.files| then Probing(k + 1, again)
    else Returned
  }

  function Put(s: State, p: nat, proc: Proc): State
    requires p < |s.procs|
  {
    s.(procs := s.procs[p := proc])
  }

  ghost predicate WellTyped(setup: Setup, proc: Proc) {
    && setup.Bodies(proc.bodies)
    && (proc.pc.Probing? || proc.pc.Writing? ==> proc.pc.k <= |setup.files|)
    && (proc.pc.HoldsScratch() ==> proc.scratch.Some?)
    && (proc.pc.Making? ==> proc.scratch.None?)
    && (proc.pc.Probing? && !proc.pc.again ==> proc.scratch.None?)
  }

  function DoAct(setup: Setup, s: State, p: nat): State
    requires p < |s.procs| && WellTyped(setup, s.procs[p]) && !s.procs[p].pc.Final()
  {
    var proc := s.procs[p];
    var version := setup.Version(proc.bodies);
    match proc.pc
    case Probing(k, again) =>
      Put(s, p, proc.(pc := AfterProbe(setup, k, again, Probe(setup, s.staging, version, k))))
    case Making =>
      Put(s, p, proc.(pc := Writing(0), scratch := Some(s.next))).(
        scratch := s.scratch[s.next := map[]], next := s.next + 1)
    case Writing(k) =>
      var id := proc.scratch.value;
      var dir := if id in s.scratch then s.scratch[id] else map[];
      if k < |setup.files| then
        Put(s, p, proc.(pc := Writing(k + 1))).(scratch := s.scratch[id := dir[setup.files[k] := proc.bodies[k]]])
      else
        Put(s, p, proc.(pc := Renaming)).(scratch := s.scratch[id := dir[VERSION_FILE := setup.Manifest(version)]])
    case Renaming =>
      var id := proc.scratch.value;
      if version in s.staging && s.staging[version] != map[] then Put(s, p, proc.(pc := Clearing))
      else
        var dir := if id in s.scratch then s.scratch[id] else map[];
        Put(s, p, proc.(pc := Returned)).(staging := s.staging[version := dir], scratch := s.scratch - {id})
    case Clearing =>
      Put(s, p, proc.(pc := Probing(0, true))).(scratch := s.scratch - {proc.scratch.value})
    case _ => s
  }

  function DoError(setup: Setup, s: State, p: nat, left: Dir): State
    requires p < |s.procs| && WellTyped(setup, s.procs[p]) && !s.procs[p].pc.Final()
  {
    var proc := s.procs[p].(faulted := true);
    match proc.pc
    case Probing(k, again) => Put(s, p, proc.(pc := AfterProbe(setup, k, again, false)))
    case Making => Put(s, p, proc.(pc := Thrown))
    case Writing(_) => Put(s, p, proc.(pc := Clearing)).(scratch := s.scratch[proc.scratch.value := left])
    case Renaming => Put(s, p, proc.(pc := Clearing))
    case Clearing => Put(s, p, proc.(pc := Thrown))
    case _ => s
  }

  function Apply(setup: Setup, s: State, step: Step): State
    requires Enabled(setup, s, step)
    requires forall p :: 0 <= p < |s.procs| ==> WellTyped(setup, s.procs[p])
  {
    match step
    case Spawn(bodies) => s.(procs := s.procs + [Proc(bodies, Probing(0, false), None, false)])
    case Act(p) => DoAct(setup, s, p)
    case IoError(p, left) => DoError(setup, s, p, left)
    case Kill(p) => Put(s, p, s.procs[p].(pc := Killed, faulted := true))
  }

  // ---- The invariant ----

  ghost predicate StagingInv(setup: Setup, staging: map<string, Dir>) {
    forall version :: version in staging ==> HoldsABundle(setup, staging, version)
  }

  /** The directory is a complete bundle whose contents have that version. */
  ghost predicate HoldsABundle(setup: Setup, staging: map<string, Dir>, version: string)
    requires version in staging
  {
    exists bodies ::
      setup.Bodies(bodies) && setup.Version(bodies) == version && staging[version] == setup.Complete(bodies)
  }

  ghost predicate ProcInv(setup: Setup, staging: map<string, Dir>, scratch: map<nat, Dir>, next: nat, proc: Proc) {
    && WellTyped(setup, proc)
    && (proc.scratch.Some? ==> proc.scratch.value < next)
    && (proc.pc.HoldsScratch() ==> proc.scratch.value in scratch)
    && match proc.pc
       case Probing(k, again) => (k > 0 || (again && !proc.faulted)) ==> setup.Version(proc.bodies) in staging
       case Making => true
       case Writing(k) => scratch[proc.scratch.value] == setup.Written(proc.bodies, k)
       case Renaming => scratch[proc.scratch.value] == setup.Complete(proc.bodies)
       case Clearing => !proc.faulted ==> setup.Version(proc.bodies) in staging
       case Returned => setup.Version(proc.bodies) in staging
       case Thrown => proc.faulted
       case Killed => proc.faulted
  }

  ghost predicate ProcsInv(setup: Setup, s: State) {
    forall p :: 0 <= p < |s.procs| ==> ProcInv(setup, s.staging, s.scratch, s.next, s.procs[p])
  }

  ghost predicate OwnScratch(procs: seq<Proc>) {
    forall p, q :: 0 <= p < q < |procs| && procs[p].scratch.Some? ==> procs[p].scratch != procs[q].scratch
  }

  /** A scratch directory belongs to a process that is using it or met with a failure. */
  ghost predicate ScratchInv(procs: seq<Proc>, scratch: map<nat, Dir>, next: nat) {
    && (forall id :: id in scratch ==> id < next)
    && (forall id :: id in scratch ==> exists p :: 0 <= p < |procs| && UsesScratch(procs[p], id))
  }

  predicate UsesScratch(proc: Proc, id: nat) {
    (proc.pc.HoldsScratch() || proc.faulted) && proc.scratch == Some(id)
  }

  ghost predicate Inv(setup: Setup, s: State) {
    && StagingInv(setup, s.staging) && ProcsInv(setup, s) && OwnScratch(s.procs)
    && ScratchInv(s.procs, s.scratch, s.next)
  }

  const EMPTY_DIRECTORY := State([], map[], map[], 0)

  /** Nothing that is published goes away or changes. */
  ghost predicate StagingGrows(a: map<string, Dir>, b: map<string, Dir>) {
    forall version :: version in a ==> version in b && b[version] == a[version]
  }
}
