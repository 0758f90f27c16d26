/** The readiness protocol over /run/rbln/validations: driver pods, any number of
    driver validations, toolkit daemons, toolkit validations and waiting plugins
    act on one directory in any interleaving. Every process may fail or be killed
    at any point and be started again. */
module Handshake {
  import opened Wrappers
  import opened StatusFiles

  /** Where a driver validation stands (validateDriver, runValidation,
      createStatusFileWithContent). `ino` is the open temporary file. */
  datatype DriverPc =
    | Start
    | Cleared
    | NoHostDriver
    | AwaitContainer
    | Probing
    | Validated(host: bool)
    | Writing(host: bool, temp: Name, ino: nat)
    | Written(host: bool, temp: Name, ino: nat)
    | Cleaning(temp: Name, published: bool)
    | Succeeded
    | GaveUp

  /** Where a toolkit validation stands (validateToolkit, recreateStatusFile). */
  datatype ToolkitPc = TStart | TCleared | TSawDriver | TSawSpec | TRemoved | TSucceeded | TFailed

  /** A process: how often its container was started, and its position. */
  datatype Process<Pc> = Process(run: nat, pc: Pc)

  /** What happened, in order. Runs are numbered per process. */
  datatype Event =
    | ProbePassed(pod: nat)
    | HostPassed(p: nat, run: nat)
    | ManagedAnswer(p: nat, run: nat, managed: bool)
    | ContainerSeen(p: nat, run: nat)
    | SmiPassed(p: nat, run: nat)
    | DriverValidated(p: nat, run: nat, host: bool)
    | DriverPublished(p: nat, run: nat, host: bool)
    | DaemonStarted(p: nat, text: string)
    | ToolkitSawDriver(t: nat, run: nat)
    | ToolkitSawSpec(t: nat, run: nat, spec: string)
    | ToolkitPublished(t: nat, run: nat)
    | PluginSawToolkit(x: nat)
    | PluginStarted(x: nat)
    | ContainerPublished   // the probe's file becomes .driver-ctr-ready
    | ContainerWithdrawn   // .driver-ctr-ready is removed, if it is there
    | DriverWithdrawn      // the same of driver-ready
    | ToolkitWithdrawn     // and of toolkit-ready

  /** `dir` maps names to inodes, `data` holds their contents, `specs` the sizes
      of the rbln CDI specs. */
  datatype State = State(
    dir: map<Name, nat>, data: map<nat, string>, specs: map<string, nat>,
    drivers: map<nat, Process<DriverPc>>, toolkits: map<nat, Process<ToolkitPc>>, trace: seq<Event>)
  {
    function Driver(p: nat): Process<DriverPc> {
      if p in drivers then drivers[p] else Process(0, Start)
    }

    function Toolkit(t: nat): Process<ToolkitPc> {
      if t in toolkits then toolkits[t] else Process(0, TStart)
    }

    function To(p: nat, pc: DriverPc): State {
      this.(drivers := drivers[p := Process(Driver(p).run, pc)])
    }

    function ToolkitTo(t: nat, pc: ToolkitPc): State {
      this.(toolkits := toolkits[t := Process(Toolkit(t).run, pc)])
    }

    function Log(e: Event): State {
      this.(trace := trace + [e])
    }

    function Remove(n: Name): State {
      this.(dir := dir - {n})
    }

    /** Creates or truncates a file. */
    function Put(n: Name, ino: nat): State {
      this.(dir := dir[n := ino], data := data[ino := ""])
    }

    function Rename(from: Name, to: Name): State
      requires from in dir
    {
      this.(dir := (dir - {from})[to := dir[from]])
    }
  }

  const INIT: State := State(map[], map[], map[], map[], map[], [])

  datatype Step =
    | ProbeTouch(pod: nat, ino: nat)      // startup probe: checks passed, ": > tmp"
    | ProbeMove                           // startup probe: "mv tmp ready"
    | DriverStop                          // driver pod preStop
    | Delete(p: nat)                      // deleteStatusFile, ensureOutputDir
    | HostOk(p: nat)
    | HostBad(p: nat)
    | AskManaged(p: nat, managed: bool)
    | SeeContainer(p: nat)
    | SmiOk(p: nat)
    | CreateTemp(p: nat, random: string, ino: nat)
    | WriteSome(p: nat, len: nat)
    | WriteAll(p: nat)
    | Publish(p: nat)                     // rename
    | PublishFail(p: nat)
    | RemoveTemp(p: nat)                  // deferred removal
    | DriverFail(p: nat)
    | DriverRestart(p: nat)
    | StartDaemon(p: nat)                 // toolkit entrypoint sources driver-ready
    | SpecsChange(specs: map<string, nat>)
    | ToolkitDelete(t: nat)
    | SeeDriver(t: nat)
    | SeeSpec(t: nat, spec: string)
    | ToolkitRetry(t: nat)
    | ToolkitRemove(t: nat)
    | ToolkitCreate(t: nat, ino: nat)
    | ToolkitFail(t: nat)
    | ToolkitRestart(t: nat)
    | ValidatorStop                       // validator preStop: rm -f *-ready
    | SeeToolkit(x: nat)                  // the init container of plugin pod x
    | StartPlugin(x: nat)                 // its main container, at first or again

  /** When a step can happen. A toolkit validation and a toolkit daemon run in a
      pod whose own driver validation has succeeded. */
  predicate Enabled(s: State, st: Step) {
    match st
    case ProbeTouch(_, ino) => ino !in s.data
    case ProbeMove => CtrTmp in s.dir
    case DriverStop => true
    case Delete(p) => s.Driver(p).pc.Start?
    case HostOk(p) => s.Driver(p).pc.Cleared?
    case HostBad(p) => s.Driver(p).pc.Cleared?
    case AskManaged(p, _) => s.Driver(p).pc.NoHostDriver?
    case SeeContainer(p) => s.Driver(p).pc.AwaitContainer? && CtrReady in s.dir
    case SmiOk(p) => s.Driver(p).pc.Probing?
    case CreateTemp(p, r, ino) => s.Driver(p).pc.Validated? && Temp(r) !in s.dir && ino !in s.data
    case WriteSome(p, len) => s.Driver(p).pc.Writing? && len <= |Record(s.Driver(p).pc.host)|
    case WriteAll(p) => s.Driver(p).pc.Writing?
    case Publish(p) => s.Driver(p).pc.Written? && s.Driver(p).pc.temp in s.dir
    case PublishFail(p) => s.Driver(p).pc.Written?
    case RemoveTemp(p) => s.Driver(p).pc.Cleaning?
    case DriverFail(p) => !s.Driver(p).pc.Succeeded?
    case DriverRestart(_) => true
    case StartDaemon(p) => s.Driver(p).pc.Succeeded? && DriverReady in s.dir && s.dir[DriverReady] in s.data
    case SpecsChange(_) => true
    case ToolkitDelete(t) => s.Toolkit(t).pc.TStart? && s.Driver(t).pc.Succeeded?
    case SeeDriver(t) => s.Toolkit(t).pc.TCleared? && DriverReady in s.dir
    case SeeSpec(t, spec) => s.Toolkit(t).pc.TSawDriver? && spec in s.specs && s.specs[spec] > 0
    case ToolkitRetry(t) => s.Toolkit(t).pc.TSawDriver?
    case ToolkitRemove(t) => s.Toolkit(t).pc.TSawSpec?
    case ToolkitCreate(t, ino) =>
      s.Toolkit(t).pc.TRemoved? && if ToolkitReady in s.dir then ino == s.dir[ToolkitReady] else ino !in s.data
    case ToolkitFail(t) => !s.Toolkit(t).pc.TSucceeded?
    case ToolkitRestart(_) => true
    case ValidatorStop => true
    case SeeToolkit(_) => ToolkitReady in s.dir
    case StartPlugin(x) => PluginSawToolkit(x) in s.trace
  }

  function Apply(s: State, st: Step): State
    requires Enabled(s, st)
  {
    match st
    case ProbeTouch(pod, ino) => s.Log(ProbePassed(pod)).Put(CtrTmp, ino)
    case ProbeMove => s.Log(ContainerPublished).Rename(CtrTmp, CtrReady)
    case DriverStop => s.Log(ContainerWithdrawn).Remove(CtrReady)
    case Delete(p) => s.Log(DriverWithdrawn).Remove(DriverReady).To(p, Cleared)
    case HostOk(p) =>
      s.Log(HostPassed(p, s.Driver(p).run)).Log(DriverValidated(p, s.Driver(p).run, true)).To(p, Validated(true))
    case HostBad(p) => s.To(p, NoHostDriver)
    case AskManaged(p, managed) =>
      s.Log(ManagedAnswer(p, s.Driver(p).run, managed)).To(p, if managed then AwaitContainer else Probing)
    case SeeContainer(p) => s.Log(ContainerSeen(p, s.Driver(p).run)).To(p, Probing)
    case SmiOk(p) =>
      s.Log(SmiPassed(p, s.Driver(p).run)).Log(DriverValidated(p, s.Driver(p).run, false)).To(p, Validated(false))
    case CreateTemp(p, r, ino) =>
      s.Put(Temp(r), ino).To(p, Writing(s.Driver(p).pc.host, Temp(r), ino))
    case WriteSome(p, len) =>
      s.(data := s.data[s.Driver(p).pc.ino := Record(s.Driver(p).pc.host)[..len]])
    case WriteAll(p) =>
      var pc := s.Driver(p).pc;
      s.(data := s.data[pc.ino := Record(pc.host)]).To(p, Written(pc.host, pc.temp, pc.ino))
    case Publish(p) =>
      var pc := s.Driver(p).pc;
      s.Log(DriverPublished(p, s.Driver(p).run, pc.host)).Rename(pc.temp, DriverReady).To(p, Cleaning(pc.temp, true))
    case PublishFail(p) => s.To(p, Cleaning(s.Driver(p).pc.temp, false))
    case RemoveTemp(p) =>
      var pc := s.Driver(p).pc;
      s.Remove(pc.temp).To(p, if pc.published then Succeeded else GaveUp)
    case DriverFail(p) => s.To(p, GaveUp)
    case DriverRestart(p) => s.(drivers := s.drivers[p := Process(s.Driver(p).run + 1, Start)])
    case StartDaemon(p) => s.Log(DaemonStarted(p, s.data[s.dir[DriverReady]]))
    case SpecsChange(specs) => s.(specs := specs)
    case ToolkitDelete(t) => s.Log(ToolkitWithdrawn).Remove(ToolkitReady).ToolkitTo(t, TCleared)
    case SeeDriver(t) => s.Log(ToolkitSawDriver(t, s.Toolkit(t).run)).ToolkitTo(t, TSawDriver)
    case SeeSpec(t, spec) => s.Log(ToolkitSawSpec(t, s.Toolkit(t).run, spec)).ToolkitTo(t, TSawSpec)
    case ToolkitRetry(t) => s.ToolkitTo(t, TCleared)
    case ToolkitRemove(t) => s.Log(ToolkitWithdrawn).Remove(ToolkitReady).ToolkitTo(t, TRemoved)
    case ToolkitCreate(t, ino) =>
      s.Log(ToolkitPublished(t, s.Toolkit(t).run)).Put(ToolkitReady, ino).ToolkitTo(t, TSucceeded)
    case ToolkitFail(t) => s.ToolkitTo(t, TFailed)
    case ToolkitRestart(t) => s.(toolkits := s.toolkits[t := Process(s.Toolkit(t).run + 1, TStart)])
    case ValidatorStop =>
      s.Log(DriverWithdrawn).Log(ToolkitWithdrawn).(dir := map n | n in s.dir && !n.MatchesGlob() :: s.dir[n])
    case SeeToolkit(x) => s.Log(PluginSawToolkit(x))
    case StartPlugin(x) => s.Log(PluginStarted(x))
  }

  /** The state after a sequence of steps, if all of them could happen. */
  function Play(steps: seq<Step>): Option<State> {
    if steps == [] then Some(INIT)
    else
      match Play(steps[..|steps| - 1])
      case None => None
      case Some(s) => if Enabled(s, steps[|steps| - 1]) then Some(Apply(s, steps[|steps| - 1])) else None
  }

  // ---------- safety: what must have happened before ----------

  ghost predicate SomeProbe(t: seq<Event>) { exists e :: e in t && e.ProbePassed? }

  /** The files that others wait for. */
  datatype Ready = ContainerFile | DriverFile | ToolkitFile
  {
    function File(): Name {
      match this
      case ContainerFile => CtrReady
      case DriverFile => DriverReady
      case ToolkitFile => ToolkitReady
    }
  }

  predicate Publishes(e: Event, f: Ready) {
    match f
    case ContainerFile => e.ContainerPublished?
    case DriverFile => e.DriverPublished?
    case ToolkitFile => e.ToolkitPublished?
  }

  predicate Withdraws(e: Event, f: Ready) {
    match f
    case ContainerFile => e.ContainerWithdrawn?
    case DriverFile => e.DriverWithdrawn?
    case ToolkitFile => e.ToolkitWithdrawn?
  }

  /** The event that put a file where it is, if it is there. */
  function Publisher(t: seq<Event>, f: Ready): Option<nat> {
    if t == [] then None
    else if Publishes(t[|t| - 1], f) then Some(|t| - 1)
    else if Withdraws(t[|t| - 1], f) then None
    else Publisher(t[..|t| - 1], f)
  }

  /** Published at `d` and neither withdrawn nor replaced since. */
  ghost predicate Stands(t: seq<Event>, f: Ready, d: nat) {
    d < |t| && Publishes(t[d], f) && forall i :: d < i < |t| ==> !Publishes(t[i], f) && !Withdraws(t[i], f)
  }

  lemma {:induction false} PublisherStands(t: seq<Event>, f: Ready, d: nat)
    ensures Publisher(t, f) == Some(d) <==> Stands(t, f, d)
  {
    if t != [] {
      PublisherStands(t[..|t| - 1], f, d);
    }
  }

  /** What one more event makes of a file's publisher. */
  function Next(t: seq<Event>, e: Event, f: Ready): Option<nat> {
    if Publishes(e, f) then Some(|t|) else if Withdraws(e, f) then None else Publisher(t, f)
  }

  lemma OneMoreEvent(t: seq<Event>, e: Event, f: Ready)
    ensures Publisher(t + [e], f) == Next(t, e, f)
  {
    assert (t + [e])[..|t|] == t;
  }

  lemma OneMore(t: seq<Event>, e: Event)
    ensures Publisher(t + [e], ContainerFile) == Next(t, e, ContainerFile)
    ensures Publisher(t + [e], DriverFile) == Next(t, e, DriverFile)
    ensures Publisher(t + [e], ToolkitFile) == Next(t, e, ToolkitFile)
  {
    OneMoreEvent(t, e, ContainerFile);
    OneMoreEvent(t, e, DriverFile);
    OneMoreEvent(t, e, ToolkitFile);
  }

  ghost predicate PublishedBy(t: seq<Event>, p: nat) { exists e :: e in t && e.DriverPublished? && e.p == p }

  ghost predicate SpecSeen(t: seq<Event>, id: nat, run: nat) {
    exists e :: e in t && e.ToolkitSawSpec? && e.t == id && e.run == run
  }

  /** What an event requires of the events before it. */
  ghost predicate Justified(before: seq<Event>, e: Event) {
    match e
    case ProbePassed(_) => true
    case HostPassed(_, _) => true
    case ManagedAnswer(_, _, _) => true
    case ContainerSeen(p, r) => ManagedAnswer(p, r, true) in before && Publisher(before, ContainerFile).Some?
    case SmiPassed(p, r) => ManagedAnswer(p, r, false) in before || ContainerSeen(p, r) in before
    case DriverValidated(p, r, host) => if host then HostPassed(p, r) in before else SmiPassed(p, r) in before
    case DriverPublished(p, r, host) => DriverValidated(p, r, host) in before
    case DaemonStarted(p, _) => Publisher(before, DriverFile).Some? && PublishedBy(before, p)
    case ToolkitSawDriver(t, _) => Publisher(before, DriverFile).Some? && PublishedBy(before, t)
    case ToolkitSawSpec(t, r, _) => ToolkitSawDriver(t, r) in before
    case ToolkitPublished(t, r) => SpecSeen(before, t, r)
    case PluginSawToolkit(_) => Publisher(before, ToolkitFile).Some?
    case PluginStarted(x) => PluginSawToolkit(x) in before
    case ContainerPublished => SomeProbe(before)
    case ContainerWithdrawn => true
    case DriverWithdrawn => true
    case ToolkitWithdrawn => true
  }

  ghost predicate TraceOk(t: seq<Event>) {
    forall i :: 0 <= i < |t| ==> Justified(t[..i], t[i])
  }

  ghost predicate DriverOk(t: seq<Event>, p: nat, proc: Process<DriverPc>) {
    match proc.pc
    case AwaitContainer => ManagedAnswer(p, proc.run, true) in t
    case Probing => ManagedAnswer(p, proc.run, false) in t || ContainerSeen(p, proc.run) in t
    case Validated(host) => DriverValidated(p, proc.run, host) in t
    case Writing(host, temp, _) => DriverValidated(p, proc.run, host) in t && temp.Temp?
    case Written(host, temp, _) => DriverValidated(p, proc.run, host) in t && temp.Temp?
    case Cleaning(temp, published) => temp.Temp? && (published ==> PublishedBy(t, p))
    case Succeeded => PublishedBy(t, p)
    case _ => true
  }

  ghost predicate ToolkitOk(t: seq<Event>, id: nat, proc: Process<ToolkitPc>) {
    match proc.pc
    case TCleared => PublishedBy(t, id)
    case TSawDriver => ToolkitSawDriver(id, proc.run) in t && PublishedBy(t, id)
    case TSawSpec => SpecSeen(t, id, proc.run)
    case TRemoved => SpecSeen(t, id, proc.run)
    case _ => true
  }

  ghost predicate FilesOk(dir: map<Name, nat>, t: seq<Event>) {
    && (CtrTmp in dir ==> SomeProbe(t))
    && (CtrReady in dir <==> Publisher(t, ContainerFile).Some?)
    && (DriverReady in dir <==> Publisher(t, DriverFile).Some?)
    && (ToolkitReady in dir <==> Publisher(t, ToolkitFile).Some?)
  }

  ghost predicate Inv(s: State) {
    && TraceOk(s.trace)
    && FilesOk(s.dir, s.trace)
    && (forall p :: DriverOk(s.trace, p, s.Driver(p)))
    && (forall t :: ToolkitOk(s.trace, t, s.Toolkit(t)))
  }

  /** Facts about the past stay true as the trace grows. */
  lemma PastStays(t: seq<Event>, e: Event)
    ensures SomeProbe(t) ==> SomeProbe(t + [e])
    ensures forall p :: PublishedBy(t, p) ==> PublishedBy(t + [e], p)
    ensures forall id, r :: SpecSeen(t, id, r) ==> SpecSeen(t + [e], id, r)
    ensures forall d :: d in t ==> d in t + [e]
  {
    assert forall d :: d in t ==> d in t + [e];
  }

  lemma TraceGrows(t: seq<Event>, e: Event)
    requires TraceOk(t) && Justified(t, e)
    ensures TraceOk(t + [e])
  {
    forall i | 0 <= i < |t + [e]| ensures Justified((t + [e])[..i], (t + [e])[i]) {
      assert (t + [e])[..i] == t[..i];
      if i == |t| { assert t[..i] == t; }
    }
  }

  /** An event, with what it does to the files. */
  lemma LogKeepsInv(s: State, e: Event, dir: map<Name, nat>, data: map<nat, string>)
    requires Inv(s) && Justified(s.trace, e) && FilesOk(dir, s.trace + [e])
    ensures Inv(s.Log(e).(dir := dir, data := data))
  {
    PastStays(s.trace, e);
    TraceGrows(s.trace, e);
    var s' := s.Log(e).(dir := dir, data := data);
    forall p ensures DriverOk(s'.trace, p, s'.Driver(p)) {
      assert DriverOk(s.trace, p, s.Driver(p)) && s'.Driver(p) == s.Driver(p);
    }
    forall t ensures ToolkitOk(s'.trace, t, s'.Toolkit(t)) {
      assert ToolkitOk(s.trace, t, s.Toolkit(t)) && s'.Toolkit(t) == s.Toolkit(t);
    }
  }

  /** Events that publish and withdraw nothing. */
  predicate Quiet(e: Event) {
    && !e.ContainerPublished? && !e.ContainerWithdrawn? && !e.DriverPublished? && !e.DriverWithdrawn?
    && !e.ToolkitPublished? && !e.ToolkitWithdrawn?
  }

  lemma QuietLogKeepsInv(s: State, e: Event)
    requires Inv(s) && Justified(s.trace, e) && Quiet(e)
    ensures Inv(s.Log(e)) && FilesOk(s.dir, s.trace + [e])
  {
    PastStays(s.trace, e);
    OneMore(s.trace, e);
    LogKeepsInv(s, e, s.dir, s.data);
    assert s.Log(e) == s.Log(e).(dir := s.dir, data := s.data);
  }

  lemma MoveKeepsInv(s: State, p: nat, proc: Process<DriverPc>)
    requires Inv(s) && DriverOk(s.trace, p, proc)
    ensures Inv(s.(drivers := s.drivers[p := proc]))
  {
    var s' := s.(drivers := s.drivers[p := proc]);
    forall q ensures DriverOk(s'.trace, q, s'.Driver(q)) {
      assert DriverOk(s.trace, q, s.Driver(q));
    }
    forall t ensures ToolkitOk(s'.trace, t, s'.Toolkit(t)) {
      assert ToolkitOk(s.trace, t, s.Toolkit(t)) && s'.Toolkit(t) == s.Toolkit(t);
    }
  }

  lemma ToolkitMoveKeepsInv(s: State, t: nat, proc: Process<ToolkitPc>)
    requires Inv(s) && ToolkitOk(s.trace, t, proc)
    ensures Inv(s.(toolkits := s.toolkits[t := proc]))
  {
    var s' := s.(toolkits := s.toolkits[t := proc]);
    forall u ensures ToolkitOk(s'.trace, u, s'.Toolkit(u)) {
      assert ToolkitOk(s.trace, u, s.Toolkit(u));
    }
    forall p ensures DriverOk(s'.trace, p, s'.Driver(p)) {
      assert DriverOk(s.trace, p, s.Driver(p)) && s'.Driver(p) == s.Driver(p);
    }
  }

  /** Changes of the directory, of contents and of the specs. */
  lemma FilesKeepInv(s: State, dir: map<Name, nat>, data: map<nat, string>, specs: map<string, nat>)
    requires Inv(s) && FilesOk(dir, s.trace)
    ensures Inv(s.(dir := dir, data := data, specs := specs))
  {
    var s' := s.(dir := dir, data := data, specs := specs);
    forall p ensures DriverOk(s'.trace, p, s'.Driver(p)) {
      assert DriverOk(s.trace, p, s.Driver(p)) && s'.Driver(p) == s.Driver(p);
    }
    forall t ensures ToolkitOk(s'.trace, t, s'.Toolkit(t)) {
      assert ToolkitOk(s.trace, t, s.Toolkit(t)) && s'.Toolkit(t) == s.Toolkit(t);
    }
  }

  lemma LastIsPast(t: seq<Event>, e: Event)
    ensures e in t + [e]
    ensures e.ProbePassed? ==> SomeProbe(t + [e])
    ensures e.DriverPublished? ==> PublishedBy(t + [e], e.p)
    ensures e.ToolkitSawSpec? ==> SpecSeen(t + [e], e.t, e.run)
  {
    assert e in t + [e];
  }

  lemma ProbeStepKeepsInv(s: State, st: Step)
    requires Inv(s) && Enabled(s, st) && (st.ProbeTouch? || st.SpecsChange?)
    ensures Inv(Apply(s, st))
  {
    var s' := Apply(s, st);
    if st.ProbeTouch? {
      var e := ProbePassed(st.pod);
      QuietLogKeepsInv(s, e);
      LastIsPast(s.trace, e);
      FilesKeepInv(s.Log(e), s'.dir, s'.data, s.specs);
    } else {
      FilesKeepInv(s, s'.dir, s'.data, s'.specs);
    }
  }

  lemma ProbeMoveKeepsInv(s: State)
    requires Inv(s) && Enabled(s, ProbeMove)
    ensures Inv(Apply(s, ProbeMove))
  {
    var e := ContainerPublished;
    var s' := s.Log(e).Rename(CtrTmp, CtrReady);
    PastStays(s.trace, e);
    OneMore(s.trace, e);
    LogKeepsInv(s, e, s'.dir, s.data);
    assert s' == s.Log(e).(dir := s'.dir, data := s.data);
  }

  function Withdrawn(f: Ready): Event {
    match f
    case ContainerFile => ContainerWithdrawn
    case DriverFile => DriverWithdrawn
    case ToolkitFile => ToolkitWithdrawn
  }

  /** A published file is removed. */
  lemma WithdrawKeepsInv(s: State, f: Ready)
    requires Inv(s)
    ensures Inv(s.Log(Withdrawn(f)).Remove(f.File()))
  {
    var (e, dir) := (Withdrawn(f), s.dir - {f.File()});
    PastStays(s.trace, e);
    OneMore(s.trace, e);
    LogKeepsInv(s, e, dir, s.data);
    assert s.Log(e).Remove(f.File()) == s.Log(e).(dir := dir, data := s.data);
  }

  /** The preStop pattern removes the two published files. */
  lemma GlobRemoves(dir: map<Name, nat>)
    ensures (map n | n in dir && !n.MatchesGlob() :: dir[n]) == dir - {DriverReady} - {ToolkitReady}
  {
    forall n: Name ensures n.MatchesGlob() <==> n.DriverReady? || n.ToolkitReady? {
      n.GlobMeaning();
    }
  }

  lemma ValidatorStopKeepsInv(s: State)
    requires Inv(s)
    ensures Inv(Apply(s, ValidatorStop))
  {
    var mid := s.Log(DriverWithdrawn).Remove(DriverReady);
    WithdrawKeepsInv(s, DriverFile);
    WithdrawKeepsInv(mid, ToolkitFile);
    GlobRemoves(s.dir);
    assert Apply(s, ValidatorStop) == mid.Log(ToolkitWithdrawn).Remove(ToolkitReady);
  }

  /** One event, then a move that it allows. */
  lemma EventAndMoveKeepInv(s: State, e: Event, p: nat, pc: DriverPc)
    requires Inv(s) && Justified(s.trace, e) && Quiet(e)
    requires DriverOk(s.trace + [e], p, Process(s.Driver(p).run, pc))
    ensures Inv(s.Log(e).To(p, pc))
  {
    QuietLogKeepsInv(s, e);
    MoveKeepsInv(s.Log(e), p, Process(s.Driver(p).run, pc));
  }

  lemma ValidatedKeepsInv(s: State, p: nat, host: bool, e: Event)
    requires Inv(s) && Justified(s.trace, e)
    requires e == if host then HostPassed(p, s.Driver(p).run) else SmiPassed(p, s.Driver(p).run)
    ensures Inv(s.Log(e).Log(DriverValidated(p, s.Driver(p).run, host)).To(p, Validated(host)))
  {
    QuietLogKeepsInv(s, e);
    LastIsPast(s.trace, e);
    var f := DriverValidated(p, s.Driver(p).run, host);
    LastIsPast(s.trace + [e], f);
    EventAndMoveKeepInv(s.Log(e), f, p, Validated(host));
  }

  lemma ValidationStepKeepsInv(s: State, st: Step)
    requires Inv(s) && Enabled(s, st)
    requires st.HostOk? || st.HostBad? || st.AskManaged? || st.SeeContainer? || st.SmiOk? || st.DriverFail? || st.DriverRestart?
    ensures Inv(Apply(s, st))
  {
    var p, run := st.p, s.Driver(st.p).run;
    assert DriverOk(s.trace, p, s.Driver(p));
    if st.HostOk? {
      ValidatedKeepsInv(s, p, true, HostPassed(p, run));
    } else if st.SmiOk? {
      ValidatedKeepsInv(s, p, false, SmiPassed(p, run));
    } else if st.AskManaged? {
      var e := ManagedAnswer(p, run, st.managed);
      LastIsPast(s.trace, e);
      EventAndMoveKeepInv(s, e, p, if st.managed then AwaitContainer else Probing);
    } else if st.SeeContainer? {
      var e := ContainerSeen(p, run);
      LastIsPast(s.trace, e);
      EventAndMoveKeepInv(s, e, p, Probing);
    } else {
      MoveKeepsInv(s, p, Apply(s, st).Driver(p));
    }
  }

  /** A change of files and of one driver validation. */
  lemma FilesAndMoveKeepInv(s: State, s': State, p: nat)
    requires Inv(s) && FilesOk(s'.dir, s.trace) && DriverOk(s.trace, p, s'.Driver(p))
    requires s' == s.(dir := s'.dir, data := s'.data, drivers := s.drivers[p := s'.Driver(p)])
    ensures Inv(s')
  {
    FilesKeepInv(s, s'.dir, s'.data, s.specs);
    MoveKeepsInv(s.(dir := s'.dir, data := s'.data), p, s'.Driver(p));
  }

  lemma RenameKeepsInv(s: State, e: Event, temp: Name)
    requires Inv(s) && e.DriverPublished? && Justified(s.trace, e) && temp.Temp? && temp in s.dir
    ensures Inv(s.Log(e).Rename(temp, DriverReady))
  {
    var s' := s.Log(e).Rename(temp, DriverReady);
    PastStays(s.trace, e);
    OneMore(s.trace, e);
    LogKeepsInv(s, e, s'.dir, s.data);
    assert s' == s.Log(e).(dir := s'.dir, data := s.data);
  }

  lemma PublishKeepsInv(s: State, p: nat)
    requires Inv(s) && Enabled(s, Publish(p))
    ensures Inv(Apply(s, Publish(p)))
  {
    assert DriverOk(s.trace, p, s.Driver(p));
    var e := DriverPublished(p, s.Driver(p).run, s.Driver(p).pc.host);
    var temp := s.Driver(p).pc.temp;
    RenameKeepsInv(s, e, temp);
    LastIsPast(s.trace, e);
    MoveKeepsInv(s.Log(e).Rename(temp, DriverReady), p, Process(s.Driver(p).run, Cleaning(temp, true)));
  }

  lemma DeleteKeepsInv(s: State, p: nat)
    requires Inv(s) && Enabled(s, Delete(p))
    ensures Inv(Apply(s, Delete(p)))
  {
    WithdrawKeepsInv(s, DriverFile);
    MoveKeepsInv(s.Log(DriverWithdrawn).Remove(DriverReady), p, Process(s.Driver(p).run, Cleared));
  }

  lemma CreateTempKeepsInv(s: State, p: nat, r: string, ino: nat)
    requires Inv(s) && Enabled(s, CreateTemp(p, r, ino))
    ensures Inv(Apply(s, CreateTemp(p, r, ino)))
  {
    assert DriverOk(s.trace, p, s.Driver(p));
    FilesAndMoveKeepInv(s, Apply(s, CreateTemp(p, r, ino)), p);
  }

  lemma TempStepKeepsInv(s: State, st: Step)
    requires Inv(s) && Enabled(s, st) && (st.WriteAll? || st.PublishFail? || st.RemoveTemp?)
    ensures Inv(Apply(s, st))
  {
    assert DriverOk(s.trace, st.p, s.Driver(st.p));
    FilesAndMoveKeepInv(s, Apply(s, st), st.p);
  }

  /** A toolkit validation sees something and moves on. */
  lemma ToolkitSeesKeepsInv(s: State, t: nat, e: Event, pc: ToolkitPc)
    requires Inv(s) && Quiet(e) && Justified(s.trace, e)
    requires ToolkitOk(s.trace + [e], t, Process(s.Toolkit(t).run, pc))
    ensures Inv(s.Log(e).ToolkitTo(t, pc))
  {
    QuietLogKeepsInv(s, e);
    ToolkitMoveKeepsInv(s.Log(e), t, Process(s.Toolkit(t).run, pc));
  }

  lemma SeeStepKeepsInv(s: State, st: Step)
    requires Inv(s) && Enabled(s, st) && (st.SeeDriver? || st.SeeSpec?)
    ensures Inv(Apply(s, st))
  {
    var (t, run) := (st.t, s.Toolkit(st.t).run);
    assert ToolkitOk(s.trace, t, s.Toolkit(t));
    var e := if st.SeeDriver? then ToolkitSawDriver(t, run) else ToolkitSawSpec(t, run, st.spec);
    LastIsPast(s.trace, e);
    PastStays(s.trace, e);
    ToolkitSeesKeepsInv(s, t, e, if st.SeeDriver? then TSawDriver else TSawSpec);
  }

  /** It removes toolkit-ready and moves on. */
  lemma ClearAndMoveKeepsInv(s: State, t: nat, pc: ToolkitPc)
    requires Inv(s) && ToolkitOk(s.trace, t, Process(s.Toolkit(t).run, pc))
    ensures Inv(s.Log(ToolkitWithdrawn).Remove(ToolkitReady).ToolkitTo(t, pc))
  {
    ToolkitMoveKeepsInv(s, t, Process(s.Toolkit(t).run, pc));
    var s' := s.ToolkitTo(t, pc);
    WithdrawKeepsInv(s', ToolkitFile);
    assert s'.Log(ToolkitWithdrawn).Remove(ToolkitReady) == s.Log(ToolkitWithdrawn).Remove(ToolkitReady).ToolkitTo(t, pc);
  }

  lemma ToolkitDeleteKeepsInv(s: State, t: nat)
    requires Inv(s) && Enabled(s, ToolkitDelete(t))
    ensures Inv(Apply(s, ToolkitDelete(t)))
  {
    assert DriverOk(s.trace, t, s.Driver(t));
    ClearAndMoveKeepsInv(s, t, TCleared);
  }

  lemma ToolkitRemoveKeepsInv(s: State, t: nat)
    requires Inv(s) && Enabled(s, ToolkitRemove(t))
    ensures Inv(Apply(s, ToolkitRemove(t)))
  {
    assert ToolkitOk(s.trace, t, s.Toolkit(t));
    ClearAndMoveKeepsInv(s, t, TRemoved);
  }

  lemma ToolkitCreateKeepsInv(s: State, t: nat, ino: nat)
    requires Inv(s) && Enabled(s, ToolkitCreate(t, ino))
    ensures Inv(Apply(s, ToolkitCreate(t, ino)))
  {
    assert ToolkitOk(s.trace, t, s.Toolkit(t));
    var e := ToolkitPublished(t, s.Toolkit(t).run);
    var s' := s.Log(e).Put(ToolkitReady, ino);
    PastStays(s.trace, e);
    OneMore(s.trace, e);
    LogKeepsInv(s, e, s'.dir, s'.data);
    assert s' == s.Log(e).(dir := s'.dir, data := s'.data);
    ToolkitMoveKeepsInv(s', t, Process(s.Toolkit(t).run, TSucceeded));
  }

  lemma ToolkitMoveStepKeepsInv(s: State, st: Step)
    requires Inv(s) && Enabled(s, st)
    requires st.ToolkitRetry? || st.ToolkitFail? || st.ToolkitRestart?
    ensures Inv(Apply(s, st))
  {
    assert ToolkitOk(s.trace, st.t, s.Toolkit(st.t));
    ToolkitMoveKeepsInv(s, st.t, Apply(s, st).Toolkit(st.t));
  }

  lemma StartStepKeepsInv(s: State, st: Step)
    requires Inv(s) && Enabled(s, st)
    requires st.StartDaemon? || st.SeeToolkit? || st.StartPlugin?
    ensures Inv(Apply(s, st))
  {
    match st {
      case StartDaemon(p) =>
        assert DriverOk(s.trace, p, s.Driver(p));
        QuietLogKeepsInv(s, DaemonStarted(p, s.data[s.dir[DriverReady]]));
      case SeeToolkit(x) => QuietLogKeepsInv(s, PluginSawToolkit(x));
      case StartPlugin(x) => QuietLogKeepsInv(s, PluginStarted(x));
    }
  }

  lemma StepKeepsInv(s: State, st: Step)
    requires Inv(s) && Enabled(s, st)
    ensures Inv(Apply(s, st))
  {
    if st.ProbeTouch? || st.SpecsChange? {
      ProbeStepKeepsInv(s, st);
    } else if st.ProbeMove? {
      ProbeMoveKeepsInv(s);
    } else if st.DriverStop? {
      WithdrawKeepsInv(s, ContainerFile);
    } else if st.ValidatorStop? {
      ValidatorStopKeepsInv(s);
    } else if st.HostOk? || st.HostBad? || st.AskManaged? || st.SeeContainer? || st.SmiOk? || st.DriverFail? || st.DriverRestart? {
      ValidationStepKeepsInv(s, st);
    } else if st.Delete? {
      DeleteKeepsInv(s, st.p);
    } else if st.WriteSome? {
      FilesKeepInv(s, s.dir, Apply(s, st).data, s.specs);
    } else if st.CreateTemp? {
      CreateTempKeepsInv(s, st.p, st.random, st.ino);
    } else if st.WriteAll? || st.PublishFail? || st.RemoveTemp? {
      TempStepKeepsInv(s, st);
    } else if st.StartDaemon? || st.SeeToolkit? || st.StartPlugin? {
      StartStepKeepsInv(s, st);
    } else if st.Publish? {
      PublishKeepsInv(s, st.p);
    } else if st.SeeDriver? || st.SeeSpec? {
      SeeStepKeepsInv(s, st);
    } else if st.ToolkitCreate? {
      ToolkitCreateKeepsInv(s, st.t, st.ino);
    } else if st.ToolkitDelete? {
      ToolkitDeleteKeepsInv(s, st.t);
    } else if st.ToolkitRemove? {
      ToolkitRemoveKeepsInv(s, st.t);
    } else {
      ToolkitMoveStepKeepsInv(s, st);
    }
  }

  /** Every interleaving, from an empty directory. */
  lemma {:induction false} ReachableInv(steps: seq<Step>)
    requires Play(steps).Some?
    ensures Inv(Play(steps).value)
  {
    if steps != [] {
      var init := steps[..|steps| - 1];
      ReachableInv(init);
      StepKeepsInv(Play(init).value, steps[|steps| - 1]);
    }
  }

  lemma EarlierAt(t: seq<Event>, i: nat, e: Event) returns (j: nat)
    requires i <= |t| && e in t[..i]
    ensures j < i && t[j] == e
  {
    j :| 0 <= j < |t[..i]| && t[..i][j] == e;
  }

  /** How a driver validation came to succeed: a passing host check, or a passing
      rbln-smi after the operator was found not to manage the driver or after a
      container-ready file was seen, which a startup probe that passed had put there
      and no stop of the driver pod had removed. */
  ghost predicate ValidationBacked(t: seq<Event>, d: nat, p: nat, run: nat, host: bool) {
    && d < |t| && t[d] == DriverValidated(p, run, host)
    && if host then HostPassed(p, run) in t[..d]
       else exists i: nat ::
         && i < d && t[i] == SmiPassed(p, run)
         && (|| ManagedAnswer(p, run, false) in t[..i]
             || exists j: nat, m: nat, k: nat ::
                  && k < m < j < i && t[j] == ContainerSeen(p, run)
                  && ManagedAnswer(p, run, true) in t[..j]
                  && Stands(t[..j], ContainerFile, m) && t[k].ProbePassed?)
  }

  lemma ProbeBehindFile(t: seq<Event>, m: nat) returns (k: nat)
    requires TraceOk(t) && m < |t| && t[m].ContainerPublished?
    ensures k < m && t[k].ProbePassed?
  {
    assert Justified(t[..m], t[m]);
    var e :| e in t[..m] && e.ProbePassed?;
    k := EarlierAt(t, m, e);
  }

  lemma ValidationIsBacked(t: seq<Event>, d: nat, p: nat, run: nat, host: bool)
    requires TraceOk(t) && d < |t| && t[d] == DriverValidated(p, run, host)
    ensures ValidationBacked(t, d, p, run, host)
  {
    assert Justified(t[..d], t[d]);
    if !host {
      var i := EarlierAt(t, d, SmiPassed(p, run));
      assert Justified(t[..i], t[i]);
      if ManagedAnswer(p, run, false) !in t[..i] {
        var j := EarlierAt(t, i, ContainerSeen(p, run));
        assert Justified(t[..j], t[j]);
        var m := Publisher(t[..j], ContainerFile).value;
        PublisherStands(t[..j], ContainerFile, m);
        var k := ProbeBehindFile(t, m);
      }
    }
  }

  // ---------- the steps behind the events ----------

  lemma TraceOnlyGrows(s: State, st: Step)
    requires Enabled(s, st)
    ensures s.trace <= Apply(s, st).trace
  {
  }

  /** `j` is the step that logged event `i`. */
  ghost predicate LoggedBy(steps: seq<Step>, i: nat, j: nat) {
    && j < |steps| && Play(steps[..j]).Some? && Enabled(Play(steps[..j]).value, steps[j])
    && var s := Play(steps[..j]).value;
    && |s.trace| <= i < |Apply(s, steps[j]).trace|
    && Play(steps).Some? && i < |Play(steps).value.trace|
    && Apply(s, steps[j]).trace[i] == Play(steps).value.trace[i]
  }

  lemma {:induction false} StepBehindEvent(steps: seq<Step>, i: nat) returns (j: nat)
    requires Play(steps).Some? && i < |Play(steps).value.trace|
    ensures LoggedBy(steps, i, j)
  {
    var (init, st) := (steps[..|steps| - 1], steps[|steps| - 1]);
    var s := Play(init).value;
    TraceOnlyGrows(s, st);
    if i < |s.trace| {
      j := StepBehindEvent(init, i);
      assert init[..j] == steps[..j];
    } else {
      j := |steps| - 1;
    }
  }

  lemma SpecEventIsSeeSpec(s: State, st: Step, i: nat)
    requires Enabled(s, st) && |s.trace| <= i < |Apply(s, st).trace| && Apply(s, st).trace[i].ToolkitSawSpec?
    ensures var e := Apply(s, st).trace[i]; st == SeeSpec(e.t, e.spec) && e.spec in s.specs && s.specs[e.spec] > 0
  {
  }

  /** Event `b` is of a spec that was there, and not empty, when step `j` saw it. */
  ghost predicate SpecWasThere(steps: seq<Step>, b: nat, j: nat) {
    && LoggedBy(steps, b, j) && Play(steps).value.trace[b].ToolkitSawSpec?
    && var (e, specs) := (Play(steps).value.trace[b], Play(steps[..j]).value.specs);
    && steps[j] == SeeSpec(e.t, e.spec) && e.spec in specs && specs[e.spec] > 0
  }

  lemma SeenSpecIsNotEmpty(steps: seq<Step>, b: nat) returns (j: nat)
    requires Play(steps).Some? && b < |Play(steps).value.trace| && Play(steps).value.trace[b].ToolkitSawSpec?
    ensures SpecWasThere(steps, b, j)
  {
    j := StepBehindEvent(steps, b);
    SpecEventIsSeeSpec(Play(steps[..j]).value, steps[j], b);
  }

  /** The chain behind a plugin started at `i`: its pod saw, at `w`, a
      toolkit-ready that was published at `a`, and neither withdrawn nor replaced
      until then, by a validation that saw a non-empty spec at `b` and, at `c`, a driver-ready that was
      published at `d`, and neither withdrawn nor replaced until then, by a driver
      validation that had succeeded at `e`. */
  ghost predicate PluginBacked(t: seq<Event>, i: nat, w: nat, a: nat, b: nat, c: nat, d: nat, e: nat) {
    && e < d < c < b < a < w < i < |t|
    && t[i].PluginStarted? && t[w] == PluginSawToolkit(t[i].x)
    && Stands(t[..w], ToolkitFile, a)
    && t[b].ToolkitSawSpec? && t[b].t == t[a].t && t[b].run == t[a].run
    && t[c] == ToolkitSawDriver(t[a].t, t[a].run)
    && Stands(t[..c], DriverFile, d)
    && ValidationBacked(t, e, t[d].p, t[d].run, t[d].host)
    && PublishedBy(t[..c], t[a].t)
  }

  lemma PublishedIsBacked(t: seq<Event>, d: nat) returns (e: nat)
    requires TraceOk(t) && d < |t| && t[d].DriverPublished?
    ensures e < d && ValidationBacked(t, e, t[d].p, t[d].run, t[d].host)
  {
    assert Justified(t[..d], t[d]);
    e := EarlierAt(t, d, DriverValidated(t[d].p, t[d].run, t[d].host));
    ValidationIsBacked(t, e, t[d].p, t[d].run, t[d].host);
  }

  lemma SpecBehindToolkit(t: seq<Event>, a: nat) returns (b: nat)
    requires TraceOk(t) && a < |t| && t[a].ToolkitPublished?
    ensures b < a && t[b].ToolkitSawSpec? && t[b].t == t[a].t && t[b].run == t[a].run
  {
    assert Justified(t[..a], t[a]);
    var spec :| spec in t[..a] && spec.ToolkitSawSpec? && spec.t == t[a].t && spec.run == t[a].run;
    b := EarlierAt(t, a, spec);
  }

  lemma DriverBehindSpec(t: seq<Event>, b: nat) returns (c: nat)
    requires TraceOk(t) && b < |t| && t[b].ToolkitSawSpec?
    ensures c < b && t[c] == ToolkitSawDriver(t[b].t, t[b].run)
  {
    assert Justified(t[..b], t[b]);
    c := EarlierAt(t, b, ToolkitSawDriver(t[b].t, t[b].run));
  }

  /** In every run a plugin's main container starts only behind that chain, and the
      spec seen at `b` was there and not empty at that step, `j`. */
  lemma PluginStartsBehindChain(steps: seq<Step>, i: nat)
    returns (w: nat, a: nat, b: nat, c: nat, d: nat, e: nat, j: nat)
    requires Play(steps).Some? && i < |Play(steps).value.trace| && Play(steps).value.trace[i].PluginStarted?
    ensures PluginBacked(Play(steps).value.trace, i, w, a, b, c, d, e) && SpecWasThere(steps, b, j)
  {
    ReachableInv(steps);
    w, a, b, c, d, e := TracedChain(Play(steps).value.trace, i);
    j := SeenSpecIsNotEmpty(steps, b);
  }

  lemma TracedChain(t: seq<Event>, i: nat) returns (w: nat, a: nat, b: nat, c: nat, d: nat, e: nat)
    requires TraceOk(t) && i < |t| && t[i].PluginStarted?
    ensures PluginBacked(t, i, w, a, b, c, d, e)
  {
    assert Justified(t[..i], t[i]);
    w := EarlierAt(t, i, PluginSawToolkit(t[i].x));
    assert Justified(t[..w], t[w]);
    a := Publisher(t[..w], ToolkitFile).value;
    PublisherStands(t[..w], ToolkitFile, a);
    b := SpecBehindToolkit(t, a);
    c := DriverBehindSpec(t, b);
    assert Justified(t[..c], t[c]);
    d := Publisher(t[..c], DriverFile).value;
    PublisherStands(t[..c], DriverFile, d);
    e := PublishedIsBacked(t, d);
  }

  /** Whether what the pod saw at `w` still stands when its plugin starts at `i`
      depends on what was published and withdrawn in between. */
  lemma StillStandsIff(t: seq<Event>, a: nat, w: nat, i: nat)
    requires w <= i <= |t| && Stands(t[..w], ToolkitFile, a)
    ensures Stands(t[..i], ToolkitFile, a) <==> forall k :: w <= k < i ==> !t[k].ToolkitPublished? && !t[k].ToolkitWithdrawn?
  {
    if Stands(t[..i], ToolkitFile, a) {
      forall k | w <= k < i ensures !t[k].ToolkitPublished? && !t[k].ToolkitWithdrawn? {
        assert t[..i][k] == t[k];
      }
    } else {
      assert forall k :: a < k < w ==> !t[..w][k].ToolkitPublished? && !t[..w][k].ToolkitWithdrawn?;
    }
  }

  // ---------- which steps make and remove the files ----------

  predicate Makes(st: Step, f: Ready) {
    match f
    case ContainerFile => st.ProbeMove?
    case DriverFile => st.Publish?
    case ToolkitFile => st.ToolkitCreate?
  }

  /** The driver pod's preStop hook, the start of a validation, the second removal
      before toolkit-ready is created anew, and the validator's preStop hook. */
  predicate Removes(st: Step, f: Ready) {
    match f
    case ContainerFile => st.DriverStop?
    case DriverFile => st.Delete? || st.ValidatorStop?
    case ToolkitFile => st.ToolkitDelete? || st.ToolkitRemove? || st.ValidatorStop?
  }

  predicate ChangesDir(st: Step) {
    || st.ProbeTouch? || st.ProbeMove? || st.DriverStop? || st.Delete? || st.CreateTemp? || st.Publish? || st.RemoveTemp?
    || st.ToolkitDelete? || st.ToolkitRemove? || st.ToolkitCreate? || st.ValidatorStop?
  }

  lemma OthersKeepDir(s: State, st: Step)
    requires Enabled(s, st) && !ChangesDir(st)
    ensures Apply(s, st).dir == s.dir
  {
  }

  lemma DriverStepMakesOrRemoves(s: State, st: Step, f: Ready)
    requires Inv(s) && Enabled(s, st)
    requires st.Delete? || st.CreateTemp? || st.Publish? || st.RemoveTemp?
    ensures f.File() in Apply(s, st).dir <==> Makes(st, f) || (f.File() in s.dir && !Removes(st, f))
  {
    assert DriverOk(s.trace, st.p, s.Driver(st.p));
  }

  lemma PodStepMakesOrRemoves(s: State, st: Step, f: Ready)
    requires Enabled(s, st) && (st.ProbeTouch? || st.ProbeMove? || st.DriverStop?)
    ensures f.File() in Apply(s, st).dir <==> Makes(st, f) || (f.File() in s.dir && !Removes(st, f))
  {
  }

  lemma ToolkitStepMakesOrRemoves(s: State, st: Step, f: Ready)
    requires Enabled(s, st) && (st.ToolkitDelete? || st.ToolkitRemove? || st.ToolkitCreate?)
    ensures f.File() in Apply(s, st).dir <==> Makes(st, f) || (f.File() in s.dir && !Removes(st, f))
  {
  }

  lemma StopRemoves(s: State, f: Ready)
    ensures f.File() in Apply(s, ValidatorStop).dir <==> f.File() in s.dir && !Removes(ValidatorStop, f)
  {
    GlobRemoves(s.dir);
  }

  /** Exactly these steps make and remove the three files. */
  lemma StepMakesOrRemoves(s: State, st: Step, f: Ready)
    requires Inv(s) && Enabled(s, st)
    ensures f.File() in Apply(s, st).dir <==> Makes(st, f) || (f.File() in s.dir && !Removes(st, f))
  {
    if !ChangesDir(st) {
      OthersKeepDir(s, st);
    } else if st.ValidatorStop? {
      StopRemoves(s, f);
    } else if st.ProbeTouch? || st.ProbeMove? || st.DriverStop? {
      PodStepMakesOrRemoves(s, st, f);
    } else if st.ToolkitDelete? || st.ToolkitRemove? || st.ToolkitCreate? {
      ToolkitStepMakesOrRemoves(s, st, f);
    } else {
      DriverStepMakesOrRemoves(s, st, f);
    }
  }

  /** Made at step `k` and not removed, nor made anew, by a later one. */
  ghost predicate StandsSince(steps: seq<Step>, f: Ready, k: nat) {
    k < |steps| && Makes(steps[k], f) && forall i :: k < i < |steps| ==> !Makes(steps[i], f) && !Removes(steps[i], f)
  }

  /** A file is there exactly since a step that made it. */
  lemma {:induction false} FileStandsIff(steps: seq<Step>, f: Ready)
    requires Play(steps).Some?
    ensures f.File() in Play(steps).value.dir <==> exists k :: StandsSince(steps, f, k)
  {
    if steps != [] {
      var (init, st) := (steps[..|steps| - 1], steps[|steps| - 1]);
      var s := Play(init).value;
      FileStandsIff(init, f);
      ReachableInv(init);
      StepMakesOrRemoves(s, st, f);
      StandsOneMore(steps, f);
    }
  }

  lemma StandsOneMore(steps: seq<Step>, f: Ready)
    requires steps != []
    ensures var (init, st) := (steps[..|steps| - 1], steps[|steps| - 1]);
            (exists k :: StandsSince(steps, f, k)) <==>
            Makes(st, f) || (!Removes(st, f) && exists k :: StandsSince(init, f, k))
  {
    var (init, st) := (steps[..|steps| - 1], steps[|steps| - 1]);
    if Makes(st, f) {
      assert StandsSince(steps, f, |steps| - 1);
    }
    if k: nat :| StandsSince(steps, f, k) && !Makes(st, f) {
      assert StandsSince(init, f, k);
    }
    if k: nat :| StandsSince(init, f, k) && !Makes(st, f) && !Removes(st, f) {
      assert StandsSince(steps, f, k);
    }
  }
}
