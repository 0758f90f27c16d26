/** What driver-ready holds while validations of any number race: as long as no
    validation draws a temporary name that another one is writing under, nothing
    or the whole record of its last publisher. */
module DriverRecord {
  import opened Wrappers
  import opened StatusFiles
  import opened Handshake

  /** A validation that has yet to publish what it writes. */
  predicate Writes(pc: DriverPc) {
    pc.Writing? || pc.Written?
  }

  /** A writer's file is its own, complete once written, and under its name or
      gone: a cleaning validation may have removed it. */
  ghost predicate TempOk(s: State, pc: DriverPc) {
    Writes(pc) ==>
      && pc.temp.Temp? && pc.ino in s.data
      && (pc.temp in s.dir ==> s.dir[pc.temp] == pc.ino)
      && (forall n :: n in s.dir && s.dir[n] == pc.ino ==> n == pc.temp)
      && (pc.Written? ==> s.data[pc.ino] == Record(pc.host))
  }

  ghost predicate WritersApart(s: State) {
    forall p, q :: p != q && Writes(s.Driver(p).pc) && Writes(s.Driver(q).pc) ==>
                     s.Driver(p).pc.temp != s.Driver(q).pc.temp && s.Driver(p).pc.ino != s.Driver(q).pc.ino
  }

  /** No two names share an inode. */
  ghost predicate InodesApart(s: State) {
    && (forall n :: n in s.dir ==> s.dir[n] in s.data)
    && forall m, n :: m in s.dir && n in s.dir && m != n ==> s.dir[m] != s.dir[n]
  }

  /** The record of the validation that published last. */
  ghost predicate LastRecord(t: seq<Event>, text: string) {
    var d := Publisher(t, DriverFile);
    d.Some? && d.value < |t| && t[d.value].DriverPublished? && text == Record(t[d.value].host)
  }

  /** driver-ready holds that record, whole. */
  ghost predicate RecordOk(s: State) {
    DriverReady in s.dir ==> s.dir[DriverReady] in s.data && LastRecord(s.trace, s.data[s.dir[DriverReady]])
  }

  /** And so did the file that every toolkit daemon read. */
  ghost predicate DaemonsOk(t: seq<Event>) {
    forall i :: 0 <= i < |t| && t[i].DaemonStarted? ==> LastRecord(t[..i], t[i].text)
  }

  ghost predicate RecordInv(s: State) {
    && (forall p :: TempOk(s, s.Driver(p).pc))
    && WritersApart(s) && InodesApart(s) && RecordOk(s)
  }

  /** os.CreateTemp only promises a name that does not exist at that moment; here
      it is also not the name of a file that another validation is writing and
      has lost. */
  ghost predicate FreeName(s: State, st: Step) {
    st.CreateTemp? ==> forall q :: Writes(s.Driver(q).pc) ==> s.Driver(q).pc.temp != Temp(st.random)
  }

  /** From position `from` on, only free names are drawn. */
  ghost predicate FreeNames(steps: seq<Step>, from: nat) {
    forall i :: from <= i < |steps| ==> FreeAt(steps, i)
  }

  ghost predicate FreeAt(steps: seq<Step>, i: nat)
    requires i < |steps|
  {
    Play(steps[..i]).Some? ==> FreeName(Play(steps[..i]).value, steps[i])
  }

  // ---------- steps that leave temporary files and driver-ready alone ----------

  /** No file appears under a temporary name or as driver-ready, no inode of before
      gets a new name, except that a startup probe's file moves, and validations
      may give up. */
  ghost predicate LeavesRecords(s: State, s': State) {
    && (forall p :: s'.Driver(p).pc == s.Driver(p).pc || !Writes(s'.Driver(p).pc))
    && (forall n :: n in s'.dir && (n.Temp? || n == DriverReady || s'.dir[n] in s.data) ==>
          || (n in s.dir && s'.dir[n] == s.dir[n])
          || (n == CtrReady && CtrTmp in s.dir && s'.dir[n] == s.dir[CtrTmp]))
    && (forall ino :: ino in s.data && !(ToolkitReady in s.dir && ino == s.dir[ToolkitReady]) ==>
          ino in s'.data && s'.data[ino] == s.data[ino])
    && s.trace <= s'.trace
    && (DriverReady in s'.dir ==> Publisher(s'.trace, DriverFile) == Publisher(s.trace, DriverFile))
  }

  lemma LeavingKeepsRecords(s: State, s': State)
    requires RecordInv(s) && LeavesRecords(s, s') && InodesApart(s')
    ensures RecordInv(s')
  {
    forall p ensures TempOk(s', s'.Driver(p).pc) {
      assert TempOk(s, s.Driver(p).pc);
    }
    forall p, q | p != q && Writes(s'.Driver(p).pc) && Writes(s'.Driver(q).pc)
      ensures s'.Driver(p).pc.temp != s'.Driver(q).pc.temp && s'.Driver(p).pc.ino != s'.Driver(q).pc.ino
    {
      assert s'.Driver(p).pc == s.Driver(p).pc && s'.Driver(q).pc == s.Driver(q).pc;
    }
  }

  /** Files may go; nothing is created, written or published. */
  ghost predicate OnlyRemoves(s: State, s': State) {
    && s'.data == s.data && s.trace <= s'.trace
    && (forall p :: s'.Driver(p).pc == s.Driver(p).pc || !Writes(s'.Driver(p).pc))
    && (forall n :: n in s'.dir ==> n in s.dir && s'.dir[n] == s.dir[n])
    && (DriverReady in s'.dir ==> Publisher(s'.trace, DriverFile) == Publisher(s.trace, DriverFile))
  }

  lemma RemovalKeepsRecords(s: State, s': State)
    requires RecordInv(s) && OnlyRemoves(s, s')
    ensures RecordInv(s')
  {
    LeavingKeepsRecords(s, s');
  }

  lemma LogKeepsPublisher(t: seq<Event>, e: Event)
    requires !e.DriverPublished? && !e.DriverWithdrawn?
    ensures Publisher(t + [e], DriverFile) == Publisher(t, DriverFile) && t <= t + [e]
  {
    OneMoreEvent(t, e, DriverFile);
  }

  lemma ValidatorStopKeepsRecords(s: State)
    requires RecordInv(s)
    ensures RecordInv(Apply(s, ValidatorStop))
  {
    GlobRemoves(s.dir);
    RemovalKeepsRecords(s, Apply(s, ValidatorStop));
  }

  lemma LogKeepsRecords(s: State, e: Event)
    requires RecordInv(s) && Quiet(e)
    ensures RecordInv(s.Log(e))
  {
    LogKeepsPublisher(s.trace, e);
    RemovalKeepsRecords(s, s.Log(e));
  }

  /** The steps of the driver pod and of the waiting containers. */
  lemma PodStepKeepsRecords(s: State, st: Step)
    requires RecordInv(s) && Enabled(s, st)
    requires st.DriverStop? || st.SpecsChange? || st.StartDaemon? || st.SeeToolkit? || st.StartPlugin?
    ensures RecordInv(Apply(s, st))
  {
    if st.StartDaemon? {
      LogKeepsRecords(s, DaemonStarted(st.p, s.data[s.dir[DriverReady]]));
    } else if st.SeeToolkit? {
      LogKeepsRecords(s, PluginSawToolkit(st.x));
    } else if st.StartPlugin? {
      LogKeepsRecords(s, PluginStarted(st.x));
    } else {
      LogKeepsPublisher(s.trace, ContainerWithdrawn);
      RemovalKeepsRecords(s, Apply(s, st));
    }
  }

  lemma ProbeStepKeepsRecords(s: State, st: Step)
    requires RecordInv(s) && Enabled(s, st) && (st.ProbeTouch? || st.ProbeMove?)
    ensures RecordInv(Apply(s, st))
  {
    var s' := Apply(s, st);
    LogKeepsPublisher(s.trace, if st.ProbeTouch? then ProbePassed(st.pod) else ContainerPublished);
    forall p ensures s'.Driver(p) == s.Driver(p) {
    }
    LeavingKeepsRecords(s, s');
  }

  lemma ToolkitSeesKeepsRecords(s: State, t: nat, e: Event, pc: ToolkitPc)
    requires RecordInv(s) && Quiet(e)
    ensures RecordInv(s.Log(e).ToolkitTo(t, pc))
  {
    LogKeepsRecords(s, e);
    RemovalKeepsRecords(s.Log(e), s.Log(e).ToolkitTo(t, pc));
  }

  lemma ToolkitStepKeepsRecords(s: State, st: Step)
    requires RecordInv(s) && Enabled(s, st)
    requires st.ToolkitDelete? || st.SeeDriver? || st.SeeSpec? || st.ToolkitRemove?
    ensures RecordInv(Apply(s, st))
  {
    var run := s.Toolkit(st.t).run;
    if st.SeeDriver? {
      ToolkitSeesKeepsRecords(s, st.t, ToolkitSawDriver(st.t, run), TSawDriver);
    } else if st.SeeSpec? {
      ToolkitSeesKeepsRecords(s, st.t, ToolkitSawSpec(st.t, run, st.spec), TSawSpec);
    } else {
      LogKeepsPublisher(s.trace, ToolkitWithdrawn);
      RemovalKeepsRecords(s, Apply(s, st));
    }
  }

  lemma ToolkitMoveKeepsRecords(s: State, st: Step)
    requires RecordInv(s) && Enabled(s, st) && (st.ToolkitRetry? || st.ToolkitFail? || st.ToolkitRestart?)
    ensures RecordInv(Apply(s, st))
  {
    RemovalKeepsRecords(s, Apply(s, st));
  }

  lemma ToolkitCreateKeepsRecords(s: State, t: nat, ino: nat)
    requires RecordInv(s) && Enabled(s, ToolkitCreate(t, ino))
    ensures RecordInv(Apply(s, ToolkitCreate(t, ino)))
  {
    var s' := Apply(s, ToolkitCreate(t, ino));
    LogKeepsPublisher(s.trace, ToolkitPublished(t, s.Toolkit(t).run));
    forall p ensures s'.Driver(p) == s.Driver(p) {
    }
    assert forall n :: n in s.dir && n != ToolkitReady ==> s.dir[n] != ino;
    assert LeavesRecords(s, s');
    LeavingKeepsRecords(s, s');
  }

  lemma ValidationStepKeepsRecords(s: State, st: Step)
    requires RecordInv(s) && Enabled(s, st)
    requires st.Delete? || st.HostBad? || st.DriverFail? || st.DriverRestart?
    ensures RecordInv(Apply(s, st))
  {
    RemovalKeepsRecords(s, Apply(s, st));
  }

  lemma MoveKeepsRecords(s: State, p: nat, pc: DriverPc)
    requires RecordInv(s) && !Writes(pc)
    ensures RecordInv(s.To(p, pc))
  {
    RemovalKeepsRecords(s, s.To(p, pc));
  }

  lemma AnswerKeepsRecords(s: State, st: Step)
    requires RecordInv(s) && Enabled(s, st)
    requires st.HostOk? || st.AskManaged? || st.SeeContainer? || st.SmiOk?
    ensures RecordInv(Apply(s, st))
  {
    var (p, run) := (st.p, s.Driver(st.p).run);
    var e := if st.HostOk? then HostPassed(p, run) else if st.SmiOk? then SmiPassed(p, run)
             else if st.AskManaged? then ManagedAnswer(p, run, st.managed) else ContainerSeen(p, run);
    LogKeepsRecords(s, e);
    if st.HostOk? || st.SmiOk? {
      var f := DriverValidated(p, run, st.HostOk?);
      LogKeepsRecords(s.Log(e), f);
      MoveKeepsRecords(s.Log(e).Log(f), p, Validated(st.HostOk?));
    } else {
      MoveKeepsRecords(s.Log(e), p, if st.AskManaged? && st.managed then AwaitContainer else Probing);
    }
  }

  // ---------- steps on temporary files ----------

  /** One validation moves: it is still the writer it was, or none, or a new one
      that meets nobody. */
  lemma MoveKeepsWritersApart(s: State, s': State, p: nat)
    requires WritersApart(s)
    requires forall q :: q != p ==> s'.Driver(q) == s.Driver(q)
    requires var (was, now) := (s.Driver(p).pc, s'.Driver(p).pc);
             Writes(now) ==>
               || (Writes(was) && was.temp == now.temp && was.ino == now.ino)
               || (forall q :: q != p && Writes(s.Driver(q).pc) ==>
                     s.Driver(q).pc.temp != now.temp && s.Driver(q).pc.ino != now.ino)
    ensures WritersApart(s')
  {
    forall q, o | q != o && Writes(s'.Driver(q).pc) && Writes(s'.Driver(o).pc)
      ensures s'.Driver(q).pc.temp != s'.Driver(o).pc.temp && s'.Driver(q).pc.ino != s'.Driver(o).pc.ino
    {
      if q == p {
        assert s'.Driver(o) == s.Driver(o);
      } else if o == p {
        assert s'.Driver(q) == s.Driver(q);
      } else {
        assert s'.Driver(o) == s.Driver(o) && s'.Driver(q) == s.Driver(q);
      }
    }
  }

  /** Drawing a name replaces no file. */
  lemma DrawReplacesNothing(s: State, p: nat, r: string, ino: nat)
    requires Enabled(s, CreateTemp(p, r, ino))
    ensures var s' := Apply(s, CreateTemp(p, r, ino));
            && (forall n :: n in s.dir ==> n in s'.dir && s'.dir[n] == s.dir[n])
            && (forall i :: i in s.data ==> i in s'.data && s'.data[i] == s.data[i])
  {
  }

  lemma CreateKeepsRecords(s: State, p: nat, r: string, ino: nat)
    requires RecordInv(s) && Enabled(s, CreateTemp(p, r, ino)) && FreeName(s, CreateTemp(p, r, ino))
    ensures RecordInv(Apply(s, CreateTemp(p, r, ino)))
  {
    var s' := s.Put(Temp(r), ino).To(p, Writing(s.Driver(p).pc.host, Temp(r), ino));
    assert s' == Apply(s, CreateTemp(p, r, ino));
    forall q | q != p
      ensures s'.Driver(q) == s.Driver(q) && TempOk(s', s'.Driver(q).pc)
      ensures Writes(s.Driver(q).pc) ==> s.Driver(q).pc.temp != Temp(r) && s.Driver(q).pc.ino != ino
    {
      assert TempOk(s, s.Driver(q).pc);
    }
    assert s'.Driver(p).pc == Writing(s.Driver(p).pc.host, Temp(r), ino);
    MoveKeepsWritersApart(s, s', p);
    assert InodesApart(s');
  }

  lemma WriteSomeKeepsRecords(s: State, p: nat, len: nat)
    requires RecordInv(s) && Enabled(s, WriteSome(p, len))
    ensures RecordInv(Apply(s, WriteSome(p, len)))
  {
    var s' := Apply(s, WriteSome(p, len));
    assert TempOk(s, s.Driver(p).pc);
    forall q ensures s'.Driver(q) == s.Driver(q) && TempOk(s', s'.Driver(q).pc) {
      assert TempOk(s, s.Driver(q).pc);
    }
  }

  lemma WriteAllKeepsRecords(s: State, p: nat)
    requires RecordInv(s) && Enabled(s, WriteAll(p))
    ensures RecordInv(Apply(s, WriteAll(p)))
  {
    var s' := Apply(s, WriteAll(p));
    var mine := s.Driver(p).pc;
    assert TempOk(s, mine);
    var w := Written(mine.host, mine.temp, mine.ino);
    assert s' == s.(data := s.data[mine.ino := Record(mine.host)]).To(p, w);
    forall q | q != p ensures s'.Driver(q) == s.Driver(q) && TempOk(s', s'.Driver(q).pc) {
      assert TempOk(s, s.Driver(q).pc);
    }
    assert s'.Driver(p).pc == w && TempOk(s', w);
    MoveKeepsWritersApart(s, s', p);
  }

  lemma PublishKeepsRecords(s: State, p: nat)
    requires RecordInv(s) && Enabled(s, Publish(p))
    ensures RecordInv(Apply(s, Publish(p)))
  {
    var s' := Apply(s, Publish(p));
    var mine := s.Driver(p).pc;
    assert TempOk(s, mine);
    forall q ensures TempOk(s', s'.Driver(q).pc) {
      assert TempOk(s, s.Driver(q).pc);
    }
    MoveKeepsWritersApart(s, s', p);
    OneMoreEvent(s.trace, DriverPublished(p, s.Driver(p).run, mine.host), DriverFile);
  }

  lemma PublishFailKeepsRecords(s: State, p: nat)
    requires RecordInv(s) && Enabled(s, PublishFail(p))
    ensures RecordInv(Apply(s, PublishFail(p)))
  {
    RemovalKeepsRecords(s, Apply(s, PublishFail(p)));
  }

  lemma RemoveKeepsRecords(s: State, p: nat)
    requires RecordInv(s) && Enabled(s, RemoveTemp(p))
    ensures RecordInv(Apply(s, RemoveTemp(p)))
  {
    RemovalKeepsRecords(s, Apply(s, RemoveTemp(p)));
  }

  lemma StepKeepsRecords(s: State, st: Step)
    requires RecordInv(s) && Enabled(s, st) && FreeName(s, st)
    ensures RecordInv(Apply(s, st))
  {
    if st.CreateTemp? {
      CreateKeepsRecords(s, st.p, st.random, st.ino);
    } else if st.WriteSome? {
      WriteSomeKeepsRecords(s, st.p, st.len);
    } else if st.WriteAll? {
      WriteAllKeepsRecords(s, st.p);
    } else if st.Publish? {
      PublishKeepsRecords(s, st.p);
    } else if st.PublishFail? {
      PublishFailKeepsRecords(s, st.p);
    } else if st.RemoveTemp? {
      RemoveKeepsRecords(s, st.p);
    } else if st.ToolkitCreate? {
      ToolkitCreateKeepsRecords(s, st.t, st.ino);
    } else if st.Delete? || st.HostBad? || st.DriverFail? || st.DriverRestart? {
      ValidationStepKeepsRecords(s, st);
    } else if st.HostOk? || st.AskManaged? || st.SeeContainer? || st.SmiOk? {
      AnswerKeepsRecords(s, st);
    } else if st.ToolkitDelete? || st.SeeDriver? || st.SeeSpec? || st.ToolkitRemove? {
      ToolkitStepKeepsRecords(s, st);
    } else if st.ToolkitRetry? || st.ToolkitFail? || st.ToolkitRestart? {
      ToolkitMoveKeepsRecords(s, st);
    } else if st.ProbeTouch? || st.ProbeMove? {
      ProbeStepKeepsRecords(s, st);
    } else if st.ValidatorStop? {
      ValidatorStopKeepsRecords(s);
    } else {
      PodStepKeepsRecords(s, st);
    }
  }

  // ---------- whole runs ----------

  lemma SamePrefixSameDraw(a: seq<Step>, b: seq<Step>, i: nat)
    requires i < |a| && a <= b
    ensures FreeAt(a, i) <==> FreeAt(b, i)
  {
    assert a[..i] == b[..i];
  }

  lemma StepKeepsDaemons(s: State, st: Step)
    requires RecordInv(s) && DaemonsOk(s.trace) && Enabled(s, st)
    ensures DaemonsOk(Apply(s, st).trace)
  {
    var t, t' := s.trace, Apply(s, st).trace;
    assert t <= t';
    forall i | 0 <= i < |t'| && t'[i].DaemonStarted? ensures LastRecord(t'[..i], t'[i].text) {
      if i < |t| {
        assert t'[..i] == t[..i] && t'[i] == t[i];
      } else {
        assert st.StartDaemon? && i == |t|;
        assert t'[..i] == t;
      }
    }
  }

  /** In every run that draws only free names, driver-ready is absent or holds the
      whole record of its last publisher, and so did the file that every toolkit
      daemon read. */
  lemma {:induction false} RecordIsWhole(steps: seq<Step>)
    requires Play(steps).Some? && FreeNames(steps, 0)
    ensures RecordInv(Play(steps).value) && DaemonsOk(Play(steps).value.trace)
  {
    if steps != [] {
      var init, st := steps[..|steps| - 1], steps[|steps| - 1];
      forall i | 0 <= i < |init| ensures FreeAt(init, i) {
        SamePrefixSameDraw(init, steps, i);
      }
      RecordIsWhole(init);
      var s := Play(init).value;
      assert FreeAt(steps, |init|);
      StepKeepsRecords(s, st);
      StepKeepsDaemons(s, st);
    }
  }

  /** The corollary a reader of the file relies on: its lines are those of the
      validation that published it at `d`, and that validation had succeeded. */
  lemma DriverReadyReadsBack(steps: seq<Step>) returns (d: nat)
    requires Play(steps).Some? && FreeNames(steps, 0) && DriverReady in Play(steps).value.dir
    ensures var s := Play(steps).value;
            && Stands(s.trace, DriverFile, d)
            && s.dir[DriverReady] in s.data
            && Lines(s.data[s.dir[DriverReady]]) == RecordLines(GetDriverInfo(s.trace[d].host))
            && DriverValidated(s.trace[d].p, s.trace[d].run, s.trace[d].host) in s.trace[..d]
  {
    RecordIsWhole(steps);
    ReachableInv(steps);
    var s := Play(steps).value;
    assert RecordOk(s) && TraceOk(s.trace);
    d := WholeRecord(s);
  }

  lemma WholeRecord(s: State) returns (d: nat)
    requires RecordOk(s) && TraceOk(s.trace) && DriverReady in s.dir
    ensures Stands(s.trace, DriverFile, d)
    ensures Lines(s.data[s.dir[DriverReady]]) == RecordLines(GetDriverInfo(s.trace[d].host))
    ensures DriverValidated(s.trace[d].p, s.trace[d].run, s.trace[d].host) in s.trace[..d]
  {
    d := Publisher(s.trace, DriverFile).value;
    PublisherStands(s.trace, DriverFile, d);
    RecordReadsBack(s.trace[d].host);
    assert Justified(s.trace[..d], s.trace[d]);
  }

  // ---------- a name that is not free ----------

  lemma Extend(steps: seq<Step>, s: State, st: Step) returns (steps': seq<Step>, s': State)
    requires Play(steps) == Some(s) && Enabled(s, st)
    ensures steps' == steps + [st] && s' == Apply(s, st) && Play(steps') == Some(s')
  {
    steps', s' := steps + [st], Apply(s, st);
    assert steps'[..|steps'| - 1] == steps;
  }

  /** A first run of validation `p` up to its decision. */
  lemma ValidateOnHost(steps: seq<Step>, s: State, p: nat) returns (steps': seq<Step>, s': State)
    requires Play(steps) == Some(s) && p !in s.drivers
    ensures Play(steps') == Some(s')
    ensures s'.dir == s.dir - {DriverReady} && s'.data == s.data
    ensures s'.drivers == s.drivers[p := Process(0, Validated(true))] && s'.toolkits == s.toolkits
  {
    steps', s' := Extend(steps, s, Delete(p));
    steps', s' := Extend(steps', s', HostOk(p));
  }

  /** ... up to an empty temporary file ... */
  lemma ValidateAndCreate(steps: seq<Step>, s: State, p: nat, r: string, ino: nat) returns (steps': seq<Step>, s': State)
    requires Play(steps) == Some(s) && p !in s.drivers && Temp(r) !in s.dir && ino !in s.data
    ensures Play(steps') == Some(s')
    ensures s'.dir == (s.dir - {DriverReady})[Temp(r) := ino] && s'.data == s.data[ino := ""]
    ensures s'.drivers == s.drivers[p := Process(0, Writing(true, Temp(r), ino))] && s'.toolkits == s.toolkits
  {
    steps', s' := ValidateOnHost(steps, s, p);
    steps', s' := Extend(steps', s', CreateTemp(p, r, ino));
  }

  /** ... and up to a written one. */
  lemma ValidateAndWrite(steps: seq<Step>, s: State, p: nat, r: string, ino: nat) returns (steps': seq<Step>, s': State)
    requires Play(steps) == Some(s) && p !in s.drivers && Temp(r) !in s.dir && ino !in s.data
    ensures Play(steps') == Some(s')
    ensures s'.dir == (s.dir - {DriverReady})[Temp(r) := ino] && s'.data == s.data[ino := Record(true)]
    ensures s'.drivers == s.drivers[p := Process(0, Written(true, Temp(r), ino))] && s'.toolkits == s.toolkits
  {
    steps', s' := ValidateAndCreate(steps, s, p, r, ino);
    steps', s' := FinishFile(steps', s', p, Temp(r), ino);
  }

  lemma FinishFile(steps: seq<Step>, s: State, p: nat, temp: Name, ino: nat) returns (steps': seq<Step>, s': State)
    requires Play(steps) == Some(s) && p in s.drivers && s.drivers[p] == Process(0, Writing(true, temp, ino))
    ensures Play(steps') == Some(s') && s'.dir == s.dir && s'.data == s.data[ino := Record(true)]
    ensures s'.drivers == s.drivers[p := Process(0, Written(true, temp, ino))] && s'.toolkits == s.toolkits
  {
    steps', s' := Extend(steps, s, WriteAll(p));
  }

  /** Validation 1 has published. */
  lemma FirstPublished() returns (steps: seq<Step>, s: State)
    ensures Play(steps) == Some(s)
    ensures s.dir == map[DriverReady := 1] && s.data == map[1 := Record(true)]
    ensures s.drivers == map[1 := Process(0, Cleaning(Temp("7"), true))] && s.toolkits == map[]
  {
    assert Play([]) == Some(INIT);
    steps, s := ValidateAndWrite([], INIT, 1, "7", 1);
    steps, s := Extend(steps, s, Publish(1));
  }

  /** Validations 1 and 2 have drawn the same name; 1 is done with it, 2 is about
      to publish. */
  lemma NameDrawnTwice() returns (steps: seq<Step>, s: State)
    ensures Play(steps) == Some(s)
    ensures s.dir == map[Temp("7") := 2] && s.data == map[1 := Record(true), 2 := Record(true)]
    ensures s.drivers == map[1 := Process(0, Cleaning(Temp("7"), true)), 2 := Process(0, Written(true, Temp("7"), 2))]
  {
    steps, s := FirstPublished();
    steps, s := ValidateAndWrite(steps, s, 2, "7", 2);
  }

  /** Drawing the name of a file that validation `q` is writing lets `q` publish
      the drawer's empty file, without any further draw. */
  lemma TakenNameBreaks(steps: seq<Step>, s: State, p: nat, r: string, ino: nat, q: nat) returns (more: seq<Step>)
    requires Play(steps) == Some(s) && RecordInv(s) && Enabled(s, CreateTemp(p, r, ino))
    requires Writes(s.Driver(q).pc) && s.Driver(q).pc.temp == Temp(r)
    ensures var all := steps + [CreateTemp(p, r, ino)] + more;
            Play(all).Some? && !RecordOk(Play(all).value) && forall st :: st in more ==> !st.CreateTemp?
  {
    assert TempOk(s, s.Driver(q).pc) && q != p;
    var all, s' := Extend(steps, s, CreateTemp(p, r, ino));
    assert s'.Driver(q) == s.Driver(q) && s.Driver(q).pc.ino != ino;
    if s.Driver(q).pc.Writing? {
      var all', s'' := FinishWriting(all, s', q, ino);
      var last := PublishEmpty(all', s'', q, ino);
      more := [WriteAll(q)] + last;
      assert steps + [CreateTemp(p, r, ino)] + more == all' + last;
    } else {
      more := PublishEmpty(all, s', q, ino);
    }
  }

  /** `q` finishes its own file; the one under its name stays empty. */
  lemma FinishWriting(steps: seq<Step>, s: State, q: nat, ino: nat) returns (steps': seq<Step>, s': State)
    requires Play(steps) == Some(s) && s.Driver(q).pc.Writing? && s.Driver(q).pc.ino != ino
    requires EmptyUnder(s, s.Driver(q).pc.temp, ino)
    ensures steps' == steps + [WriteAll(q)] && Play(steps') == Some(s')
    ensures s'.Driver(q).pc.Written? && EmptyUnder(s', s'.Driver(q).pc.temp, ino)
  {
    steps', s' := Extend(steps, s, WriteAll(q));
  }

  ghost predicate EmptyUnder(s: State, n: Name, ino: nat) {
    n in s.dir && s.dir[n] == ino && ino in s.data && s.data[ino] == ""
  }

  lemma PublishEmpty(steps: seq<Step>, s: State, q: nat, ino: nat) returns (more: seq<Step>)
    requires Play(steps) == Some(s) && s.Driver(q).pc.Written? && EmptyUnder(s, s.Driver(q).pc.temp, ino)
    ensures more == [Publish(q)] && Play(steps + more).Some? && !RecordOk(Play(steps + more).value)
  {
    more := [Publish(q)];
    var all, s' := Extend(steps, s, Publish(q));
    assert s'.dir[DriverReady] == ino && s'.data[ino] == "";
    assert |Record(true)| > 0 && |Record(false)| > 0;
  }

  ghost predicate KeepsRecord(steps: seq<Step>, draw: Step) {
    forall more :: Play(steps + [draw] + more).Some? && FreeNames(steps + [draw] + more, |steps| + 1) ==>
                     RecordOk(Play(steps + [draw] + more).value)
  }

  lemma FreeAtDraw(all: seq<Step>, i: nat)
    requires i < |all| && Play(all[..i]).Some? && FreeName(Play(all[..i]).value, all[i])
    ensures FreeAt(all, i)
  {
  }

  lemma FreeAfterDraw(steps: seq<Step>, draw: Step, more: seq<Step>, i: nat)
    requires Play(steps).Some? && FreeNames(steps, 0) && FreeName(Play(steps).value, draw)
    requires FreeNames(steps + [draw] + more, |steps| + 1) && i < |steps + [draw] + more|
    ensures FreeAt(steps + [draw] + more, i)
  {
    if i < |steps| {
      assert FreeAt(steps, i);
      SamePrefixSameDraw(steps, steps + [draw] + more, i);
    } else if i == |steps| {
      assert (steps + [draw] + more)[..i] == steps;
      FreeAtDraw(steps + [draw] + more, i);
    }
  }

  /** The exact boundary: after a run that drew only free names, a draw leaves
      driver-ready whole in every later run that draws only free names if and only
      if its own name is free. */
  lemma DrawSafeIff(steps: seq<Step>, p: nat, r: string, ino: nat)
    requires Play(steps).Some? && FreeNames(steps, 0) && Enabled(Play(steps).value, CreateTemp(p, r, ino))
    ensures KeepsRecord(steps, CreateTemp(p, r, ino)) <==> FreeName(Play(steps).value, CreateTemp(p, r, ino))
  {
    var (draw, s) := (CreateTemp(p, r, ino), Play(steps).value);
    if FreeName(s, draw) {
      forall more | Play(steps + [draw] + more).Some? && FreeNames(steps + [draw] + more, |steps| + 1)
        ensures RecordOk(Play(steps + [draw] + more).value)
      {
        var all := steps + [draw] + more;
        forall i | 0 <= i < |all| ensures FreeAt(all, i) {
          FreeAfterDraw(steps, draw, more, i);
        }
        RecordIsWhole(all);
      }
    } else {
      var q :| Writes(s.Driver(q).pc) && s.Driver(q).pc.temp == Temp(r);
      RecordIsWhole(steps);
      var more := TakenNameBreaks(steps, s, p, r, ino, q);
      NoDrawsAreFree(steps, draw, more);
      assert !RecordOk(Play(steps + [draw] + more).value);
    }
  }

  lemma NoDrawsAreFree(steps: seq<Step>, draw: Step, more: seq<Step>)
    requires forall st :: st in more ==> !st.CreateTemp?
    ensures FreeNames(steps + [draw] + more, |steps| + 1)
  {
    var all := steps + [draw] + more;
    forall i | |steps| + 1 <= i < |all| ensures !all[i].CreateTemp? {
      assert all[i] == more[i - |steps| - 1];
    }
  }

  /** Such a draw does happen: one validation's deferred removal deletes the file
      of a second one that drew the same name; a third draws it again, and the
      second then publishes the third's empty file. */
  lemma ReusedNameBreaksRecord() returns (steps: seq<Step>)
    ensures Play(steps).Some? && DriverReady in Play(steps).value.dir
    ensures !RecordOk(Play(steps).value)
  {
    var s: State;
    steps, s := NameDrawnTwice();
    steps, s := Extend(steps, s, RemoveTemp(1));
    steps, s := ValidateAndCreate(steps, s, 3, "7", 3);
    steps, s := Extend(steps, s, Publish(2));
    assert s.dir[DriverReady] == 3 && s.data[3] == "";
    assert |Record(true)| > 0 && |Record(false)| > 0;
  }

  // ---------- the protocol can complete ----------

  /** Validation 1 is done and its pod's toolkit validation has begun. */
  lemma ToolkitBegins() returns (steps: seq<Step>, s: State)
    ensures Play(steps) == Some(s) && s.toolkits == map[1 := Process(0, TCleared)]
    ensures s.dir == map[DriverReady := 1] && s.data == map[1 := Record(true)]
  {
    steps, s := FirstPublished();
    steps, s := Extend(steps, s, RemoveTemp(1));
    steps, s := Extend(steps, s, ToolkitDelete(1));
  }

  lemma ToolkitSees() returns (steps: seq<Step>, s: State)
    ensures Play(steps) == Some(s) && s.toolkits == map[1 := Process(0, TSawDriver)]
    ensures s.dir == map[DriverReady := 1] && s.data == map[1 := Record(true)] && s.specs == map["rbln" := 1]
  {
    steps, s := ToolkitBegins();
    steps, s := Extend(steps, s, SpecsChange(map["rbln" := 1]));
    steps, s := Extend(steps, s, SeeDriver(1));
  }

  lemma ToolkitSeesSpec() returns (steps: seq<Step>, s: State)
    ensures Play(steps) == Some(s) && s.toolkits == map[1 := Process(0, TSawSpec)]
    ensures s.dir == map[DriverReady := 1] && s.data == map[1 := Record(true)]
  {
    steps, s := ToolkitSees();
    steps, s := Extend(steps, s, SeeSpec(1, "rbln"));
  }

  lemma ToolkitClears() returns (steps: seq<Step>, s: State)
    ensures Play(steps) == Some(s) && s.toolkits == map[1 := Process(0, TRemoved)]
    ensures s.dir == map[DriverReady := 1] && s.data == map[1 := Record(true)]
  {
    steps, s := ToolkitSeesSpec();
    steps, s := Extend(steps, s, ToolkitRemove(1));
  }

  lemma ToolkitPublishes() returns (steps: seq<Step>, s: State)
    ensures Play(steps) == Some(s) && ToolkitReady in s.dir
  {
    steps, s := ToolkitClears();
    steps, s := Extend(steps, s, ToolkitCreate(1, 2));
  }

  lemma PluginSees() returns (steps: seq<Step>, s: State)
    ensures Play(steps) == Some(s) && PluginSawToolkit(9) in s.trace
  {
    steps, s := ToolkitPublishes();
    steps, s := Extend(steps, s, SeeToolkit(9));
    assert s.trace[|s.trace| - 1] == PluginSawToolkit(9);
  }

  /** The chain is not only necessary: a run reaches a started plugin. */
  lemma PluginCanStart() returns (steps: seq<Step>)
    ensures Play(steps).Some? && PluginStarted(9) in Play(steps).value.trace
  {
    var s: State;
    steps, s := PluginSees();
    steps, s := Extend(steps, s, StartPlugin(9));
    assert s.trace[|s.trace| - 1] == PluginStarted(9);
  }

  /** Nor does the chain promise more: the validator's preStop hook can come
      between the wait and the start. */
  lemma PluginCanStartLate() returns (steps: seq<Step>)
    ensures Play(steps).Some? && ToolkitReady !in Play(steps).value.dir
    ensures PluginStarted(9) in Play(steps).value.trace
  {
    var s: State;
    steps, s := PluginSees();
    steps, s := Withdraw(steps, s);
    steps, s := Extend(steps, s, StartPlugin(9));
    assert s.trace[|s.trace| - 1] == PluginStarted(9);
  }

  lemma Withdraw(steps: seq<Step>, s: State) returns (steps': seq<Step>, s': State)
    requires Play(steps) == Some(s)
    ensures Play(steps') == Some(s') && ToolkitReady !in s'.dir
    ensures forall e :: e in s.trace ==> e in s'.trace
  {
    GlobRemoves(s.dir);
    steps', s' := Extend(steps, s, ValidatorStop);
    assert s.trace <= s'.trace;
  }

  // ---------- the other ways to validate ----------

  /** Validation 3 has found no host driver and the answer whether the operator
      manages one. */
  lemma AskedAfterProbe(managed: bool) returns (steps: seq<Step>, s: State)
    ensures Play(steps) == Some(s) && CtrReady in s.dir
    ensures s.drivers == map[3 := Process(0, if managed then AwaitContainer else Probing)]
  {
    steps, s := NoHostAfterProbe();
    steps, s := Extend(steps, s, AskManaged(3, managed));
  }

  lemma NoHostAfterProbe() returns (steps: seq<Step>, s: State)
    ensures Play(steps) == Some(s) && CtrReady in s.dir && s.drivers == map[3 := Process(0, NoHostDriver)]
  {
    steps, s := ProbedContainer();
    steps, s := Extend(steps, s, Delete(3));
    steps, s := Extend(steps, s, HostBad(3));
  }

  lemma ProbedContainer() returns (steps: seq<Step>, s: State)
    ensures Play(steps) == Some(s) && s.dir == map[CtrReady := 1] && s.drivers == map[]
  {
    assert Play([]) == Some(INIT);
    steps, s := Extend([], INIT, ProbeTouch(8, 1));
    steps, s := Extend(steps, s, ProbeMove);
  }

  /** A driver container's validation can succeed too, managed or not. */
  lemma ContainerCanValidate(managed: bool) returns (steps: seq<Step>)
    ensures Play(steps).Some? && DriverValidated(3, 0, false) in Play(steps).value.trace
  {
    var s: State;
    steps, s := AskedAfterProbe(managed);
    if managed {
      steps, s := SeeIt(steps, s);
    }
    steps, s := Extend(steps, s, SmiOk(3));
    assert s.trace[|s.trace| - 1] == DriverValidated(3, 0, false);
  }

  lemma SeeIt(steps: seq<Step>, s: State) returns (steps': seq<Step>, s': State)
    requires Play(steps) == Some(s) && CtrReady in s.dir && s.drivers == map[3 := Process(0, AwaitContainer)]
    ensures Play(steps') == Some(s') && s'.drivers == map[3 := Process(0, Probing)]
  {
    steps', s' := Extend(steps, s, SeeContainer(3));
  }
}
