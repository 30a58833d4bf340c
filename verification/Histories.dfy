/** Properties of what the service does to the outside over whole runs: how often a job is
    submitted for a container, and which runtime serves a container's requests. */
module Histories {
  import opened GoStrings
  import opened Records
  import opened Persistence
  import opened RemoteRuntimes
  import opened SlurmText
  import opened Slurm
  import opened Lifecycle
  import opened Requests
  import opened Runs

  // ---- submissions ----

  function Count(h: seq<Mark>, m: Mark): nat {
    if h == [] then 0 else (if h[0] == m then 1 else 0) + Count(h[1..], m)
  }

  lemma {:induction false} CountAppend(a: seq<Mark>, b: seq<Mark>, m: Mark)
    ensures Count(a + b, m) == Count(a, m) + Count(b, m)
  {
    if a == [] {
      assert a + b == b;
    } else {
      assert (a + b)[1..] == a[1..] + b;
      CountAppend(a[1..], b, m);
    }
  }

  lemma {:induction false} CountNone(h: seq<Mark>, m: Mark)
    requires m !in h
    ensures Count(h, m) == 0
  {
    if h != [] {
      CountNone(h[1..], m);
    }
  }

  /** Submissions a container may still see before it is found queued again. */
  function Slack(w: World, id: string): nat {
    if id !in w.containers || w.containers[id].state == CREATED then 1 else 0
  }

  /** Submissions of a history not accounted for by re-queueing or by a crash. */
  function Excess(h: seq<Mark>, id: string): int {
    Count(h, Submitted(id)) - Count(h, Requeued(id)) - Count(h, Lost(id))
  }

  predicate Silent(h: seq<Mark>, id: string) {
    Submitted(id) !in h && Requeued(id) !in h && Lost(id) !in h
  }

  lemma SilentExcess(h: seq<Mark>, id: string)
    requires Silent(h, id)
    ensures Excess(h, id) == 0
  {
    CountNone(h, Submitted(id));
    CountNone(h, Requeued(id));
    CountNone(h, Lost(id));
  }

  /** A request with at most one write leaves the containers as before it or as after it. */
  lemma OneWriteEvent(cfg: Config, w: World, e: Event)
    requires Inv(cfg, w) && Possible(cfg, w, e) && |Exec(cfg, w, e.r).writes| <= 1 && (e.Handled? || e.k > 0)
    ensures Next(cfg, w, e).containers == Exec(cfg, w, e.r).world.containers
  {
    RequestKeeps(cfg, w, e.r);
    var o := Exec(cfg, w, e.r);
    if e.CutOff? {
      assert o.writes[..e.k] == o.writes;
      FilesReplayed(cfg, w, e.r);
    }
  }

  lemma CutAtOnce(cfg: Config, w: World, e: Event)
    requires Inv(cfg, w) && Possible(cfg, w, e) && e.CutOff? && e.k == 0
    ensures Next(cfg, w, e).containers == w.containers
  {
    assert Exec(cfg, w, e.r).writes[..0] == [];
  }

  /** Calls of which nothing is recorded leave no submission unaccounted for. */
  lemma {:induction false} UnrecordedExcess(h: seq<Mark>, id: string)
    requires Lost(id) !in h
    ensures Excess(Unrecorded(h), id) == 0
  {
    if h == [] {
      SilentExcess([], id);
    } else {
      var rest := Unrecorded(h[1..]);
      var first := Unrecorded(h)[..|Unrecorded(h)| - |rest|];
      assert Unrecorded(h) == first + rest;
      ExcessAppend(first, rest, id);
      UnrecordedExcess(h[1..], id);
      UnrecordedOne(h[0], id);
      assert first == Unrecorded([h[0]]) by {
        UnrecordedCons(h);
      }
    }
  }

  lemma UnrecordedCons(h: seq<Mark>)
    requires h != []
    ensures Unrecorded(h) == Unrecorded([h[0]]) + Unrecorded(h[1..])
  {
    assert [h[0]][1..] == [] && Unrecorded([]) == [];
  }

  lemma UnrecordedOne(m: Mark, id: string)
    requires m != Lost(id)
    ensures Excess(Unrecorded([m]), id) == 0
  {
    assert [m][1..] == [] && Unrecorded([]) == [];
    match m
    case Sent(op, i, target) =>
      SilentExcess(Unrecorded([m]), id);
    case Submitted(i) =>
      assert Unrecorded([m]) == [Submitted(i)] + [Lost(i)];
      ExcessAppend([Submitted(i)], [Lost(i)], id);
      SingleExcess(Submitted(i), id);
      SingleExcess(Lost(i), id);
    case Requeued(_) => SilentExcess([], id);
    case _ => SilentExcess(Unrecorded([m]), id);
  }

  /** What stays of them was among the calls, and is no run or creation. */
  lemma {:induction false} UnrecordedSent(h: seq<Mark>, m: Mark)
    requires m in Unrecorded(h) && m.Sent?
    ensures m in h && m.op != RunOp && m.op != CreateOp
  {
    if h != [] && m in Unrecorded(h[1..]) {
      UnrecordedSent(h[1..], m);
    }
  }

  /** Whether a start request gets as far as submitting a job. */
  predicate Submits(cfg: Config, w: World, r: Request, id: string) {
    && r.Start? && r.id == id && id in w.containers && w.containers[id].state == CREATED
    && !Dispatch(cfg.remotes, w.containers[id].pod.handler, r.remote).Answered?
    && Submit(w.containers[id], r.run).submitted
  }

  /** Whether a status request finds a running container queued. */
  predicate Requeues(cfg: Config, w: World, r: Request, id: string) {
    && r.Status? && r.id == id && id in w.containers && w.containers[id].state == RUNNING
    && GetRemoteRuntime(cfg.remotes, w.containers[id].pod.handler) == Local
    && Observed(w.containers[id], r.answer).state == CREATED
  }

  lemma StartMarks(cfg: Config, w: World, r: Request, id: string)
    requires Inv(cfg, w) && r.Start?
    ensures Excess(Exec(cfg, w, r).marks, id) == if Submits(cfg, w, r, id) then 1 else 0
    ensures Submitted(id) in Exec(cfg, w, r).marks <==> Submits(cfg, w, r, id)
    ensures |Exec(cfg, w, r).writes| <= 1 && Lost(id) !in Exec(cfg, w, r).marks
    ensures Submits(cfg, w, r, id) ==> Exec(cfg, w, r).writes != [] || Exec(cfg, w, r).reply == Crashed
  {
    if r.id in w.containers {
      assert w.containers[r.id].id == r.id;
      StartKnownMarks(cfg, w, w.containers[r.id], r.remote, r.run, r.now, id);
    }
  }

  predicate SubmitsKnown(cfg: Config, c: Container, remote: Answer, run: SbatchRun) {
    c.state == CREATED && !Dispatch(cfg.remotes, c.pod.handler, remote).Answered? && Submit(c, run).submitted
  }

  lemma StartMarksAre(cfg: Config, w: World, c: Container, remote: Answer, run: SbatchRun, now: int)
    ensures var o := StartKnown(cfg, w, c, remote, run, now);
            var sent, reached := SentTo(cfg.remotes, StartOp, c.id, c.pod.handler), [Sent(StartOp, c.id, Local)];
            if SubmitsKnown(cfg, c, remote, run) then o.marks == sent + (reached + [Submitted(c.id)])
            else o.marks == sent || o.marks == sent + reached
    ensures var o := StartKnown(cfg, w, c, remote, run, now);
            |o.writes| <= 1 && (SubmitsKnown(cfg, c, remote, run) ==> o.writes != [] || o.reply == Crashed)
  {
    var reached := [Sent(StartOp, c.id, Local)];
    assert reached + [] == reached;
  }

  lemma StartKnownMarks(cfg: Config, w: World, c: Container, remote: Answer, run: SbatchRun, now: int, id: string)
    ensures var o, submits := StartKnown(cfg, w, c, remote, run, now), c.id == id && SubmitsKnown(cfg, c, remote, run);
            && Excess(o.marks, id) == (if submits then 1 else 0)
            && (Submitted(id) in o.marks <==> submits)
            && |o.writes| <= 1 && Lost(id) !in o.marks
            && (submits ==> o.writes != [] || o.reply == Crashed)
  {
    var sent, reached := SentTo(cfg.remotes, StartOp, c.id, c.pod.handler), [Sent(StartOp, c.id, Local)];
    StartMarksAre(cfg, w, c, remote, run, now);
    SilentExcess(sent, id);
    SilentExcess(reached, id);
    SingleExcess(Submitted(c.id), id);
    ExcessAppend(reached, [Submitted(c.id)], id);
    ExcessAppend(sent, reached + [Submitted(c.id)], id);
    ExcessAppend(sent, reached, id);
  }

  lemma ExcessAppend(a: seq<Mark>, b: seq<Mark>, id: string)
    ensures Excess(a + b, id) == Excess(a, id) + Excess(b, id)
  {
    CountAppend(a, b, Submitted(id));
    CountAppend(a, b, Requeued(id));
    CountAppend(a, b, Lost(id));
  }

  lemma SingleExcess(m: Mark, id: string)
    ensures Excess([m], id) == if m == Submitted(id) then 1 else if m == Requeued(id) || m == Lost(id) then -1 else 0
  {
    CountSingle(m, Submitted(id));
    CountSingle(m, Requeued(id));
    CountSingle(m, Lost(id));
  }

  lemma CountSingle(m: Mark, n: Mark)
    ensures Count([m], n) == if m == n then 1 else 0
  {
    assert [m][1..] == [];
  }

  lemma StatusMarks(cfg: Config, w: World, r: Request, id: string)
    requires Inv(cfg, w) && r.Status?
    ensures Excess(Exec(cfg, w, r).marks, id) == if Requeues(cfg, w, r, id) then -1 else 0
    ensures |Exec(cfg, w, r).writes| <= 1 && Lost(id) !in Exec(cfg, w, r).marks
  {
    SilentExcess([], id);
    if r.id in w.containers {
      assert w.containers[r.id].id == r.id;
      StatusKnownExcess(cfg, w, w.containers[r.id], r.remote, r.answer, id);
    }
  }

  predicate RequeuesKnown(cfg: Config, c: Container, answer: StatusAnswer) {
    c.state == RUNNING && GetRemoteRuntime(cfg.remotes, c.pod.handler) == Local && Observed(c, answer).state == CREATED
  }

  lemma StatusMarksAre(cfg: Config, w: World, c: Container, remote: Answer, answer: StatusAnswer)
    ensures var o := StatusKnown(cfg, w, c, remote, answer);
            var sent, asked := SentTo(cfg.remotes, StatusOp, c.id, c.pod.handler), [Sent(StatusOp, c.id, Local)];
            && |o.writes| <= 1
            && if RequeuesKnown(cfg, c, answer) then o.marks == sent + (asked + [Requeued(c.id)])
               else o.marks == sent || o.marks == sent + asked
  {
    var asked := [Sent(StatusOp, c.id, Local)];
    assert asked + [] == asked;
  }

  lemma StatusKnownExcess(cfg: Config, w: World, c: Container, remote: Answer, answer: StatusAnswer, id: string)
    ensures var o := StatusKnown(cfg, w, c, remote, answer);
            && Excess(o.marks, id) == (if c.id == id && RequeuesKnown(cfg, c, answer) then -1 else 0)
            && |o.writes| <= 1 && Lost(id) !in o.marks
  {
    var sent, asked := SentTo(cfg.remotes, StatusOp, c.id, c.pod.handler), [Sent(StatusOp, c.id, Local)];
    StatusMarksAre(cfg, w, c, remote, answer);
    SilentExcess(sent, id);
    SilentExcess(asked, id);
    SingleExcess(Requeued(c.id), id);
    ExcessAppend(asked, [Requeued(c.id)], id);
    ExcessAppend(sent, asked + [Requeued(c.id)], id);
    ExcessAppend(sent, asked, id);
  }

  lemma OtherMarks(cfg: Config, w: World, r: Request, id: string)
    requires !r.Start? && !r.Status?
    ensures Silent(Exec(cfg, w, r).marks, id)
  {
    if r.Stop? {
      if r.id in w.containers {
        StopKnownMarks(cfg, w, w.containers[r.id], r.remote, r.scancel, r.now);
      }
    } else if r.Remove? {
      if r.id in w.containers {
        RemoveKnownMarks(cfg, w, w.containers[r.id], r.remote, r.reopen);
      }
    } else if r.Create? {
      CreateMarksCreate(cfg, w, r);
    } else {
      PodAndImageMarks(cfg, w, r, id);
    }
  }

  lemma PodAndImageMarks(cfg: Config, w: World, r: Request, id: string)
    requires r.RunPod? || r.StopPod? || r.RemovePod? || r.PodStatus? || r.Pull? || r.DropImage? || r.ListAll?
    ensures Silent(Exec(cfg, w, r).marks, id)
  {
  }

  /** Each event's unaccounted submissions are paid for by the slack it uses up. */
  lemma EventExcess(cfg: Config, w: World, e: Event, id: string)
    requires Inv(cfg, w) && Possible(cfg, w, e)
    ensures Excess(MarksOf(cfg, w, e), id) + Slack(Next(cfg, w, e), id) <= Slack(w, id)
  {
    if e.r.Start? {
      StartMarks(cfg, w, e.r, id);
    } else if e.r.Status? {
      StatusMarks(cfg, w, e.r, id);
    } else {
      OtherMarks(cfg, w, e.r, id);
    }
    if e.CutOff? && e.k == 0 {
      UnrecordedExcess(Exec(cfg, w, e.r).marks, id);
      CutAtOnce(cfg, w, e);
    } else {
      RecordedExcess(cfg, w, e, id);
    }
  }

  lemma RecordedExcess(cfg: Config, w: World, e: Event, id: string)
    requires Inv(cfg, w) && Possible(cfg, w, e) && (e.Handled? || e.k > 0)
    ensures Excess(Exec(cfg, w, e.r).marks, id) + Slack(Next(cfg, w, e), id) <= Slack(w, id)
  {
    if id in w.containers {
      RequestEffect(cfg, w, e.r, id);
      EventEvolves(cfg, w, e, id);
    }
    if e.r.Start? {
      StartMarks(cfg, w, e.r, id);
      OneWriteEvent(cfg, w, e);
    } else if e.r.Status? {
      StatusMarks(cfg, w, e.r, id);
      OneWriteEvent(cfg, w, e);
    } else {
      OtherMarks(cfg, w, e.r, id);
      SilentExcess(Exec(cfg, w, e.r).marks, id);
    }
  }

  /** Over every run: the jobs submitted for a container number at most one, plus the times
      a status request moved it from running back to created, plus the submissions whose
      record a crash lost. */
  lemma {:induction false} SubmissionsBounded(cfg: Config, w: World, es: seq<Event>, id: string)
    requires Inv(cfg, w) && Run(cfg, w, es)
    ensures var h := History(cfg, w, es);
            Count(h, Submitted(id)) + Slack(After(cfg, w, es), id)
            <= Slack(w, id) + Count(h, Requeued(id)) + Count(h, Lost(id))
            <= 1 + Count(h, Requeued(id)) + Count(h, Lost(id))
    decreases |es|
  {
    if es != [] {
      var w' := Next(cfg, w, es[0]);
      EventExcess(cfg, w, es[0], id);
      EventKeeps(cfg, w, es[0]);
      SubmissionsBounded(cfg, w', es[1..], id);
      ExcessAppend(MarksOf(cfg, w, es[0]), History(cfg, w', es[1..]), id);
      assert Excess(History(cfg, w, es), id) + Slack(After(cfg, w, es), id) <= Slack(w, id);
    }
  }

  /** With no queued sighting and no crash losing a start, a job is submitted at most once. */
  lemma AtMostOneSubmission(cfg: Config, w: World, es: seq<Event>, id: string)
    requires Inv(cfg, w) && Run(cfg, w, es)
    requires Requeued(id) !in History(cfg, w, es) && Lost(id) !in History(cfg, w, es)
    ensures Count(History(cfg, w, es), Submitted(id)) <= 1
  {
    SubmissionsBounded(cfg, w, es, id);
    CountNone(History(cfg, w, es), Requeued(id));
    CountNone(History(cfg, w, es), Lost(id));
  }

  predicate StartsLocally(cfg: Config, w: World, r: Request) {
    && r.Start? && r.id in w.containers && w.containers[r.id].state == CREATED && w.containers[r.id].credentials
    && GetRemoteRuntime(cfg.remotes, w.containers[r.id].pod.handler) == Local
    && r.run.Numbered? && r.run.ok
  }

  lemma StartStep(cfg: Config, w: World, r: Request)
    requires Inv(cfg, w) && StartsLocally(cfg, w, r)
    ensures var o := Exec(cfg, w, r);
            && o.reply == Done && o.marks == [Sent(StartOp, r.id, Local), Submitted(r.id)]
            && o.world.containers == w.containers[r.id := o.world.containers[r.id]]
            && o.world.containers[r.id] ==
              w.containers[r.id].(pid := r.run.pid, state := RUNNING, startedAt := r.now, reason := StartOk)
  {
  }

  lemma QueuedStep(cfg: Config, w: World, r: Request)
    requires Inv(cfg, w) && r.Status? && r.id in w.containers
    requires var c := w.containers[r.id];
             && c.state == RUNNING && c.credentials && c.pid != 0 &&
               GetRemoteRuntime(cfg.remotes, c.pod.handler) == Local
             && r.answer.Known? && r.answer.status.jobState !in JOB_STATES
    ensures var o := Exec(cfg, w, r);
            && o.reply == Done && Submitted(r.id) !in o.marks
            && r.id in o.world.containers && o.world.containers[r.id] == w.containers[r.id].(state := CREATED)
  {
    OtherStateMeansQueued(w.containers[r.id], r.answer.status);
  }

  lemma RunCons(cfg: Config, w: World, e: Event, es: seq<Event>)
    requires Possible(cfg, w, e) && Run(cfg, Next(cfg, w, e), es)
    ensures Run(cfg, w, [e] + es)
    ensures After(cfg, w, [e] + es) == After(cfg, Next(cfg, w, e), es)
    ensures History(cfg, w, [e] + es) == MarksOf(cfg, w, e) + History(cfg, Next(cfg, w, e), es)
  {
    assert ([e] + es)[0] == e && ([e] + es)[1..] == es;
  }

  lemma RunThree(cfg: Config, w: World, a: Event, b: Event, c: Event)
    requires Possible(cfg, w, a)
    requires Possible(cfg, Next(cfg, w, a), b)
    requires Possible(cfg, Next(cfg, Next(cfg, w, a), b), c)
    ensures Run(cfg, w, [a, b, c])
    ensures var w1 := Next(cfg, w, a);
            var w2 := Next(cfg, w1, b);
            After(cfg, w, [a, b, c]) == Next(cfg, w2, c)
            && History(cfg, w, [a, b, c]) == MarksOf(cfg, w, a) + (MarksOf(cfg, w1, b) + MarksOf(cfg, w2, c))
  {
    var w1 := Next(cfg, w, a);
    var w2 := Next(cfg, w1, b);
    RunCons(cfg, w2, c, []);
    RunCons(cfg, w1, b, [c]);
    RunCons(cfg, w, a, [b, c]);
    assert [c] == [c] + [] && [b, c] == [b] + [c] && [a, b, c] == [a] + [b, c];
    assert MarksOf(cfg, w2, c) + [] == MarksOf(cfg, w2, c);
  }

  /** The bound is met: a job that a status request finds queued can be started again, is
      then submitted a second time, and its first number is forgotten. */
  lemma QueuedJobIsSubmittedTwice(cfg: Config, w: World, first: Request, seen: Request, again: Request)
    requires Inv(cfg, w) && StartsLocally(cfg, w, first) && first.run.pid != 0
    requires seen.Status? && seen.id == first.id && seen.answer.Known? && seen.answer.status.jobState !in JOB_STATES
    requires again.Start? && again.id == first.id && again.run.Numbered? && again.run.ok
    ensures var es := [Handled(first), Handled(seen), Handled(again)];
            && Run(cfg, w, es)
            && Count(History(cfg, w, es), Submitted(first.id)) == 2
            && first.id in After(cfg, w, es).containers && After(cfg, w, es).containers[first.id].pid == again.run.pid
  {
    var id, e1, e2, e3 := first.id, Handled(first), Handled(seen), Handled(again);
    StartStep(cfg, w, first);
    EventKeeps(cfg, w, e1);
    var w1 := Next(cfg, w, e1);
    QueuedStep(cfg, w1, seen);
    EventKeeps(cfg, w1, e2);
    var w2 := Next(cfg, w1, e2);
    StartStep(cfg, w2, again);
    RunThree(cfg, w, e1, e2, e3);
    var marks := [Sent(StartOp, id, Local), Submitted(id)];
    CountAppend(marks, MarksOf(cfg, w1, e2) + marks, Submitted(id));
    CountAppend(MarksOf(cfg, w1, e2), marks, Submitted(id));
    CountNone(MarksOf(cfg, w1, e2), Submitted(id));
    CountTwo(Sent(StartOp, id, Local), Submitted(id));
  }

  lemma CountTwo(a: Mark, b: Mark)
    requires a != b
    ensures Count([a, b], b) == 1
  {
    assert [a, b][1..] == [b];
    CountSingle(b, b);
  }

  // ---- routing ----

  predicate ContainerOp(op: Op) {
    op != RunOp
  }

  /** The runtime a container's pod handler leads to. */
  function Home(cfg: Config, w: World, id: string): Route
    requires id in w.containers
  {
    GetRemoteRuntime(cfg.remotes, w.containers[id].pod.handler)
  }

  /** An error from its remote lets a start reach the adapter. */
  predicate FallsThrough(r: Request) {
    r.Start? && r.remote.Failure?
  }

  /** Container operations in a history went to the home of their container. */
  predicate AtHome(cfg: Config, w: World, h: seq<Mark>) {
    forall m :: m in h && m.Sent? && ContainerOp(m.op) ==> m.id in w.containers && m.target == Home(cfg, w, m.id)
  }

  lemma CreateHereAtHome(cfg: Config, w: World, p: Pod, r: Request)
    requires r.Create? && GetRemoteRuntime(cfg.remotes, p.info.handler) == Local
    ensures var o := CreateHere(w, p, r.name, r.imageRef, r.credentials, r.newId, r.order, r.work, r.now);
            AtHome(cfg, o.world, o.marks)
  {
  }

  lemma CreateAtHome(cfg: Config, w: World, r: Request)
    requires Inv(cfg, w) && FreshIds(w, r) && r.Create?
    ensures AtHome(cfg, Exec(cfg, w, r).world, Exec(cfg, w, r).marks)
  {
    if r.podId in w.pods && GetRemoteRuntime(cfg.remotes, w.pods[r.podId].info.handler) == Local {
      CreateHereAtHome(cfg, w, w.pods[r.podId], r);
    }
  }

  lemma StartAtHome(cfg: Config, w: World, r: Request)
    requires Inv(cfg, w) && r.Start? && !FallsThrough(r)
    ensures AtHome(cfg, w, Exec(cfg, w, r).marks)
  {
    if r.id in w.containers {
      assert GoodContainer(cfg, w.containers[r.id]);
    }
  }

  lemma StopAtHome(cfg: Config, w: World, r: Request)
    requires Inv(cfg, w) && r.Stop?
    ensures AtHome(cfg, w, Exec(cfg, w, r).marks)
  {
    if r.id in w.containers {
      assert GoodContainer(cfg, w.containers[r.id]);
    }
  }

  lemma RemoveAtHome(cfg: Config, w: World, r: Request)
    requires Inv(cfg, w) && r.Remove?
    ensures AtHome(cfg, w, Exec(cfg, w, r).marks)
  {
    if r.id in w.containers {
      assert w.containers[r.id].id == r.id;
      RemoveKnownMarks(cfg, w, w.containers[r.id], r.remote, r.reopen);
    }
  }

  lemma RemoveKnownMarks(cfg: Config, w: World, c: Container, remote: Answer, reopen: CallEnd)
    ensures forall m :: m in RemoveKnown(cfg, w, c, remote, reopen).marks ==>
              m == Sent(RemoveOp, c.id, GetRemoteRuntime(cfg.remotes, c.pod.handler))
  {
  }

  lemma StatusAtHome(cfg: Config, w: World, r: Request)
    requires Inv(cfg, w) && r.Status?
    ensures AtHome(cfg, w, Exec(cfg, w, r).marks)
  {
    if r.id in w.containers {
      assert w.containers[r.id].id == r.id;
      StatusKnownMarks(cfg, w, w.containers[r.id], r.remote, r.answer);
    }
  }

  lemma StatusKnownMarks(cfg: Config, w: World, c: Container, remote: Answer, answer: StatusAnswer)
    ensures forall m :: m in StatusKnown(cfg, w, c, remote, answer).marks && m.Sent? ==>
              m == Sent(StatusOp, c.id, GetRemoteRuntime(cfg.remotes, c.pod.handler))
  {
  }

  lemma OtherAtHome(cfg: Config, w: World, r: Request)
    requires r.RunPod? || r.StopPod? || r.RemovePod? || r.PodStatus? || r.Pull? || r.DropImage? || r.ListAll?
    ensures AtHome(cfg, w, Exec(cfg, w, r).marks)
  {
  }

  predicate CreatesOnly(ws: seq<Write>, id: string, c: Container) {
    ws != [] && ws[0] == PutContainer(id, c) && WritesOnly(ws[1..], id, c)
  }

  lemma CreateWritesFirst(cfg: Config, w: World, r: Request) returns (id: string, c: Container)
    requires r.Create? && Exec(cfg, w, r).writes != []
    ensures var o := Exec(cfg, w, r);
            && CreatesOnly(o.writes, id, c)
            && id in o.world.containers && o.world.containers[id] == c
            && forall m :: m in o.marks ==> m.Sent? && m.id == id
  {
    var o := Exec(cfg, w, r);
    id, c := o.writes[0].id, o.writes[0].container;
  }

  lemma FirstWritePersists(f: Files, ws: seq<Write>, k: nat, id: string, c: Container)
    requires CreatesOnly(ws, id, c) && 0 < k <= |ws|
    ensures id in Replay(f, ws[..k]).containers && Replay(f, ws[..k]).containers[id] == c
  {
    assert ws[..k][1..] == ws[1..][..k - 1];
    PrefixContainer(Apply(f, ws[0]), ws[1..], k - 1, id, c);
  }

  /** A creation cut off after its first write has already saved the container. */
  lemma CutCreateAtHome(cfg: Config, w: World, e: Event)
    requires Inv(cfg, w) && Possible(cfg, w, e) && e.CutOff? && e.r.Create? && e.k > 0
    ensures AtHome(cfg, Next(cfg, w, e), Exec(cfg, w, e.r).marks)
  {
    CreateAtHome(cfg, w, e.r);
    var id, c := CreateWritesFirst(cfg, w, e.r);
    FirstWritePersists(w.files, Exec(cfg, w, e.r).writes, e.k, id, c);
  }

  /** Some start of the container got an error from its remote. */
  predicate FellThrough(es: seq<Event>, id: string) {
    exists i :: 0 <= i < |es| && FallsThrough(es[i].r) && es[i].r.id == id
  }

  /** Container operations in a history went to the home of their container, or are starts
      that fell through to the adapter. */
  predicate Routed(cfg: Config, w: World, h: seq<Mark>, es: seq<Event>) {
    forall m :: m in h && m.Sent? && ContainerOp(m.op) ==>
      m.id in w.containers
      && (m.target == Home(cfg, w, m.id) || (m.target == Local && m.op == StartOp && FellThrough(es, m.id)))
  }

  lemma StartRouted(cfg: Config, w: World, e: Event)
    requires Inv(cfg, w) && e.r.Start?
    ensures Routed(cfg, w, Exec(cfg, w, e.r).marks, [e])
  {
    if FallsThrough(e.r) {
      assert [e][0] == e;
      assert FellThrough([e], e.r.id);
      StartMarkShape(cfg, w, e.r);
    } else {
      StartAtHome(cfg, w, e.r);
    }
  }

  lemma StartMarkShape(cfg: Config, w: World, r: Request)
    requires Inv(cfg, w) && r.Start?
    ensures forall m :: m in Exec(cfg, w, r).marks && m.Sent? ==>
              m.id == r.id && m.op == StartOp && r.id in w.containers &&
                (m.target == Local || m.target == Home(cfg, w, r.id))
  {
    if r.id in w.containers {
      assert GoodContainer(cfg, w.containers[r.id]) && w.containers[r.id].id == r.id;
    }
  }

  /** Containers keep their home. */
  lemma RoutedStays(cfg: Config, w: World, e: Event, h: seq<Mark>, es: seq<Event>)
    requires Inv(cfg, w) && Possible(cfg, w, e) && Routed(cfg, w, h, es)
    ensures Routed(cfg, Next(cfg, w, e), h, es)
  {
    forall id | id in w.containers
      ensures id in Next(cfg, w, e).containers && Home(cfg, Next(cfg, w, e), id) == Home(cfg, w, id)
    {
      EventEvolves(cfg, w, e, id);
      EvolvedKeepsIdentity(cfg, w.containers[id], e.r);
    }
  }

  lemma RoutedUnrecorded(cfg: Config, w: World, h: seq<Mark>, es: seq<Event>)
    requires Routed(cfg, w, h, es)
    ensures Routed(cfg, w, Unrecorded(h), es)
  {
    forall m | m in Unrecorded(h) && m.Sent? && ContainerOp(m.op) ensures m in h {
      UnrecordedSent(h, m);
    }
  }

  /** The calls of any request but a creation, before it takes effect. */
  lemma CallsRouted(cfg: Config, w: World, e: Event)
    requires Inv(cfg, w) && !e.r.Create?
    ensures Routed(cfg, w, Exec(cfg, w, e.r).marks, [e])
  {
    if e.r.Start? {
      StartRouted(cfg, w, e);
    } else if e.r.Stop? {
      StopAtHome(cfg, w, e.r);
    } else if e.r.Remove? {
      RemoveAtHome(cfg, w, e.r);
    } else if e.r.Status? {
      StatusAtHome(cfg, w, e.r);
    } else {
      OtherAtHome(cfg, w, e.r);
    }
  }

  lemma {:induction false} CreationsUnrecorded(h: seq<Mark>)
    requires forall m :: m in h ==> m.Sent? && m.op == CreateOp
    ensures forall m :: m in Unrecorded(h) ==> m.Orphaned?
  {
    if h != [] {
      CreationsUnrecorded(h[1..]);
    }
  }

  lemma CreateMarksCreate(cfg: Config, w: World, r: Request)
    requires r.Create?
    ensures forall m :: m in Exec(cfg, w, r).marks ==> m.Sent? && m.op == CreateOp
  {
  }

  lemma CreateCallsRouted(cfg: Config, w: World, e: Event)
    requires Inv(cfg, w) && Possible(cfg, w, e) && e.r.Create?
    ensures Routed(cfg, Next(cfg, w, e), MarksOf(cfg, w, e), [e])
  {
    if e.Handled? {
      CreateAtHome(cfg, w, e.r);
    } else if e.k > 0 {
      CutCreateAtHome(cfg, w, e);
    } else {
      CreateMarksCreate(cfg, w, e.r);
      CreationsUnrecorded(Exec(cfg, w, e.r).marks);
    }
  }

  lemma EventRouted(cfg: Config, w: World, e: Event)
    requires Inv(cfg, w) && Possible(cfg, w, e)
    ensures Routed(cfg, Next(cfg, w, e), MarksOf(cfg, w, e), [e])
  {
    if e.r.Create? {
      CreateCallsRouted(cfg, w, e);
    } else {
      CallsRouted(cfg, w, e);
      if e.CutOff? && e.k == 0 {
        RoutedUnrecorded(cfg, w, Exec(cfg, w, e.r).marks, [e]);
      }
      RoutedStays(cfg, w, e, MarksOf(cfg, w, e), [e]);
    }
  }

  lemma FellThroughAppend(a: seq<Event>, b: seq<Event>, id: string)
    requires FellThrough(a, id) || FellThrough(b, id)
    ensures FellThrough(a + b, id)
  {
    if FellThrough(a, id) {
      var i :| 0 <= i < |a| && FallsThrough(a[i].r) && a[i].r.id == id;
      assert (a + b)[i] == a[i];
    } else {
      var i :| 0 <= i < |b| && FallsThrough(b[i].r) && b[i].r.id == id;
      assert (a + b)[|a| + i] == b[i];
    }
  }

  lemma RoutedAppend(cfg: Config, w: World, a: seq<Mark>, before: seq<Event>, b: seq<Mark>, es: seq<Event>)
    requires Routed(cfg, w, a, before) && Routed(cfg, w, b, es)
    ensures Routed(cfg, w, a + b, before + es)
  {
    forall m | m in a + b && m.Sent? && ContainerOp(m.op)
      ensures m.id in w.containers
      ensures m.target == Home(cfg, w, m.id) || (m.target == Local && m.op == StartOp && FellThrough(before + es, m.id))
    {
      if m.target != Home(cfg, w, m.id) {
        FellThroughAppend(before, es, m.id);
      }
    }
  }

  lemma RoutedStep(cfg: Config, w: World, e: Event, h: seq<Mark>, before: seq<Event>)
    requires Inv(cfg, w) && Possible(cfg, w, e) && Routed(cfg, w, h, before)
    ensures Routed(cfg, Next(cfg, w, e), h + MarksOf(cfg, w, e), before + [e])
  {
    EventRouted(cfg, w, e);
    RoutedStays(cfg, w, e, h, before);
    RoutedAppend(cfg, Next(cfg, w, e), h, before, MarksOf(cfg, w, e), [e]);
  }

  lemma HistoryStep(cfg: Config, w: World, es: seq<Event>, before: seq<Mark>)
    requires Run(cfg, w, es) && es != []
    ensures before + History(cfg, w, es) == before + MarksOf(cfg, w, es[0]) + History(cfg, Next(cfg, w, es[0]), es[1..])
    ensures After(cfg, w, es) == After(cfg, Next(cfg, w, es[0]), es[1..])
  {
  }

  lemma {:induction false} RunRouted(cfg: Config, w: World, es: seq<Event>, h: seq<Mark>, before: seq<Event>)
    requires Inv(cfg, w) && Run(cfg, w, es) && Routed(cfg, w, h, before)
    ensures Routed(cfg, After(cfg, w, es), h + History(cfg, w, es), before + es)
    decreases |es|
  {
    if es == [] {
      assert h + History(cfg, w, es) == h && before + es == before;
    } else {
      EventKeeps(cfg, w, es[0]);
      RoutedStep(cfg, w, es[0], h, before);
      HistoryStep(cfg, w, es, h);
      RunRouted(cfg, Next(cfg, w, es[0]), es[1..], h + MarksOf(cfg, w, es[0]), before + [es[0]]);
      assert before + [es[0]] + es[1..] == before + es;
    }
  }

  lemma NothingBefore<T>(xs: seq<T>)
    ensures [] + xs == xs
  {
  }

  /** Over every run, crashes included: each request on a container reaches the home of its
      pod's handler, or it is a start of that container whose remote returned an error, and
      reaches the local adapter. */
  lemma CallsGoHomeOrFallThrough(cfg: Config, w: World, es: seq<Event>, m: Mark)
    requires Inv(cfg, w) && Run(cfg, w, es)
    requires m in History(cfg, w, es) && m.Sent? && ContainerOp(m.op)
    ensures var end := After(cfg, w, es);
            && m.id in end.containers
            && (m.target == Home(cfg, end, m.id) || (m.target == Local && m.op == StartOp && FellThrough(es, m.id)))
  {
    RunRouted(cfg, w, es, [], []);
    NothingBefore(History(cfg, w, es));
    NothingBefore(es);
  }

  /** So all requests on a container, its creation included, reach the same runtime in every
      run in which its own starts never get an error from a remote. */
  lemma RoutingIsSticky(cfg: Config, w: World, es: seq<Event>, a: Mark, b: Mark)
    requires Inv(cfg, w) && Run(cfg, w, es)
    requires a in History(cfg, w, es) && b in History(cfg, w, es)
    requires a.Sent? && b.Sent? && ContainerOp(a.op) && ContainerOp(b.op) && a.id == b.id
    requires forall e :: e in es && FallsThrough(e.r) ==> e.r.id != a.id
    ensures a.target == b.target && a.id in After(cfg, w, es).containers
    ensures a.target == Home(cfg, After(cfg, w, es), a.id)
  {
    CallsGoHomeOrFallThrough(cfg, w, es, a);
    CallsGoHomeOrFallThrough(cfg, w, es, b);
  }

  lemma StartReachesAdapter(cfg: Config, w: World, r: Request, id: string, op: Op)
    requires Inv(cfg, w) && id in w.containers && Home(cfg, w, id).Remote? && r.Start?
    ensures Sent(op, id, Local) in Exec(cfg, w, r).marks <==>
            r.remote.Failure? && r.id == id && op == StartOp && w.containers[id].state == CREATED
  {
    if r.id in w.containers {
      assert w.containers[r.id].id == r.id;
      StartKnownReaches(cfg, w, w.containers[r.id], r.remote, r.run, r.now);
    }
  }

  lemma StartKnownReaches(cfg: Config, w: World, c: Container, remote: Answer, run: SbatchRun, now: int)
    ensures forall m :: m in StartKnown(cfg, w, c, remote, run, now).marks && m.Sent? ==>
      m.id == c.id && m.op == StartOp
    ensures GetRemoteRuntime(cfg.remotes, c.pod.handler).Remote? ==>
              (Sent(StartOp, c.id, Local) in StartKnown(cfg, w, c, remote, run, now).marks <==>
                 remote.Failure? && c.state == CREATED)
  {
  }

  /** Exactly the starts of a created remote container whose remote returns an error reach the
      adapter. They always fail there, for want of credentials: no job is submitted, and the
      container is recorded as exited although its remote may be running it. */
  lemma AdapterReachedExactlyWhen(cfg: Config, w: World, r: Request, id: string, op: Op)
    requires Inv(cfg, w) && FreshIds(w, r) && id in w.containers && Home(cfg, w, id).Remote? && ContainerOp(op)
    ensures Sent(op, id, Local) in Exec(cfg, w, r).marks <==>
            FallsThrough(r) && r.id == id && op == StartOp && w.containers[id].state == CREATED
    ensures Sent(op, id, Local) in Exec(cfg, w, r).marks ==>
            var o := Exec(cfg, w, r);
            && o.reply == Failed(NoCredentials) && id in o.world.containers && o.world.containers[id].state == EXITED
  {
    if r.Start? {
      StartReachesAdapter(cfg, w, r, id, op);
      if FallsThrough(r) && r.id == id && w.containers[id].state == CREATED {
        FallenStartExits(cfg, w, r);
      }
    } else {
      assert AtHome(cfg, Exec(cfg, w, r).world, Exec(cfg, w, r).marks) by { OthersAtHome(cfg, w, r); }
      RequestEffect(cfg, w, r, id);
      EvolvedKeepsIdentity(cfg, w.containers[id], r);
    }
  }

  lemma FallenStartExits(cfg: Config, w: World, r: Request)
    requires Inv(cfg, w) && FallsThrough(r) && r.id in w.containers && Home(cfg, w, r.id).Remote?
    requires w.containers[r.id].state == CREATED
    ensures var o := Exec(cfg, w, r);
            && o.reply == Failed(NoCredentials)
            && r.id in o.world.containers && o.world.containers[r.id].state == EXITED
  {
    assert GoodContainer(cfg, w.containers[r.id]);
  }

  lemma OthersAtHome(cfg: Config, w: World, r: Request)
    requires Inv(cfg, w) && FreshIds(w, r) && !r.Start?
    ensures AtHome(cfg, Exec(cfg, w, r).world, Exec(cfg, w, r).marks)
  {
    if r.Create? {
      CreateAtHome(cfg, w, r);
    } else {
      if r.Stop? {
        StopAtHome(cfg, w, r);
      } else if r.Remove? {
        RemoveAtHome(cfg, w, r);
      } else if r.Status? {
        StatusAtHome(cfg, w, r);
      } else {
        OtherAtHome(cfg, w, r);
      }
      StaysAtHome(cfg, w, r);
    }
  }

  lemma StaysAtHome(cfg: Config, w: World, r: Request)
    requires Inv(cfg, w) && FreshIds(w, r) && AtHome(cfg, w, Exec(cfg, w, r).marks)
    ensures AtHome(cfg, Exec(cfg, w, r).world, Exec(cfg, w, r).marks)
  {
    forall id | id in w.containers
      ensures id in Exec(cfg, w, r).world.containers && Home(cfg, Exec(cfg, w, r).world, id) == Home(cfg, w, id)
    {
      RequestEffect(cfg, w, r, id);
      EvolvedKeepsIdentity(cfg, w.containers[id], r);
    }
  }

  // ---- what reaches the cluster ----

  /** The job a mark is about: the container it was submitted or cancelled for. */
  predicate AboutJob(m: Mark, id: string) {
    (m.Submitted? || m.Commanded?) && m.id == id
  }

  /** Jobs in a history are those of known containers that are served locally. */
  predicate JobsAreLocal(cfg: Config, w: World, h: seq<Mark>) {
    forall m :: m in h && (m.Submitted? || m.Commanded?) ==> m.id in w.containers && Home(cfg, w, m.id) == Local
  }

  lemma StartJobs(cfg: Config, w: World, r: Request)
    requires Inv(cfg, w) && r.Start?
    ensures JobsAreLocal(cfg, w, Exec(cfg, w, r).marks)
  {
    if r.id in w.containers {
      var c := w.containers[r.id];
      assert GoodContainer(cfg, c) && c.id == r.id;
      StartMarksAre(cfg, w, c, r.remote, r.run, r.now);
    }
  }

  lemma StopKnownMarks(cfg: Config, w: World, c: Container, remote: Answer, scancel: ScancelAnswer, now: int)
    ensures forall m :: m in StopKnown(cfg, w, c, remote, scancel, now).marks ==>
              m.id == c.id && (m.Sent? || m.Commanded?)
              && (m.Commanded? ==> c.state == RUNNING && CommandOf(c, scancel) == Some(m.command))
  {
  }

  lemma StopJobs(cfg: Config, w: World, r: Request)
    requires Inv(cfg, w) && r.Stop?
    ensures JobsAreLocal(cfg, w, Exec(cfg, w, r).marks)
  {
    if r.id in w.containers {
      assert GoodContainer(cfg, w.containers[r.id]) && w.containers[r.id].id == r.id;
      StopKnownMarks(cfg, w, w.containers[r.id], r.remote, r.scancel, r.now);
    }
  }

  predicate NoJobs(h: seq<Mark>) {
    forall m :: m in h ==> !m.Submitted? && !m.Commanded?
  }

  lemma CreateHasNoJobs(cfg: Config, w: World, r: Request)
    requires r.Create?
    ensures NoJobs(Exec(cfg, w, r).marks)
  {
  }

  lemma RemoveHasNoJobs(cfg: Config, w: World, r: Request)
    requires r.Remove?
    ensures NoJobs(Exec(cfg, w, r).marks)
  {
    if r.id in w.containers {
      RemoveKnownMarks(cfg, w, w.containers[r.id], r.remote, r.reopen);
    }
  }

  lemma StatusHasNoJobs(cfg: Config, w: World, r: Request)
    requires r.Status?
    ensures NoJobs(Exec(cfg, w, r).marks)
  {
  }

  lemma OthersHaveNoJobs(cfg: Config, w: World, r: Request)
    requires r.RunPod? || r.StopPod? || r.RemovePod? || r.PodStatus? || r.Pull? || r.DropImage? || r.ListAll?
    ensures NoJobs(Exec(cfg, w, r).marks)
  {
  }

  lemma RequestJobs(cfg: Config, w: World, r: Request)
    requires Inv(cfg, w)
    ensures JobsAreLocal(cfg, w, Exec(cfg, w, r).marks)
    ensures !r.Start? && !r.Stop? ==> NoJobs(Exec(cfg, w, r).marks)
  {
    if r.Start? {
      StartJobs(cfg, w, r);
    } else if r.Stop? {
      StopJobs(cfg, w, r);
    } else if r.Create? {
      CreateHasNoJobs(cfg, w, r);
    } else if r.Remove? {
      RemoveHasNoJobs(cfg, w, r);
    } else if r.Status? {
      StatusHasNoJobs(cfg, w, r);
    } else {
      OthersHaveNoJobs(cfg, w, r);
    }
  }

  lemma {:induction false} UnrecordedJobs(h: seq<Mark>, m: Mark)
    requires m in Unrecorded(h) && (m.Submitted? || m.Commanded?)
    ensures m in h
  {
    if h != [] && m in Unrecorded(h[1..]) {
      UnrecordedJobs(h[1..], m);
    }
  }

  lemma EventJobs(cfg: Config, w: World, e: Event)
    requires Inv(cfg, w) && Possible(cfg, w, e)
    ensures JobsAreLocal(cfg, w, MarksOf(cfg, w, e)) && JobsAreLocal(cfg, Next(cfg, w, e), MarksOf(cfg, w, e))
  {
    RequestJobs(cfg, w, e.r);
    forall m | m in MarksOf(cfg, w, e) && (m.Submitted? || m.Commanded?) ensures m in Exec(cfg, w, e.r).marks {
      if m !in Exec(cfg, w, e.r).marks {
        UnrecordedJobs(Exec(cfg, w, e.r).marks, m);
      }
    }
    JobsStay(cfg, w, e, MarksOf(cfg, w, e));
  }

  lemma JobsStay(cfg: Config, w: World, e: Event, h: seq<Mark>)
    requires Inv(cfg, w) && Possible(cfg, w, e) && JobsAreLocal(cfg, w, h)
    ensures JobsAreLocal(cfg, Next(cfg, w, e), h)
  {
    forall id | id in w.containers
      ensures id in Next(cfg, w, e).containers && Home(cfg, Next(cfg, w, e), id) == Home(cfg, w, id)
    {
      EventEvolves(cfg, w, e, id);
      EvolvedKeepsIdentity(cfg, w.containers[id], e.r);
    }
  }

  lemma {:induction false} RunJobs(cfg: Config, w: World, es: seq<Event>, h: seq<Mark>)
    requires Inv(cfg, w) && Run(cfg, w, es) && JobsAreLocal(cfg, w, h)
    ensures JobsAreLocal(cfg, After(cfg, w, es), h + History(cfg, w, es))
    decreases |es|
  {
    if es == [] {
      assert h + History(cfg, w, es) == h;
    } else {
      EventKeeps(cfg, w, es[0]);
      EventJobs(cfg, w, es[0]);
      JobsStay(cfg, w, es[0], h);
      HistoryStep(cfg, w, es, h);
      RunJobs(cfg, Next(cfg, w, es[0]), es[1..], h + MarksOf(cfg, w, es[0]));
    }
  }

  /** Over every run no job is ever submitted for a container of a remote, and none cancelled. */
  lemma RemoteContainersHaveNoJobs(cfg: Config, w: World, es: seq<Event>, id: string)
    requires Inv(cfg, w) && Run(cfg, w, es) && id in After(cfg, w, es).containers
    requires Home(cfg, After(cfg, w, es), id) != Local
    ensures forall m :: m in History(cfg, w, es) ==> !AboutJob(m, id)
  {
    RunJobs(cfg, w, es, []);
    assert [] + History(cfg, w, es) == History(cfg, w, es);
  }

  /** A stop of a local container reaches the cluster exactly when the record says that it
      runs; any other stop, as of a job that was found queued, replies without doing anything. */
  lemma StopReachesClusterExactlyWhen(cfg: Config, w: World, r: Request)
    requires Inv(cfg, w) && r.Stop? && r.id in w.containers && Home(cfg, w, r.id) == Local
    ensures var o, c := Exec(cfg, w, r), w.containers[r.id];
            && (Sent(StopOp, r.id, Local) in o.marks <==> c.state == RUNNING)
            && (c.state != RUNNING ==> o == Still(w, Done, []))
            && (forall command :: Commanded(r.id, command) in o.marks <==>
                  c.state == RUNNING && CommandOf(c, r.scancel) == Some(command))
  {
    assert w.containers[r.id].id == r.id;
  }

  // ---- cancel commands over runs ----

  /** The cancel commands of the container in a history all name the given pid. */
  predicate CommandsName(h: seq<Mark>, id: string, pid: int) {
    forall m :: m in h && m.Commanded? && m.id == id ==> m.command == CancelCommand(pid)
  }

  lemma RequestCommands(cfg: Config, w: World, r: Request, id: string)
    requires Inv(cfg, w) && id in w.containers
    ensures CommandsName(Exec(cfg, w, r).marks, id, w.containers[id].pid)
    ensures w.containers[id].state == EXITED ==>
              forall m :: m in Exec(cfg, w, r).marks ==> !(m.Commanded? && m.id == id)
  {
    if r.Stop? {
      if r.id in w.containers {
        assert w.containers[r.id].id == r.id;
        StopKnownMarks(cfg, w, w.containers[r.id], r.remote, r.scancel, r.now);
      }
    } else if r.Start? {
      if r.id in w.containers {
        StartMarksAre(cfg, w, w.containers[r.id], r.remote, r.run, r.now);
      }
    } else {
      RequestJobs(cfg, w, r);
    }
  }

  lemma EventCommands(cfg: Config, w: World, e: Event, id: string)
    requires Inv(cfg, w) && id in w.containers
    ensures CommandsName(MarksOf(cfg, w, e), id, w.containers[id].pid)
    ensures w.containers[id].state == EXITED ==>
              forall m :: m in MarksOf(cfg, w, e) ==> !(m.Commanded? && m.id == id)
  {
    RequestCommands(cfg, w, e.r, id);
    forall m | m in MarksOf(cfg, w, e) && m.Commanded? ensures m in Exec(cfg, w, e.r).marks {
      if m !in Exec(cfg, w, e.r).marks {
        UnrecordedJobs(Exec(cfg, w, e.r).marks, m);
      }
    }
  }

  /** Over every run without a start of the container, all cancel commands sent for it name
      the job number it had. */
  lemma {:induction false} CommandsNamePid(cfg: Config, w: World, es: seq<Event>, id: string)
    requires Inv(cfg, w) && Run(cfg, w, es) && id in w.containers && NoStartOf(es, id)
    ensures CommandsName(History(cfg, w, es), id, w.containers[id].pid)
    decreases |es|
  {
    if es != [] {
      var w' := Next(cfg, w, es[0]);
      EventKeeps(cfg, w, es[0]);
      EventEvolves(cfg, w, es[0], id);
      EvolvedKeepsPid(cfg, w.containers[id], es[0].r);
      EventCommands(cfg, w, es[0], id);
      CommandsNamePid(cfg, w', es[1..], id);
      assert History(cfg, w, es) == MarksOf(cfg, w, es[0]) + History(cfg, w', es[1..]);
    }
  }

  /** Once a container is recorded as exited, no later request cancels a job for it. */
  lemma {:induction false} ExitedIsNeverCancelled(cfg: Config, w: World, es: seq<Event>, id: string)
    requires Inv(cfg, w) && Run(cfg, w, es) && id in w.containers && w.containers[id].state == EXITED
    ensures forall m :: m in History(cfg, w, es) ==> !(m.Commanded? && m.id == id)
    decreases |es|
  {
    if es != [] {
      var w' := Next(cfg, w, es[0]);
      EventKeeps(cfg, w, es[0]);
      EventEvolves(cfg, w, es[0], id);
      EvolvedKeepsIdentity(cfg, w.containers[id], es[0].r);
      EventCommands(cfg, w, es[0], id);
      ExitedIsNeverCancelled(cfg, w', es[1..], id);
      assert History(cfg, w, es) == MarksOf(cfg, w, es[0]) + History(cfg, w', es[1..]);
    }
  }

  /** A status request that gets an error from the cluster marks a running container as
      exited: over no later run is its job, which may still run, ever cancelled. */
  lemma FailedStatusAbandonsJob(cfg: Config, w: World, r: Request, es: seq<Event>)
    requires Inv(cfg, w) && r.Status? && r.id in w.containers && Home(cfg, w, r.id) == Local
    requires var c := w.containers[r.id]; c.state == RUNNING && c.credentials && c.pid != 0 && r.answer.NoStatus?
    requires Run(cfg, Exec(cfg, w, r).world, es)
    ensures var after := Exec(cfg, w, r).world;
            && r.id in after.containers && after.containers[r.id].pid == w.containers[r.id].pid
            && after.containers[r.id].state == EXITED
            && forall m :: m in History(cfg, after, es) ==> !(m.Commanded? && m.id == r.id)
  {
    assert w.containers[r.id].id == r.id;
    RequestKeeps(cfg, w, r);
    RequestEffect(cfg, w, r, r.id);
    ExitedIsNeverCancelled(cfg, Exec(cfg, w, r).world, es, r.id);
  }

  /** A local start that succeeds on a printed job number `n`, then any run without another
      start of the container: every cancel command sent for it meanwhile, and the one that a
      stop sends afterwards while it runs, names job `n` exactly when `n` fits in 32 bits. */
  lemma CancelNamesSubmittedJobExactlyWhen(cfg: Config, w: World, r: Request, noise: string, n: nat, blanks: string,
                                           es: seq<Event>, stop: Request)
    requires Inv(cfg, w) && r.Start? && r.id in w.containers && Home(cfg, w, r.id) == Local
    requires Exec(cfg, w, r).reply == Done
    requires r.run == ReadSbatch(SbatchReport(noise, n, blanks)) && !Contains(noise, SUBMITTED) && Blank(blanks)
    requires Run(cfg, Exec(cfg, w, r).world, es) && NoStartOf(es, r.id)
    requires stop.Stop? && stop.id == r.id && stop.scancel.Ran?
    ensures var started := Exec(cfg, w, r).world;
            var end := After(cfg, started, es);
            var pid := started.containers[r.id].pid;
            && r.id in end.containers
            && (forall m :: m in History(cfg, started, es) && m.Commanded? && m.id == r.id ==>
                  m.command == CancelCommand(pid))
            && (end.containers[r.id].state == RUNNING <==>
                Commanded(r.id, CancelCommand(pid)) in Exec(cfg, end, stop).marks)
            && (CancelCommand(pid) == CANCEL + Itoa(n) <==> n < 0x8000_0000)
  {
    var started := Exec(cfg, w, r).world;
    StartedPid(cfg, w, r, noise, n, blanks);
    RequestKeeps(cfg, w, r);
    PidKept(cfg, started, es, r.id);
    CommandsNamePid(cfg, started, es, r.id);
    ContainersPersist(cfg, started, es, r.id);
    RunKeepsInvariant(cfg, started, es);
    StopReachesClusterExactlyWhen(cfg, After(cfg, started, es), stop);
    SubmittedJobIsCancelledExactlyWhen(w.containers[r.id], noise, n, blanks);
  }

  // ---- a pod and its containers ----

  /** Where the pod was last run. */
  function LastRun(h: seq<Mark>, podId: string): Option<Route> {
    if h == [] then None
    else
      var m := h[|h| - 1];
      if m.Sent? && m.op == RunOp && m.id == podId then Some(m.target) else LastRun(h[..|h| - 1], podId)
  }

  /** The stored handler of a pod leads to where it was last run. */
  predicate PodsAtHome(cfg: Config, pods: map<string, Pod>, h: seq<Mark>) {
    forall p :: p in pods && LastRun(h, p).Some? ==>
      LastRun(h, p).value == GetRemoteRuntime(cfg.remotes, pods[p].info.handler)
  }

  lemma {:induction false} LastRunAppend(h: seq<Mark>, more: seq<Mark>, podId: string)
    ensures LastRun(h + more, podId) == if LastRun(more, podId).Some? then LastRun(more, podId) else LastRun(h, podId)
  {
    if more == [] {
      assert h + more == h;
    } else {
      assert (h + more)[..|h + more| - 1] == h + more[..|more| - 1];
      LastRunAppend(h, more[..|more| - 1], podId);
    }
  }

  /** The pods an event leaves in the file: each as before, or newly run by the event. */
  predicate KeepsHandlers(cfg: Config, before: map<string, Pod>, after: map<string, Pod>, marks: seq<Mark>) {
    forall p :: p in after ==>
      if LastRun(marks, p).Some? then LastRun(marks, p).value == GetRemoteRuntime(cfg.remotes, after[p].info.handler)
      else p in before && after[p].info.handler == before[p].info.handler
  }

  /** The later file holds pods of the earlier one only, with their handlers. */
  predicate Inherits(before: map<string, Pod>, after: map<string, Pod>) {
    forall p :: p in after ==> p in before && after[p].info.handler == before[p].info.handler
  }

  predicate PutsKnownPods(before: map<string, Pod>, ws: seq<Write>) {
    forall i :: 0 <= i < |ws| && ws[i].PutPod? ==>
      ws[i].id in before && ws[i].pod.info.handler == before[ws[i].id].info.handler
  }

  lemma {:induction false} PrefixInherits(before: map<string, Pod>, f: Files, ws: seq<Write>, k: nat)
    requires k <= |ws| && Inherits(before, f.pods) && PutsKnownPods(before, ws)
    ensures Inherits(before, Replay(f, ws[..k]).pods)
    decreases k
  {
    if k > 0 {
      assert ws[..k][1..] == ws[1..][..k - 1];
      PrefixInherits(before, Apply(f, ws[0]), ws[1..], k - 1);
    }
  }

  lemma KnownPodsWritten(cfg: Config, w: World, r: Request)
    requires Inv(cfg, w) && !r.RunPod?
    ensures PutsKnownPods(w.files.pods, Exec(cfg, w, r).writes)
  {
    if r.StopPod? {
      StopWritesKnownPod(cfg, w, r);
    } else if r.RemovePod? || r.PodStatus? {
      PodReadsWriteNoPod(cfg, w, r);
    } else if r.Create? {
      CreateWritesKnownPod(cfg, w, r);
    } else if r.Remove? {
      RemoveWritesKnownPod(cfg, w, r);
    } else if r.Start? || r.Stop? || r.Status? {
      ContainersWriteNoPod(cfg, w, r);
    } else {
      ImagesWriteNoPod(cfg, w, r);
    }
  }

  lemma StopWritesKnownPod(cfg: Config, w: World, r: Request)
    requires Inv(cfg, w) && r.StopPod?
    ensures PutsKnownPods(w.files.pods, Exec(cfg, w, r).writes)
  {
  }

  lemma PodReadsWriteNoPod(cfg: Config, w: World, r: Request)
    requires r.RemovePod? || r.PodStatus?
    ensures PutsKnownPods(w.files.pods, Exec(cfg, w, r).writes)
  {
    if r.RemovePod? {
      RemovePodShape(cfg, w, r);
    }
  }

  lemma ContainersWriteNoPod(cfg: Config, w: World, r: Request)
    requires r.Start? || r.Stop? || r.Status?
    ensures PutsKnownPods(w.files.pods, Exec(cfg, w, r).writes)
  {
  }

  lemma ImagesWriteNoPod(cfg: Config, w: World, r: Request)
    requires r.Pull? || r.DropImage? || r.ListAll?
    ensures forall i :: 0 <= i < |Exec(cfg, w, r).writes| ==> !Exec(cfg, w, r).writes[i].PutPod?
  {
    if r.ListAll? {
      ListWritesDeleteImages(w.images, r.filter, r.order, r.present);
    }
  }

  lemma CreateWritesKnownPod(cfg: Config, w: World, r: Request)
    requires Inv(cfg, w) && r.Create?
    ensures PutsKnownPods(w.files.pods, Exec(cfg, w, r).writes)
  {
  }

  lemma RemoveWritesKnownPod(cfg: Config, w: World, r: Request)
    requires Inv(cfg, w) && r.Remove?
    ensures PutsKnownPods(w.files.pods, Exec(cfg, w, r).writes)
  {
  }

  predicate NoRuns(h: seq<Mark>) {
    forall m :: m in h ==> !(m.Sent? && m.op == RunOp)
  }

  lemma PodsAndImagesRunNone(cfg: Config, w: World, r: Request)
    requires r.StopPod? || r.RemovePod? || r.PodStatus? || r.Pull? || r.DropImage? || r.ListAll?
    ensures NoRuns(Exec(cfg, w, r).marks)
  {
  }

  lemma CreateRunsNone(cfg: Config, w: World, r: Request)
    requires r.Create?
    ensures NoRuns(Exec(cfg, w, r).marks)
  {
  }

  lemma StopRunsNone(cfg: Config, w: World, r: Request)
    requires r.Stop?
    ensures NoRuns(Exec(cfg, w, r).marks)
  {
  }

  lemma StatusRunsNone(cfg: Config, w: World, r: Request)
    requires r.Status?
    ensures NoRuns(Exec(cfg, w, r).marks)
  {
    if r.id in w.containers {
      StatusKnownMarks(cfg, w, w.containers[r.id], r.remote, r.answer);
    }
  }

  lemma StartRunsNone(cfg: Config, w: World, r: Request)
    requires r.Start?
    ensures NoRuns(Exec(cfg, w, r).marks)
  {
  }

  lemma RemoveRunsNone(cfg: Config, w: World, r: Request)
    requires r.Remove?
    ensures NoRuns(Exec(cfg, w, r).marks)
  {
  }

  lemma NoRunsUnrecorded(h: seq<Mark>)
    ensures NoRuns(Unrecorded(h))
  {
    forall m | m in Unrecorded(h) && m.Sent? ensures m.op != RunOp {
      UnrecordedSent(h, m);
    }
  }

  lemma NoRunMarks(cfg: Config, w: World, e: Event, p: string)
    requires !e.r.RunPod?
    ensures LastRun(MarksOf(cfg, w, e), p).None?
  {
    if e.r.Create? {
      CreateRunsNone(cfg, w, e.r);
    } else if e.r.Start? {
      StartRunsNone(cfg, w, e.r);
    } else if e.r.Stop? {
      StopRunsNone(cfg, w, e.r);
    } else if e.r.Status? {
      StatusRunsNone(cfg, w, e.r);
    } else if e.r.Remove? {
      RemoveRunsNone(cfg, w, e.r);
    } else {
      PodsAndImagesRunNone(cfg, w, e.r);
    }
    NoRunsUnrecorded(Exec(cfg, w, e.r).marks);
    LastRunNeedsMark(MarksOf(cfg, w, e), p);
  }

  lemma {:induction false} LastRunNeedsMark(h: seq<Mark>, p: string)
    requires NoRuns(h)
    ensures LastRun(h, p).None?
  {
    if h != [] {
      LastRunNeedsMark(h[..|h| - 1], p);
    }
  }

  /** The writes and marks of running a pod: a record that no restart resumes, then either
      its final version, with a mark, or its deletion, or nothing when the process ends. */
  predicate RunShape(cfg: Config, handler: string, ws: seq<Write>, marks: seq<Mark>, id: string, p: Pod) {
    && 1 <= |ws| <= 2 && ws[0] == PutPod(id, p) && !Resumable(p)
    && (|ws| == 1 || ws[1] == DeletePod(id) ==> marks == [])
    && (|ws| == 2 && ws[1] != DeletePod(id) ==>
          && ws[1].PutPod? && ws[1].id == id && ws[1].pod.info.handler == handler && !Resumable(ws[1].pod)
          && marks == [Sent(RunOp, id, GetRemoteRuntime(cfg.remotes, handler))])
  }

  lemma RunLocallyShape(cfg: Config, w: World, id: string, r: Request)
    requires r.RunPod? && GetRemoteRuntime(cfg.remotes, r.handler) == Local
    ensures var o := RunLocally(cfg, w, id, r.handler, r.net, r.logPath, r.adapter);
            RunShape(cfg, r.handler, o.writes, o.marks, id, NewPod(id, r.handler)) &&
              (|o.writes| == 2 || o.reply == Crashed)
  {
  }

  lemma RunRemotelyShape(cfg: Config, w: World, remoteId: string, r: Request)
    requires r.RunPod? && GetRemoteRuntime(cfg.remotes, r.handler).Remote?
    ensures var o := RunRemotely(cfg, w, remoteId, r.newId, r.handler);
            var id := if remoteId != "" then remoteId else r.newId;
            RunShape(cfg, r.handler, o.writes, o.marks, id, NewPod(id, r.handler)) && |o.writes| == 2
  {
  }

  lemma RunPodShape(cfg: Config, w: World, r: Request) returns (id: string, p: Pod)
    requires r.RunPod?
    ensures var o := Exec(cfg, w, r);
            || (o.writes == [] && o.marks == [] && o.world == w)
            || (RunShape(cfg, r.handler, o.writes, o.marks, id, p) && (|o.writes| == 2 || o.reply == Crashed))
  {
    match Dispatch(cfg.remotes, r.handler, r.remote) {
      case Refused(_) => id := "";
      case Answered(remoteId) =>
        id := if remoteId != "" then remoteId else r.newId;
        RunRemotelyShape(cfg, w, remoteId, r);
      case NotRemote =>
        id := if r.uid != "" then r.uid else r.newId;
        RunLocallyShape(cfg, w, id, r);
    }
    p := NewPod(id, r.handler);
  }

  lemma LastRunOfOne(m: Mark, q: string)
    requires m.Sent? && m.op == RunOp
    ensures LastRun([m], q) == if q == m.id then Some(m.target) else None
    ensures LastRun([], q) == None
  {
    assert [m][..0] == [];
  }

  lemma RunHandlers(cfg: Config, handler: string, f: Files, ws: seq<Write>, marks: seq<Mark>, id: string, p: Pod)
    requires RunShape(cfg, handler, ws, marks, id, p) && |ws| == 2
    ensures KeepsHandlers(cfg, f.pods, Replay(f, ws).pods, marks)
  {
    assert ws == [ws[0], ws[1]];
    TwoWrites(f, ws[0], ws[1]);
    forall q | marks != [] ensures LastRun(marks, q) == if q == id then Some(marks[0].target) else None {
      LastRunOfOne(marks[0], q);
    }
  }

  /** A restart resumes none of the records that running a pod writes. */
  lemma CutRunHandlers(cfg: Config, handler: string, f: Files, ws: seq<Write>, marks: seq<Mark>, id: string, p: Pod,
                       k: nat, reopen: map<string, string>)
    requires RunShape(cfg, handler, ws, marks, id, p) && 0 < k <= |ws|
    ensures KeepsHandlers(cfg, f.pods, LoadPods(Replay(f, ws[..k]).pods, reopen).stored, marks)
  {
    if k == 1 {
      assert ws[..k] == [ws[0]];
      OneWrite(f, ws[0]);
    } else {
      assert ws[..k] == [ws[0], ws[1]];
      TwoWrites(f, ws[0], ws[1]);
    }
    forall q | marks != [] ensures LastRun(marks, q) == if q == id then Some(marks[0].target) else None {
      LastRunOfOne(marks[0], q);
    }
  }

  lemma CutAtOnceHandlers(cfg: Config, f: Files, marks: seq<Mark>, reopen: map<string, string>)
    ensures KeepsHandlers(cfg, f.pods, LoadPods(f.pods, reopen).stored, Unrecorded(marks))
  {
    NoRunsUnrecorded(marks);
    forall q ensures LastRun(Unrecorded(marks), q).None? {
      LastRunNeedsMark(Unrecorded(marks), q);
    }
  }

  lemma RunPodHandlers(cfg: Config, w: World, e: Event)
    requires Inv(cfg, w) && Possible(cfg, w, e) && e.r.RunPod?
    ensures KeepsHandlers(cfg, w.files.pods, Next(cfg, w, e).files.pods, MarksOf(cfg, w, e))
  {
    var o := Exec(cfg, w, e.r);
    var id, p := RunPodShape(cfg, w, e.r);
    PodsReplayed(cfg, w, e.r);
    if e.CutOff? && e.k == 0 {
      assert o.writes[..0] == [];
      CutAtOnceHandlers(cfg, w.files, o.marks, e.reopen);
    } else if o.writes != [] {
      if e.Handled? {
        RunHandlers(cfg, e.r.handler, w.files, o.writes, o.marks, id, p);
      } else {
        CutRunHandlers(cfg, e.r.handler, w.files, o.writes, o.marks, id, p, e.k, e.reopen);
      }
    }
  }

  lemma EventHandlers(cfg: Config, w: World, e: Event)
    requires Inv(cfg, w) && Possible(cfg, w, e)
    ensures KeepsHandlers(cfg, w.files.pods, Next(cfg, w, e).files.pods, MarksOf(cfg, w, e))
  {
    if e.r.RunPod? {
      RunPodHandlers(cfg, w, e);
    } else {
      forall p ensures LastRun(MarksOf(cfg, w, e), p).None? {
        NoRunMarks(cfg, w, e, p);
      }
      var ws := Exec(cfg, w, e.r).writes;
      KnownPodsWritten(cfg, w, e.r);
      var k := if e.Handled? then |ws| else e.k;
      PrefixInherits(w.files.pods, w.files, ws, k);
      assert ws[..|ws|] == ws;
      FilesReplayed(cfg, w, e.r);
    }
  }

  /** The files of an outcome are the old files with its writes carried out. */
  lemma FilesReplayed(cfg: Config, w: World, r: Request)
    ensures Exec(cfg, w, r).world.files == Replay(w.files, Exec(cfg, w, r).writes)
  {
    if r.RunPod? || r.StopPod? || r.RemovePod? || r.PodStatus? {
      PodsReplayed(cfg, w, r);
    } else if r.Create? {
      CreateReplayed(cfg, w, r);
    } else if r.Remove? {
      RemoveReplayed(cfg, w, r);
    } else if r.Start? || r.Stop? || r.Status? {
      ContainersReplayed(cfg, w, r);
    } else if r.Pull? {
      PullReplayed(cfg, w, r);
    } else {
      ImagesReplayed(cfg, w, r);
    }
  }

  lemma PodsReplayed(cfg: Config, w: World, r: Request)
    requires r.RunPod? || r.StopPod? || r.RemovePod? || r.PodStatus?
    ensures Exec(cfg, w, r).world.files == Replay(w.files, Exec(cfg, w, r).writes)
  {
  }

  lemma ContainersReplayed(cfg: Config, w: World, r: Request)
    requires r.Start? || r.Stop? || r.Status?
    ensures Exec(cfg, w, r).world.files == Replay(w.files, Exec(cfg, w, r).writes)
  {
  }

  lemma PullReplayed(cfg: Config, w: World, r: Request)
    requires r.Pull?
    ensures Exec(cfg, w, r).world.files == Replay(w.files, Exec(cfg, w, r).writes)
  {
    match ImageManager(cfg.remotes, r.image, r.names)
    case ServeRemotely(_, _) =>
    case ServeLocally(name) => PullLocallyReplayed(cfg, w, name, r.newId, r.work);
  }

  lemma PullLocallyReplayed(cfg: Config, w: World, name: string, newId: string, work: ImageWork)
    ensures PullLocally(cfg, w, name, newId, work).world.files ==
            Replay(w.files, PullLocally(cfg, w, name, newId, work).writes)
  {
  }

  lemma ImagesReplayed(cfg: Config, w: World, r: Request)
    requires r.DropImage? || r.ListAll?
    ensures Exec(cfg, w, r).world.files == Replay(w.files, Exec(cfg, w, r).writes)
  {
  }

  lemma CreateReplayed(cfg: Config, w: World, r: Request)
    requires r.Create?
    ensures Exec(cfg, w, r).world.files == Replay(w.files, Exec(cfg, w, r).writes)
  {
  }

  lemma RemoveReplayed(cfg: Config, w: World, r: Request)
    requires r.Remove?
    ensures Exec(cfg, w, r).world.files == Replay(w.files, Exec(cfg, w, r).writes)
  {
  }

  lemma PodsAtHomeStep(cfg: Config, pods: map<string, Pod>, after: map<string, Pod>, h: seq<Mark>, marks: seq<Mark>)
    requires PodsAtHome(cfg, pods, h) && KeepsHandlers(cfg, pods, after, marks)
    ensures PodsAtHome(cfg, after, h + marks)
  {
    forall p | p in after && LastRun(h + marks, p).Some?
      ensures LastRun(h + marks, p).value == GetRemoteRuntime(cfg.remotes, after[p].info.handler)
    {
      LastRunAppend(h, marks, p);
    }
  }

  lemma {:induction false} RunPodsAtHome(cfg: Config, w: World, es: seq<Event>, before: seq<Mark>)
    requires Inv(cfg, w) && Run(cfg, w, es) && PodsAtHome(cfg, w.files.pods, before)
    ensures PodsAtHome(cfg, After(cfg, w, es).files.pods, before + History(cfg, w, es))
    decreases |es|
  {
    if es == [] {
      assert before + History(cfg, w, es) == before;
    } else {
      EventKeeps(cfg, w, es[0]);
      EventHandlers(cfg, w, es[0]);
      PodsAtHomeStep(cfg, w.files.pods, Next(cfg, w, es[0]).files.pods, before, MarksOf(cfg, w, es[0]));
      HistoryStep(cfg, w, es, before);
      RunPodsAtHome(cfg, Next(cfg, w, es[0]), es[1..], before + MarksOf(cfg, w, es[0]));
    }
  }

  lemma CreateTarget(cfg: Config, w: World, r: Request, m: Mark)
    requires r.Create? && m in Exec(cfg, w, r).marks
    ensures r.podId in w.pods && m.Sent? && m.target == GetRemoteRuntime(cfg.remotes, w.pods[r.podId].info.handler)
  {
  }

  /** A container is created on the runtime that its pod's last recorded run went to, whatever
      happened in between. A remote run that a crash leaves without a record shows as orphaned. */
  lemma CreatedWherePodRan(cfg: Config, w: World, es: seq<Event>, r: Request, m: Mark)
    requires Inv(cfg, w) && Run(cfg, w, es) && r.Create? && FreshIds(After(cfg, w, es), r)
    requires m in Exec(cfg, After(cfg, w, es), r).marks && m.Sent? && m.op == CreateOp
    requires LastRun(History(cfg, w, es), r.podId).Some?
    ensures m.target == LastRun(History(cfg, w, es), r.podId).value
  {
    RunKeepsInvariant(cfg, w, es);
    RunPodsAtHome(cfg, w, es, []);
    assert [] + History(cfg, w, es) == History(cfg, w, es);
    var end := After(cfg, w, es);
    CreateTarget(cfg, end, r, m);
    assert SameButState(end.pods[r.podId], end.files.pods[r.podId]);
  }
}
