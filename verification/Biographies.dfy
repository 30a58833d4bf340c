/** Where the records come from: over every run from an empty service, each container record is
    accounted for by requests of the run. */
module Biographies {
  import opened Records
  import opened Persistence
  import opened RemoteRuntimes
  import opened SlurmText
  import opened Slurm
  import opened SlurmAdapter
  import opened Lifecycle
  import opened Requests
  import opened Runs

  // ---- births, starts and ends ----

  /** The creation that made a container: on this service, or at a remote, which gives the id. */
  predicate BornBy(r: Request, c: Container) {
    && r.Create? && r.podId == c.pod.id
    && if c.image.Some? then
         c.id == r.newId && c.name == r.name && c.credentials == r.credentials && c.createdAt == r.now
       else r.remote == Response(c.id) && c.name == "" && !c.credentials && c.createdAt == 0
  }

  /** A container that runs, that waits in the queue, or whose job has ended or was cancelled. */
  predicate Launched(c: Container) {
    || c.state == RUNNING
    || (c.state == CREATED && c.pid != 0)
    || (c.state == EXITED && c.reason != CannotRun && !c.reason.Because?)
  }

  /** The start that gave a container its job. */
  predicate LaunchedBy(r: Request, c: Container) {
    r.Start? && r.id == c.id && r.run == Numbered(c.pid, true) && r.now == c.startedAt
  }

  /** The request that made a container exit, with what it leaves: a start that submitted no
      numbered job, a stop, a job state that means an end, or a status request that failed. */
  predicate EndedBy(r: Request, c: Container) {
    match r
    case Start(id, _, run, now) =>
      && id == c.id && c.exitCode == 1 && c.reason == CannotRun && c.finishedAt == now
      && !(c.credentials && run == Numbered(c.pid, true))
    case Stop(id, _, scancel, now) =>
      id == c.id && scancel == Ran(Returns) && c.exitCode == 0 && c.reason == StartOk && c.finishedAt == now
    case Status(id, _, answer) =>
      id == c.id && if c.credentials then AnsweredEnd(answer, c)
                    else c.exitCode == 1 && c.reason == Because(NoCredentials) && c.finishedAt == 0
    case _ => false
  }

  predicate AnsweredEnd(answer: StatusAnswer, c: Container) {
    match answer
    case NoStatus(fault) => c.exitCode == 1 && c.reason == Because(fault) && c.finishedAt == 0
    case StatusDies => false
    case Known(status) =>
      || (status.jobState in {"COMPLETED", "COMPLETING"}
          && c.exitCode == status.exitCode && c.reason == Completed && c.finishedAt == status.endTime)
      || (status.jobState in {"CANCELLED", "TIMEOUT"}
          && c.exitCode == 1 && c.reason == OomKilled && c.finishedAt == status.endTime)
      || (status.jobState in {"FAILED", "NODE_FAIL"}
          && c.exitCode == (if status.exitCode == 0 then 1 else 0) && c.reason == JobEnded(status.jobState)
          && c.finishedAt == 0)
  }

  predicate BornIn(es: seq<Event>, c: Container) {
    exists i :: 0 <= i < |es| && BornBy(es[i].r, c)
  }

  predicate LaunchedIn(es: seq<Event>, c: Container) {
    exists i :: 0 <= i < |es| && LaunchedBy(es[i].r, c)
  }

  predicate EndedIn(es: seq<Event>, c: Container) {
    exists i :: 0 <= i < |es| && EndedBy(es[i].r, c)
  }

  predicate Accounted(es: seq<Event>, c: Container) {
    BornIn(es, c) && (Launched(c) ==> LaunchedIn(es, c)) && (c.state == EXITED ==> EndedIn(es, c))
  }

  predicate AllAccounted(es: seq<Event>, containers: map<string, Container>) {
    forall k :: k in containers ==> Accounted(es, containers[k])
  }

  // ---- one event ----

  lemma StillBorn(es: seq<Event>, e: Event, c: Container, d: Container)
    requires BornIn(es, c) && SameIdentity(d, c) && d.createdAt == c.createdAt
    ensures BornIn(es + [e], d)
  {
    var i :| 0 <= i < |es| && BornBy(es[i].r, c);
    assert (es + [e])[i] == es[i] && BornBy((es + [e])[i].r, d);
  }

  lemma StillLaunched(es: seq<Event>, e: Event, c: Container, d: Container)
    requires LaunchedIn(es, c) && d.id == c.id && d.pid == c.pid && d.startedAt == c.startedAt
    ensures LaunchedIn(es + [e], d)
  {
    var i :| 0 <= i < |es| && LaunchedBy(es[i].r, c);
    assert (es + [e])[i] == es[i] && LaunchedBy((es + [e])[i].r, d);
  }

  lemma StillEnded(es: seq<Event>, e: Event, c: Container)
    requires EndedIn(es, c)
    ensures EndedIn(es + [e], c)
  {
    var i :| 0 <= i < |es| && EndedBy(es[i].r, c);
    assert (es + [e])[i] == es[i];
  }

  lemma StillAccounted(es: seq<Event>, e: Event, c: Container)
    requires Accounted(es, c)
    ensures Accounted(es + [e], c)
  {
    StillBorn(es, e, c, c);
    if Launched(c) {
      StillLaunched(es, e, c, c);
    }
    if c.state == EXITED {
      StillEnded(es, e, c);
    }
  }

  /** The record an event makes of a container is one the event launches or ends, or one that
      is launched as before. */
  predicate Follows(r: Request, c: Container, d: Container) {
    && (Launched(d) ==> LaunchedBy(r, d) || (Launched(c) && d.pid == c.pid && d.startedAt == c.startedAt))
    && (d.state == EXITED && c.state != EXITED ==> EndedBy(r, d))
  }

  lemma StartFollows(cfg: Config, c: Container, r: Request)
    requires GoodContainer(cfg, c) && r.Start?
    ensures Follows(r, c, Evolved(cfg, c, r))
  {
  }

  lemma StopFollows(cfg: Config, c: Container, r: Request)
    requires GoodContainer(cfg, c) && r.Stop?
    ensures Follows(r, c, Evolved(cfg, c, r))
  {
  }

  /** A job that is known has a number. */
  lemma RefreshFollows(cfg: Config, c: Container, r: Request)
    requires GoodContainer(cfg, c) && r.Status? && r.id == c.id && r.answer.Known?
    requires c.state != EXITED && c.credentials && c.pid != 0
    ensures Follows(r, c, Observed(c, r.answer))
  {
    StateNameDecides(c, r.answer.status);
    RefreshSetsExitFields(c, r.answer);
  }

  lemma StatusFollows(cfg: Config, c: Container, r: Request)
    requires GoodContainer(cfg, c) && r.Status?
    ensures Follows(r, c, Evolved(cfg, c, r))
  {
    if r.id == c.id && r.answer.Known? && c.state != EXITED && c.credentials && c.pid != 0 {
      RefreshFollows(cfg, c, r);
    }
  }

  lemma EvolvedFollows(cfg: Config, c: Container, r: Request)
    requires GoodContainer(cfg, c)
    ensures Follows(r, c, Evolved(cfg, c, r)) && SameIdentity(Evolved(cfg, c, r), c)
  {
    EvolvedKeepsIdentity(cfg, c, r);
    if r.Start? {
      StartFollows(cfg, c, r);
    } else if r.Stop? {
      StopFollows(cfg, c, r);
    } else if r.Status? {
      StatusFollows(cfg, c, r);
    }
  }

  lemma EvolvedAccounted(cfg: Config, es: seq<Event>, e: Event, c: Container)
    requires GoodContainer(cfg, c) && Accounted(es, c)
    ensures Accounted(es + [e], Evolved(cfg, c, e.r))
  {
    var d := Evolved(cfg, c, e.r);
    EvolvedFollows(cfg, c, e.r);
    EvolvedKeepsIdentity(cfg, c, e.r);
    StillBorn(es, e, c, d);
    assert (es + [e])[|es|] == e;
    if Launched(d) && !LaunchedBy(e.r, d) {
      StillLaunched(es, e, c, d);
    }
    if c.state == EXITED {
      StillEnded(es, e, c);
    }
  }

  /** A container that an event adds is one that its request creates. */
  predicate Newborn(r: Request, c: Container) {
    BornBy(r, c) && c.state == CREATED && c.pid == 0
  }

  lemma CreateHereBears(w: World, p: Pod, r: Request)
    requires r.Create? && GoodImages(w.images) && p.info.id == r.podId
    ensures var o := CreateHere(w, p, r.name, r.imageRef, r.credentials, r.newId, r.order, r.work, r.now);
            && (forall i :: 0 <= i < |o.writes| && o.writes[i].PutContainer? ==>
                  o.writes[i].id == r.newId && Newborn(r, o.writes[i].container))
            && (forall k :: k in o.world.containers && k != r.newId ==>
                  k in w.containers && o.world.containers[k] == w.containers[k])
            && (r.newId in o.world.containers && r.newId !in w.containers ==>
                  Newborn(r, o.world.containers[r.newId]))
  {
  }

  /** Every write of a container writes one that the request creates, or one that was there. */
  predicate WritesBorn(w: World, r: Request, ws: seq<Write>) {
    forall i :: 0 <= i < |ws| && ws[i].PutContainer? && ws[i].id !in w.containers ==> Newborn(r, ws[i].container)
  }

  predicate AddsBorn(w: World, r: Request, after: map<string, Container>) {
    forall k :: k in after && k !in w.containers ==> Newborn(r, after[k])
  }

  lemma CreateBears(cfg: Config, w: World, r: Request)
    requires Inv(cfg, w) && FreshIds(w, r) && r.Create?
    ensures WritesBorn(w, r, Exec(cfg, w, r).writes) && AddsBorn(w, r, Exec(cfg, w, r).world.containers)
  {
    if r.podId in w.pods && Dispatch(cfg.remotes, w.pods[r.podId].info.handler, r.remote).NotRemote? {
      CreateHereBears(w, w.pods[r.podId], r);
    }
  }

  lemma OthersBearNone(cfg: Config, w: World, r: Request)
    requires Inv(cfg, w) && !r.Create?
    ensures WritesBorn(w, r, Exec(cfg, w, r).writes) && AddsBorn(w, r, Exec(cfg, w, r).world.containers)
  {
    if NeverOnContainers(r) {
      OthersSpareContainers(cfg, w, r);
    } else if r.id in w.containers {
      var c := w.containers[r.id];
      if r.Start? {
        StartShape(cfg, w, c, r.remote, r.run, r.now);
      } else if r.Stop? {
        StopShape(cfg, w, c, r.remote, r.scancel, r.now);
      } else {
        StatusShape(cfg, w, c, r.remote, r.answer);
      }
    }
  }

  lemma {:induction false} ReplayBorn(w: World, r: Request, f: Files, ws: seq<Write>, k: nat)
    requires k <= |ws| && WritesBorn(w, r, ws) && AddsBorn(w, r, f.containers)
    ensures AddsBorn(w, r, Replay(f, ws[..k]).containers)
    decreases k
  {
    if k > 0 {
      assert ws[..k][1..] == ws[1..][..k - 1];
      ReplayBorn(w, r, Apply(f, ws[0]), ws[1..], k - 1);
    }
  }

  lemma EventBears(cfg: Config, w: World, e: Event)
    requires Inv(cfg, w) && Possible(cfg, w, e)
    ensures AddsBorn(w, e.r, Next(cfg, w, e).containers)
  {
    if e.r.Create? {
      CreateBears(cfg, w, e.r);
    } else {
      OthersBearNone(cfg, w, e.r);
    }
    if e.CutOff? {
      ReplayBorn(w, e.r, w.files, Exec(cfg, w, e.r).writes, e.k);
    }
  }

  lemma NewbornAccounted(es: seq<Event>, e: Event, c: Container)
    requires Newborn(e.r, c)
    ensures Accounted(es + [e], c)
  {
    assert (es + [e])[|es|] == e;
  }

  lemma EventAccounted(cfg: Config, w: World, e: Event, es: seq<Event>)
    requires Inv(cfg, w) && Possible(cfg, w, e) && AllAccounted(es, w.containers)
    ensures AllAccounted(es + [e], Next(cfg, w, e).containers)
  {
    EventBears(cfg, w, e);
    var after := Next(cfg, w, e).containers;
    forall k | k in after ensures Accounted(es + [e], after[k]) {
      if k in w.containers {
        EventEvolves(cfg, w, e, k);
        EvolvedAccounted(cfg, es, e, w.containers[k]);
        StillAccounted(es, e, w.containers[k]);
      } else {
        NewbornAccounted(es, e, after[k]);
      }
    }
  }

  lemma {:induction false} RunAccounted(cfg: Config, w: World, es: seq<Event>, before: seq<Event>)
    requires Inv(cfg, w) && Run(cfg, w, es) && AllAccounted(before, w.containers)
    ensures AllAccounted(before + es, After(cfg, w, es).containers)
    decreases |es|
  {
    if es == [] {
      assert before + es == before;
    } else {
      EventKeeps(cfg, w, es[0]);
      EventAccounted(cfg, w, es[0], before);
      RunAccounted(cfg, Next(cfg, w, es[0]), es[1..], before + [es[0]]);
      assert before + [es[0]] + es[1..] == before + es;
    }
  }

  // ---- whole runs ----

  /** Over every run from an empty service, crashes included: each container was made by a
      creation of the run, with the name, credentials and time of its request; each that runs,
      waits in the queue, or whose job ended, has the job number and time of a start of the
      run; and each that has exited holds exit code, reason and finish time of the request of
      the run that ended it. */
  lemma ContainersAreAccountedFor(cfg: Config, es: seq<Event>, id: string)
    requires Run(cfg, EMPTY, es) && id in After(cfg, EMPTY, es).containers
    ensures Accounted(es, After(cfg, EMPTY, es).containers[id]) && After(cfg, EMPTY, es).containers[id].id == id
  {
    EmptyIsGood(cfg);
    RunKeepsInvariant(cfg, EMPTY, es);
    RunAccounted(cfg, EMPTY, es, []);
    assert [] + es == es;
  }

  /** So a container that has exited with code 0 was stopped, or its job was reported as
      completed with code 0, or as failed with any other code: that one is lost. */
  lemma ZeroExitMeans(cfg: Config, es: seq<Event>, id: string)
    requires Run(cfg, EMPTY, es) && id in After(cfg, EMPTY, es).containers
    requires After(cfg, EMPTY, es).containers[id].state == EXITED
    ensures After(cfg, EMPTY, es).containers[id].exitCode == 0 ==>
              exists i :: 0 <= i < |es| && EndsWithZero(es[i].r, id)
    ensures After(cfg, EMPTY, es).containers[id].reason == Completed ==>
              exists i :: 0 <= i < |es| && Reports(es[i].r, id, {"COMPLETED", "COMPLETING"})
    ensures After(cfg, EMPTY, es).containers[id].reason == OomKilled ==>
              exists i :: 0 <= i < |es| && Reports(es[i].r, id, {"CANCELLED", "TIMEOUT"})
  {
    ContainersAreAccountedFor(cfg, es, id);
    var c := After(cfg, EMPTY, es).containers[id];
    var i :| 0 <= i < |es| && EndedBy(es[i].r, c);
    EndingTells(es[i].r, c);
  }

  lemma EndingTells(r: Request, c: Container)
    requires EndedBy(r, c)
    ensures c.exitCode == 0 ==> EndsWithZero(r, c.id)
    ensures c.reason == Completed ==> Reports(r, c.id, {"COMPLETED", "COMPLETING"})
    ensures c.reason == OomKilled ==> Reports(r, c.id, {"CANCELLED", "TIMEOUT"})
  {
  }

  predicate Reports(r: Request, id: string, states: set<string>) {
    r.Status? && r.id == id && r.answer.Known? && r.answer.status.jobState in states
  }

  predicate EndsWithZero(r: Request, id: string) {
    || (r.Stop? && r.id == id && r.scancel == Ran(Returns))
    || (Reports(r, id, {"COMPLETED", "COMPLETING"}) && r.answer.status.exitCode == 0)
    || (Reports(r, id, {"FAILED", "NODE_FAIL"}) && r.answer.status.exitCode != 0)
  }

  /** The requests that end a local container which has not exited yet. */
  predicate Ends(r: Request, c: Container) {
    match r
    case Start(id, _, run, _) =>
      id == c.id && c.state == CREATED
      && if c.credentials then run.NotRun? || run.RunFailed? || run.Unnumbered? || (run.Numbered? && !run.ok) else true
    case Stop(id, _, scancel, _) => id == c.id && c.state == RUNNING && scancel == Ran(Returns)
    case Status(id, _, answer) =>
      id == c.id
      && if !c.credentials then true
         else c.pid != 0 && (answer.NoStatus? || (answer.Known? && answer.status.jobState in JOB_STATES - {"RUNNING"}))
    case _ => false
  }

  lemma EvolvedEnds(cfg: Config, c: Container, r: Request)
    requires GoodContainer(cfg, c) && c.state != EXITED && GetRemoteRuntime(cfg.remotes, c.pod.handler) == Local
    ensures Evolved(cfg, c, r).state == EXITED <==> Ends(r, c)
  {
    if r.Status? && r.answer.Known? && c.credentials && c.pid != 0 {
      StateNameDecides(c, r.answer.status);
    }
  }

  /** Exactly these requests end it, and no other request does. */
  lemma EndsExactlyWhen(cfg: Config, w: World, r: Request, id: string)
    requires Inv(cfg, w) && FreshIds(w, r) && id in w.containers && w.containers[id].state != EXITED
    requires GetRemoteRuntime(cfg.remotes, w.containers[id].pod.handler) == Local
    ensures var o := Exec(cfg, w, r);
            id in o.world.containers && (o.world.containers[id].state == EXITED <==> Ends(r, w.containers[id]))
  {
    assert GoodContainers(cfg, w.containers);
    RequestEffect(cfg, w, r, id);
    EvolvedEnds(cfg, w.containers[id], r);
  }

  lemma RunningStatusLeaves(cfg: Config, w: World, c: Container, remote: Answer, status: JobStatus)
    requires c.id in w.containers && w.containers[c.id] == c && c.state == RUNNING && c.credentials
    requires status.jobState == "RUNNING"
    ensures var o := StatusKnown(cfg, w, c, remote, Known(status));
            o.world.containers == w.containers && forall m :: m in o.marks ==> m.Sent?
  {
    assert Observed(c, Known(status)) == c;
  }

  lemma RunningAnswerLeaves(cfg: Config, w: World, r: Request)
    requires Inv(cfg, w) && r.Status? && r.id in w.containers && w.containers[r.id].state == RUNNING
    requires r.answer.Known? && r.answer.status.jobState == "RUNNING"
    ensures var o := Exec(cfg, w, r); o.world.containers == w.containers && Requeued(r.id) !in o.marks
  {
    assert GoodContainers(cfg, w.containers);
    RunningStatusLeaves(cfg, w, w.containers[r.id], r.remote, r.answer.status);
  }

  /** A readable control report whose last JobState is RUNNING leaves a running container as
      it is: it is not put back into the queue. */
  lemma RunningReportKeepsRunning(cfg: Config, w: World, id: string, remote: Answer, ls: seq<Line>)
    requires Inv(cfg, w) && id in w.containers && w.containers[id].state == RUNNING
    requires Readable(ls) && ValueOf(ls, "JobState") == "RUNNING"
    ensures var o := Exec(cfg, w, Status(id, remote, ReadStatus(Control(RenderReport(ls)))));
            o.world.containers == w.containers && Requeued(id) !in o.marks
  {
    ControlReportIsRead(ls);
    RunningAnswerLeaves(cfg, w, Status(id, remote, ReadStatus(Control(RenderReport(ls)))));
  }

  /** A failed job hides its exit code: a local container that has a job and has not exited ends
      with 0 if the report says anything but 0, and with 1 if it says 0. */
  lemma FailedJobInvertsCode(cfg: Config, w: World, r: Request)
    requires Inv(cfg, w) && r.Status? && r.id in w.containers && Reports(r, r.id, {"FAILED", "NODE_FAIL"})
    requires var c := w.containers[r.id];
             GetRemoteRuntime(cfg.remotes, c.pod.handler) == Local && c.state != EXITED && c.pid != 0
    ensures var o := Exec(cfg, w, r);
            && r.id in o.world.containers && o.world.containers[r.id].state == EXITED
            && (o.world.containers[r.id].exitCode == 0 <==> r.answer.status.exitCode != 0)
  {
    assert w.containers[r.id].id == r.id;
    RequestEffect(cfg, w, r, r.id);
    StateNameDecides(w.containers[r.id], r.answer.status);
  }
}
