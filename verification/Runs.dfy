/** Whole runs: requests one after another, and crashes between any two file writes
    followed by a restart. */
module Runs {
  import opened GoStrings
  import opened Records
  import opened Persistence
  import opened RemoteRuntimes
  import opened PodNetwork
  import opened ImageNames
  import opened SlurmText
  import opened Slurm
  import opened Lifecycle
  import opened Requests

  /** A request carried out, or one cut off after `k` of its file writes, and a restart. A
      request in which the process ends is always cut off. */
  datatype Event = Handled(r: Request) | CutOff(r: Request, k: nat, reopen: map<string, string>)

  /** What a restart makes of the files. */
  function Restart(f: Files, reopen: map<string, string>): World {
    var l := LoadPods(f.pods, reopen);
    World(f.containers, l.pool, f.images, f.(pods := l.stored))
  }

  predicate Possible(cfg: Config, w: World, e: Event) {
    FreshIds(w, e.r) &&
    match e
    case Handled(r) => Exec(cfg, w, r).reply != Crashed
    case CutOff(r, k, _) => k <= |Exec(cfg, w, r).writes|
  }

  function Next(cfg: Config, w: World, e: Event): World
    requires Possible(cfg, w, e)
  {
    match e
    case Handled(r) => Exec(cfg, w, r).world
    case CutOff(r, k, reopen) => Restart(Replay(w.files, Exec(cfg, w, r).writes[..k]), reopen)
  }

  /** What the calls of a request show when none of its writes is carried out: what a
      remote made is orphaned, a submission is lost, a sighting is forgotten. */
  function Unrecorded(marks: seq<Mark>): seq<Mark> {
    if marks == [] then []
    else
      var first := match marks[0]
                   case Sent(op, id, target) =>
                     if op != RunOp && op != CreateOp then [marks[0]]
                     else if target.Remote? then [Orphaned(op, id, target)] else []
                   case Submitted(id) => [Submitted(id), Lost(id)]
                   case Requeued(_) => []
                   case _ => [marks[0]];
      first + Unrecorded(marks[1..])
  }

  /** What an event shows outside. */
  function MarksOf(cfg: Config, w: World, e: Event): seq<Mark> {
    var o := Exec(cfg, w, e.r);
    if e.Handled? || e.k > 0 then o.marks else Unrecorded(o.marks)
  }

  predicate Run(cfg: Config, w: World, es: seq<Event>)
    decreases |es|
  {
    es != [] ==> Possible(cfg, w, es[0]) && Run(cfg, Next(cfg, w, es[0]), es[1..])
  }

  function After(cfg: Config, w: World, es: seq<Event>): World
    requires Run(cfg, w, es)
    decreases |es|
  {
    if es == [] then w else After(cfg, Next(cfg, w, es[0]), es[1..])
  }

  function History(cfg: Config, w: World, es: seq<Event>): seq<Mark>
    requires Run(cfg, w, es)
    decreases |es|
  {
    if es == [] then [] else MarksOf(cfg, w, es[0]) + History(cfg, Next(cfg, w, es[0]), es[1..])
  }

  // ---- the invariant over runs ----

  const EMPTY := World(map[], map[], map[], Files(map[], map[], map[]))

  lemma EmptyIsGood(cfg: Config)
    ensures Inv(cfg, EMPTY)
  {
  }

  /** Restarting from good files gives a good service, whatever namespaces reopen. */
  lemma RestartIsGood(cfg: Config, f: Files, reopen: map<string, string>)
    requires GoodFiles(cfg, f)
    ensures Inv(cfg, Restart(f, reopen))
  {
  }

  lemma EventKeeps(cfg: Config, w: World, e: Event)
    requires Inv(cfg, w) && Possible(cfg, w, e)
    ensures Inv(cfg, Next(cfg, w, e))
  {
    RequestKeeps(cfg, w, e.r);
    if e.CutOff? {
      SafePrefix(cfg, w.files, Exec(cfg, w, e.r).writes, e.k);
      RestartIsGood(cfg, Replay(w.files, Exec(cfg, w, e.r).writes[..e.k]), e.reopen);
    }
  }

  /** Over every run, crashes between any two writes included: pod lists are free of
      duplicates and name containers that point back, memory agrees with the files,
      containers carry an image exactly when served locally, and exit fields stay zero
      until a container exits. */
  lemma {:induction false} RunKeepsInvariant(cfg: Config, w: World, es: seq<Event>)
    requires Inv(cfg, w) && Run(cfg, w, es)
    ensures Inv(cfg, After(cfg, w, es))
    decreases |es|
  {
    if es != [] {
      EventKeeps(cfg, w, es[0]);
      RunKeepsInvariant(cfg, Next(cfg, w, es[0]), es[1..]);
    }
  }

  /** The invariant spelled out for a service that started empty. */
  lemma ReachableStates(cfg: Config, es: seq<Event>)
    requires Run(cfg, EMPTY, es)
    ensures var end := After(cfg, EMPTY, es);
            && (forall p, c :: p in end.pods && c in end.pods[p].containers ==>
                  c in end.containers && end.containers[c].pod.id == p)
            && (forall p, i, j :: p in end.pods && 0 <= i < j < |end.pods[p].containers| ==>
                  end.pods[p].containers[i] != end.pods[p].containers[j])
            && end.containers == end.files.containers
            && (forall c :: c in end.containers && end.containers[c].state != EXITED ==>
                  end.containers[c].exitCode == 0 && end.containers[c].finishedAt == 0)
            && (forall c :: c in end.containers ==>
                  (end.containers[c].image.Some? <==>
                    GetRemoteRuntime(cfg.remotes, end.containers[c].pod.handler) == Local))
  {
    EmptyIsGood(cfg);
    RunKeepsInvariant(cfg, EMPTY, es);
    var end := After(cfg, EMPTY, es);
    assert GoodPods(cfg, end.pods, end.containers) && GoodContainers(cfg, end.containers);
  }

  /** A clean restart resumes every container with the record it had, and every image but
      for what was last pulled or prepared for it. */
  lemma RestartResumesContainers(cfg: Config, w: World, es: seq<Event>, reopen: map<string, string>)
    requires Inv(cfg, w) && Run(cfg, w, es)
    ensures var end, again := After(cfg, w, es), Restart(After(cfg, w, es).files, reopen);
            && again.containers == end.containers
            && again.images.Keys == end.images.Keys
            && (forall k :: k in end.images ==> SameButWork(again.images[k], end.images[k]))
  {
    RunKeepsInvariant(cfg, w, es);
  }

  // ---- when the process ends ----

  /** The handler gets as far as a call to the adapter, the cluster or the network, and the
      process ends in it. */
  predicate CallDies(cfg: Config, w: World, r: Request) {
    match r
    case RunPod(uid, handler, newId, _, net, _, adapter) =>
      GetRemoteRuntime(cfg.remotes, handler) == Local
      && RunEnd(cfg, if uid != "" then uid else newId, net, adapter).Dies?
    case StopPod(id, _, teardown, adapter) =>
      id in w.pods && ServedHere(cfg, w.pods[id].info) && StopEnd(w.pods[id], teardown, adapter).Dies?
    case RemovePod(id, _, adapter) =>
      id in w.pods && ServedHere(cfg, w.pods[id].info) && w.pods[id].info.state != READY && adapter.Dies?
    case PodStatus(id, _, adapter) => id in w.pods && ServedHere(cfg, w.pods[id].info) && adapter.Dies?
    case Create(podId, _, imageRef, _, _, _, order, work, _) =>
      podId in w.pods && ServedHere(cfg, w.pods[podId].info) && FindImage(w.images, imageRef, order).Some? &&
        work.end.Dies?
    case Start(id, remote, run, _) =>
      id in w.containers && !Dispatch(cfg.remotes, w.containers[id].pod.handler, remote).Answered?
      && w.containers[id].state == CREATED && Submit(w.containers[id], run).Interrupted?
    case Stop(id, remote, scancel, _) =>
      id in w.containers && !Dispatch(cfg.remotes, w.containers[id].pod.handler, remote).Answered?
      && w.containers[id].state == RUNNING && Cancel(w.containers[id], scancel).Dies?
    case Remove(id, _, reopen) =>
      id in w.containers && ServedHere(cfg, w.containers[id].pod) && w.containers[id].state != RUNNING && reopen.Dies?
    case Status(id, _, answer) =>
      id in w.containers && ServedHere(cfg, w.containers[id].pod) && StatusBreaks(w.containers[id], answer)
    case Pull(image, names, _, _, work) =>
      var route := ImageManager(cfg.remotes, image, names);
      route.ServeLocally? && ParseName(route.image).Some? && work.end.Dies?
    case DropImage(image, names, order, _, adapter) =>
      var route := ImageManager(cfg.remotes, image, names);
      route.ServeLocally? && FindImage(w.images, route.image, order).Some? && adapter.Dies?
    case ListAll(_, _, _, adapter) => adapter.Dies?
  }

  predicate ServedHere(cfg: Config, info: PodInfo) {
    GetRemoteRuntime(cfg.remotes, info.handler) == Local
  }

  /** A container id the service does not know reaches a missing record: a status request
      when no default remote takes it, or a removal that the default remote accepts. */
  predicate MissesRecord(cfg: Config, w: World, r: Request) {
    || (r.Status? && r.id !in w.containers && GetRemoteRuntime(cfg.remotes, "") == Local)
    || (r.Remove? && r.id !in w.containers && Dispatch(cfg.remotes, "", r.remote).Answered?)
  }

  lemma RunPodCrashes(cfg: Config, w: World, r: Request)
    requires r.RunPod?
    ensures Exec(cfg, w, r).reply == Crashed <==> CallDies(cfg, w, r)
  {
  }

  lemma PodRequestsCrash(cfg: Config, w: World, r: Request)
    requires r.StopPod? || r.RemovePod? || r.PodStatus?
    ensures Exec(cfg, w, r).reply == Crashed <==> CallDies(cfg, w, r)
  {
  }

  lemma ImageRequestsCrash(cfg: Config, w: World, r: Request)
    requires r.Pull? || r.DropImage? || r.ListAll?
    ensures Exec(cfg, w, r).reply == Crashed <==> CallDies(cfg, w, r)
  {
  }

  lemma CreateCrashes(cfg: Config, w: World, r: Request)
    requires r.Create?
    ensures Exec(cfg, w, r).reply == Crashed <==> CallDies(cfg, w, r)
  {
  }

  lemma StartAndStopCrash(cfg: Config, w: World, r: Request)
    requires Inv(cfg, w) && (r.Start? || r.Stop?)
    ensures Exec(cfg, w, r).reply == Crashed <==> CallDies(cfg, w, r)
  {
  }

  lemma RemoveCrashes(cfg: Config, w: World, r: Request)
    requires Inv(cfg, w) && r.Remove?
    ensures Exec(cfg, w, r).reply == Crashed <==> MissesRecord(cfg, w, r) || CallDies(cfg, w, r)
  {
    if r.id in w.containers {
      DropKeeps(cfg, w, w.containers[r.id].pod.id, r.id);
    }
  }

  lemma StatusCrashes(cfg: Config, w: World, r: Request)
    requires Inv(cfg, w) && r.Status?
    ensures Exec(cfg, w, r).reply == Crashed <==> MissesRecord(cfg, w, r) || CallDies(cfg, w, r)
  {
    if r.id in w.containers {
      assert GoodContainer(cfg, w.containers[r.id]);
    }
  }

  /** The process ends in a handler exactly when the handler reaches a call that ends it, or
      misses the record of an unknown container: the handlers' own code adds no other way,
      neither through the deletion loop nor through a container without an image. */
  lemma CrashesExactlyWhen(cfg: Config, w: World, r: Request)
    requires Inv(cfg, w)
    ensures Exec(cfg, w, r).reply == Crashed <==> MissesRecord(cfg, w, r) || CallDies(cfg, w, r)
  {
    if r.RunPod? {
      RunPodCrashes(cfg, w, r);
    } else if r.StopPod? || r.RemovePod? || r.PodStatus? {
      PodRequestsCrash(cfg, w, r);
    } else if r.Pull? || r.DropImage? || r.ListAll? {
      ImageRequestsCrash(cfg, w, r);
    } else if r.Create? {
      CreateCrashes(cfg, w, r);
    } else if r.Start? || r.Stop? {
      StartAndStopCrash(cfg, w, r);
    } else if r.Remove? {
      RemoveCrashes(cfg, w, r);
    } else {
      StatusCrashes(cfg, w, r);
    }
  }

  /** A blank answer from accounting, as for a job it no longer holds, ends the process in a
      status request for any local container that has a job and has not exited. */
  lemma BlankAccountingCrashes(cfg: Config, w: World, id: string, remote: Answer, output: string)
    requires Inv(cfg, w) && id in w.containers && ServedHere(cfg, w.containers[id].pod) && Blank(output)
    requires w.containers[id].state != EXITED && w.containers[id].credentials && w.containers[id].pid != 0
    ensures Exec(cfg, w, Status(id, remote, ReadAccounting(output))).reply == Crashed
  {
    BlankAccountingPanics(output);
    CrashesExactlyWhen(cfg, w, Status(id, remote, ReadAccounting(output)));
  }

  // ---- one container's life ----

  /** What a request does to the record of a container that exists. */
  function Evolved(cfg: Config, c: Container, r: Request): Container {
    match r
    case Start(id, remote, run, now) =>
      if id != c.id || Dispatch(cfg.remotes, c.pod.handler, remote).Answered? || c.state != CREATED then c
      else Started(c, Submit(c, run), now)
    case Stop(id, remote, scancel, now) =>
      if id != c.id || Dispatch(cfg.remotes, c.pod.handler, remote).Answered? || c.state != RUNNING
         || Cancel(c, scancel) != Returns then c
      else c.(state := EXITED, finishedAt := now)
    case Status(id, remote, answer) =>
      if id != c.id || GetRemoteRuntime(cfg.remotes, c.pod.handler) != Local then c else Observed(c, answer)
    case _ => c
  }

  /** Every write to a container's record writes the given one. */
  predicate WritesOnly(ws: seq<Write>, id: string, c: Container) {
    forall i :: 0 <= i < |ws| && ws[i].PutContainer? && ws[i].id == id ==> ws[i].container == c
  }

  /** After any number of such writes the record is the old one or the new one. */
  lemma {:induction false} PrefixContainer(f: Files, ws: seq<Write>, k: nat, id: string, c: Container)
    requires k <= |ws| && id in f.containers && WritesOnly(ws, id, c)
    ensures var g := Replay(f, ws[..k]);
            id in g.containers && (g.containers[id] == f.containers[id] || g.containers[id] == c)
    decreases k
  {
    if k > 0 {
      assert ws[..k][1..] == ws[1..][..k - 1];
      PrefixContainer(Apply(f, ws[0]), ws[1..], k - 1, id, c);
    }
  }

  predicate OnlyImageDeletes(ws: seq<Write>) {
    forall i :: 0 <= i < |ws| ==> ws[i].DeleteImage?
  }

  lemma {:induction false} ListWritesDeleteImages(images: map<string, Image>, filter: string, order: seq<string>,
                                                  present: set<string>)
    ensures OnlyImageDeletes(ListImages(images, filter, order, present).writes)
    decreases |order|
  {
    if order != [] {
      ListWritesDeleteImages(images, filter, order[1..], present);
      if order[0] in images && ImageFilter(images[order[0]], filter) && images[order[0]].localPath !in present {
        ListWritesDeleteImages(images - {images[order[0]].id}, filter, order[1..], present);
      }
    }
  }

  predicate Effect(cfg: Config, w: World, r: Request, id: string)
    requires id in w.containers
  {
    var o := Exec(cfg, w, r);
    var c := Evolved(cfg, w.containers[id], r);
    id in o.world.containers && o.world.containers[id] == c && WritesOnly(o.writes, id, c)
  }

  /** Nothing happens to any container, in memory or in the file. */
  predicate SparesContainers(w: World, o: Outcome) {
    o.world.containers == w.containers && forall i :: 0 <= i < |o.writes| ==> !o.writes[i].PutContainer?
  }

  predicate NeverOnContainers(r: Request) {
    !(r.Create? || r.Start? || r.Stop? || r.Status?)
  }

  lemma RunLocallySpares(cfg: Config, w: World, id: string, handler: string, net: NetworkCalls, logPath: string,
                         adapter: CallEnd)
    ensures SparesContainers(w, RunLocally(cfg, w, id, handler, net, logPath, adapter))
  {
  }

  lemma RunPodSpares(cfg: Config, w: World, r: Request)
    requires r.RunPod?
    ensures SparesContainers(w, Exec(cfg, w, r))
  {
    RunLocallySpares(cfg, w, if r.uid != "" then r.uid else r.newId, r.handler, r.net, r.logPath, r.adapter);
  }

  lemma StopPodSpares(cfg: Config, w: World, r: Request)
    requires r.StopPod?
    ensures SparesContainers(w, Exec(cfg, w, r))
  {
  }

  lemma RemovePodSpares(cfg: Config, w: World, r: Request)
    requires r.RemovePod?
    ensures SparesContainers(w, Exec(cfg, w, r))
  {
    RemovePodShape(cfg, w, r);
  }

  lemma PodStatusSpares(cfg: Config, w: World, r: Request)
    requires r.PodStatus?
    ensures SparesContainers(w, Exec(cfg, w, r))
  {
  }

  lemma PullLocallySpares(cfg: Config, w: World, name: string, newId: string, work: ImageWork)
    ensures SparesContainers(w, PullLocally(cfg, w, name, newId, work))
  {
  }

  lemma PullSpares(cfg: Config, w: World, r: Request)
    requires r.Pull?
    ensures SparesContainers(w, Exec(cfg, w, r))
  {
    match ImageManager(cfg.remotes, r.image, r.names)
    case ServeRemotely(_, _) =>
    case ServeLocally(name) => PullLocallySpares(cfg, w, name, r.newId, r.work);
  }

  lemma DropImageSpares(cfg: Config, w: World, r: Request)
    requires r.DropImage? || r.ListAll?
    ensures SparesContainers(w, Exec(cfg, w, r))
  {
    if r.ListAll? {
      ListWritesDeleteImages(w.images, r.filter, r.order, r.present);
    }
  }

  /** Taking an id off its pod's list leaves the container itself alone. */
  lemma RemoveSpares(cfg: Config, w: World, r: Request)
    requires r.Remove?
    ensures SparesContainers(w, Exec(cfg, w, r))
  {
    if r.id in w.containers {
      var c := w.containers[r.id];
      RemoveKnownShape(cfg, w, c, r.remote, r.reopen);
      DropWritesPods(w, c.pod.id, c.id);
    }
  }

  lemma OthersSpareContainers(cfg: Config, w: World, r: Request)
    requires NeverOnContainers(r)
    ensures SparesContainers(w, Exec(cfg, w, r))
  {
    if r.RunPod? {
      RunPodSpares(cfg, w, r);
    } else if r.StopPod? {
      StopPodSpares(cfg, w, r);
    } else if r.RemovePod? {
      RemovePodSpares(cfg, w, r);
    } else if r.PodStatus? {
      PodStatusSpares(cfg, w, r);
    } else if r.Pull? {
      PullSpares(cfg, w, r);
    } else if r.Remove? {
      RemoveSpares(cfg, w, r);
    } else {
      DropImageSpares(cfg, w, r);
    }
  }

  /** Creating a container writes under its new id only. */
  lemma CreateWritesNewId(cfg: Config, w: World, r: Request, id: string)
    requires r.Create? && FreshIds(w, r) && id in w.containers
    ensures var o := Exec(cfg, w, r);
            && id in o.world.containers && o.world.containers[id] == w.containers[id]
            && forall i :: 0 <= i < |o.writes| ==> !(o.writes[i].PutContainer? && o.writes[i].id == id)
  {
  }

  lemma CreateEffect(cfg: Config, w: World, r: Request, id: string)
    requires Inv(cfg, w) && id in w.containers && r.Create? && FreshIds(w, r)
    ensures Effect(cfg, w, r, id)
  {
    CreateWritesNewId(cfg, w, r, id);
  }

  lemma StartEffect(cfg: Config, w: World, r: Request, id: string)
    requires Inv(cfg, w) && id in w.containers && r.Start?
    ensures Effect(cfg, w, r, id)
  {
    if r.id in w.containers {
      StartShape(cfg, w, w.containers[r.id], r.remote, r.run, r.now);
    }
  }

  /** What a request on a known container writes: nothing, or its record as it has become. */
  predicate SavesOrNot(w: World, o: Outcome, c: Container, d: Container) {
    || (o.writes == [] && o.world.containers == w.containers && d == c)
    || (o.writes == [PutContainer(c.id, d)] && o.world.containers == w.containers[c.id := d])
  }

  lemma StartShape(cfg: Config, w: World, c: Container, remote: Answer, run: SbatchRun, now: int)
    ensures SavesOrNot(w, StartKnown(cfg, w, c, remote, run, now), c, Evolved(cfg, c, Start(c.id, remote, run, now)))
  {
  }

  lemma StopShape(cfg: Config, w: World, c: Container, remote: Answer, scancel: ScancelAnswer, now: int)
    ensures SavesOrNot(w, StopKnown(cfg, w, c, remote, scancel, now), c,
      Evolved(cfg, c, Stop(c.id, remote, scancel, now)))
  {
  }

  lemma StatusShape(cfg: Config, w: World, c: Container, remote: Answer, answer: StatusAnswer)
    ensures SavesOrNot(w, StatusKnown(cfg, w, c, remote, answer), c, Evolved(cfg, c, Status(c.id, remote, answer)))
  {
    RefreshSetsExitFields(c, answer);
  }

  lemma DropWritesPods(w: World, podId: string, id: string)
    ensures var o := DropFromPod(w, podId, id);
            o.world.containers == w.containers && forall i :: 0 <= i < |o.writes| ==> o.writes[i].PutPod?
  {
  }

  lemma StopEffect(cfg: Config, w: World, r: Request, id: string)
    requires Inv(cfg, w) && id in w.containers && r.Stop?
    ensures Effect(cfg, w, r, id)
  {
    if r.id in w.containers {
      StopShape(cfg, w, w.containers[r.id], r.remote, r.scancel, r.now);
    }
  }

  lemma StatusEffect(cfg: Config, w: World, r: Request, id: string)
    requires Inv(cfg, w) && id in w.containers && r.Status?
    ensures Effect(cfg, w, r, id)
  {
    if r.id in w.containers {
      StatusShape(cfg, w, w.containers[r.id], r.remote, r.answer);
    }
  }

  lemma RequestEffect(cfg: Config, w: World, r: Request, id: string)
    requires Inv(cfg, w) && FreshIds(w, r) && id in w.containers
    ensures Effect(cfg, w, r, id)
  {
    if NeverOnContainers(r) {
      OthersSpareContainers(cfg, w, r);
    } else if r.Create? {
      CreateEffect(cfg, w, r, id);
    } else if r.Start? {
      StartEffect(cfg, w, r, id);
    } else if r.Stop? {
      StopEffect(cfg, w, r, id);
    } else {
      StatusEffect(cfg, w, r, id);
    }
  }

  /** No event loses a container; a crash leaves its record as before the request or after it. */
  lemma EventEvolves(cfg: Config, w: World, e: Event, id: string)
    requires Inv(cfg, w) && Possible(cfg, w, e) && id in w.containers
    ensures var w' := Next(cfg, w, e);
            id in w'.containers
            && (w'.containers[id] == Evolved(cfg, w.containers[id], e.r)
                || (e.CutOff? && w'.containers[id] == w.containers[id]))
  {
    RequestEffect(cfg, w, e.r, id);
    if e.CutOff? {
      PrefixContainer(w.files, Exec(cfg, w, e.r).writes, e.k, id, Evolved(cfg, w.containers[id], e.r));
    }
  }

  lemma EvolvedKeepsIdentity(cfg: Config, c: Container, r: Request)
    ensures SameIdentity(Evolved(cfg, c, r), c)
    ensures c.state == EXITED ==> Evolved(cfg, c, r) == c
  {
    if r.Status? {
      RefreshSetsExitFields(c, r.answer);
    }
  }

  /** Over every run, crashes included: a container once known stays known with the same
      pod, handler, image and environment; and once exited its record never changes. */
  lemma {:induction false} ContainersPersist(cfg: Config, w: World, es: seq<Event>, id: string)
    requires Inv(cfg, w) && Run(cfg, w, es) && id in w.containers
    ensures var end := After(cfg, w, es);
            id in end.containers && SameIdentity(end.containers[id], w.containers[id])
            && (w.containers[id].state == EXITED ==> end.containers[id] == w.containers[id])
    decreases |es|
  {
    if es != [] {
      EventKeeps(cfg, w, es[0]);
      EventEvolves(cfg, w, es[0], id);
      EvolvedKeepsIdentity(cfg, w.containers[id], es[0].r);
      ContainersPersist(cfg, Next(cfg, w, es[0]), es[1..], id);
    }
  }

  // ---- the job number of a container ----

  predicate NoStartOf(es: seq<Event>, id: string) {
    forall i :: 0 <= i < |es| && es[i].r.Start? ==> es[i].r.id != id
  }

  lemma EvolvedKeepsPid(cfg: Config, c: Container, r: Request)
    requires r.Start? ==> r.id != c.id
    ensures Evolved(cfg, c, r).pid == c.pid
  {
    if r.Status? {
      RefreshSetsExitFields(c, r.answer);
    }
  }

  /** Only a start sets the pid. */
  lemma {:induction false} PidKept(cfg: Config, w: World, es: seq<Event>, id: string)
    requires Inv(cfg, w) && Run(cfg, w, es) && id in w.containers && NoStartOf(es, id)
    ensures id in After(cfg, w, es).containers && After(cfg, w, es).containers[id].pid == w.containers[id].pid
    decreases |es|
  {
    if es != [] {
      EventKeeps(cfg, w, es[0]);
      EventEvolves(cfg, w, es[0], id);
      EvolvedKeepsPid(cfg, w.containers[id], es[0].r);
      PidKept(cfg, Next(cfg, w, es[0]), es[1..], id);
    }
  }

  lemma StartedPid(cfg: Config, w: World, r: Request, noise: string, n: nat, blanks: string)
    requires Inv(cfg, w) && r.Start? && r.id in w.containers
    requires Exec(cfg, w, r).reply == Done && GetRemoteRuntime(cfg.remotes, w.containers[r.id].pod.handler) == Local
    requires r.run == ReadSbatch(SbatchReport(noise, n, blanks)) && !Contains(noise, SUBMITTED) && Blank(blanks)
    ensures w.containers[r.id].credentials && SameIdentity(Exec(cfg, w, r).world.containers[r.id], w.containers[r.id])
    ensures r.id in Exec(cfg, w, r).world.containers
    ensures Exec(cfg, w, r).world.containers[r.id].pid == Submit(w.containers[r.id], r.run).pid
  {
  }
}
