/** Pod records from the run that makes them to the stop that ends them, and the runtimes that
    serve the requests on their containers. */
module PodLives {
  import opened Records
  import opened Persistence
  import opened RemoteRuntimes
  import opened Lifecycle
  import opened Requests
  import opened Runs
  import opened Histories
  import opened Listings
  import opened PodRuns
  import opened Outcomes

  // ---- where pod records come from ----

  /** The service itself serves the pods of the handler. */
  predicate Here(cfg: Config, handler: string) {
    handler == HANDLER || cfg.remotes == map[]
  }

  /** The address a set-up reports, where there is one to report. */
  function AddressOf(cfg: Config, r: Request): string
    requires r.RunPod?
  {
    if cfg.netPlugin && r.net.podMode then r.net.ip else ""
  }

  /** The run of a pod that made a record, or the record it was copied from: of the request's
      handler, under the uid or the new id when it runs here and under the id of the remote, or
      the new id, when it does not; without a namespace path, and with no log path or address
      but those of the request. */
  predicate RunBy(cfg: Config, r: Request, info: PodInfo) {
    && r.RunPod? && info.handler == r.handler && info.netNSPath == ""
    && if Here(cfg, r.handler) then
         && info.id == (if r.uid != "" then r.uid else r.newId)
         && (info.logPath == "" || info.logPath == r.logPath)
         && (info.ip == "" || info.ip == AddressOf(cfg, r))
       else
         && r.remote.Response? && info.id == (if r.remote.id != "" then r.remote.id else r.newId)
         && info.logPath == "" && info.ip == ""
  }

  predicate RunIn(cfg: Config, es: seq<Event>, info: PodInfo) {
    exists i :: 0 <= i < |es| && RunBy(cfg, es[i].r, info)
  }

  predicate PodsRunIn(cfg: Config, es: seq<Event>, pods: map<string, Pod>) {
    forall k :: k in pods ==> RunIn(cfg, es, pods[k].info)
  }

  predicate CopiesRunIn(cfg: Config, es: seq<Event>, containers: map<string, Container>) {
    forall k :: k in containers ==> RunIn(cfg, es, containers[k].pod)
  }

  /** A record as it may become while its pod lives. */
  predicate Derives(d: PodInfo, c: PodInfo) {
    d == c.(state := d.state, ip := d.ip) && (d.ip == c.ip || d.ip == "")
  }

  /** What a request other than a run leaves of the pods, and writes of them. */
  predicate PodsDerive(w: World, o: Outcome) {
    && (forall k :: k in o.world.pods ==> k in w.pods && Derives(o.world.pods[k].info, w.pods[k].info))
    && (forall i :: 0 <= i < |o.writes| && o.writes[i].PutPod? ==>
          o.writes[i].id in w.pods && Derives(o.writes[i].pod.info, w.pods[o.writes[i].id].info))
  }

  lemma MarkStoppedDerives(w: World, id: string)
    requires id in w.pods ==> w.pods[id].info.id == id
    ensures PodsDerive(w, MarkStopped(w, id))
  {
  }

  lemma StopPodDerives(cfg: Config, w: World, r: Request)
    requires Inv(cfg, w) && r.StopPod?
    ensures PodsDerive(w, Exec(cfg, w, r))
  {
    StopPodShape(cfg, w, r);
    MarkStoppedDerives(w, r.id);
  }

  lemma RemovePodDerives(cfg: Config, w: World, r: Request)
    requires r.RemovePod?
    ensures PodsDerive(w, Exec(cfg, w, r))
  {
    RemovePodShape(cfg, w, r);
  }

  lemma PodStatusDerives(cfg: Config, w: World, r: Request)
    requires r.PodStatus?
    ensures PodsDerive(w, Exec(cfg, w, r))
  {
  }

  lemma CreateHereDerives(w: World, p: Pod, r: Request)
    requires r.Create? && p.info.id in w.pods && w.pods[p.info.id] == p
    ensures PodsDerive(w, CreateHere(w, p, r.name, r.imageRef, r.credentials, r.newId, r.order, r.work, r.now))
  {
  }

  lemma CreateRemotelyDerives(cfg: Config, w: World, p: Pod, id: string)
    requires p.info.id in w.pods && w.pods[p.info.id] == p
    ensures PodsDerive(w, CreateRemotely(cfg, w, p, id))
  {
  }

  lemma CreateDerives(cfg: Config, w: World, r: Request)
    requires Inv(cfg, w) && r.Create?
    ensures PodsDerive(w, Exec(cfg, w, r))
  {
    if r.podId in w.pods {
      var p := w.pods[r.podId];
      match Dispatch(cfg.remotes, p.info.handler, r.remote)
      case Refused(_) =>
      case Answered(id) => CreateRemotelyDerives(cfg, w, p, id);
      case NotRemote => CreateHereDerives(w, p, r);
    }
  }

  lemma DropDerives(w: World, podId: string, id: string)
    requires podId in w.pods ==> w.pods[podId].info.id == podId
    ensures PodsDerive(w, DropFromPod(w, podId, id))
  {
  }

  lemma RemoveDerives(cfg: Config, w: World, r: Request)
    requires Inv(cfg, w) && r.Remove?
    ensures PodsDerive(w, Exec(cfg, w, r))
  {
    if r.id in w.containers {
      var c := w.containers[r.id];
      RemoveKnownShape(cfg, w, c, r.remote, r.reopen);
      DropDerives(w, c.pod.id, c.id);
    }
  }

  lemma ContainersSparePods(cfg: Config, w: World, r: Request)
    requires r.Start? || r.Stop? || r.Status?
    ensures PodsDerive(w, Exec(cfg, w, r))
  {
    ContainersOnly(cfg, w, r);
    if r.id in w.containers {
      var c := w.containers[r.id];
      if r.Start? {
        StartShape(cfg, w, c, r.remote, r.run, r.now);
      } else if r.Stop? {
        StopShape(cfg, w, c, r.remote, r.scancel, r.now);
      } else {
        StatusShape(cfg, w, c, r.remote, r.answer);
      }
    }
  }

  lemma ImagesSparePods(cfg: Config, w: World, r: Request)
    requires r.Pull? || r.DropImage? || r.ListAll?
    ensures PodsDerive(w, Exec(cfg, w, r))
  {
    ImagesOnly(cfg, w, r);
    ImagesWriteNoPod(cfg, w, r);
  }

  lemma OthersDerive(cfg: Config, w: World, r: Request)
    requires Inv(cfg, w) && !r.RunPod?
    ensures PodsDerive(w, Exec(cfg, w, r))
  {
    if r.StopPod? {
      StopPodDerives(cfg, w, r);
    } else if r.RemovePod? {
      RemovePodDerives(cfg, w, r);
    } else if r.PodStatus? {
      PodStatusDerives(cfg, w, r);
    } else if r.Create? {
      CreateDerives(cfg, w, r);
    } else if r.Remove? {
      RemoveDerives(cfg, w, r);
    } else if r.Start? || r.Stop? || r.Status? {
      ContainersSparePods(cfg, w, r);
    } else {
      ImagesSparePods(cfg, w, r);
    }
  }

  /** The pods after a run are those before and the one it makes; the same for its writes. */
  predicate RunsPod(cfg: Config, w: World, r: Request, o: Outcome) {
    && (forall k :: k in o.world.pods ==>
          (k in w.pods && o.world.pods[k] == w.pods[k]) || RunBy(cfg, r, o.world.pods[k].info))
    && (forall i :: 0 <= i < |o.writes| && o.writes[i].PutPod? ==> RunBy(cfg, r, o.writes[i].pod.info))
  }

  lemma SetUpAddress(cfg: Config, r: Request)
    requires r.RunPod? && RunEnd(cfg, LocalId(r), r.net, r.adapter) == Returns
    ensures SetUpPod(cfg, NewPod(LocalId(r), r.handler), r.net, r.logPath) ==
            Pod(PodInfo(LocalId(r), NOTREADY, r.logPath, "", AddressOf(cfg, r), r.handler), [])
  {
  }

  lemma RunLocallyRuns(cfg: Config, w: World, r: Request)
    requires RunsHere(cfg, r)
    ensures RunsPod(cfg, w, r, RunLocally(cfg, w, LocalId(r), r.handler, r.net, r.logPath, r.adapter))
  {
    RoutesExactlyWhen(cfg.remotes, r.handler, Local);
    if RunEnd(cfg, LocalId(r), r.net, r.adapter) == Returns {
      SetUpAddress(cfg, r);
    }
  }

  lemma RunRemotelyRuns(cfg: Config, w: World, r: Request)
    requires r.RunPod? && GetRemoteRuntime(cfg.remotes, r.handler).Remote? && r.remote.Response?
    ensures RunsPod(cfg, w, r, RunRemotely(cfg, w, r.remote.id, r.newId, r.handler))
  {
    RoutesExactlyWhen(cfg.remotes, r.handler, Local);
  }

  lemma RunPodRuns(cfg: Config, w: World, r: Request)
    requires r.RunPod?
    ensures RunsPod(cfg, w, r, Exec(cfg, w, r))
  {
    match Dispatch(cfg.remotes, r.handler, r.remote)
    case Refused(_) =>
    case Answered(_) => RunRemotelyRuns(cfg, w, r);
    case NotRemote => RunLocallyRuns(cfg, w, r);
  }

  lemma RunInMore(cfg: Config, es: seq<Event>, e: Event, c: PodInfo, d: PodInfo)
    requires (RunIn(cfg, es, c) && Derives(d, c)) || RunBy(cfg, e.r, d)
    ensures RunIn(cfg, es + [e], d)
  {
    if RunBy(cfg, e.r, d) {
      assert (es + [e])[|es|] == e;
    } else {
      var i :| 0 <= i < |es| && RunBy(cfg, es[i].r, c);
      assert (es + [e])[i] == es[i] && RunBy(cfg, (es + [e])[i].r, d);
    }
  }

  predicate WritesRunIn(cfg: Config, es: seq<Event>, ws: seq<Write>) {
    forall i :: 0 <= i < |ws| && ws[i].PutPod? ==> RunIn(cfg, es, ws[i].pod.info)
  }

  lemma {:induction false} ReplayRunIn(cfg: Config, es: seq<Event>, f: Files, ws: seq<Write>)
    requires PodsRunIn(cfg, es, f.pods) && WritesRunIn(cfg, es, ws)
    ensures PodsRunIn(cfg, es, Replay(f, ws).pods)
    decreases |ws|
  {
    if ws != [] {
      ReplayRunIn(cfg, es, Apply(f, ws[0]), ws[1..]);
    }
  }

  lemma RequestRunIn(cfg: Config, w: World, e: Event, es: seq<Event>)
    requires Inv(cfg, w) && PodsRunIn(cfg, es, w.pods)
    ensures PodsRunIn(cfg, es + [e], Exec(cfg, w, e.r).world.pods)
    ensures WritesRunIn(cfg, es + [e], Exec(cfg, w, e.r).writes)
  {
    var o := Exec(cfg, w, e.r);
    if e.r.RunPod? {
      RunPodRuns(cfg, w, e.r);
    } else {
      OthersDerive(cfg, w, e.r);
    }
    forall k | k in o.world.pods ensures RunIn(cfg, es + [e], o.world.pods[k].info) {
      RunInMore(cfg, es, e, if k in w.pods then w.pods[k].info else o.world.pods[k].info, o.world.pods[k].info);
    }
    forall i | 0 <= i < |o.writes| && o.writes[i].PutPod? ensures RunIn(cfg, es + [e], o.writes[i].pod.info) {
      var d := o.writes[i].pod.info;
      RunInMore(cfg, es, e, if o.writes[i].id in w.pods then w.pods[o.writes[i].id].info else d, d);
    }
  }

  /** Pods live only until the next restart, so their records come from runs since. */
  lemma EventPodsRunIn(cfg: Config, w: World, e: Event, es: seq<Event>)
    requires Inv(cfg, w) && NoPaths(w) && Possible(cfg, w, e)
    requires PodsRunIn(cfg, es, w.pods) && PodsRunIn(cfg, es, w.files.pods)
    ensures PodsRunIn(cfg, es + [e], Next(cfg, w, e).pods) && PodsRunIn(cfg, es + [e], Next(cfg, w, e).files.pods)
  {
    if e.Handled? {
      RequestRunIn(cfg, w, e, es);
      FilesReplayed(cfg, w, e.r);
      forall k | k in w.files.pods ensures RunIn(cfg, es + [e], w.files.pods[k].info) {
        RunInMore(cfg, es, e, w.files.pods[k].info, w.files.pods[k].info);
      }
      ReplayRunIn(cfg, es + [e], w.files, Exec(cfg, w, e.r).writes);
    } else {
      NextSetsNoPath(cfg, w, e);
      CutOffForgets(cfg, w, e);
    }
  }

  lemma CutOffForgets(cfg: Config, w: World, e: Event)
    requires NoPaths(w) && Possible(cfg, w, e) && e.CutOff?
    ensures Next(cfg, w, e).pods == map[] && Next(cfg, w, e).files.pods == map[]
  {
    RequestSetsNoPath(cfg, w, e.r);
    ReplayNoPaths(w.files, Exec(cfg, w, e.r).writes, e.k);
  }

  /** A container's copy is the record its pod had at the creation. */
  predicate CopiesOne(w: World, after: map<string, Container>) {
    forall k :: k in after && k !in w.containers ==>
      after[k].pod.id in w.pods && after[k].pod == w.pods[after[k].pod.id].info
  }

  predicate WritesCopies(w: World, ws: seq<Write>) {
    forall i :: 0 <= i < |ws| && ws[i].PutContainer? && ws[i].id !in w.containers ==>
      ws[i].container.pod.id in w.pods && ws[i].container.pod == w.pods[ws[i].container.pod.id].info
  }

  lemma {:induction false} ReplayCopies(w: World, f: Files, ws: seq<Write>, k: nat)
    requires k <= |ws| && WritesCopies(w, ws) && CopiesOne(w, f.containers)
    ensures CopiesOne(w, Replay(f, ws[..k]).containers)
    decreases k
  {
    if k > 0 {
      assert ws[..k][1..] == ws[1..][..k - 1];
      ReplayCopies(w, Apply(f, ws[0]), ws[1..], k - 1);
    }
  }

  predicate Copies(w: World, o: Outcome) {
    CopiesOne(w, o.world.containers) && WritesCopies(w, o.writes)
  }

  lemma CreateRemotelyCopies(cfg: Config, w: World, p: Pod, id: string)
    requires p.info.id in w.pods && w.pods[p.info.id] == p
    ensures Copies(w, CreateRemotely(cfg, w, p, id))
  {
  }

  lemma CreateHereCopies(w: World, p: Pod, r: Request)
    requires r.Create? && p.info.id in w.pods && w.pods[p.info.id] == p
    ensures Copies(w, CreateHere(w, p, r.name, r.imageRef, r.credentials, r.newId, r.order, r.work, r.now))
  {
  }

  lemma CreateCopies(cfg: Config, w: World, r: Request)
    requires Inv(cfg, w) && r.Create?
    ensures Copies(w, Exec(cfg, w, r))
  {
    if r.podId in w.pods {
      var p := w.pods[r.podId];
      match Dispatch(cfg.remotes, p.info.handler, r.remote)
      case Refused(_) =>
      case Answered(id) => CreateRemotelyCopies(cfg, w, p, id);
      case NotRemote => CreateHereCopies(w, p, r);
    }
  }

  lemma OthersCopyNone(cfg: Config, w: World, r: Request)
    requires Inv(cfg, w) && !r.Create?
    ensures Copies(w, Exec(cfg, w, r))
  {
    if NeverOnContainers(r) {
      OthersSpareContainers(cfg, w, r);
    } else if r.id in w.containers {
      var c := w.containers[r.id];
      if r.Start? {
        StartShape(cfg, w, c, r.remote, r.run, r.now);
      } else if r.Stop? {
        StopShape(cfg, w, c, r.remote, r.scancel, r.now);
      } else {
        StatusShape(cfg, w, c, r.remote, r.answer);
      }
    }
  }

  lemma EventCopies(cfg: Config, w: World, e: Event)
    requires Inv(cfg, w) && Possible(cfg, w, e)
    ensures CopiesOne(w, Next(cfg, w, e).containers)
  {
    if e.r.Create? {
      CreateCopies(cfg, w, e.r);
    } else {
      OthersCopyNone(cfg, w, e.r);
    }
    if e.CutOff? {
      ReplayCopies(w, w.files, Exec(cfg, w, e.r).writes, e.k);
    }
  }

  lemma EventCopiesRunIn(cfg: Config, w: World, e: Event, es: seq<Event>)
    requires Inv(cfg, w) && Possible(cfg, w, e) && PodsRunIn(cfg, es, w.pods) && CopiesRunIn(cfg, es, w.containers)
    ensures CopiesRunIn(cfg, es + [e], Next(cfg, w, e).containers)
  {
    EventCopies(cfg, w, e);
    var after := Next(cfg, w, e).containers;
    forall k | k in after ensures RunIn(cfg, es + [e], after[k].pod) {
      if k in w.containers {
        EventEvolves(cfg, w, e, k);
        EvolvedKeepsIdentity(cfg, w.containers[k], e.r);
      }
      RunInMore(cfg, es, e, after[k].pod, after[k].pod);
    }
  }

  lemma {:induction false} RunRunIn(cfg: Config, w: World, es: seq<Event>, before: seq<Event>)
    requires Inv(cfg, w) && NoPaths(w) && Run(cfg, w, es)
    requires PodsRunIn(cfg, before, w.pods) && PodsRunIn(cfg, before, w.files.pods)
    requires CopiesRunIn(cfg, before, w.containers)
    ensures var end := After(cfg, w, es);
            && PodsRunIn(cfg, before + es, end.pods) && PodsRunIn(cfg, before + es, end.files.pods)
            && CopiesRunIn(cfg, before + es, end.containers)
    decreases |es|
  {
    if es == [] {
      assert before + es == before;
    } else {
      EventKeeps(cfg, w, es[0]);
      NextSetsNoPath(cfg, w, es[0]);
      EventPodsRunIn(cfg, w, es[0], before);
      EventCopiesRunIn(cfg, w, es[0], before);
      RunRunIn(cfg, Next(cfg, w, es[0]), es[1..], before + [es[0]]);
      assert before + [es[0]] + es[1..] == before + es;
    }
  }

  /** Over every run from an empty service, crashes included: every pod record, in memory and in
      the file, and every copy of one in a container, comes from a run request of the run, with
      its handler, id, log path and address. */
  lemma PodsComeFromRuns(cfg: Config, es: seq<Event>)
    requires Run(cfg, EMPTY, es)
    ensures var end := After(cfg, EMPTY, es);
            && PodsRunIn(cfg, es, end.pods) && PodsRunIn(cfg, es, end.files.pods)
            && CopiesRunIn(cfg, es, end.containers)
  {
    EmptyIsGood(cfg);
    RunRunIn(cfg, EMPTY, es, []);
    assert [] + es == es;
  }

  // ---- which runtime serves ----

  /** Over every run from an empty service: a request on a container reaches the runtime that
      the handler names with which its pod was run, this service for its own handler or without
      remotes, and else the configured remote of that name; or it is a start that got an error
      from there, and reaches the adapter as well. */
  lemma RequestsReachTheNamedRemote(cfg: Config, es: seq<Event>, m: Mark) returns (i: nat)
    requires Run(cfg, EMPTY, es) && m in History(cfg, EMPTY, es) && m.Sent? && ContainerOp(m.op)
    ensures i < |es| && es[i].r.RunPod?
    ensures var end, h := After(cfg, EMPTY, es), es[i].r.handler;
            && m.id in end.containers && RunBy(cfg, es[i].r, end.containers[m.id].pod)
            && (h == HANDLER || cfg.remotes == map[] ==> m.target == Local)
            && (h != HANDLER && cfg.remotes != map[] ==>
                  var name := if h == "" then DEFAULT else h;
                  && name in cfg.remotes
                  && (m.target == Remote(name) || (m.target == Local && m.op == StartOp && FellThrough(es, m.id))))
  {
    EmptyIsGood(cfg);
    RunKeepsInvariant(cfg, EMPTY, es);
    CallsGoHomeOrFallThrough(cfg, EMPTY, es, m);
    PodsComeFromRuns(cfg, es);
    var end := After(cfg, EMPTY, es);
    var c := end.containers[m.id];
    i :| 0 <= i < |es| && RunBy(cfg, es[i].r, c.pod);
    assert GoodContainer(cfg, c);
    RoutesExactlyWhen(cfg.remotes, c.pod.handler, Home(cfg, end, m.id));
  }

  /** The id that a pod runs under. */
  function RunId(cfg: Config, r: Request): string
    requires r.RunPod?
  {
    var given := if Here(cfg, r.handler) then r.uid
                 else if r.remote.Response? then r.remote.id else "";
    if given != "" then given else r.newId
  }

  /** A run of a pod that succeeds reaches the runtime that its handler names, and leaves its
      record in memory and in the file: not ready, without containers or a namespace path, and
      of a local pod with the given log path and the address the plug-in reported, if it was
      asked. */
  lemma SuccessfulRunRecords(cfg: Config, w: World, r: Request)
    requires r.RunPod? && Exec(cfg, w, r).reply.DoneId?
    ensures var o, id := Exec(cfg, w, r), RunId(cfg, r);
            var here := Here(cfg, r.handler);
            var p := Pod(PodInfo(id, NOTREADY, if here then r.logPath else "", "",
                                 if here then AddressOf(cfg, r) else "", r.handler), []);
            && o.world.pods == w.pods[id := p] && o.world.files.pods == w.files.pods[id := p]
            && (here ==> o.reply == DoneId(id)) && (!here ==> o.reply == DoneId(r.remote.id))
    ensures exists route ::
              Belongs(cfg.remotes, r.handler, route) && Exec(cfg, w, r).marks == [Sent(RunOp, RunId(cfg, r), route)]
  {
    RoutesExactlyWhen(cfg.remotes, r.handler, GetRemoteRuntime(cfg.remotes, r.handler));
    if RunsHere(cfg, r) {
      FailedRunLeavesNoRecord(cfg, w, r);
      SetUpAddress(cfg, r);
      RunLocallyIs(cfg, w, LocalId(r), r.handler, r.net, r.logPath, r.adapter);
      PutOver(w.files.pods, LocalId(r), NewPod(LocalId(r), r.handler),
              SetUpPod(cfg, NewPod(LocalId(r), r.handler), r.net, r.logPath));
      PutOver(w.pods, LocalId(r), NewPod(LocalId(r), r.handler),
              SetUpPod(cfg, NewPod(LocalId(r), r.handler), r.net, r.logPath));
    } else {
      RunRemotelyIs(cfg, w, r.remote.id, r.newId, r.handler);
      PutOver(w.files.pods, RunId(cfg, r), NewPod(RunId(cfg, r), r.handler), NewPod(RunId(cfg, r), r.handler));
      PutOver(w.pods, RunId(cfg, r), NewPod(RunId(cfg, r), r.handler), NewPod(RunId(cfg, r), r.handler));
    }
  }

  // ---- from the set-up to the stop ----

  /** The request stops or removes the pod or runs one under its id. Removing a pod the service
      does not know drops the record under the empty id. */
  predicate Touches(r: Request, id: string) {
    match r
    case RunPod(uid, _, newId, remote, _, _, _) => id == uid || id == newId || remote == Response(id)
    case StopPod(k, _, _, _) => id == k
    case RemovePod(k, _, _) => id == k || id == ""
    case _ => false
  }

  /** No request of the run touches the pod, and nothing restarts the service. */
  predicate Undisturbed(es: seq<Event>, id: string) {
    forall i :: 0 <= i < |es| ==> es[i].Handled? && !Touches(es[i].r, id)
  }

  predicate SeesReady(cfg: Config, info: PodInfo) {
    info.ip != "" || !cfg.netPlugin
  }

  /** Only the state may differ, and only in the way of a pod that was seen ready. */
  predicate StaysUp(cfg: Config, before: map<string, Pod>, after: map<string, Pod>, id: string) {
    && id in before && id in after
    && (after[id].info == before[id].info
        || (SeesReady(cfg, before[id].info) && after[id].info == before[id].info.(state := READY)))
  }

  lemma RunPodStaysUp(cfg: Config, w: World, r: Request, id: string)
    requires id in w.pods && r.RunPod? && !Touches(r, id)
    ensures StaysUp(cfg, w.pods, Exec(cfg, w, r).world.pods, id)
  {
  }

  lemma StopPodStaysUp(cfg: Config, w: World, r: Request, id: string)
    requires Inv(cfg, w) && id in w.pods && (r.StopPod? || r.RemovePod?) && !Touches(r, id)
    ensures StaysUp(cfg, w.pods, Exec(cfg, w, r).world.pods, id)
  {
    if r.StopPod? {
      StopPodShape(cfg, w, r);
    } else {
      RemovePodShape(cfg, w, r);
    }
  }

  lemma PodStatusStaysUp(cfg: Config, w: World, r: Request, id: string)
    requires id in w.pods && r.PodStatus?
    ensures StaysUp(cfg, w.pods, Exec(cfg, w, r).world.pods, id)
  {
  }

  lemma CreateRemotelyStaysUp(cfg: Config, w: World, p: Pod, newId: string, id: string)
    requires id in w.pods && p.info.id in w.pods && w.pods[p.info.id] == p
    ensures StaysUp(cfg, w.pods, CreateRemotely(cfg, w, p, newId).world.pods, id)
  {
  }

  lemma CreateHereStaysUp(cfg: Config, w: World, p: Pod, r: Request, id: string)
    requires id in w.pods && r.Create? && p.info.id in w.pods && w.pods[p.info.id] == p
    ensures var o := CreateHere(w, p, r.name, r.imageRef, r.credentials, r.newId, r.order, r.work, r.now);
            StaysUp(cfg, w.pods, o.world.pods, id)
  {
  }

  lemma CreateStaysUp(cfg: Config, w: World, r: Request, id: string)
    requires Inv(cfg, w) && id in w.pods && r.Create?
    ensures StaysUp(cfg, w.pods, Exec(cfg, w, r).world.pods, id)
  {
    if r.podId in w.pods {
      var p := w.pods[r.podId];
      match Dispatch(cfg.remotes, p.info.handler, r.remote)
      case Refused(_) =>
      case Answered(newId) => CreateRemotelyStaysUp(cfg, w, p, newId, id);
      case NotRemote => CreateHereStaysUp(cfg, w, p, r, id);
    }
  }

  lemma RemoveStaysUp(cfg: Config, w: World, r: Request, id: string)
    requires Inv(cfg, w) && id in w.pods && r.Remove?
    ensures StaysUp(cfg, w.pods, Exec(cfg, w, r).world.pods, id)
  {
    if r.id in w.containers {
      RemoveKnownShape(cfg, w, w.containers[r.id], r.remote, r.reopen);
    }
  }

  lemma RequestStaysUp(cfg: Config, w: World, r: Request, id: string)
    requires Inv(cfg, w) && id in w.pods && !Touches(r, id)
    ensures StaysUp(cfg, w.pods, Exec(cfg, w, r).world.pods, id)
  {
    if r.RunPod? {
      RunPodStaysUp(cfg, w, r, id);
    } else if r.StopPod? || r.RemovePod? {
      StopPodStaysUp(cfg, w, r, id);
    } else if r.PodStatus? {
      PodStatusStaysUp(cfg, w, r, id);
    } else if r.Create? {
      CreateStaysUp(cfg, w, r, id);
    } else if r.Remove? {
      RemoveStaysUp(cfg, w, r, id);
    } else {
      RequestChangesOnePool(cfg, w, r);
    }
  }

  lemma {:induction false} RunStaysUp(cfg: Config, w: World, es: seq<Event>, id: string)
    requires Inv(cfg, w) && Run(cfg, w, es) && id in w.pods && Undisturbed(es, id)
    ensures StaysUp(cfg, w.pods, After(cfg, w, es).pods, id)
    decreases |es|
  {
    if es != [] {
      EventKeeps(cfg, w, es[0]);
      RequestStaysUp(cfg, w, es[0].r, id);
      RunStaysUp(cfg, Next(cfg, w, es[0]), es[1..], id);
    }
  }

  /** A local pod that was run keeps its log path and the address the plug-in reported, in
      memory and in the file, as long as nothing stops, removes or runs it again; and a status
      request then finds it ready if and only if it has an address or needs none. */
  lemma ReadyExactlyWhen(cfg: Config, w: World, r: Request, es: seq<Event>, status: Request)
    requires Inv(cfg, w) && RunsHere(cfg, r) && Exec(cfg, w, r).reply.DoneId?
    requires Run(cfg, Exec(cfg, w, r).world, es) && Undisturbed(es, LocalId(r))
    requires status.PodStatus? && status.id == LocalId(r)
    ensures var id, end := LocalId(r), After(cfg, Exec(cfg, w, r).world, es);
            var seen := Exec(cfg, end, status).world;
            && id in end.pods && id in end.files.pods && id in seen.pods
            && end.pods[id].info.logPath == end.files.pods[id].info.logPath == r.logPath
            && end.pods[id].info.ip == end.files.pods[id].info.ip
            && end.pods[id].info.ip == (if cfg.netPlugin && r.net.podMode then r.net.ip else "")
            && (seen.pods[id].info.state == READY <==>
                  !cfg.netPlugin || (r.net.podMode && r.net.ip != ""))
  {
    var id, started := LocalId(r), Exec(cfg, w, r).world;
    RoutesExactlyWhen(cfg.remotes, r.handler, Local);
    SuccessfulRunRecords(cfg, w, r);
    RunPodKeeps(cfg, w, r);
    RunStaysUp(cfg, started, es, id);
    RunKeepsInvariant(cfg, started, es);
    var end := After(cfg, started, es);
    assert SameButState(end.pods[id], end.files.pods[id]);
    SeenReady(cfg, end, status);
  }

  lemma SeenReady(cfg: Config, w: World, status: Request)
    requires status.PodStatus? && status.id in w.pods
    requires GetRemoteRuntime(cfg.remotes, w.pods[status.id].info.handler) == Local
    ensures var seen := Exec(cfg, w, status).world;
            && status.id in seen.pods
            && (seen.pods[status.id].info.state == READY <==>
                  w.pods[status.id].info.state == READY || SeesReady(cfg, w.pods[status.id].info))
  {
  }

  // ---- stopping and removing ----

  /** A request for a known pod that its remote answers, or that the service can carry out. */
  predicate StopsPod(cfg: Config, w: World, r: Request)
    requires r.StopPod? && r.id in w.pods
  {
    var info := w.pods[r.id].info;
    if Here(cfg, info.handler) then (info.netNSPath == "" || r.teardown == Returns) && r.adapter == Returns
    else r.remote.Response?
  }

  /** Stopping a known pod succeeds exactly then. In memory and in the file the pod is then not
      ready and has no address, and is otherwise as before; on an error nothing changes. */
  lemma StopsPodExactlyWhen(cfg: Config, w: World, r: Request)
    requires Inv(cfg, w) && r.StopPod? && r.id in w.pods
    ensures var o, p := Exec(cfg, w, r), w.pods[r.id];
            var info := PodInfo(r.id, NOTREADY, p.info.logPath, p.info.netNSPath, "", p.info.handler);
            var stopped := Pod(info, p.containers);
            && (o.reply == Done <==> StopsPod(cfg, w, r))
            && (!Here(cfg, p.info.handler) && r.remote.Failure? ==> o.reply == Failed(r.remote.fault))
            && (Here(cfg, p.info.handler) && p.info.netNSPath == "" ==> o.reply == Ended(r.adapter))
            && o.world == if o.reply == Done
                          then w.(pods := w.pods[r.id := stopped],
                                  files := w.files.(pods := w.files.pods[r.id := stopped])) else w
  {
    RoutesExactlyWhen(cfg.remotes, w.pods[r.id].info.handler, Local);
    assert GoodPods(cfg, w.pods, w.containers);
    StopPodShape(cfg, w, r);
    OneWrite(w.files, PutPod(r.id, Stopped(w.pods[r.id])));
  }

  predicate RemovesPod(cfg: Config, w: World, r: Request)
    requires r.RemovePod? && r.id in w.pods
  {
    var info := w.pods[r.id].info;
    if Here(cfg, info.handler) then info.state == NOTREADY && r.adapter == Returns else r.remote.Response?
  }

  /** Removing a known pod succeeds exactly when its remote answers, or when it is local, not
      ready, and its adapter returns. Its record is then gone from memory and file; on an error
      nothing changes. */
  lemma RemovesPodExactlyWhen(cfg: Config, w: World, r: Request)
    requires Inv(cfg, w) && r.RemovePod? && r.id in w.pods
    ensures var o := Exec(cfg, w, r);
            && (o.reply == Done <==> RemovesPod(cfg, w, r))
            && (!Here(cfg, w.pods[r.id].info.handler) && r.remote.Failure? ==> o.reply == Failed(r.remote.fault))
            && (Here(cfg, w.pods[r.id].info.handler) ==>
                  o.reply == if w.pods[r.id].info.state == READY then Failed(PodRunning) else Ended(r.adapter))
            && o.world == if o.reply == Done
                          then w.(pods := w.pods - {r.id}, files := w.files.(pods := w.files.pods - {r.id})) else w
  {
    RoutesExactlyWhen(cfg.remotes, w.pods[r.id].info.handler, Local);
    assert GoodPods(cfg, w.pods, w.containers);
    RemovePodReply(cfg, w, r);
    OneWrite(w.files, DeletePod(r.id));
  }

  lemma RemovePodReply(cfg: Config, w: World, r: Request)
    requires r.RemovePod? && r.id in w.pods && w.pods[r.id].info.id == r.id
    requires GetRemoteRuntime(cfg.remotes, w.pods[r.id].info.handler) == Local <==> Here(cfg, w.pods[r.id].info.handler)
    requires !GetRemoteRuntime(cfg.remotes, w.pods[r.id].info.handler).NotFound?
    ensures var o := Exec(cfg, w, r);
            && (o.reply == Done <==> RemovesPod(cfg, w, r))
            && (!Here(cfg, w.pods[r.id].info.handler) && r.remote.Failure? ==> o.reply == Failed(r.remote.fault))
            && (Here(cfg, w.pods[r.id].info.handler) ==>
                  o.reply == if w.pods[r.id].info.state == READY then Failed(PodRunning) else Ended(r.adapter))
            && o.world == if o.reply == Done then ForgetPod(w, r.id).world else w
  {
  }

  /** Requests for a pod the service does not know go to the remote of the empty handler, if
      there is one, and fail without. Of what the remote does only a removal leaves a trace: it
      drops the record under the empty id. */
  lemma UnknownPods(cfg: Config, w: World, r: Request)
    requires (r.StopPod? || r.RemovePod? || r.PodStatus?) && r.id !in w.pods
    ensures var o := Exec(cfg, w, r);
            && (o.reply == Done <==> !r.PodStatus? && Belongs(cfg.remotes, "", Remote(DEFAULT)) && r.remote.Response?)
            && (o.reply == Done || o.reply.Failed?)
            && o.world == if o.reply == Done && r.RemovePod?
                          then w.(pods := w.pods - {""}, files := w.files.(pods := w.files.pods - {""})) else w
  {
    RoutesExactlyWhen(cfg.remotes, "", Remote(DEFAULT));
    OneWrite(w.files, DeletePod(""));
  }
}
