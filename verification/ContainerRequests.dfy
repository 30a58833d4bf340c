/** What the requests on containers reply and leave: when each succeeds, and the whole state
    after it. */
module ContainerRequests {
  import opened Records
  import opened Persistence
  import opened RemoteRuntimes
  import opened SliceDeletion
  import opened Slurm
  import opened Lifecycle
  import opened Requests
  import opened Outcomes
  import opened PodLives

  // ---- creating ----

  /** The record of a container that was just created. */
  function Created(id: string, name: string, pod: PodInfo, image: Option<string>, credentials: bool,
                   createdAt: int): Container {
    Container(id, name, CREATED, pod, image, credentials, createdAt, 0, 0, NoReason, 0, 0)
  }

  /** The state after a creation: the container and the longer list in memory and file. */
  function Admitted(w: World, podId: string, c: Container): World
    requires podId in w.pods
  {
    var p := w.pods[podId].(containers := w.pods[podId].containers + [c.id]);
    World(w.containers[c.id := c], w.pods[podId := p], w.images,
          Files(w.files.containers[c.id := c], w.files.pods[podId := p], w.files.images))
  }

  /** Creating a container in a pod of a remote succeeds exactly when the remote answers. The
      container is recorded under the remote's id, without name, image or time, and its id ends
      the pod's list, in memory and in the file; on an error nothing changes. */
  lemma RemoteCreationExactly(cfg: Config, w: World, r: Request)
    requires Inv(cfg, w) && r.Create? && r.podId in w.pods && !Here(cfg, w.pods[r.podId].info.handler)
    ensures var o := Exec(cfg, w, r);
            match r.remote
            case Response(id) =>
              && o.reply == DoneId(id)
              && o.world == Admitted(w, r.podId, Created(id, "", w.pods[r.podId].info, None, false, 0))
            case Failure(fault) => o.reply == Failed(fault) && o.world == w
  {
    var p := w.pods[r.podId];
    assert GoodPod(cfg, p, w.containers);
    RoutesExactlyWhen(cfg.remotes, p.info.handler, Local);
    if r.remote.Response? {
      CreateRemotelyIs(cfg, w, p, r.remote.id);
    }
  }

  /** Creating a container in a local pod succeeds exactly when its image is found and prepared.
      The container carries that image, the copy of its pod, and name, credentials and time of
      the request; its id ends the pod's list, and the image holds what was prepared, in memory
      and in the file. When the preparation fails, the container stays recorded all the same,
      but in no list, and the image is changed in memory only. */
  lemma LocalCreationExactly(cfg: Config, w: World, r: Request, k: string)
    requires Inv(cfg, w) && FreshIds(w, r) && r.Create? && r.podId in w.pods && Here(cfg, w.pods[r.podId].info.handler)
    requires FindImage(w.images, r.imageRef, r.order) == Some(k)
    ensures var o, info := Exec(cfg, w, r), w.pods[r.podId].info;
            var c := Created(r.newId, r.name, info, Some(k), r.credentials, r.now);
            var i := w.images[k].(localPath := r.work.localPath, size := r.work.size);
            && (o.reply == DoneId(r.newId) <==> r.work.end == Returns)
            && (r.work.end == Returns ==>
                  var full := Admitted(w, r.podId, c);
                  o.world == full.(images := w.images[k := i],
                                   files := full.files.(images := w.files.images[k := i])))
            && (r.work.end.Errs? ==>
                  && o.reply == Failed(r.work.end.fault)
                  && o.world == w.(containers := w.containers[r.newId := c], images := w.images[k := i],
                                   files := w.files.(containers := w.files.containers[r.newId := c])))
  {
    var p := w.pods[r.podId];
    RoutesExactlyWhen(cfg.remotes, p.info.handler, Local);
    LocalCreation(cfg, w, r, k);
    CreateLocallyIs(w, p, k, NewContainer(r.newId, r.name, p.info, Some(k), r.credentials, r.now), r.work);
    PutOver(w.images, k, Worked(w.images[k], r.work), Worked(w.images[k], r.work));
    PutOver(w.containers, r.newId, Created(r.newId, r.name, p.info, Some(k), r.credentials, r.now),
            Created(r.newId, r.name, p.info, Some(k), r.credentials, r.now));
    PutOver(w.files.containers, r.newId, Created(r.newId, r.name, p.info, Some(k), r.credentials, r.now),
            Created(r.newId, r.name, p.info, Some(k), r.credentials, r.now));
  }

  lemma LocalCreation(cfg: Config, w: World, r: Request, k: string)
    requires Inv(cfg, w) && r.Create? && r.podId in w.pods
    requires GetRemoteRuntime(cfg.remotes, w.pods[r.podId].info.handler) == Local
    requires FindImage(w.images, r.imageRef, r.order) == Some(k)
    ensures var p := w.pods[r.podId];
            Exec(cfg, w, r) ==
            CreateLocally(w, p, k, NewContainer(r.newId, r.name, p.info, Some(k), r.credentials, r.now), r.work)
  {
  }

  /** A creation in an unknown pod, or of an image that is not found, changes nothing. */
  lemma RefusedCreations(cfg: Config, w: World, r: Request)
    requires Inv(cfg, w) && r.Create?
    ensures var o := Exec(cfg, w, r);
            && (r.podId !in w.pods ==> o.reply == Failed(PodNotFound) && o.world == w)
            && (r.podId in w.pods && Here(cfg, w.pods[r.podId].info.handler) &&
                FindImage(w.images, r.imageRef, r.order) == None ==>
                  o.reply == Failed(ImageNotFound) && o.world == w)
  {
    if r.podId in w.pods {
      RoutesExactlyWhen(cfg.remotes, w.pods[r.podId].info.handler, Local);
    }
  }

  // ---- starting ----

  /** The service's state with another record of a known container, in memory and file. */
  function Updated(w: World, c: Container): World {
    w.(containers := w.containers[c.id := c], files := w.files.(containers := w.files.containers[c.id := c]))
  }

  /** Why a submission fails, if it does. */
  function SubmissionFault(c: Container, run: SbatchRun): Option<Fault>
    requires !run.RunDies?
  {
    if !c.credentials then Some(NoCredentials)
    else
      match run
      case NotRun(fault) => Some(fault)
      case RunFailed(fault) => Some(fault)
      case Unnumbered => Some(NoJobId)
      case Numbered(_, ok) => if ok then None else Some(BadJobId)
  }

  /** Starting a known local container succeeds exactly when it is created, its environment
      gives access and the submission prints a number: it then runs under that number. A
      container that runs or has exited is refused without a change; any other submission makes
      the container exit with code 1 and the number that was read, if any. */
  lemma LocalStartExactly(cfg: Config, w: World, r: Request)
    requires Inv(cfg, w) && r.Start? && r.id in w.containers && Here(cfg, w.containers[r.id].pod.handler)
    requires !r.run.RunDies?
    ensures var o, c := Exec(cfg, w, r), w.containers[r.id];
            var pid := if c.credentials && r.run.Numbered? then r.run.pid else c.pid;
            var fault := SubmissionFault(c, r.run);
            match c.state
            case CREATED =>
              if fault == None then
                && o.reply == Done
                && o.world == Updated(w, c.(state := RUNNING, pid := pid, startedAt := r.now, reason := StartOk))
              else
                && o.reply == Failed(fault.value)
                && o.world == Updated(w, c.(state := EXITED, pid := pid, exitCode := 1, finishedAt := r.now,
                                            reason := CannotRun))
            case RUNNING => o.reply == Failed(AlreadyStarted) && o.world == w
            case _ => o.reply == Failed(ContainerFailed) && o.world == w
  {
    var c := w.containers[r.id];
    assert GoodContainers(cfg, w.containers);
    RoutesExactlyWhen(cfg.remotes, c.pod.handler, Local);
    SaveIs(w, Started(c, Submit(c, r.run), r.now), StartReply(Submit(c, r.run)), []);
    LocalStart(cfg, w, r);
  }

  lemma LocalStart(cfg: Config, w: World, r: Request)
    requires r.Start? && r.id in w.containers
    requires GetRemoteRuntime(cfg.remotes, w.containers[r.id].pod.handler) == Local && !r.run.RunDies?
    ensures var o, c := Exec(cfg, w, r), w.containers[r.id];
            match c.state
            case CREATED =>
              var saved := Save(w, Started(c, Submit(c, r.run), r.now), StartReply(Submit(c, r.run)), []);
              o.reply == saved.reply && o.world == saved.world
            case RUNNING => o.reply == Failed(AlreadyStarted) && o.world == w
            case _ => o.reply == Failed(ContainerFailed) && o.world == w
  {
  }

  /** A remote that answers a start or a stop settles it, and nothing is recorded; so a stop that
      gets an error from its remote succeeds all the same. */
  lemma RemoteRequestsLeaveNoTrace(cfg: Config, w: World, r: Request)
    requires Inv(cfg, w) && (r.Start? || r.Stop? || r.Status?) && r.id in w.containers
    requires !Here(cfg, w.containers[r.id].pod.handler)
    ensures var o := Exec(cfg, w, r);
            && (r.remote.Response? || r.Stop? ==> o.reply == Done && o.world == w)
            && (r.remote.Failure? && r.Status? ==> o.reply == Failed(r.remote.fault) && o.world == w)
  {
    assert GoodContainers(cfg, w.containers);
    RoutesExactlyWhen(cfg.remotes, w.containers[r.id].pod.handler, Local);
  }

  /** A start that gets an error from its remote is carried on here. A container that has exited
      is refused; one that is created exits for want of access, whatever the cluster would do. */
  lemma FailingRemoteStartExactly(cfg: Config, w: World, r: Request)
    requires Inv(cfg, w) && r.Start? && r.id in w.containers && !Here(cfg, w.containers[r.id].pod.handler)
    requires r.remote.Failure?
    ensures var o, c := Exec(cfg, w, r), w.containers[r.id];
            if c.state != CREATED then o.reply == Failed(ContainerFailed) && o.world == w
            else
              && o.reply == Failed(NoCredentials)
              && o.world == Updated(w, c.(state := EXITED, exitCode := 1, finishedAt := r.now, reason := CannotRun))
  {
    var c := w.containers[r.id];
    assert GoodContainers(cfg, w.containers);
    RoutesExactlyWhen(cfg.remotes, c.pod.handler, Local);
    OneWrite(w.files, PutContainer(c.id, Started(c, Submit(c, r.run), r.now)));
  }

  // ---- stopping ----

  /** Stopping a known local container succeeds exactly when it does not run, and then nothing
      changes, or when the cancellation does, and then it has exited; else nothing changes. */
  lemma LocalStopExactly(cfg: Config, w: World, r: Request)
    requires Inv(cfg, w) && r.Stop? && r.id in w.containers && Here(cfg, w.containers[r.id].pod.handler)
    ensures var o, c := Exec(cfg, w, r), w.containers[r.id];
            if c.state != RUNNING then o.reply == Done && o.world == w
            else
              match r.scancel
              case NoLoggers(fault) => o.reply == Failed(fault) && o.world == w
              case Ran(Errs(fault)) => o.reply == Failed(fault) && o.world == w
              case Ran(Dies) => o.reply == Crashed && o.world == w
              case Ran(Returns) =>
                o.reply == Done && o.world == Updated(w, c.(state := EXITED, finishedAt := r.now))
  {
    var c := w.containers[r.id];
    assert GoodContainers(cfg, w.containers);
    RoutesExactlyWhen(cfg.remotes, c.pod.handler, Local);
    SaveIs(w, c.(state := EXITED, finishedAt := r.now), Done, StopMarks(c, r.scancel));
  }

  // ---- asking for the status ----

  /** The status of a local container is asked for unless it has exited or, with access, has no
      job: then nothing changes. Without access, or on an error, it exits with code 1; else what
      its job state makes of it is saved. A call that ends the process saves nothing. */
  lemma LocalStatusExactly(cfg: Config, w: World, r: Request)
    requires Inv(cfg, w) && r.Status? && r.id in w.containers && Here(cfg, w.containers[r.id].pod.handler)
    ensures var o, c := Exec(cfg, w, r), w.containers[r.id];
            var failed := c.(state := EXITED, exitCode := 1);
            if c.state == EXITED || (c.credentials && c.pid == 0) then o.reply == Done && o.world == w
            else if !c.credentials then
              o.reply == Done && o.world == Updated(w, failed.(reason := Because(NoCredentials)))
            else
              match r.answer
              case StatusDies => o.reply == Crashed && o.world == w
              case NoStatus(fault) => o.reply == Done && o.world == Updated(w, failed.(reason := Because(fault)))
              case Known(status) => o.reply == Done && o.world == Updated(w, WithJobState(c, status))
  {
    var c := w.containers[r.id];
    assert GoodContainers(cfg, w.containers);
    RoutesExactlyWhen(cfg.remotes, c.pod.handler, Local);
    if !StatusBreaks(c, r.answer) {
      SaveIs(w, Observed(c, r.answer), Done, Sightings(c, Observed(c, r.answer)));
    }
    LocalStatus(cfg, w, r);
  }

  lemma LocalStatus(cfg: Config, w: World, r: Request)
    requires Inv(cfg, w) && r.Status? && r.id in w.containers
    requires GetRemoteRuntime(cfg.remotes, w.containers[r.id].pod.handler) == Local
    ensures var o, c := Exec(cfg, w, r), w.containers[r.id];
            var saved := Save(w, Observed(c, r.answer), Done, []);
            if StatusBreaks(c, r.answer) then o.reply == Crashed && o.world == w
            else o.reply == Done && o.world == saved.world
  {
    assert GoodContainers(cfg, w.containers);
  }

  // ---- removing ----

  /** A removal that the container's remote, or for a local one the service, carries out. */
  predicate RemovesContainer(cfg: Config, c: Container, r: Request)
    requires r.Remove?
  {
    if Here(cfg, c.pod.handler) then c.state != RUNNING && r.reopen == Returns else r.remote.Response?
  }

  /** Removing a known container succeeds exactly when its remote answers, or when it is local,
      does not run, and the adapter reopens its log. Its id is then gone from its pod's list, in
      memory and in the file, and the rest keeps its order; the container's record stays. On an
      error nothing changes. */
  lemma RemovesContainerExactlyWhen(cfg: Config, w: World, r: Request)
    requires Inv(cfg, w) && r.Remove? && r.id in w.containers
    ensures var o, c := Exec(cfg, w, r), w.containers[r.id];
            && (o.reply == Done <==> RemovesContainer(cfg, c, r))
            && (!Here(cfg, c.pod.handler) && r.remote.Failure? ==> o.reply == Failed(r.remote.fault))
            && (Here(cfg, c.pod.handler) ==>
                  o.reply == if c.state == RUNNING then Failed(ContainerRunning) else Ended(r.reopen))
            && o.world ==
               if o.reply != Done || c.pod.id !in w.pods then w
               else
                 var p := w.pods[c.pod.id].(containers := Without(w.pods[c.pod.id].containers, r.id));
                 w.(pods := w.pods[c.pod.id := p], files := w.files.(pods := w.files.pods[c.pod.id := p]))
  {
    var c := w.containers[r.id];
    assert GoodContainers(cfg, w.containers);
    RoutesExactlyWhen(cfg.remotes, c.pod.handler, Local);
    RemoveReply(cfg, w, c, r);
    DropKeeps(cfg, w, c.pod.id, r.id);
    DropWorld(cfg, w, c.pod.id, r.id);
  }

  lemma RemoveReply(cfg: Config, w: World, c: Container, r: Request)
    requires Inv(cfg, w) && r.Remove? && r.id in w.containers && w.containers[r.id] == c
    requires GetRemoteRuntime(cfg.remotes, c.pod.handler) == Local <==> Here(cfg, c.pod.handler)
    ensures var o := Exec(cfg, w, r);
            && (o.reply == Done <==> RemovesContainer(cfg, c, r))
            && (!Here(cfg, c.pod.handler) && r.remote.Failure? ==> o.reply == Failed(r.remote.fault))
            && (Here(cfg, c.pod.handler) ==>
                  o.reply == if c.state == RUNNING then Failed(ContainerRunning) else Ended(r.reopen))
            && o.world == if o.reply == Done then DropFromPod(w, c.pod.id, r.id).world else w
  {
    assert GoodContainers(cfg, w.containers);
    DropKeeps(cfg, w, c.pod.id, r.id);
  }

  lemma DropWorld(cfg: Config, w: World, podId: string, id: string)
    requires Inv(cfg, w)
    ensures DropFromPod(w, podId, id).world ==
            if podId !in w.pods then w
            else
              var p := w.pods[podId].(containers := Without(w.pods[podId].containers, id));
              w.(pods := w.pods[podId := p], files := w.files.(pods := w.files.pods[podId := p]))
  {
    if podId in w.pods {
      var p := w.pods[podId];
      assert GoodPod(cfg, p, w.containers);
      DeletesFromDuplicateFree(p.containers, id);
      OneWrite(w.files, PutPod(podId, p.(containers := Without(p.containers, id))));
    }
  }

  // ---- whom the requests reach ----

  /** The operation that a request on a container asks for. */
  function OpOf(r: Request): Op
    requires r.Start? || r.Stop? || r.Remove? || r.Status?
  {
    if r.Start? then StartOp else if r.Stop? then StopOp else if r.Remove? then RemoveOp else StatusOp
  }

  /** Every request on a container of a remote reaches that remote with its operation. */
  lemma RemoteIsAsked(cfg: Config, w: World, r: Request)
    requires Inv(cfg, w) && (r.Start? || r.Stop? || r.Remove? || r.Status?) && r.id in w.containers
    requires !Here(cfg, w.containers[r.id].pod.handler)
    ensures exists route :: Belongs(cfg.remotes, w.containers[r.id].pod.handler, route) &&
                            route.Remote? && Sent(OpOf(r), r.id, route) in Exec(cfg, w, r).marks
  {
    var c := w.containers[r.id];
    var route := GetRemoteRuntime(cfg.remotes, c.pod.handler);
    assert GoodContainers(cfg, w.containers);
    RoutesExactlyWhen(cfg.remotes, c.pod.handler, route);
    RoutesExactlyWhen(cfg.remotes, c.pod.handler, Local);
    FirstMark(cfg, w, r);
  }

  lemma FirstMark(cfg: Config, w: World, r: Request)
    requires (r.Start? || r.Stop? || r.Remove? || r.Status?) && r.id in w.containers && w.containers[r.id].id == r.id
    requires GetRemoteRuntime(cfg.remotes, w.containers[r.id].pod.handler).Remote?
    ensures var o, route := Exec(cfg, w, r), GetRemoteRuntime(cfg.remotes, w.containers[r.id].pod.handler);
            o.marks != [] && o.marks[0] == Sent(OpOf(r), r.id, route)
  {
    if r.Remove? {
      DropsNoMark(w, w.containers[r.id].pod.id, r.id);
    }
  }

  lemma DropsNoMark(w: World, podId: string, id: string)
    ensures DropFromPod(w, podId, id).marks == []
  {
  }

  /** The adapter is asked about a local container exactly to start one that is created, to stop
      one that runs, to remove one that does not, and for the status of one that has not exited. */
  predicate AsksAdapter(r: Request, c: Container)
    requires r.Start? || r.Stop? || r.Remove? || r.Status?
  {
    match r
    case Start(_, _, _, _) => c.state == CREATED
    case Stop(_, _, _, _) => c.state == RUNNING
    case Remove(_, _, _) => c.state != RUNNING
    case Status(_, _, _) => c.state != EXITED
  }

  lemma AdapterIsAskedExactlyWhen(cfg: Config, w: World, r: Request)
    requires Inv(cfg, w) && (r.Start? || r.Stop? || r.Remove? || r.Status?) && r.id in w.containers
    requires Here(cfg, w.containers[r.id].pod.handler)
    ensures Sent(OpOf(r), r.id, Local) in Exec(cfg, w, r).marks <==> AsksAdapter(r, w.containers[r.id])
  {
    assert GoodContainers(cfg, w.containers);
    RoutesExactlyWhen(cfg.remotes, w.containers[r.id].pod.handler, Local);
    if r.Remove? {
      DropsNoMark(w, w.containers[r.id].pod.id, r.id);
    } else if r.Start? {
      StartAsks(cfg, w, r);
    }
  }

  lemma StartAsks(cfg: Config, w: World, r: Request)
    requires r.Start? && r.id in w.containers && w.containers[r.id].id == r.id
    requires GetRemoteRuntime(cfg.remotes, w.containers[r.id].pod.handler) == Local
    ensures Sent(StartOp, r.id, Local) in Exec(cfg, w, r).marks <==> w.containers[r.id].state == CREATED
  {
  }

  // ---- unknown containers ----

  /** Requests for a container the service does not know go to the remote of the empty handler,
      if there is one; only a start never does. They change nothing. */
  lemma UnknownContainers(cfg: Config, w: World, r: Request)
    requires (r.Start? || r.Stop? || r.Remove? || r.Status?) && r.id !in w.containers
    ensures var o, answered := Exec(cfg, w, r), Belongs(cfg.remotes, "", Remote(DEFAULT)) && r.remote.Response?;
            && o.world == w
            && (o.reply == Done <==> !r.Start? && !r.Remove? && answered)
            && (o.reply == Crashed <==> if r.Remove? then answered else r.Status? && cfg.remotes == map[])
            && (r.Start? || (r.Stop? && !answered) ==> o.reply == Failed(ContainerNotFound))
  {
    RoutesExactlyWhen(cfg.remotes, "", Remote(DEFAULT));
    RoutesExactlyWhen(cfg.remotes, "", Local);
  }
}
