/** The request handlers as functions: from the pools, the files and the outcome of every
    outside call to the new pools, the reply, and the file writes in order. */
module Lifecycle {
  import opened GoStrings
  import opened Records
  import opened Persistence
  import opened RemoteRuntimes
  import opened SliceDeletion
  import opened ImageNames
  import opened PodNetwork
  import opened Slurm

  /** The pools in memory and the files behind them. */
  datatype World = World(containers: map<string, Container>, pods: map<string, Pod>, images: map<string, Image>,
                         files: Files)

  datatype Config = Config(remotes: Remotes, netPlugin: bool, imageDir: string)

  /** A call to a remote runtime returns a response or an error, never both. */
  datatype Answer = Response(id: string) | Failure(fault: Fault)

  /** `Crashed`: the process ends before the handler replies. */
  datatype Reply = Done | DoneId(id: string) | Failed(fault: Fault) | Crashed

  datatype Op = RunOp | CreateOp | StartOp | StopOp | RemoveOp | StatusOp

  /** What happens outside: an operation on a known pod or container reaches a runtime, a job
      is submitted, a cancel command is sent, a running container is found queued again. When
      the process ends before the first write of a request, a submission is lost, and a pod or
      container that a remote has made is orphaned: no record will name it. */
  datatype Mark =
    | Sent(op: Op, id: string, target: Route) | Submitted(id: string) | Requeued(id: string)
    | Lost(id: string) | Orphaned(op: Op, id: string, target: Route) | Commanded(id: string, command: string)

  datatype Outcome = Outcome(world: World, reply: Reply, writes: seq<Write>, marks: seq<Mark>)

  /** Nothing changes. */
  function Still(w: World, reply: Reply, marks: seq<Mark>): Outcome {
    Outcome(w, reply, [], marks)
  }

  /** The new pools, with the writes carried out on the files. */
  function Commit(w: World, writes: seq<Write>, reply: Reply, marks: seq<Mark>): Outcome {
    Outcome(w.(files := Replay(w.files, writes)), reply, writes, marks)
  }

  /** The reply that the end of a call decides, if it did not return. */
  function Broken(end: CallEnd): Reply
    requires end != Returns
  {
    match end case Errs(fault) => Failed(fault) case Dies => Crashed
  }

  /** The reply when the last call decides it. */
  function Ended(end: CallEnd): Reply {
    if end == Returns then Done else Broken(end)
  }

  // ---- dispatch to a remote runtime ----

  datatype Dispatched = NotRemote | Answered(id: string) | Refused(fault: Fault)

  function Dispatch(remotes: Remotes, handler: string, answer: Answer): Dispatched {
    match GetRemoteRuntime(remotes, handler)
    case Local => NotRemote
    case NotFound(name) => Refused(RemoteNotFound(name))
    case Remote(name) => match answer case Response(id) => Answered(id) case Failure(fault) => Refused(fault)
  }

  function SentTo(remotes: Remotes, op: Op, id: string, handler: string): seq<Mark> {
    var route := GetRemoteRuntime(remotes, handler);
    if route.Remote? then [Sent(op, id, route)] else []
  }

  function PodHandlerOf(w: World, id: string): string {
    if id in w.pods then w.pods[id].info.handler else ""
  }

  // ---- pods ----

  function NewPod(id: string, handler: string): Pod {
    Pod(PodInfo(id, NOTREADY, "", "", "", handler), [])
  }

  /** A pod that a remote runs is stored twice, unchanged. */
  function RunRemotely(cfg: Config, w: World, remoteId: string, newId: string, handler: string): Outcome {
    var id := if remoteId != "" then remoteId else newId;
    var p := NewPod(id, handler);
    Commit(w.(pods := w.pods[id := p]), [PutPod(id, p), PutPod(id, p)], DoneId(remoteId),
      SentTo(cfg.remotes, RunOp, id, handler))
  }

  /** A pod's namespace path is still empty when its network is set up. */
  function SetupOf(id: string, net: NetworkCalls): Setup {
    Setup(id, "", net)
  }

  /** What running a pod does to the host. */
  function RunActions(cfg: Config, id: string, net: NetworkCalls): seq<Action> {
    if cfg.netPlugin then SetupActions(SetupOf(id, net)) else []
  }

  /** How running a local pod ends: with its set-up, or else with the adapter. */
  function RunEnd(cfg: Config, id: string, net: NetworkCalls, adapter: CallEnd): CallEnd {
    var setup := if cfg.netPlugin then SetupEnd(SetupOf(id, net)) else Returns;
    if setup != Returns then setup else adapter
  }

  /** The record of a local pod once it is set up. */
  function SetUpPod(cfg: Config, p: Pod, net: NetworkCalls, logPath: string): Pod {
    var found := if cfg.netPlugin then Forward(SetupOf(p.info.id, net)).ip else None;
    p.(info := p.info.(logPath := logPath, ip := match found case Some(ip) => ip case None => p.info.ip))
  }

  /** A local pod is stored, set up, and stored again; on an error it is removed. */
  function RunLocally(cfg: Config, w: World, id: string, handler: string, net: NetworkCalls, logPath: string,
                      adapter: CallEnd): Outcome {
    var p := NewPod(id, handler);
    match RunEnd(cfg, id, net, adapter)
    case Errs(fault) => Commit(w.(pods := w.pods - {id}), [PutPod(id, p), DeletePod(id)], Failed(fault), [])
    case Dies => Commit(w.(pods := w.pods[id := p]), [PutPod(id, p)], Crashed, [])
    case Returns =>
      var ready := SetUpPod(cfg, p, net, logPath);
      Commit(w.(pods := w.pods[id := ready]), [PutPod(id, p), PutPod(id, ready)], DoneId(id), [Sent(RunOp, id, Local)])
  }

  function RunPodSandbox(cfg: Config, w: World, uid: string, handler: string, newId: string, remote: Answer,
                         net: NetworkCalls, logPath: string, adapter: CallEnd): Outcome {
    match Dispatch(cfg.remotes, handler, remote)
    case Refused(fault) => Still(w, Failed(fault), [])
    case Answered(remoteId) => RunRemotely(cfg, w, remoteId, newId, handler)
    case NotRemote => RunLocally(cfg, w, if uid != "" then uid else newId, handler, net, logPath, adapter)
  }

  function Stopped(p: Pod): Pod {
    p.(info := p.info.(state := NOTREADY, ip := ""))
  }

  function MarkStopped(w: World, id: string): Outcome {
    if id in w.pods then
      var p := Stopped(w.pods[id]);
      Commit(w.(pods := w.pods[p.info.id := p]), [PutPod(p.info.id, p)], Done, [])
    else Still(w, Done, [])
  }

  /** How stopping a local pod ends: with tearing down its network, if it has a namespace
      path, or else with the adapter. */
  function StopEnd(p: Pod, teardown: CallEnd, adapter: CallEnd): CallEnd {
    if p.info.netNSPath != "" && teardown != Returns then teardown else adapter
  }

  function StopPodSandbox(cfg: Config, w: World, id: string, remote: Answer, teardown: CallEnd,
                          adapter: CallEnd): Outcome {
    match Dispatch(cfg.remotes, PodHandlerOf(w, id), remote)
    case Refused(fault) => Still(w, Failed(fault), [])
    case Answered(_) => MarkStopped(w, id)
    case NotRemote =>
      if id !in w.pods then Still(w, Failed(PodNotFound), [])
      else
        var end := StopEnd(w.pods[id], teardown, adapter);
        if end != Returns then Still(w, Broken(end), []) else MarkStopped(w, id)
  }

  function ForgetPod(w: World, id: string): Outcome {
    Commit(w.(pods := w.pods - {id}), [DeletePod(id)], Done, [])
  }

  function RemovePodSandbox(cfg: Config, w: World, id: string, remote: Answer, adapter: CallEnd): Outcome {
    match Dispatch(cfg.remotes, PodHandlerOf(w, id), remote)
    case Refused(fault) => Still(w, Failed(fault), [])
    case Answered(_) => ForgetPod(w, if id in w.pods then w.pods[id].info.id else "")
    case NotRemote =>
      if id !in w.pods then Still(w, Failed(PodNotFound), [])
      else if w.pods[id].info.state == READY then Still(w, Failed(PodRunning), [])
      else if adapter != Returns then Still(w, Broken(adapter), [])
      else ForgetPod(w, w.pods[id].info.id)
  }

  /** A pod with an address, or without a network to set up, is seen ready. */
  function Seen(cfg: Config, p: Pod): Pod {
    if p.info.ip != "" || !cfg.netPlugin then p.(info := p.info.(state := READY)) else p
  }

  /** Only the pool changes: the file keeps the old state. */
  function PodSandboxStatus(cfg: Config, w: World, id: string, remote: Answer, adapter: CallEnd): Outcome {
    if id !in w.pods then Still(w, Failed(PodNotFound), [])
    else
      match Dispatch(cfg.remotes, PodHandlerOf(w, id), remote)
      case Refused(fault) => Still(w, Failed(fault), [])
      case Answered(_) => Still(w, Done, [])
      case NotRemote =>
        Still(w.(pods := w.pods[id := Seen(cfg, w.pods[id])]), Ended(adapter), [])
  }

  // ---- images ----

  predicate Matches(key: string, i: Image, query: string) {
    Contains(i.imageName, query) || Contains(key, query) || query in i.repoTags || query in i.repoDigest
  }

  /** The first matching key in iteration order. */
  function FindImage(images: map<string, Image>, query: string, order: seq<string>): (r: Option<string>)
    ensures r.Some? ==> r.value in images && r.value in order && Matches(r.value, images[r.value], query)
    ensures r.None? ==> forall k :: k in order && k in images ==> !Matches(k, images[k], query)
  {
    if order == [] then None
    else if order[0] in images && Matches(order[0], images[order[0]], query) then Some(order[0])
    else FindImage(images, query, order[1..])
  }

  /** What preparing or pulling an image leaves in its record. */
  datatype ImageWork = ImageWork(end: CallEnd, localPath: string, size: nat)

  function Worked(i: Image, work: ImageWork): Image {
    i.(localPath := work.localPath, size := work.size)
  }

  function NewImage(cfg: Config, id: string, name: string): Image {
    Image(id, "", cfg.imageDir, name, [], [], 0, SingularityRepository)
  }

  /** `ParseImage` on the record of an accepted name. */
  function Parsed(i: Image, p: ParsedName): Image {
    i.(repoType := p.repoType, repoDigest := [i.remotePath], imageName := p.imageName,
       remotePath := p.remotePath, repoTags := [p.remotePath])
  }

  /** An accepted name is stored unparsed first, and again once the adapter has pulled it. */
  function PullLocally(cfg: Config, w: World, name: string, newId: string, work: ImageWork): Outcome {
    var created := NewImage(cfg, newId, name);
    match ParseName(name)
    case None =>
      Commit(w.(images := w.images[newId := created]), [PutImage(newId, created)], Failed(ImageNotSupported), [])
    case Some(p) =>
      var pulled := Worked(Parsed(created, p), work);
      match work.end
      case Errs(fault) =>
        Commit(w.(images := w.images[newId := created] - {newId}), [PutImage(newId, created), DeleteImage(newId)],
               Failed(fault), [])
      case Dies => Commit(w.(images := w.images[newId := created]), [PutImage(newId, created)], Crashed, [])
      case Returns =>
        Commit(w.(images := w.images[newId := pulled]), [PutImage(newId, created), PutImage(newId, pulled)],
               DoneId(pulled.remotePath), [])
  }

  function PullImage(cfg: Config, w: World, image: string, names: seq<string>, newId: string, remote: Answer,
                     work: ImageWork): Outcome {
    match ImageManager(cfg.remotes, image, names)
    case ServeRemotely(_, _) => Still(w, match remote case Response(id) => DoneId(id) case Failure(e) => Failed(e), [])
    case ServeLocally(name) => PullLocally(cfg, w, name, newId, work)
  }

  function RemoveHere(w: World, name: string, order: seq<string>, adapter: CallEnd): Outcome {
    match FindImage(w.images, name, order)
    case None => Still(w, Failed(ImageNotFound), [])
    case Some(k) =>
      if adapter != Returns then Still(w, Broken(adapter), [])
      else
        var id := w.images[k].id;
        Commit(w.(images := w.images - {id}), [DeleteImage(id)], Done, [])
  }

  function RemoveImage(cfg: Config, w: World, image: string, names: seq<string>, order: seq<string>, remote: Answer,
                       adapter: CallEnd): Outcome {
    match ImageManager(cfg.remotes, image, names)
    case ServeRemotely(_, _) => Still(w, match remote case Response(id) => Done case Failure(e) => Failed(e), [])
    case ServeLocally(name) => RemoveHere(w, name, order, adapter)
  }

  predicate ImageFilter(i: Image, filter: string) {
    filter == "" || i.remotePath == filter || filter in i.repoDigest
  }

  datatype Listing = Listing(images: map<string, Image>, listed: seq<Image>, writes: seq<Write>)

  /** Listing walks the pool and drops the entries whose file is missing. */
  function ListImages(images: map<string, Image>, filter: string, order: seq<string>, present: set<string>): Listing
    decreases |order|
  {
    if order == [] then Listing(images, [], [])
    else if order[0] !in images || !ImageFilter(images[order[0]], filter)
      then ListImages(images, filter, order[1..], present)
    else
      var i := images[order[0]];
      if i.localPath in present then
        var rest := ListImages(images, filter, order[1..], present);
        rest.(listed := [i] + rest.listed)
      else
        var rest := ListImages(images - {i.id}, filter, order[1..], present);
        rest.(writes := [DeleteImage(i.id)] + rest.writes)
  }

  // ---- containers ----

  function NewContainer(id: string, name: string, pod: PodInfo, image: Option<string>, credentials: bool,
                        createdAt: int): Container {
    Container(id, name, CREATED, pod, image, credentials, createdAt, 0, 0, NoReason, 0, 0)
  }

  function Joined(p: Pod, id: string): Pod {
    p.(containers := p.containers + [id])
  }

  /** A container that a remote created carries no image. */
  function CreateRemotely(cfg: Config, w: World, p: Pod, id: string): Outcome {
    var c := NewContainer(id, "", p.info, None, false, 0);
    var joined := Joined(p, id);
    Commit(w.(containers := w.containers[id := c], pods := w.pods[p.info.id := joined]),
           [PutContainer(id, c), PutPod(p.info.id, joined)], DoneId(id),
             SentTo(cfg.remotes, CreateOp, id, p.info.handler))
  }

  /** A local container is stored before the adapter prepares it, and joins its pod last. */
  function CreateLocally(w: World, p: Pod, k: string, c: Container, work: ImageWork): Outcome
    requires k in w.images
  {
    var image := Worked(w.images[k], work);
    if work.end != Returns then
      Commit(w.(containers := w.containers[c.id := c], images := w.images[k := image]),
             [PutContainer(c.id, c)], Broken(work.end), [Sent(CreateOp, c.id, Local)])
    else
      var joined := Joined(p, c.id);
      Commit(w.(containers := w.containers[c.id := c], images := w.images[k := image][image.id := image],
                pods := w.pods[p.info.id := joined]),
             [PutContainer(c.id, c), PutImage(image.id, image), PutContainer(c.id, c), PutPod(p.info.id, joined)],
             DoneId(c.id), [Sent(CreateOp, c.id, Local)])
  }

  function CreateHere(w: World, p: Pod, name: string, imageRef: string, credentials: bool, newId: string,
                      order: seq<string>, work: ImageWork, now: int): Outcome {
    match FindImage(w.images, imageRef, order)
    case None => Still(w, Failed(ImageNotFound), [])
    case Some(k) =>
      CreateLocally(w, p, k, NewContainer(newId, name, p.info, Some(w.images[k].id), credentials, now), work)
  }

  function CreateContainer(cfg: Config, w: World, podId: string, name: string, imageRef: string,
                           credentials: bool, newId: string, remote: Answer, order: seq<string>,
                           work: ImageWork, now: int): Outcome {
    if podId !in w.pods then Still(w, Failed(PodNotFound), [])
    else
      var p := w.pods[podId];
      match Dispatch(cfg.remotes, p.info.handler, remote)
      case Refused(fault) => Still(w, Failed(fault), [])
      case Answered(id) => CreateRemotely(cfg, w, p, id)
      case NotRemote => CreateHere(w, p, name, imageRef, credentials, newId, order, work, now)
  }

  function Save(w: World, c: Container, reply: Reply, marks: seq<Mark>): Outcome {
    Commit(w.(containers := w.containers[c.id := c]), [PutContainer(c.id, c)], reply, marks)
  }

  /** The record after the adapter's submission attempt. */
  function Started(c: Container, s: Submission, now: int): Container {
    match s
    case Interrupted(_) => c
    case Submission(pid, Some(_), _) =>
      c.(pid := pid, state := EXITED, exitCode := 1, finishedAt := now, reason := CannotRun)
    case Submission(pid, None, _) => c.(pid := pid, state := RUNNING, startedAt := now, reason := StartOk)
  }

  function StartReply(s: Submission): Reply {
    match s
    case Interrupted(_) => Crashed
    case Submission(_, Some(fault), _) => Failed(fault)
    case Submission(_, None, _) => Done
  }

  /** The adapter's part of a start: the record is saved whatever the adapter returns. */
  function StartLocally(w: World, c: Container, run: SbatchRun, now: int): Outcome {
    var s := Submit(c, run);
    var marks := [Sent(StartOp, c.id, Local)] + if s.submitted then [Submitted(c.id)] else [];
    if s.Interrupted? then Still(w, Crashed, marks)
    else Save(w, Started(c, s, now), StartReply(s), marks)
  }

  /** The outcome with earlier outside calls in front. */
  function Following(sent: seq<Mark>, o: Outcome): Outcome {
    o.(marks := sent + o.marks)
  }

  /** An error from the remote runtime falls through to the local code. */
  function StartKnown(cfg: Config, w: World, c: Container, remote: Answer, run: SbatchRun, now: int): Outcome {
    var sent := SentTo(cfg.remotes, StartOp, c.id, c.pod.handler);
    if Dispatch(cfg.remotes, c.pod.handler, remote).Answered? then Still(w, Done, sent)
    else if c.state == RUNNING then Still(w, Failed(AlreadyStarted), sent)
    else if c.state != CREATED then Still(w, Failed(ContainerFailed), sent)
    else Following(sent, StartLocally(w, c, run, now))
  }

  function StartContainer(cfg: Config, w: World, id: string, remote: Answer, run: SbatchRun, now: int): Outcome {
    if id in w.containers then StartKnown(cfg, w, w.containers[id], remote, run, now)
    else Still(w, Failed(ContainerNotFound), [])
  }

  function StopMarks(c: Container, scancel: ScancelAnswer): seq<Mark> {
    [Sent(StopOp, c.id, Local)]
    + match CommandOf(c, scancel) case Some(command) => [Commanded(c.id, command)] case None => []
  }

  /** The adapter's part of a stop: a failed cancellation changes nothing. */
  function StopLocally(w: World, c: Container, scancel: ScancelAnswer, now: int): Outcome {
    var end, marks := Cancel(c, scancel), StopMarks(c, scancel);
    if end != Returns then Still(w, Broken(end), marks)
    else Save(w, c.(state := EXITED, finishedAt := now), Done, marks)
  }

  function StopKnown(cfg: Config, w: World, c: Container, remote: Answer, scancel: ScancelAnswer, now: int): Outcome {
    var sent := SentTo(cfg.remotes, StopOp, c.id, c.pod.handler);
    if Dispatch(cfg.remotes, c.pod.handler, remote).Answered? then Still(w, Done, sent)
    else if c.state != RUNNING then Still(w, Done, sent)
    else Following(sent, StopLocally(w, c, scancel, now))
  }

  /** A request for an unknown container goes to the remote of the empty handler. */
  function StopContainer(cfg: Config, w: World, id: string, remote: Answer, scancel: ScancelAnswer, now: int): Outcome {
    if id in w.containers then StopKnown(cfg, w, w.containers[id], remote, scancel, now)
    else if Dispatch(cfg.remotes, "", remote).Answered? then Still(w, Done, [])
    else Still(w, Failed(ContainerNotFound), [])
  }

  /** Taking an id off its pod's list; the container record stays. */
  function DropFromPod(w: World, podId: string, id: string): Outcome {
    if podId !in w.pods then Still(w, Done, [])
    else
      var p := w.pods[podId];
      match Sweep(p.containers, |p.containers|, 0, id)
      case Panicked => Still(w, Crashed, [])
      case Kept(ids) =>
        var rest := p.(containers := ids);
        Commit(w.(pods := w.pods[p.info.id := rest]), [PutPod(p.info.id, rest)], Done, [])
  }

  /** `reopen` is how reopening the container's log through the adapter ends. */
  function RemoveKnown(cfg: Config, w: World, c: Container, remote: Answer, reopen: CallEnd): Outcome {
    var sent := SentTo(cfg.remotes, RemoveOp, c.id, c.pod.handler);
    match Dispatch(cfg.remotes, c.pod.handler, remote)
    case Refused(fault) => Still(w, Failed(fault), sent)
    case Answered(_) => Following(sent, DropFromPod(w, c.pod.id, c.id))
    case NotRemote =>
      if c.state == RUNNING then Still(w, Failed(ContainerRunning), sent)
      else if reopen != Returns then Still(w, Broken(reopen), sent + [Sent(RemoveOp, c.id, Local)])
      else Following(sent + [Sent(RemoveOp, c.id, Local)], DropFromPod(w, c.pod.id, c.id))
  }

  function RemoveContainer(cfg: Config, w: World, id: string, remote: Answer, reopen: CallEnd): Outcome {
    if id in w.containers then RemoveKnown(cfg, w, w.containers[id], remote, reopen)
    else
      match Dispatch(cfg.remotes, "", remote)
      case Refused(fault) => Still(w, Failed(fault), [])
      case Answered(_) => Still(w, Crashed, [])
      case NotRemote => Still(w, Failed(ContainerNotFound), [])
  }

  /** The record after a local status request. */
  function Observed(c: Container, answer: StatusAnswer): Container {
    if c.state == EXITED then c
    else
      match Refresh(c, answer)
      case Refreshed(d, Some(e)) => d.(state := EXITED, exitCode := 1, reason := Because(e))
      case Refreshed(d, None) => d
      case Halted(d) => d
  }

  /** A local status request in which the process ends. */
  predicate StatusBreaks(c: Container, answer: StatusAnswer) {
    c.state != EXITED && Refresh(c, answer).Halted?
  }

  /** What a local status request made of a record. */
  predicate Sighted(c: Container, answer: StatusAnswer, seen: Container, broken: bool) {
    broken == StatusBreaks(c, answer) && seen == Observed(c, answer)
  }

  /** The adapter is asked unless the container has exited, and may find it queued. */
  function Sightings(c: Container, seen: Container): seq<Mark> {
    (if c.state != EXITED then [Sent(StatusOp, c.id, Local)] else [])
    + (if c.state == RUNNING && seen.state == CREATED then [Requeued(c.id)] else [])
  }

  /** The adapter's part of a status request; the reply needs the image. */
  function StatusLocally(w: World, c: Container, answer: StatusAnswer): Outcome {
    if StatusBreaks(c, answer) then Still(w, Crashed, [Sent(StatusOp, c.id, Local)])
    else
      var seen := Observed(c, answer);
      Save(w, seen, if c.image.Some? then Done else Crashed, Sightings(c, seen))
  }

  function StatusKnown(cfg: Config, w: World, c: Container, remote: Answer, answer: StatusAnswer): Outcome {
    var sent := SentTo(cfg.remotes, StatusOp, c.id, c.pod.handler);
    match Dispatch(cfg.remotes, c.pod.handler, remote)
    case Refused(fault) => Still(w, Failed(fault), sent)
    case Answered(_) => Still(w, Done, sent)
    case NotRemote => Following(sent, StatusLocally(w, c, answer))
  }

  function ContainerStatus(cfg: Config, w: World, id: string, remote: Answer, answer: StatusAnswer): Outcome {
    if id in w.containers then StatusKnown(cfg, w, w.containers[id], remote, answer)
    else
      match Dispatch(cfg.remotes, "", remote)
      case Refused(fault) => Still(w, Failed(fault), [])
      case Answered(_) => Still(w, Done, [])
      case NotRemote => Still(w, Crashed, [])
  }
}
