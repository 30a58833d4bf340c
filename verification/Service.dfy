/** The request handlers over the shared objects and stores, each proved to do what its
    specification in `Lifecycle` says: the same pools, reply, file writes in the same order,
    and outside calls. */
module Service {
  import opened Records
  import opened Persistence
  import opened RemoteRuntimes
  import opened SliceDeletion
  import opened ImageNames
  import opened PodNetwork
  import opened Slurm
  import opened Lifecycle
  import opened Requests
  import opened Runs
  import opened Listings
  import opened Metadata
  import opened Stores
  import opened Outcomes
  import Adapter = SlurmAdapter

  /** A request as the service meets it: the answers of the cluster are still text. */
  datatype Call =
    | Plain(r: Request)
    | CreateCall(podId: string, name: string, imageRef: string, envs: seq<KeyValue>, newId: string, remote: Answer,
                 order: seq<string>, work: ImageWork, now: int)
    | StartCall(id: string, remote: Answer, run: Adapter.SbatchAnswer, now: int)
    | StatusCall(id: string, remote: Answer, answer: Adapter.SstatusAnswer)

  /** The request that a call amounts to. */
  function RequestOf(c: Call): Request {
    match c
    case Plain(r) => r
    case CreateCall(podId, name, imageRef, envs, newId, remote, order, work, now) =>
      Create(podId, name, imageRef, HasCredentials(EnvironmentOf(envs)), newId, remote, order, work, now)
    case StartCall(id, remote, run, now) => Start(id, remote, Adapter.Read(run), now)
    case StatusCall(id, remote, answer) => Status(id, remote, Adapter.ReadStatus(answer))
  }

  /** Requests that read no text are plain. */
  predicate WellFormed(c: Call) {
    c.Plain? <==> !(RequestOf(c).Create? || RequestOf(c).Start? || RequestOf(c).Status?)
  }

  /** What the remote runtimes list, or the error of the first one that fails. */
  datatype RemoteList<T> = Items(items: seq<T>) | NotListed(fault: Fault)

  class MulticriRuntime {
    const cfg: Config
    const containers: ContainerStorage
    const pods: SandboxStorage
    const images: ImageStorage
    const disk: KVStore
    const host: Host
    /** What reached a runtime outside, in order. */
    ghost var marks: seq<Mark>

    // ---- what the objects stand for ----

    ghost predicate ContainersHold(records: map<string, Container>)
      reads containers, containers.pool.Values
    {
      containers.persist == disk && containers.Valid() && containers.View() == records
    }

    ghost predicate PodsHold(records: map<string, Pod>)
      reads pods, pods.pool.Values, pods.Arrays()
    {
      pods.persist == disk && pods.Valid() && pods.View() == records
    }

    ghost predicate ImagesHold(records: map<string, Image>)
      reads images, images.pool.Values
    {
      images.persist == disk && images.Valid() && images.View() == records
    }

    /** The same for all records but one, whose shared object may have changed since. */
    ghost predicate ContainersHoldBut(records: map<string, Container>, id: string)
      reads containers, containers.pool.Values
    {
      && containers.persist == disk && containers.Valid() && containers.pool.Keys == records.Keys
      && forall k :: k in containers.pool && k != id ==> containers.pool[k].Record() == records[k]
    }

    ghost predicate PodsHoldBut(records: map<string, Pod>, id: string)
      reads pods, pods.pool.Values, pods.Arrays()
    {
      && pods.persist == disk && pods.Valid() && pods.pool.Keys == records.Keys
      && forall k :: k in pods.pool && k != id ==> pods.pool[k].Record() == records[k]
    }

    ghost predicate ImagesHoldBut(records: map<string, Image>, id: string)
      reads images, images.pool.Values
    {
      && images.persist == disk && images.Valid() && images.pool.Keys == records.Keys
      && forall k :: k in images.pool && k != id ==> images.pool[k].Record() == records[k]
    }

    /** All pools and files stand for those of the world. */
    ghost predicate StandsFor(w: World)
      reads containers, containers.pool.Values, pods, pods.pool.Values, pods.Arrays(), images, images.pool.Values, disk
    {
      ContainersHold(w.containers) && PodsHold(w.pods) && ImagesHold(w.images) && disk.files == w.files
    }

    /** The same but for one container. */
    ghost predicate StandsForBut(w: World, id: string)
      reads containers, containers.pool.Values, pods, pods.pool.Values, pods.Arrays(), images, images.pool.Values, disk
    {
      ContainersHoldBut(w.containers, id) && PodsHold(w.pods) && ImagesHold(w.images) && disk.files == w.files
    }

    /** The same but for one pod. */
    ghost predicate StandsForButPod(w: World, id: string)
      reads containers, containers.pool.Values, pods, pods.pool.Values, pods.Arrays(), images, images.pool.Values, disk
    {
      ContainersHold(w.containers) && PodsHoldBut(w.pods, id) && ImagesHold(w.images) && disk.files == w.files
    }

    /** The same but for one image. */
    ghost predicate StandsForButImage(w: World, id: string)
      reads containers, containers.pool.Values, pods, pods.pool.Values, pods.Arrays(), images, images.pool.Values, disk
    {
      ContainersHold(w.containers) && PodsHold(w.pods) && ImagesHoldBut(w.images, id) && disk.files == w.files
    }

    predicate Pooled(cm: ContainerMetadata)
      reads containers
    {
      cm.id in containers.pool && containers.pool[cm.id] == cm
    }

    predicate PooledPod(sm: SandboxMetadata)
      reads pods
    {
      sm.id in pods.pool && pods.pool[sm.id] == sm
    }

    predicate PooledImage(im: ImageMetadata)
      reads images
    {
      im.id in images.pool && images.pool[im.id] == im
    }

    /** The service did what the outcome says: the reply, the writes in order, the outside
        calls, and, unless the process ended, the pools. */
    twostate predicate Does(o: Outcome, reply: Reply)
      reads this, containers, containers.pool.Values, pods, pods.pool.Values, pods.Arrays(), images, images.pool.Values,
        disk
    {
      && reply == o.reply && disk.journal == old(disk.journal) + o.writes && marks == old(marks) + o.marks
      && disk.files == o.world.files
      && (reply != Crashed ==> StandsFor(o.world))
    }

    // ---- opening ----

    /** Opening the service over existing files is the restart of the specification. The
        orders enumerate the files' keys; `decoded` holds the image stored in each container
        record, and `reopen` the paths of the namespaces that open again. */
    constructor (cfg: Config, files: Files, containerOrder: seq<string>, podOrder: seq<string>, imageOrder: seq<string>,
                 decoded: map<string, Image>, reopen: map<string, string>)
      requires Enumerates(containerOrder, files.containers.Keys) && Enumerates(podOrder, files.pods.Keys)
      requires Enumerates(imageOrder, files.images.Keys)
      requires GoodKeys(files.containers) && GoodImages(files.images)
      requires forall k :: k in files.pods ==> files.pods[k].info.id == k
      requires forall k :: k in files.containers && files.containers[k].image.Some? ==>
                 k in decoded && decoded[k].id == files.containers[k].image.value
      ensures this.cfg == cfg && marks == [] && StandsFor(Restart(files, reopen))
    {
      this.cfg, marks := cfg, [];
      host := new Host();
      var store := new KVStore(files);
      disk := store;
      containers := new ContainerStorage(store);
      pods := new SandboxStorage(store);
      images := new ImageStorage(store);
      new;
      LoadContainers(containerOrder, decoded);
      LoadImages(imageOrder);
      LoadPods(podOrder, reopen);
    }

    method LoadContainers(order: seq<string>, decoded: map<string, Image>)
      requires containers.persist == disk
      requires Enumerates(order, disk.files.containers.Keys) && GoodKeys(disk.files.containers)
      requires forall k :: k in disk.files.containers && disk.files.containers[k].image.Some? ==>
                 k in decoded && decoded[k].id == disk.files.containers[k].image.value
      modifies containers
      ensures ContainersHold(disk.files.containers)
    {
      containers.LoadAll(order, decoded);
    }

    method LoadImages(order: seq<string>)
      requires images.persist == disk && ContainersHold(disk.files.containers)
      requires Enumerates(order, disk.files.images.Keys) && GoodImages(disk.files.images)
      modifies images
      ensures ContainersHold(disk.files.containers) && ImagesHold(disk.files.images)
    {
      images.LoadAll(order);
    }

    method LoadPods(order: seq<string>, reopen: map<string, string>)
      requires pods.persist == disk && ContainersHold(disk.files.containers) && ImagesHold(disk.files.images)
      requires Enumerates(order, disk.files.pods.Keys) && forall k :: k in disk.files.pods ==>
        disk.files.pods[k].info.id == k
      modifies pods, disk
      ensures StandsFor(Restart(old(disk.files), reopen))
    {
      pods.LoadAll(order, reopen);
    }

    // ---- one write ----

    /** Writing a changed container of the pool through. */
    method PutThrough(ghost records: map<string, Container>, cm: ContainerMetadata)
      requires ContainersHoldBut(records, cm.id) && Pooled(cm)
      modifies disk, containers
      ensures ContainersHold(records[cm.id := cm.Record()])
      ensures disk.files == Apply(old(disk.files), PutContainer(cm.id, cm.Record()))
      ensures disk.journal == old(disk.journal) + [PutContainer(cm.id, cm.Record())]
    {
      PutAgree(containers.View(), records, cm.id, cm.Record());
      containers.Update(cm);
    }

    /** A pool stands for the same records while none of its objects changes. */
    twostate lemma PodsStay(records: map<string, Pod>)
      requires old(PodsHold(records)) && unchanged(pods) && unchanged(pods.pool.Values) && unchanged(pods.Arrays())
      ensures PodsHold(records)
    {
    }

    twostate lemma ContainersStay(records: map<string, Container>)
      requires old(ContainersHold(records)) && unchanged(containers) && unchanged(containers.pool.Values)
      ensures ContainersHold(records)
    {
    }

    twostate lemma ImagesStay(records: map<string, Image>)
      requires old(ImagesHold(records)) && unchanged(images) && unchanged(images.pool.Values)
      ensures ImagesHold(records)
    {
    }

    method SaveContainer(ghost w: World, cm: ContainerMetadata)
      requires StandsForBut(w, cm.id) && Pooled(cm)
      modifies disk, containers
      ensures StandsFor(WithContainer(w, cm.Record()))
      ensures disk.journal == old(disk.journal) + [PutContainer(cm.id, cm.Record())]
    {
      PutThrough(w.containers, cm);
      PodsStay(w.pods);
    }

    method AdmitContainer(ghost w: World, c: Container, image: ImageMetadata?) returns (cm: ContainerMetadata)
      requires StandsFor(w) && c.image == if image == null then None else Some(image.id)
      modifies disk, containers
      ensures fresh(cm) && cm.Record() == c && cm.image == image
      ensures StandsFor(WithContainer(w, c)) && Pooled(cm)
      ensures disk.journal == old(disk.journal) + [PutContainer(c.id, c)]
    {
      cm := containers.CreateContainerMetadata(c, image);
    }

    method StoreAgain(ghost w: World, cm: ContainerMetadata)
      requires StandsFor(w)
      modifies disk, containers
      ensures StandsFor(WithContainer(w, cm.Record()))
      ensures disk.journal == old(disk.journal) + [PutContainer(cm.id, cm.Record())]
    {
      containers.Update(cm);
    }

    /** Writing a changed pod of the pool through. */
    method PutPodThrough(ghost records: map<string, Pod>, sm: SandboxMetadata)
      requires PodsHoldBut(records, sm.id) && PooledPod(sm)
      modifies disk, pods
      ensures PodsHold(records[sm.id := sm.Record()])
      ensures disk.files == Apply(old(disk.files), PutPod(sm.id, sm.Record()))
      ensures disk.journal == old(disk.journal) + [PutPod(sm.id, sm.Record())]
    {
      PutAgree(pods.View(), records, sm.id, sm.Record());
      pods.Update(sm);
    }

    method SavePod(ghost w: World, sm: SandboxMetadata)
      requires StandsForButPod(w, sm.id) && PooledPod(sm)
      modifies disk, pods
      ensures StandsFor(WithPod(w, sm.Record()))
      ensures disk.journal == old(disk.journal) + [PutPod(sm.id, sm.Record())]
    {
      PutPodThrough(w.pods, sm);
    }

    /** Dropping a pod. */
    method DropPod(ghost w: World, id: string)
      requires StandsForButPod(w, id)
      modifies disk, pods
      ensures StandsFor(WithoutPod(w, id))
      ensures disk.journal == old(disk.journal) + [DeletePod(id)]
    {
      assert pods.View() - {id} == w.pods - {id};
      pods.Remove(id);
    }

    method AdmitPod(ghost w: World, p: Pod) returns (sandbox: SandboxMetadata)
      requires StandsFor(w)
      modifies disk, pods
      ensures fresh(sandbox) && sandbox.Valid() && sandbox.Record() == p
      ensures StandsFor(WithPod(w, p)) && PooledPod(sandbox)
      ensures disk.journal == old(disk.journal) + [PutPod(p.info.id, p)]
    {
      sandbox := pods.CreateSandboxMetadata(p);
    }

    /** Writing a changed image of the pool through. */
    method PutImageThrough(ghost records: map<string, Image>, im: ImageMetadata)
      requires ImagesHoldBut(records, im.id) && PooledImage(im)
      modifies disk, images
      ensures ImagesHold(records[im.id := im.Record()])
      ensures disk.files == Apply(old(disk.files), PutImage(im.id, im.Record()))
      ensures disk.journal == old(disk.journal) + [PutImage(im.id, im.Record())]
    {
      PutAgree(images.View(), records, im.id, im.Record());
      images.Update(im);
    }

    method SaveImage(ghost w: World, im: ImageMetadata)
      requires StandsForButImage(w, im.id) && PooledImage(im)
      modifies disk, images
      ensures StandsFor(WithImage(w, im.Record()))
      ensures disk.journal == old(disk.journal) + [PutImage(im.id, im.Record())]
    {
      PutImageThrough(w.images, im);
      PodsStay(w.pods);
    }

    /** Dropping an image. */
    method DropImageRecord(ghost w: World, id: string)
      requires StandsForButImage(w, id)
      modifies disk, images
      ensures StandsFor(WithoutImage(w, id))
      ensures disk.journal == old(disk.journal) + [DeleteImage(id)]
    {
      assert images.View() - {id} == w.images - {id};
      images.Remove(id);
    }

    method AdmitImage(ghost w: World, i: Image) returns (im: ImageMetadata)
      requires StandsFor(w) && i.id !in w.images
      modifies disk, images
      ensures fresh(im) && im.Record() == i
      ensures StandsFor(WithImage(w, i)) && PooledImage(im)
      ensures disk.journal == old(disk.journal) + [PutImage(i.id, i)]
    {
      im := NewImageObject(i);
      StoreImage(w, im);
    }

    method NewImageObject(i: Image) returns (im: ImageMetadata)
      ensures fresh(im) && im.Record() == i
    {
      im := new ImageMetadata(i);
    }

    /** In every state the invariant allows, each live container object equals its stored
        record, and each id in a live pod's list names a live container that points back. */
    lemma ObjectsAgree(w: World)
      requires StandsFor(w) && Inv(cfg, w)
      ensures containers.pool.Keys == disk.files.containers.Keys
      ensures forall c :: c in containers.pool ==> containers.pool[c].Record() == disk.files.containers[c]
      ensures forall p, c :: p in pods.pool && c in pods.pool[p].Record().containers ==>
                c in containers.pool && containers.pool[c].pod.id == p
    {
      assert containers.View().Keys == containers.pool.Keys && pods.View().Keys == pods.pool.Keys;
      forall c | c in containers.pool ensures containers.pool[c].Record() == disk.files.containers[c] {
        assert containers.View()[c] == containers.pool[c].Record();
      }
      forall p, c | p in pods.pool && c in pods.pool[p].Record().containers
        ensures c in containers.pool && containers.pool[c].pod.id == p
      {
        assert pods.View()[p] == pods.pool[p].Record() && GoodList(p, w.pods[p].containers, w.containers);
        assert c in containers.View() && containers.View()[c] == containers.pool[c].Record();
      }
    }

    // ---- start ----

    /** Notes what reaches a runtime outside. */
    method Note(ghost w: World, ghost ms: seq<Mark>)
      requires StandsFor(w)
      modifies this`marks
      ensures StandsFor(w) && marks == old(marks) + ms
    {
      marks := marks + ms;
    }

    /** The call goes to the remote runtime of a known container's handler, if it has one. */
    method CallRemote(ghost w: World, op: Op, cm: ContainerMetadata, answer: Answer) returns (d: Dispatched)
      requires StandsFor(w)
      modifies this`marks
      ensures StandsFor(w) && d == Dispatch(cfg.remotes, cm.pod.handler, answer)
      ensures marks == old(marks) + SentTo(cfg.remotes, op, cm.id, cm.pod.handler)
    {
      Note(w, SentTo(cfg.remotes, op, cm.id, cm.pod.handler));
      d := Dispatch(cfg.remotes, cm.pod.handler, answer);
    }

    /** Submitting the job and recording the outcome, all in the shared record. */
    method Launch(cm: ContainerMetadata, run: Adapter.SbatchAnswer, now: int) returns (s: Submission)
      modifies cm
      ensures s == Submit(old(cm.Record()), Adapter.Read(run))
      ensures cm.Record() == Started(old(cm.Record()), s, now)
    {
      s := Adapter.StartContainer(cm, run);
      match s {
        case Interrupted(_) =>
        case Submission(_, Some(_), _) =>
          cm.state, cm.exitCode, cm.finishedAt, cm.reason := EXITED, 1, now, CannotRun;
        case Submission(_, None, _) =>
          cm.state, cm.startedAt, cm.reason := RUNNING, now, StartOk;
      }
    }

    method LaunchIn(ghost records: map<string, Container>, cm: ContainerMetadata, run: Adapter.SbatchAnswer, now: int)
      returns (s: Submission)
      requires ContainersHold(records) && Pooled(cm)
      modifies cm
      ensures s == Submit(old(cm.Record()), Adapter.Read(run))
      ensures cm.Record() == Started(old(cm.Record()), s, now) && ContainersHoldBut(records, cm.id)
    {
      s := Launch(cm, run, now);
    }

    method LaunchOne(ghost w: World, cm: ContainerMetadata, run: Adapter.SbatchAnswer, now: int) returns (s: Submission)
      requires StandsFor(w) && Pooled(cm)
      modifies cm
      ensures s == Submit(old(cm.Record()), Adapter.Read(run))
      ensures cm.Record() == Started(old(cm.Record()), s, now) && StandsForBut(w, cm.id)
    {
      s := LaunchIn(w.containers, cm, run, now);
      PodsStay(w.pods);
    }

    method StartLocally(ghost w: World, cm: ContainerMetadata, run: Adapter.SbatchAnswer, now: int)
      returns (reply: Reply)
      requires StandsFor(w) && Pooled(cm)
      modifies this`marks, disk, containers, cm
      ensures Does(Lifecycle.StartLocally(w, old(cm.Record()), Adapter.Read(run), now), reply)
    {
      var s := LaunchOne(w, cm, run, now);
      ghost var ms := [Sent(StartOp, cm.id, Local)] + if s.submitted then [Submitted(cm.id)] else [];
      if s.Interrupted? {
        marks := marks + ms;
        return Crashed;
      }
      ghost var started := cm.Record();
      reply := StartReply(s);
      SaveIs(w, started, reply, ms);
      SaveContainer(w, cm);
      Note(WithContainer(w, started), ms);
    }

    /** The remote's answer and the state, before the adapter is asked. */
    method PermitStart(ghost w: World, cm: ContainerMetadata, remote: Answer, ghost run: SbatchRun, ghost now: int)
      returns (refusal: Option<Reply>, ghost sent: seq<Mark>)
      requires StandsFor(w)
      modifies this`marks
      ensures StandsFor(w) && marks == old(marks) + sent
      ensures Lifecycle.StartKnown(cfg, w, cm.Record(), remote, run, now) ==
              match refusal
              case Some(reply) => Still(w, reply, sent)
              case None => Following(sent, Lifecycle.StartLocally(w, cm.Record(), run, now))
    {
      sent := SentTo(cfg.remotes, StartOp, cm.id, cm.pod.handler);
      var response := CallRemote(w, StartOp, cm, remote);
      refusal :=
        if response.Answered? then Some(Done)
        else if cm.state == RUNNING then Some(Failed(AlreadyStarted))
        else if cm.state != CREATED then Some(Failed(ContainerFailed))
        else None;
    }

    method StartKnown(ghost w: World, cm: ContainerMetadata, remote: Answer, run: Adapter.SbatchAnswer, now: int)
      returns (reply: Reply)
      requires StandsFor(w) && Pooled(cm)
      modifies this`marks, disk, containers, cm
      ensures Does(Lifecycle.StartKnown(cfg, w, old(cm.Record()), remote, Adapter.Read(run), now), reply)
    {
      ghost var o := Lifecycle.StartLocally(w, cm.Record(), Adapter.Read(run), now);
      var refusal, sent := PermitStart(w, cm, remote, Adapter.Read(run), now);
      if refusal.Some? {
        return refusal.value;
      }
      AppendMarks(old(marks), sent, o.marks);
      reply := StartLocally(w, cm, run, now);
    }

    method StartContainer(ghost w: World, id: string, remote: Answer, run: Adapter.SbatchAnswer, now: int)
      returns (reply: Reply)
      requires StandsFor(w)
      modifies this`marks, disk, containers, containers.pool.Values
      ensures Does(Lifecycle.StartContainer(cfg, w, id, remote, Adapter.Read(run), now), reply)
    {
      var cm := containers.Get(id);
      if cm == null {
        return Failed(ContainerNotFound);
      }
      reply := StartKnown(w, cm, remote, run, now);
    }

    // ---- stop ----

    method MarkExitedIn(ghost records: map<string, Container>, cm: ContainerMetadata, now: int)
      requires ContainersHold(records) && Pooled(cm)
      modifies cm
      ensures cm.Record() == old(cm.Record()).(state := EXITED, finishedAt := now) && ContainersHoldBut(records, cm.id)
    {
      cm.state, cm.finishedAt := EXITED, now;
    }

    method MarkExited(ghost w: World, cm: ContainerMetadata, now: int)
      requires StandsFor(w) && Pooled(cm)
      modifies cm
      ensures cm.Record() == old(cm.Record()).(state := EXITED, finishedAt := now) && StandsForBut(w, cm.id)
    {
      MarkExitedIn(w.containers, cm, now);
      PodsStay(w.pods);
    }

    method Cancel(ghost w: World, cm: ContainerMetadata, scancel: ScancelAnswer)
      returns (end: CallEnd, command: Option<string>)
      requires StandsFor(w)
      ensures StandsFor(w) && end == Slurm.Cancel(cm.Record(), scancel) && command == CommandOf(cm.Record(), scancel)
    {
      end, command := Adapter.StopContainer(cm, scancel);
    }

    /** Asking the adapter; the command that it sends is noted. */
    method CancelJob(ghost w: World, cm: ContainerMetadata, scancel: ScancelAnswer) returns (end: CallEnd)
      requires StandsFor(w)
      modifies this`marks
      ensures StandsFor(w) && end == Slurm.Cancel(cm.Record(), scancel)
      ensures marks == old(marks) + StopMarks(cm.Record(), scancel)
    {
      Note(w, [Sent(StopOp, cm.id, Local)]);
      var command;
      end, command := Cancel(w, cm, scancel);
      ghost var sent := match command case Some(text) => [Commanded(cm.id, text)] case None => [];
      AppendMarks(old(marks), [Sent(StopOp, cm.id, Local)], sent);
      Note(w, sent);
    }

    method StopLocally(ghost w: World, cm: ContainerMetadata, scancel: ScancelAnswer, now: int) returns (reply: Reply)
      requires StandsFor(w) && Pooled(cm)
      modifies this`marks, disk, containers, cm
      ensures Does(Lifecycle.StopLocally(w, old(cm.Record()), scancel, now), reply)
    {
      ghost var ms := StopMarks(cm.Record(), scancel);
      var end := CancelJob(w, cm, scancel);
      if end != Returns {
        return Broken(end);
      }
      MarkExited(w, cm, now);
      SaveIs(w, cm.Record(), Done, ms);
      SaveContainer(w, cm);
      return Done;
    }

    /** Whether the remote stopped the container, or it does not run. */
    method PermitStopOf(ghost w: World, cm: ContainerMetadata, remote: Answer, ghost scancel: ScancelAnswer,
                        ghost now: int)
      returns (stopped: bool, ghost sent: seq<Mark>)
      requires StandsFor(w)
      modifies this`marks
      ensures StandsFor(w) && marks == old(marks) + sent
      ensures Lifecycle.StopKnown(cfg, w, cm.Record(), remote, scancel, now) ==
              if stopped then Still(w, Done, sent)
              else Following(sent, Lifecycle.StopLocally(w, cm.Record(), scancel, now))
    {
      sent := SentTo(cfg.remotes, StopOp, cm.id, cm.pod.handler);
      var response := CallRemote(w, StopOp, cm, remote);
      stopped := response.Answered? || cm.state != RUNNING;
    }

    method StopKnown(ghost w: World, cm: ContainerMetadata, remote: Answer, scancel: ScancelAnswer, now: int)
      returns (reply: Reply)
      requires StandsFor(w) && Pooled(cm)
      modifies this`marks, disk, containers, cm
      ensures Does(Lifecycle.StopKnown(cfg, w, old(cm.Record()), remote, scancel, now), reply)
    {
      ghost var o := Lifecycle.StopLocally(w, cm.Record(), scancel, now);
      var stopped, sent := PermitStopOf(w, cm, remote, scancel, now);
      if stopped {
        return Done;
      }
      AppendMarks(old(marks), sent, o.marks);
      reply := StopLocally(w, cm, scancel, now);
    }

    method StopContainer(ghost w: World, id: string, remote: Answer, scancel: ScancelAnswer, now: int)
      returns (reply: Reply)
      requires StandsFor(w)
      modifies this`marks, disk, containers, containers.pool.Values
      ensures Does(Lifecycle.StopContainer(cfg, w, id, remote, scancel, now), reply)
    {
      var cm := containers.Get(id);
      if cm != null {
        reply := StopKnown(w, cm, remote, scancel, now);
      } else {
        var response := Dispatch(cfg.remotes, "", remote);
        reply := if response.Answered? then Done else Failed(ContainerNotFound);
      }
    }

    // ---- status ----

    /** Asking the adapter unless the container has exited; an error makes it exit. */
    method Observe(cm: ContainerMetadata, answer: Adapter.SstatusAnswer) returns (broken: bool)
      modifies cm
      ensures Sighted(old(cm.Record()), Adapter.ReadStatus(answer), cm.Record(), broken)
    {
      broken := false;
      if cm.state != EXITED {
        var end := Adapter.ContainerStatus(cm, answer);
        match end {
          case Returns =>
          case Errs(fault) => cm.state, cm.exitCode, cm.reason := EXITED, 1, Because(fault);
          case Dies => broken := true;
        }
      }
    }

    method ObserveIn(ghost records: map<string, Container>, cm: ContainerMetadata, answer: Adapter.SstatusAnswer)
      returns (broken: bool)
      requires ContainersHold(records) && Pooled(cm)
      modifies cm
      ensures Sighted(old(cm.Record()), Adapter.ReadStatus(answer), cm.Record(), broken) &&
        ContainersHoldBut(records, cm.id)
    {
      broken := Observe(cm, answer);
    }

    method ObserveOne(ghost w: World, cm: ContainerMetadata, answer: Adapter.SstatusAnswer) returns (broken: bool)
      requires StandsFor(w) && Pooled(cm)
      modifies cm
      ensures Sighted(old(cm.Record()), Adapter.ReadStatus(answer), cm.Record(), broken) && StandsForBut(w, cm.id)
    {
      broken := ObserveIn(w.containers, cm, answer);
      PodsStay(w.pods);
      ImagesStay(w.images);
    }

    /** Writing a changed container through and noting what reached a runtime before. */
    method SaveNoted(ghost w: World, cm: ContainerMetadata, reply: Reply, ghost ms: seq<Mark>)
      requires StandsForBut(w, cm.id) && Pooled(cm)
      modifies this`marks, disk, containers
      ensures Does(Save(w, cm.Record(), reply, ms), reply)
    {
      SaveIs(w, cm.Record(), reply, ms);
      SaveContainer(w, cm);
      Note(WithContainer(w, cm.Record()), ms);
    }

    method StatusLocally(ghost w: World, cm: ContainerMetadata, answer: Adapter.SstatusAnswer) returns (reply: Reply)
      requires StandsFor(w) && Pooled(cm)
      modifies this`marks, disk, containers, cm
      ensures Does(Lifecycle.StatusLocally(w, old(cm.Record()), Adapter.ReadStatus(answer)), reply)
    {
      ghost var c := cm.Record();
      var broken := ObserveOne(w, cm, answer);
      StatusLocallyIs(w, c, Adapter.ReadStatus(answer), cm.Record(), broken);
      if broken {
        marks := marks + [Sent(StatusOp, cm.id, Local)];
        return Crashed;
      }
      reply := if cm.image != null then Done else Crashed;
      SaveNoted(w, cm, reply, Sightings(c, cm.Record()));
    }

    method PermitStatus(ghost w: World, cm: ContainerMetadata, remote: Answer, ghost answer: StatusAnswer)
      returns (refusal: Option<Reply>, ghost sent: seq<Mark>)
      requires StandsFor(w)
      modifies this`marks
      ensures StandsFor(w) && marks == old(marks) + sent
      ensures Lifecycle.StatusKnown(cfg, w, cm.Record(), remote, answer) ==
              match refusal
              case Some(reply) => Still(w, reply, sent)
              case None => Following(sent, Lifecycle.StatusLocally(w, cm.Record(), answer))
    {
      sent := SentTo(cfg.remotes, StatusOp, cm.id, cm.pod.handler);
      var response := CallRemote(w, StatusOp, cm, remote);
      match response {
        case Refused(fault) => refusal := Some(Failed(fault));
        case Answered(_) => refusal := Some(Done);
        case NotRemote => refusal := None;
      }
    }

    method StatusKnown(ghost w: World, cm: ContainerMetadata, remote: Answer, answer: Adapter.SstatusAnswer)
      returns (reply: Reply)
      requires StandsFor(w) && Pooled(cm)
      modifies this`marks, disk, containers, cm
      ensures Does(Lifecycle.StatusKnown(cfg, w, old(cm.Record()), remote, Adapter.ReadStatus(answer)), reply)
    {
      ghost var o := Lifecycle.StatusLocally(w, cm.Record(), Adapter.ReadStatus(answer));
      var refusal, sent := PermitStatus(w, cm, remote, Adapter.ReadStatus(answer));
      if refusal.Some? {
        return refusal.value;
      }
      AppendMarks(old(marks), sent, o.marks);
      reply := StatusLocally(w, cm, answer);
    }

    method ContainerStatus(ghost w: World, id: string, remote: Answer, answer: Adapter.SstatusAnswer)
      returns (reply: Reply)
      requires StandsFor(w)
      modifies this`marks, disk, containers, containers.pool.Values
      ensures Does(Lifecycle.ContainerStatus(cfg, w, id, remote, Adapter.ReadStatus(answer)), reply)
    {
      var cm := containers.Get(id);
      if cm != null {
        reply := StatusKnown(w, cm, remote, answer);
      } else {
        var response := Dispatch(cfg.remotes, "", remote);
        match response {
          case Refused(fault) => reply := Failed(fault);
          case Answered(_) => reply := Done;
          case NotRemote => reply := Crashed;
        }
      }
    }

    // ---- remove ----

    /** Taking an id off its pod's list; a panic of the loop stores nothing. */
    method DropFromPod(ghost w: World, podId: string, id: string) returns (reply: Reply)
      requires StandsFor(w)
      modifies disk, pods.pool.Values, pods.Arrays()
      ensures Does(Lifecycle.DropFromPod(w, podId, id), reply)
    {
      if podId !in pods.pool {
        return Done;
      }
      var panicked := DeleteFromList(w, podId, id);
      reply := if panicked then Crashed else Done;
      ghost var p := w.pods[podId];
      match Sweep(p.containers, |p.containers|, 0, id) {
        case Panicked =>
        case Kept(ids) => OneWrite(w.files, PutPod(podId, p.(containers := ids)));
      }
    }

    method DeleteFromList(ghost w: World, podId: string, id: string) returns (panicked: bool)
      requires StandsFor(w) && podId in pods.pool
      modifies disk, pods.pool[podId], pods.pool[podId].backing
      ensures var p := w.pods[podId];
              match Sweep(p.containers, |p.containers|, 0, id)
              case Panicked => panicked && disk.files == w.files && disk.journal == old(disk.journal)
              case Kept(ids) =>
                var rest := p.(containers := ids);
                && !panicked && StandsFor(WithPod(w, rest)) && disk.journal == old(disk.journal) + [PutPod(podId, rest)]
    {
      panicked := DeleteBeside(w, podId, id);
    }

    method DeleteBeside(ghost w: World, podId: string, id: string) returns (panicked: bool)
      requires PodsHold(w.pods) && ContainersHold(w.containers) && podId in pods.pool
      modifies disk, pods.pool[podId], pods.pool[podId].backing
      ensures ContainersHold(w.containers)
      ensures var p := w.pods[podId];
              match Sweep(p.containers, |p.containers|, 0, id)
              case Panicked => panicked && disk.files == old(disk.files) && disk.journal == old(disk.journal)
              case Kept(ids) =>
                var rest := p.(containers := ids);
                && !panicked && PodsHold(w.pods[podId := rest])
                && disk.files == Apply(old(disk.files), PutPod(podId, rest))
                && disk.journal == old(disk.journal) + [PutPod(podId, rest)]
    {
      panicked := DeleteIn(w.pods, podId, id);
    }

    method DeleteIn(ghost records: map<string, Pod>, podId: string, id: string) returns (panicked: bool)
      requires PodsHold(records) && podId in pods.pool
      modifies disk, pods.pool[podId], pods.pool[podId].backing
      ensures var p := records[podId];
              match Sweep(p.containers, |p.containers|, 0, id)
              case Panicked => panicked && disk.files == old(disk.files) && disk.journal == old(disk.journal)
              case Kept(ids) =>
                var rest := p.(containers := ids);
                && !panicked && PodsHold(records[podId := rest])
                && disk.files == Apply(old(disk.files), PutPod(podId, rest))
                && disk.journal == old(disk.journal) + [PutPod(podId, rest)]
    {
      panicked := pods.RemoveContainer(podId, id);
    }

    /** The checks before the pod's list is touched. */
    method PermitRemoval(ghost w: World, cm: ContainerMetadata, remote: Answer, reopen: CallEnd)
      returns (refusal: Option<Reply>, ghost sent: seq<Mark>)
      requires StandsFor(w)
      modifies this`marks
      ensures StandsFor(w) && marks == old(marks) + sent
      ensures Lifecycle.RemoveKnown(cfg, w, cm.Record(), remote, reopen) ==
              match refusal
              case Some(reply) => Still(w, reply, sent)
              case None => Following(sent, Lifecycle.DropFromPod(w, cm.pod.id, cm.id))
    {
      sent := SentTo(cfg.remotes, RemoveOp, cm.id, cm.pod.handler);
      var response := CallRemote(w, RemoveOp, cm, remote);
      match response {
        case Refused(fault) => refusal := Some(Failed(fault));
        case Answered(_) => refusal := None;
        case NotRemote =>
          if cm.state == RUNNING {
            refusal := Some(Failed(ContainerRunning));
          } else {
            Note(w, [Sent(RemoveOp, cm.id, Local)]);
            sent := sent + [Sent(RemoveOp, cm.id, Local)];
            refusal := if reopen == Returns then None else Some(Broken(reopen));
          }
      }
    }

    method RemoveKnown(ghost w: World, cm: ContainerMetadata, remote: Answer, reopen: CallEnd) returns (reply: Reply)
      requires StandsFor(w)
      modifies this`marks, disk, pods.pool.Values, pods.Arrays()
      ensures Does(Lifecycle.RemoveKnown(cfg, w, old(cm.Record()), remote, reopen), reply)
    {
      var refusal, sent := PermitRemoval(w, cm, remote, reopen);
      if refusal.Some? {
        return refusal.value;
      }
      AppendMarks(old(marks), sent, []);
      DropsSilently(w, cm.pod.id, cm.id);
      reply := DropFromPod(w, cm.pod.id, cm.id);
    }

    lemma DropsSilently(w: World, podId: string, id: string)
      ensures Lifecycle.DropFromPod(w, podId, id).marks == []
    {
    }

    method RemoveUnknown(remote: Answer) returns (reply: Reply)
      ensures reply == match Dispatch(cfg.remotes, "", remote)
                       case Refused(fault) => Failed(fault)
                       case Answered(_) => Crashed
                       case NotRemote => Failed(ContainerNotFound)
    {
      var response := Dispatch(cfg.remotes, "", remote);
      match response {
        case Refused(fault) => reply := Failed(fault);
        case Answered(_) => reply := Crashed;
        case NotRemote => reply := Failed(ContainerNotFound);
      }
    }

    method RemoveContainer(ghost w: World, id: string, remote: Answer, reopen: CallEnd) returns (reply: Reply)
      requires StandsFor(w)
      modifies this`marks, disk, pods.pool.Values, pods.Arrays()
      ensures Does(Lifecycle.RemoveContainer(cfg, w, id, remote, reopen), reply)
    {
      var cm := containers.Get(id);
      if cm != null {
        reply := RemoveKnown(w, cm, remote, reopen);
      } else {
        reply := RemoveUnknown(remote);
      }
    }

    // ---- pods ----

    method RunRemotely(ghost w: World, remoteId: string, newId: string, handler: string) returns (reply: Reply)
      requires StandsFor(w)
      modifies this`marks, disk, pods
      ensures Does(Lifecycle.RunRemotely(cfg, w, remoteId, newId, handler), reply)
    {
      var id := if remoteId != "" then remoteId else newId;
      ghost var p := NewPod(id, handler);
      Note(w, SentTo(cfg.remotes, RunOp, id, handler));
      AppendTwo(disk.journal, PutPod(id, p), PutPod(id, p));
      RunRemotelyIs(cfg, w, remoteId, newId, handler);
      StoreTwice(w, NewPod(id, handler));
      return DoneId(remoteId);
    }

    /** A remote pod's record is stored, and stored again unchanged. */
    method StoreTwice(ghost w: World, p: Pod)
      requires StandsFor(w)
      modifies disk, pods
      ensures StandsFor(WithPod(WithPod(w, p), p))
      ensures disk.journal == old(disk.journal) + [PutPod(p.info.id, p)] + [PutPod(p.info.id, p)]
    {
      var sandbox := AdmitPod(w, p);
      SavePod(WithPod(w, p), sandbox);
    }

    /** The network, when there is a plug-in, the log path, and the adapter. */
    method SetUp(sandbox: SandboxMetadata, net: NetworkCalls, logPath: string, adapter: CallEnd) returns (end: CallEnd)
      requires sandbox.Valid()
      modifies host, sandbox
      ensures sandbox.Valid() && sandbox.backing == old(sandbox.backing)
      ensures end == RunEnd(cfg, sandbox.id, net, adapter)
      ensures end == Returns ==> sandbox.Record() == SetUpPod(cfg, old(sandbox.Record()), net, logPath)
      ensures host.actions == old(host.actions) + RunActions(cfg, sandbox.id, net)
    {
      if cfg.netPlugin {
        var ip;
        end, ip := host.SetupPodNetwork(SetupOf(sandbox.id, net));
        if ip.Some? {
          sandbox.ip := ip.value;
        }
        if end != Returns {
          return;
        }
      }
      sandbox.logPath := logPath;
      return adapter;
    }

    /** Setting up one pod of the pool leaves all others alone. */
    method SetUpIn(ghost records: map<string, Pod>, sandbox: SandboxMetadata, net: NetworkCalls, logPath: string,
                   adapter: CallEnd)
      returns (end: CallEnd)
      requires PodsHold(records) && PooledPod(sandbox)
      modifies host, sandbox
      ensures PodsHoldBut(records, sandbox.id) && end == RunEnd(cfg, sandbox.id, net, adapter)
      ensures end == Returns ==> sandbox.Record() == SetUpPod(cfg, old(sandbox.Record()), net, logPath)
      ensures host.actions == old(host.actions) + RunActions(cfg, sandbox.id, net)
    {
      end := SetUp(sandbox, net, logPath, adapter);
    }

    method SetUpOne(ghost w: World, sandbox: SandboxMetadata, net: NetworkCalls, logPath: string, adapter: CallEnd)
      returns (end: CallEnd)
      requires StandsFor(w) && PooledPod(sandbox)
      modifies host, sandbox
      ensures StandsForButPod(w, sandbox.id) && end == RunEnd(cfg, sandbox.id, net, adapter)
      ensures end == Returns ==> sandbox.Record() == SetUpPod(cfg, old(sandbox.Record()), net, logPath)
      ensures host.actions == old(host.actions) + RunActions(cfg, sandbox.id, net)
    {
      end := SetUpIn(w.pods, sandbox, net, logPath, adapter);
      ContainersStay(w.containers);
      ImagesStay(w.images);
    }

    /** A pod that could not be set up is dropped; one that could is stored as it is now. */
    method Conclude(ghost w: World, sandbox: SandboxMetadata, end: CallEnd) returns (reply: Reply)
      requires StandsForButPod(w, sandbox.id) && PooledPod(sandbox)
      modifies this`marks, disk, pods
      ensures var p := old(sandbox.Record());
              match end
              case Dies => reply == Crashed && disk.files == w.files && disk.journal == old(disk.journal) &&
                marks == old(marks)
              case Errs(e) =>
                && reply == Failed(e) && StandsFor(WithoutPod(w, p.info.id)) && marks == old(marks)
                && disk.journal == old(disk.journal) + [DeletePod(p.info.id)]
              case Returns =>
                && reply == DoneId(p.info.id) && StandsFor(WithPod(w, p)) &&
                  marks == old(marks) + [Sent(RunOp, p.info.id, Local)]
                && disk.journal == old(disk.journal) + [PutPod(p.info.id, p)]
    {
      match end {
        case Dies => return Crashed;
        case Errs(e) =>
          DropPod(w, sandbox.id);
          return Failed(e);
        case Returns =>
          SavePod(w, sandbox);
          Note(WithPod(w, sandbox.Record()), [Sent(RunOp, sandbox.id, Local)]);
          return DoneId(sandbox.id);
      }
    }

    /** Stores the record of a pod, sets the pod up, and drops it or stores it again. */
    method RunSteps(ghost w: World, p: Pod, net: NetworkCalls, logPath: string, adapter: CallEnd) returns (reply: Reply)
      requires StandsFor(w)
      modifies this`marks, disk, pods, host
      ensures host.actions == old(host.actions) + RunActions(cfg, p.info.id, net)
      ensures var id, ready := p.info.id, SetUpPod(cfg, p, net, logPath);
              var journal := old(disk.journal) + [PutPod(id, p)];
              match RunEnd(cfg, id, net, adapter)
              case Dies =>
                reply == Crashed && disk.files == WithPod(w, p).files && disk.journal == journal && marks == old(marks)
              case Errs(e) =>
                && reply == Failed(e) && StandsFor(WithoutPod(WithPod(w, p), id)) && marks == old(marks)
                && disk.journal == journal + [DeletePod(id)]
              case Returns =>
                && reply == DoneId(id) && StandsFor(WithPod(WithPod(w, p), ready))
                && marks == old(marks) + [Sent(RunOp, id, Local)] && disk.journal == journal + [PutPod(id, ready)]
    {
      var sandbox := AdmitPod(w, p);
      var end := SetUpOne(WithPod(w, p), sandbox, net, logPath, adapter);
      reply := Conclude(WithPod(w, p), sandbox, end);
    }

    method RunLocally(ghost w: World, id: string, handler: string, net: NetworkCalls, logPath: string, adapter: CallEnd)
      returns (reply: Reply)
      requires StandsFor(w)
      modifies this`marks, disk, pods, host
      ensures Does(Lifecycle.RunLocally(cfg, w, id, handler, net, logPath, adapter), reply)
      ensures host.actions == old(host.actions) + RunActions(cfg, id, net)
    {
      ghost var p, before := NewPod(id, handler), disk.journal;
      AppendTwo(before, PutPod(id, p), DeletePod(id));
      AppendTwo(before, PutPod(id, p), PutPod(id, SetUpPod(cfg, p, net, logPath)));
      RunLocallyIs(cfg, w, id, handler, net, logPath, adapter);
      reply := RunSteps(w, NewPod(id, handler), net, logPath, adapter);
    }

    method RunPodSandbox(ghost w: World, uid: string, handler: string, newId: string, remote: Answer,
                         net: NetworkCalls, logPath: string, adapter: CallEnd) returns (reply: Reply)
      requires StandsFor(w)
      modifies this`marks, disk, pods, host
      ensures Does(Lifecycle.RunPodSandbox(cfg, w, uid, handler, newId, remote, net, logPath, adapter), reply)
      ensures host.actions == old(host.actions)
                              + if GetRemoteRuntime(cfg.remotes, handler) != Local then []
                                else RunActions(cfg, if uid != "" then uid else newId, net)
    {
      match Dispatch(cfg.remotes, handler, remote) {
        case Refused(fault) => reply := Failed(fault);
        case Answered(remoteId) => reply := RunRemotely(w, remoteId, newId, handler);
        case NotRemote => reply := RunLocally(w, if uid != "" then uid else newId, handler, net, logPath, adapter);
      }
    }

    method MarkNotReadyIn(ghost records: map<string, Pod>, sandbox: SandboxMetadata)
      requires PodsHold(records) && PooledPod(sandbox)
      modifies sandbox
      ensures PodsHoldBut(records, sandbox.id) && sandbox.Record() == Stopped(old(sandbox.Record()))
    {
      sandbox.state, sandbox.ip := NOTREADY, "";
    }

    method MarkNotReady(ghost w: World, sandbox: SandboxMetadata)
      requires StandsFor(w) && PooledPod(sandbox)
      modifies sandbox
      ensures StandsForButPod(w, sandbox.id) && sandbox.Record() == Stopped(old(sandbox.Record()))
    {
      MarkNotReadyIn(w.pods, sandbox);
    }

    /** The record of a pod the service knows, marked as stopped and stored. */
    method MarkStopped(ghost w: World, sandbox: SandboxMetadata?, id: string)
      requires StandsFor(w) && sandbox == pods.Get(id)
      modifies disk, pods, pods.pool.Values
      ensures StandsFor(Lifecycle.MarkStopped(w, id).world)
      ensures disk.journal == old(disk.journal) + Lifecycle.MarkStopped(w, id).writes
    {
      if sandbox != null {
        OneWrite(w.files, PutPod(id, Stopped(sandbox.Record())));
        MarkNotReady(w, sandbox);
        SavePod(w, sandbox);
      }
    }

    /** Whether the pod may be marked as stopped, or the reply if not. */
    method PermitStop(ghost w: World, sandbox: SandboxMetadata?, id: string, remote: Answer, teardown: CallEnd,
                      adapter: CallEnd)
      returns (refusal: Option<Reply>)
      requires StandsFor(w) && sandbox == pods.Get(id)
      ensures StandsFor(w)
      ensures Lifecycle.StopPodSandbox(cfg, w, id, remote, teardown, adapter) ==
              match refusal case Some(reply) => Still(w, reply, []) case None => Lifecycle.MarkStopped(w, id)
    {
      match Dispatch(cfg.remotes, if sandbox != null then sandbox.handler else "", remote) {
        case Refused(fault) => return Some(Failed(fault));
        case Answered(_) => return None;
        case NotRemote =>
          if sandbox == null {
            return Some(Failed(PodNotFound));
          }
          if sandbox.netNSPath != "" && teardown != Returns {
            return Some(Broken(teardown));
          }
          return if adapter != Returns then Some(Broken(adapter)) else None;
      }
    }

    method StopPodSandbox(ghost w: World, id: string, remote: Answer, teardown: CallEnd, adapter: CallEnd)
      returns (reply: Reply)
      requires StandsFor(w)
      modifies disk, pods, pods.pool.Values
      ensures Does(Lifecycle.StopPodSandbox(cfg, w, id, remote, teardown, adapter), reply)
    {
      var sandbox := pods.Get(id);
      var refusal := PermitStop(w, sandbox, id, remote, teardown, adapter);
      if refusal.Some? {
        return refusal.value;
      }
      MarkStopped(w, sandbox, id);
      return Done;
    }

    /** Which record may be removed, or the reply if none. */
    method PermitRemovalOfPod(ghost w: World, sandbox: SandboxMetadata?, id: string, remote: Answer, adapter: CallEnd)
      returns (refusal: Option<Reply>)
      requires StandsFor(w) && sandbox == pods.Get(id)
      ensures StandsFor(w)
      ensures Lifecycle.RemovePodSandbox(cfg, w, id, remote, adapter) ==
              match refusal
              case Some(reply) => Still(w, reply, [])
              case None => Lifecycle.ForgetPod(w, if sandbox != null then sandbox.id else "")
    {
      match Dispatch(cfg.remotes, if sandbox != null then sandbox.handler else "", remote) {
        case Refused(fault) => return Some(Failed(fault));
        case Answered(_) => return None;
        case NotRemote =>
          if sandbox == null {
            return Some(Failed(PodNotFound));
          }
          if sandbox.state == READY {
            return Some(Failed(PodRunning));
          }
          return if adapter != Returns then Some(Broken(adapter)) else None;
      }
    }

    method ForgetPod(ghost w: World, id: string) returns (reply: Reply)
      requires StandsFor(w)
      modifies disk, pods
      ensures Does(Lifecycle.ForgetPod(w, id), reply)
    {
      OneWrite(w.files, DeletePod(id));
      DropPod(w, id);
      return Done;
    }

    method RemovePodSandbox(ghost w: World, id: string, remote: Answer, adapter: CallEnd) returns (reply: Reply)
      requires StandsFor(w)
      modifies disk, pods
      ensures Does(Lifecycle.RemovePodSandbox(cfg, w, id, remote, adapter), reply)
    {
      var sandbox := pods.Get(id);
      var refusal := PermitRemovalOfPod(w, sandbox, id, remote, adapter);
      if refusal.Some? {
        return refusal.value;
      }
      reply := ForgetPod(w, if sandbox != null then sandbox.id else "");
    }

    /** A pod with an address, or without a network to set up, is seen ready. */
    method SeeIn(ghost records: map<string, Pod>, sandbox: SandboxMetadata)
      requires PodsHold(records) && PooledPod(sandbox)
      modifies sandbox
      ensures PodsHold(records[sandbox.id := Seen(cfg, old(sandbox.Record()))])
    {
      if sandbox.ip != "" || !cfg.netPlugin {
        sandbox.state := READY;
      }
    }

    method See(ghost w: World, sandbox: SandboxMetadata)
      requires StandsFor(w) && PooledPod(sandbox)
      modifies sandbox
      ensures StandsFor(w.(pods := w.pods[sandbox.id := Seen(cfg, old(sandbox.Record()))]))
    {
      SeeIn(w.pods, sandbox);
    }

    /** The state changes in memory only. */
    method PodSandboxStatus(ghost w: World, id: string, remote: Answer, adapter: CallEnd) returns (reply: Reply)
      requires StandsFor(w)
      modifies pods.pool.Values
      ensures Does(Lifecycle.PodSandboxStatus(cfg, w, id, remote, adapter), reply)
    {
      var sandbox := pods.Get(id);
      if sandbox == null {
        return Failed(PodNotFound);
      }
      match Dispatch(cfg.remotes, sandbox.handler, remote) {
        case Refused(fault) => reply := Failed(fault);
        case Answered(_) => reply := Done;
        case NotRemote =>
          See(w, sandbox);
          reply := Ended(adapter);
      }
    }

    /** The local pods, followed by those the remotes list. */
    method ListPodSandbox(ghost w: World, f: PodFilter, order: seq<string>, remote: RemoteList<Pod>)
      returns (out: seq<Pod>, reply: Reply)
      requires StandsFor(w)
      ensures match remote
              case Items(items) => reply == Done &&
                out == ListPods(w.pods, f, MulticriRuntimeName(cfg.remotes), order) + items
              case NotListed(fault) => reply == Failed(fault)
    {
      out := pods.ListK8s(f, MulticriRuntimeName(cfg.remotes), order);
      assert PodsHold(w.pods);
      match remote {
        case Items(items) => return out + items, Done;
        case NotListed(fault) => return [], Failed(fault);
      }
    }

    /** The local containers, each with its image's path, followed by those the remotes list. */
    method ListContainers(ghost w: World, f: ContainerFilter, order: seq<string>, remote: RemoteList<K8sContainer>)
      returns (out: seq<K8sContainer>, reply: Reply)
      requires StandsFor(w) && ListsSafely(w.containers, MulticriRuntimeName(cfg.remotes))
      ensures var l := Listings.ListContainers(w.containers, f, MulticriRuntimeName(cfg.remotes), order);
              match remote
              case Items(items) =>
                && reply == Done && |out| == |l| + |items| && out[|l|..] == items
                && forall i :: 0 <= i < |l| ==> containers.Converts(l[i], out[i])
              case NotListed(fault) => reply == Failed(fault)
    {
      out := containers.ListK8s(f, MulticriRuntimeName(cfg.remotes), order);
      match remote {
        case Items(items) =>
          assert (out + items)[|out|..] == items;
          return out + items, Done;
        case NotListed(fault) => return [], Failed(fault);
      }
    }

    // ---- create ----

    /** The pod's shared record takes the id, in place when its array has room. */
    method JoinPod(ghost w: World, sandbox: SandboxMetadata, id: string)
      requires StandsFor(w) && PooledPod(sandbox)
      modifies disk, pods, sandbox, sandbox.backing
      ensures var joined := Joined(old(sandbox.Record()), id);
              && StandsFor(WithPod(w, joined))
              && disk.journal == old(disk.journal) + [PutPod(joined.info.id, joined)]
    {
      AppendOne(w, sandbox, id);
      SavePod(w, sandbox);
    }

    method AppendIn(ghost records: map<string, Pod>, sandbox: SandboxMetadata, id: string)
      requires PodsHold(records) && PooledPod(sandbox)
      modifies sandbox, sandbox.backing
      ensures PodsHoldBut(records, sandbox.id) && sandbox.Record() == Joined(old(sandbox.Record()), id)
    {
      forall k | k in pods.pool && k != sandbox.id
        ensures pods.pool[k] != sandbox && pods.pool[k].backing != sandbox.backing
      {
      }
      sandbox.Append(id);
    }

    method AppendOne(ghost w: World, sandbox: SandboxMetadata, id: string)
      requires StandsFor(w) && PooledPod(sandbox)
      modifies sandbox, sandbox.backing
      ensures StandsForButPod(w, sandbox.id) && sandbox.Record() == Joined(old(sandbox.Record()), id)
    {
      AppendIn(w.pods, sandbox, id);
    }

    /** The container record is stored before the list that names it. */
    method StoreBoth(ghost w: World, sandbox: SandboxMetadata, c: Container)
      requires StandsFor(w) && PooledPod(sandbox) && c.image.None?
      modifies disk, containers, pods, sandbox, sandbox.backing
      ensures var joined := Joined(old(sandbox.Record()), c.id);
              && StandsFor(WithPod(WithContainer(w, c), joined))
              && disk.journal == old(disk.journal) + [PutContainer(c.id, c)] + [PutPod(joined.info.id, joined)]
    {
      var cm := AdmitContainer(w, c, null);
      JoinPod(WithContainer(w, c), sandbox, c.id);
    }

    method CreateRemotely(ghost w: World, sandbox: SandboxMetadata, id: string) returns (reply: Reply)
      requires StandsFor(w) && PooledPod(sandbox)
      modifies this`marks, disk, containers, pods, sandbox, sandbox.backing
      ensures Does(Lifecycle.CreateRemotely(cfg, w, old(sandbox.Record()), id), reply)
    {
      ghost var p, c := sandbox.Record(), NewContainer(id, "", sandbox.Info(), None, false, 0);
      AppendTwo(disk.journal, PutContainer(id, c), PutPod(p.info.id, Joined(p, id)));
      CreateRemotelyIs(cfg, w, p, id);
      Note(w, SentTo(cfg.remotes, CreateOp, id, sandbox.handler));
      StoreBoth(w, sandbox, NewContainer(id, "", sandbox.Info(), None, false, 0));
      return DoneId(id);
    }

    /** Preparing an image changes the object its container shares, and no other record. */
    method WorkOn(ghost w: World, image: ImageMetadata, work: ImageWork)
      requires StandsFor(w) && PooledImage(image)
      modifies image
      ensures image.Record() == Worked(old(image.Record()), work)
      ensures StandsFor(w.(images := w.images[image.id := image.Record()]))
    {
      image.Work(work);
    }

    method Prepare(ghost w: World, image: ImageMetadata, c: Container, work: ImageWork) returns (cm: ContainerMetadata)
      requires StandsFor(w) && PooledImage(image) && c.image == Some(image.id)
      modifies disk, containers, image
      ensures fresh(cm) && cm.Record() == c && cm.image == image && Pooled(cm)
      ensures image.Record() == Worked(old(image.Record()), work)
      ensures StandsFor(Prepared(w, image.id, c, work))
      ensures disk.journal == old(disk.journal) + [PutContainer(c.id, c)]
    {
      cm := AdmitContainer(w, c, image);
      WorkOn(WithContainer(w, c), image, work);
    }

    /** A stored container is stored again before the list that names it. */
    method Rejoin(ghost w: World, sandbox: SandboxMetadata, cm: ContainerMetadata)
      requires StandsFor(w) && PooledPod(sandbox)
      modifies disk, containers, pods, sandbox, sandbox.backing
      ensures var c := old(cm.Record());
              var joined := Joined(old(sandbox.Record()), c.id);
              && StandsFor(WithPod(WithContainer(w, c), joined))
              && disk.journal == old(disk.journal) + [PutContainer(c.id, c)] + [PutPod(joined.info.id, joined)]
    {
      ghost var c := cm.Record();
      StoreAgain(w, cm);
      JoinPod(WithContainer(w, c), sandbox, cm.id);
    }

    method StoreImage(ghost w: World, image: ImageMetadata)
      requires StandsFor(w)
      modifies disk, images
      ensures StandsFor(WithImage(w, image.Record())) && PooledImage(image)
      ensures disk.journal == old(disk.journal) + [PutImage(image.id, image.Record())]
    {
      images.Update(image);
    }

    /** The prepared image and the container are stored again; joining the pod comes last. */
    method Settle(ghost w: World, sandbox: SandboxMetadata, image: ImageMetadata, cm: ContainerMetadata)
      requires StandsFor(w) && PooledPod(sandbox)
      modifies disk, containers, images, pods, sandbox, sandbox.backing
      ensures var p, i, c := old(sandbox.Record()), old(image.Record()), old(cm.Record());
              && StandsFor(Settled(w, p, i, c))
              && disk.journal == old(disk.journal) + [PutImage(i.id, i)] + [PutContainer(c.id, c)]
                                 + [PutPod(p.info.id, Joined(p, c.id))]
    {
      ghost var i := image.Record();
      StoreImage(w, image);
      Rejoin(WithImage(w, i), sandbox, cm);
    }

    method CreateSteps(ghost w: World, sandbox: SandboxMetadata, image: ImageMetadata, c: Container, work: ImageWork)
      requires StandsFor(w) && PooledPod(sandbox) && PooledImage(image) && c.image == Some(image.id)
      modifies disk, containers, images, pods, sandbox, sandbox.backing, image
      ensures var p, i := old(sandbox.Record()), Worked(old(image.Record()), work);
              && StandsFor(Settled(Prepared(w, image.id, c, work), p, i, c))
              && disk.journal == old(disk.journal) + [PutContainer(c.id, c)] + [PutImage(i.id, i)]
                + [PutContainer(c.id, c)]
                                 + [PutPod(p.info.id, Joined(p, c.id))]
    {
      var cm := Prepare(w, image, c, work);
      Settle(Prepared(w, image.id, c, work), sandbox, image, cm);
    }

    method CreateLocally(ghost w: World, sandbox: SandboxMetadata, image: ImageMetadata, c: Container, work: ImageWork)
      returns (reply: Reply)
      requires StandsFor(w) && PooledPod(sandbox) && PooledImage(image) && c.image == Some(image.id)
      modifies this`marks, disk, containers, images, pods, sandbox, sandbox.backing, image
      ensures Does(Lifecycle.CreateLocally(w, old(sandbox.Record()), image.id, c, work), reply)
    {
      ghost var p, i := sandbox.Record(), Worked(image.Record(), work);
      CreateLocallyIs(w, p, image.id, c, work);
      AppendFour(disk.journal, PutContainer(c.id, c), PutImage(i.id, i), PutContainer(c.id, c),
        PutPod(p.info.id, Joined(p, c.id)));
      Note(w, [Sent(CreateOp, c.id, Local)]);
      if work.end != Returns {
        var cm := Prepare(w, image, c, work);
        return Broken(work.end);
      }
      CreateSteps(w, sandbox, image, c, work);
      return DoneId(c.id);
    }

    /** The first image object that matches. */
    method LookUp(ghost w: World, query: string, order: seq<string>) returns (im: ImageMetadata?)
      requires StandsFor(w)
      ensures StandsFor(w) && (im != null ==> PooledImage(im))
      ensures FindImage(w.images, query, order) == if im == null then None else Some(im.id)
    {
      im := images.GetByID(query, order);
    }

    method CreateHere(ghost w: World, sandbox: SandboxMetadata, name: string, imageRef: string, credentials: bool,
                      newId: string, order: seq<string>, work: ImageWork, now: int) returns (reply: Reply)
      requires StandsFor(w) && PooledPod(sandbox)
      modifies this`marks, disk, containers, images, images.pool.Values, pods, sandbox, sandbox.backing
      ensures Does(Lifecycle.CreateHere(w, old(sandbox.Record()), name, imageRef, credentials, newId, order, work, now),
        reply)
    {
      var image := LookUp(w, imageRef, order);
      if image == null {
        return Failed(ImageNotFound);
      }
      var c := NewContainer(newId, name, sandbox.Info(), Some(image.id), credentials, now);
      reply := CreateLocally(w, sandbox, image, c, work);
    }

    method CreateKnown(ghost w: World, sandbox: SandboxMetadata, name: string, imageRef: string, credentials: bool,
                       newId: string, remote: Answer, order: seq<string>, work: ImageWork,
                         now: int) returns (reply: Reply)
      requires StandsFor(w) && PooledPod(sandbox)
      modifies this`marks, disk, containers, images, images.pool.Values, pods, sandbox, sandbox.backing
      ensures Does(Lifecycle.CreateContainer(cfg, w, sandbox.id, name, imageRef, credentials, newId, remote, order,
        work, now),
                   reply)
    {
      match Dispatch(cfg.remotes, sandbox.handler, remote) {
        case Refused(fault) => reply := Failed(fault);
        case Answered(id) => reply := CreateRemotely(w, sandbox, id);
        case NotRemote => reply := CreateHere(w, sandbox, name, imageRef, credentials, newId, order, work, now);
      }
    }

    /** Building the environment of a new container, and whether it gives access to a cluster. */
    method ReadEnvironment(ghost w: World, envs: seq<KeyValue>) returns (credentials: bool)
      requires StandsFor(w)
      ensures StandsFor(w) && credentials == HasCredentials(EnvironmentOf(envs))
    {
      var environment: map<string, string> := map[];
      var n := 0;
      while n < |envs|
        invariant 0 <= n <= |envs|
        invariant environment == EnvironmentOf(envs[..n])
      {
        assert envs[..n + 1][..n] == envs[..n];
        environment := environment[envs[n].key := envs[n].value];
        n := n + 1;
      }
      assert envs[..n] == envs;
      return HasCredentials(environment);
    }

    method CreateContainer(ghost w: World, podId: string, name: string, imageRef: string, envs: seq<KeyValue>,
                           newId: string, remote: Answer, order: seq<string>, work: ImageWork,
                             now: int) returns (reply: Reply)
      requires StandsFor(w)
      modifies this`marks, disk, containers, images, images.pool.Values, pods, pods.pool.Values, pods.Arrays()
      ensures Does(Lifecycle.CreateContainer(cfg, w, podId, name, imageRef, HasCredentials(EnvironmentOf(envs)), newId,
        remote,
                                             order, work, now), reply)
    {
      var credentials := ReadEnvironment(w, envs);
      var sandbox := pods.Get(podId);
      if sandbox == null {
        return Failed(PodNotFound);
      }
      reply := CreateKnown(w, sandbox, name, imageRef, credentials, newId, remote, order, work, now);
    }

    // ---- images ----

    /** Parsing the name and pulling, all in the shared record. */
    method Fetch(im: ImageMetadata, work: ImageWork) returns (parsed: bool)
      modifies im
      ensures parsed == ParseName(old(im.remotePath)).Some?
      ensures im.Record() == if parsed then Worked(Parsed(old(im.Record()), ParseName(old(im.remotePath)).value), work)
                             else old(im.Record())
    {
      parsed := im.ParseImage();
      if parsed {
        im.Work(work);
      }
    }

    method FetchIn(ghost records: map<string, Image>, im: ImageMetadata, work: ImageWork) returns (parsed: bool)
      requires ImagesHold(records) && PooledImage(im)
      modifies im
      ensures parsed == ParseName(old(im.remotePath)).Some?
      ensures im.Record() == if parsed then Worked(Parsed(old(im.Record()), ParseName(old(im.remotePath)).value), work)
                             else old(im.Record())
      ensures ImagesHoldBut(records, im.id)
    {
      parsed := Fetch(im, work);
    }

    method FetchOne(ghost w: World, im: ImageMetadata, work: ImageWork) returns (parsed: bool)
      requires StandsFor(w) && PooledImage(im)
      modifies im
      ensures parsed == ParseName(old(im.remotePath)).Some?
      ensures im.Record() == if parsed then Worked(Parsed(old(im.Record()), ParseName(old(im.remotePath)).value), work)
                             else old(im.Record())
      ensures StandsForButImage(w, im.id)
    {
      parsed := FetchIn(w.images, im, work);
      PodsStay(w.pods);
    }

    lemma Unchanged(w: World, im: ImageMetadata)
      requires StandsForButImage(w, im.id) && PooledImage(im) && im.Record() == w.images[im.id]
      ensures StandsFor(w)
    {
      assert images.View() == w.images;
    }

    /** Stores the record of an image, and pulls it if its repository is known. */
    method PullSteps(ghost w: World, i: Image, work: ImageWork) returns (reply: Reply)
      requires StandsFor(w) && i.id !in w.images
      modifies disk, images
      ensures var stored, journal := WithImage(w, i), old(disk.journal) + [PutImage(i.id, i)];
              if ParseName(i.remotePath).None? then
                reply == Failed(ImageNotSupported) && StandsFor(stored) && disk.journal == journal
              else
                var pulled := Worked(Parsed(i, ParseName(i.remotePath).value), work);
                match work.end
                case Dies => reply == Crashed && disk.files == stored.files && disk.journal == journal
                case Errs(e) =>
                  reply == Failed(e) && StandsFor(WithoutImage(stored, i.id)) &&
                    disk.journal == journal + [DeleteImage(i.id)]
                case Returns =>
                  && reply == DoneId(pulled.remotePath) && StandsFor(WithImage(stored, pulled))
                  && disk.journal == journal + [PutImage(i.id, pulled)]
    {
      var im := AdmitImage(w, i);
      var parsed := FetchOne(WithImage(w, i), im, work);
      if !parsed {
        Unchanged(WithImage(w, i), im);
        return Failed(ImageNotSupported);
      }
      reply := ConcludePull(WithImage(w, i), im, work.end);
    }

    /** An image that could not be pulled is dropped, one that could is stored again. */
    method ConcludePull(ghost w: World, im: ImageMetadata, end: CallEnd) returns (reply: Reply)
      requires StandsForButImage(w, im.id) && PooledImage(im)
      modifies disk, images
      ensures var i := old(im.Record());
              match end
              case Dies => reply == Crashed && disk.files == w.files && disk.journal == old(disk.journal)
              case Errs(e) =>
                reply == Failed(e) && StandsFor(WithoutImage(w, i.id)) &&
                  disk.journal == old(disk.journal) + [DeleteImage(i.id)]
              case Returns =>
                && reply == DoneId(i.remotePath) && StandsFor(WithImage(w, i))
                && disk.journal == old(disk.journal) + [PutImage(i.id, i)]
    {
      match end {
        case Dies => return Crashed;
        case Errs(e) =>
          DropImageRecord(w, im.id);
          return Failed(e);
        case Returns =>
          SaveImage(w, im);
          return DoneId(im.remotePath);
      }
    }

    method PullLocally(ghost w: World, name: string, newId: string, work: ImageWork) returns (reply: Reply)
      requires StandsFor(w) && newId !in w.images
      modifies disk, images
      ensures Does(Lifecycle.PullLocally(cfg, w, name, newId, work), reply)
    {
      ghost var i := NewImage(cfg, newId, name);
      PullLocallyIs(cfg, w, name, newId, work);
      AppendTwo(disk.journal, PutImage(newId, i), DeleteImage(newId));
      if ParseName(name).Some? {
        AppendTwo(disk.journal, PutImage(newId, i), PutImage(newId, Worked(Parsed(i, ParseName(name).value), work)));
      }
      reply := PullSteps(w, NewImage(cfg, newId, name), work);
    }

    method PullImage(ghost w: World, image: string, names: seq<string>, newId: string, remote: Answer, work: ImageWork)
      returns (reply: Reply)
      requires StandsFor(w) && newId !in w.images
      modifies disk, images
      ensures Does(Lifecycle.PullImage(cfg, w, image, names, newId, remote, work), reply)
    {
      match ImageManager(cfg.remotes, image, names) {
        case ServeRemotely(_, _) => reply := match remote case Response(id) => DoneId(id) case Failure(e) => Failed(e);
        case ServeLocally(name) => reply := PullLocally(w, name, newId, work);
      }
    }

    method RemoveHere(ghost w: World, name: string, order: seq<string>, adapter: CallEnd) returns (reply: Reply)
      requires StandsFor(w)
      modifies disk, images
      ensures Does(Lifecycle.RemoveHere(w, name, order, adapter), reply)
    {
      var im := LookUp(w, name, order);
      if im == null {
        return Failed(ImageNotFound);
      }
      if adapter != Returns {
        return Broken(adapter);
      }
      OneWrite(w.files, DeleteImage(im.id));
      DropImageRecord(w, im.id);
      return Done;
    }

    method RemoveImage(ghost w: World, image: string, names: seq<string>, order: seq<string>, remote: Answer,
                       adapter: CallEnd)
      returns (reply: Reply)
      requires StandsFor(w)
      modifies disk, images
      ensures Does(Lifecycle.RemoveImage(cfg, w, image, names, order, remote, adapter), reply)
    {
      match ImageManager(cfg.remotes, image, names) {
        case ServeRemotely(_, _) => reply := match remote case Response(id) => Done case Failure(e) => Failed(e);
        case ServeLocally(name) => reply := RemoveHere(w, name, order, adapter);
      }
    }

    method ListStored(ghost w: World, filter: string, order: seq<string>, present: set<string>)
      returns (out: seq<Image>)
      requires StandsFor(w)
      modifies disk, images
      ensures var l := Lifecycle.ListImages(w.images, filter, order, present);
              && out == l.listed && StandsFor(w.(images := l.images, files := Replay(w.files, l.writes)))
              && disk.journal == old(disk.journal) + l.writes
    {
      out := images.ListK8s(filter, order, present);
    }

    /** The local images, followed by those the remotes list; their errors are ignored. */
    method ListImages(ghost w: World, filter: string, order: seq<string>, present: set<string>, adapter: CallEnd,
                      remote: RemoteList<Image>) returns (out: seq<Image>, reply: Reply)
      requires StandsFor(w)
      modifies disk, images
      ensures Does(Exec(cfg, w, ListAll(filter, order, present, adapter)), reply)
      ensures out == Lifecycle.ListImages(w.images, filter, order, present).listed
                     + match remote case Items(items) => items case NotListed(_) => []
    {
      out := ListStored(w, filter, order, present);
      out := out + match remote case Items(items) => items case NotListed(_) => [];
      return out, Ended(adapter);
    }

    // ---- any call ----

    method HandlePlain(ghost w: World, r: Request) returns (reply: Reply)
      requires StandsFor(w) && FreshIds(w, r) && !(r.Create? || r.Start? || r.Status?)
      modifies this`marks, disk, host, containers, containers.pool.Values, pods, pods.pool.Values, pods.Arrays(), images
      ensures Does(Exec(cfg, w, r), reply)
    {
      match r {
        case RunPod(uid, handler, newId, remote, net, logPath, adapter) =>
          reply := RunPodSandbox(w, uid, handler, newId, remote, net, logPath, adapter);
        case StopPod(id, remote, teardown, adapter) => reply := StopPodSandbox(w, id, remote, teardown, adapter);
        case RemovePod(id, remote, adapter) => reply := RemovePodSandbox(w, id, remote, adapter);
        case PodStatus(id, remote, adapter) => reply := PodSandboxStatus(w, id, remote, adapter);
        case Stop(id, remote, scancel, now) => reply := StopContainer(w, id, remote, scancel, now);
        case Remove(id, remote, reopen) => reply := RemoveContainer(w, id, remote, reopen);
        case Pull(image, names, newId, remote, work) => reply := PullImage(w, image, names, newId, remote, work);
        case DropImage(image, names, order, remote, adapter) => reply := RemoveImage(w, image, names, order, remote,
          adapter);
        case ListAll(filter, order, present, adapter) =>
          var out;
          out, reply := ListImages(w, filter, order, present, adapter, Items([]));
      }
    }

    /** Whatever call comes, the objects go from standing for a world to standing for the
        world that the specification of its request leads to. */
    method Handle(ghost w: World, c: Call) returns (reply: Reply)
      requires StandsFor(w) && WellFormed(c) && FreshIds(w, RequestOf(c))
      modifies this`marks, disk, host, containers, containers.pool.Values, pods, pods.pool.Values, pods.Arrays()
      modifies images, images.pool.Values
      ensures Does(Exec(cfg, w, RequestOf(c)), reply)
    {
      match c {
        case CreateCall(podId, name, imageRef, envs, newId, remote, order, work, now) =>
          reply := CreateContainer(w, podId, name, imageRef, envs, newId, remote, order, work, now);
        case StartCall(id, remote, run, now) => reply := StartContainer(w, id, remote, run, now);
        case StatusCall(id, remote, answer) => reply := ContainerStatus(w, id, remote, answer);
        case Plain(r) => reply := HandlePlain(w, r);
      }
    }
  }
}
