/** One type for all requests that can change the service's records, each with the outcome
    of the outside calls it makes, and the invariant every one of them keeps. */
module Requests {
  import opened Records
  import opened Persistence
  import opened RemoteRuntimes
  import opened SliceDeletion
  import opened ImageNames
  import opened PodNetwork
  import opened Slurm
  import opened Lifecycle

  datatype Request =
    | RunPod(uid: string, handler: string, newId: string, remote: Answer, net: NetworkCalls, logPath: string,
      adapter: CallEnd)
    | StopPod(id: string, remote: Answer, teardown: CallEnd, adapter: CallEnd)
    | RemovePod(id: string, remote: Answer, adapter: CallEnd)
    | PodStatus(id: string, remote: Answer, adapter: CallEnd)
    | Create(podId: string, name: string, imageRef: string, credentials: bool, newId: string, remote: Answer,
             order: seq<string>, work: ImageWork, now: int)
    | Start(id: string, remote: Answer, run: SbatchRun, now: int)
    | Stop(id: string, remote: Answer, scancel: ScancelAnswer, now: int)
    | Remove(id: string, remote: Answer, reopen: CallEnd)
    | Status(id: string, remote: Answer, answer: StatusAnswer)
    | Pull(image: string, names: seq<string>, newId: string, remote: Answer, work: ImageWork)
    | DropImage(image: string, names: seq<string>, order: seq<string>, remote: Answer, adapter: CallEnd)
    | ListAll(filter: string, order: seq<string>, present: set<string>, adapter: CallEnd)

  function Exec(cfg: Config, w: World, r: Request): Outcome {
    match r
    case RunPod(uid, handler, newId, remote, net, logPath, adapter) =>
      RunPodSandbox(cfg, w, uid, handler, newId, remote, net, logPath, adapter)
    case StopPod(id, remote, teardown, adapter) => StopPodSandbox(cfg, w, id, remote, teardown, adapter)
    case RemovePod(id, remote, adapter) => RemovePodSandbox(cfg, w, id, remote, adapter)
    case PodStatus(id, remote, adapter) => PodSandboxStatus(cfg, w, id, remote, adapter)
    case Create(podId, name, imageRef, credentials, newId, remote, order, work, now) =>
      CreateContainer(cfg, w, podId, name, imageRef, credentials, newId, remote, order, work, now)
    case Start(id, remote, run, now) => StartContainer(cfg, w, id, remote, run, now)
    case Stop(id, remote, scancel, now) => StopContainer(cfg, w, id, remote, scancel, now)
    case Remove(id, remote, reopen) => RemoveContainer(cfg, w, id, remote, reopen)
    case Status(id, remote, answer) => ContainerStatus(cfg, w, id, remote, answer)
    case Pull(image, names, newId, remote, work) => PullImage(cfg, w, image, names, newId, remote, work)
    case DropImage(image, names, order, remote, adapter) => RemoveImage(cfg, w, image, names, order, remote, adapter)
    case ListAll(filter, order, present, adapter) =>
      var l := ListImages(w.images, filter, order, present);
      Commit(w.(images := l.images), l.writes, Ended(adapter), [])
  }

  /** New container and image ids, made here or by a remote runtime, are not in use. */
  predicate FreshIds(w: World, r: Request) {
    match r
    case Create(_, _, _, _, newId, remote, _, _, _) =>
      newId !in w.containers && (remote.Response? ==> remote.id !in w.containers)
    case Pull(_, _, newId, _, _) => newId !in w.images
    case _ => true
  }

  // ---- the invariant ----

  /** A pod's list: no id twice, and every id a container that points back to the pod. */
  predicate GoodList(podId: string, ids: seq<string>, containers: map<string, Container>) {
    NoDuplicates(ids) && forall c :: c in ids ==> c in containers && containers[c].pod.id == podId
  }

  predicate GoodPods(cfg: Config, pods: map<string, Pod>, containers: map<string, Container>) {
    forall k :: k in pods ==>
      && pods[k].info.id == k
      && GoodList(k, pods[k].containers, containers)
      && !GetRemoteRuntime(cfg.remotes, pods[k].info.handler).NotFound?
  }

  /** A container carries an image exactly when its pod's handler is served locally, and a
      remote one never has credentials, runs, or has a job. Until it exits, exit code and
      finish time stay zero; one that runs or has a job has credentials and was started, and
      one that was only created holds nothing of a start. */
  predicate GoodContainer(cfg: Config, c: Container) {
    && (match GetRemoteRuntime(cfg.remotes, c.pod.handler)
        case Local => c.image.Some?
        case Remote(_) => c.image.None? && !c.credentials && c.state != RUNNING && c.pid == 0
        case NotFound(_) => false)
    && c.state != UNKNOWN
    && (c.state != EXITED ==>
          && c.exitCode == 0 && c.finishedAt == 0
          && if c.state == RUNNING || c.pid != 0 then c.credentials && c.reason == StartOk
             else c.reason == NoReason && c.startedAt == 0)
  }

  predicate GoodContainers(cfg: Config, containers: map<string, Container>) {
    forall k :: k in containers ==> containers[k].id == k && GoodContainer(cfg, containers[k])
  }

  predicate GoodImages(images: map<string, Image>) {
    forall k :: k in images ==> images[k].id == k
  }

  predicate GoodFiles(cfg: Config, f: Files) {
    GoodContainers(cfg, f.containers) && GoodPods(cfg, f.pods, f.containers) && GoodImages(f.images)
  }

  predicate SameButState(p: Pod, q: Pod) {
    p == q.(info := q.info.(state := p.info.state))
  }

  predicate SameButWork(i: Image, j: Image) {
    i == j.(localPath := i.localPath, size := i.size)
  }

  /** Memory against files: containers agree in full, pods up to their state, images up to
      the local path and size. */
  predicate Agree(w: World) {
    && w.containers == w.files.containers
    && (forall k :: k in w.pods ==> k in w.files.pods && SameButState(w.pods[k], w.files.pods[k]))
    && w.images.Keys == w.files.images.Keys
    && (forall k :: k in w.images ==> SameButWork(w.images[k], w.files.images[k]))
  }

  predicate Inv(cfg: Config, w: World) {
    && GoodFiles(cfg, w.files)
    && GoodPods(cfg, w.pods, w.containers)
    && GoodImages(w.images)
    && Agree(w)
  }

  /** Good files at every moment of a sequence of writes. */
  predicate SafeWrites(cfg: Config, f: Files, ws: seq<Write>)
    decreases |ws|
  {
    GoodFiles(cfg, f) && (ws != [] ==> SafeWrites(cfg, Apply(f, ws[0]), ws[1..]))
  }

  lemma {:induction false} SafePrefix(cfg: Config, f: Files, ws: seq<Write>, k: nat)
    requires SafeWrites(cfg, f, ws) && k <= |ws|
    ensures GoodFiles(cfg, Replay(f, ws[..k]))
    decreases |ws|
  {
    if k > 0 {
      assert ws[..k][1..] == ws[1..][..k - 1];
      SafePrefix(cfg, Apply(f, ws[0]), ws[1..], k - 1);
    }
  }

  predicate Keeps(cfg: Config, w: World, o: Outcome) {
    Inv(cfg, o.world) && SafeWrites(cfg, w.files, o.writes)
  }

  // ---- one or two writes ----

  lemma PutOver<V>(m: map<string, V>, k: string, a: V, b: V)
    ensures m[k := a][k := b] == m[k := b]
  {
  }

  lemma OneWrite(f: Files, a: Write)
    ensures Replay(f, [a]) == Apply(f, a)
  {
    assert [a][1..] == [];
  }

  lemma TwoWrites(f: Files, a: Write, b: Write)
    ensures Replay(f, [a, b]) == Apply(Apply(f, a), b)
  {
    assert [a, b][1..] == [b];
    OneWrite(Apply(f, a), b);
  }

  lemma SafeOne(cfg: Config, f: Files, a: Write)
    requires GoodFiles(cfg, f) && GoodFiles(cfg, Apply(f, a))
    ensures SafeWrites(cfg, f, [a])
  {
    assert [a][1..] == [];
  }

  lemma SafeTwo(cfg: Config, f: Files, a: Write, b: Write)
    requires GoodFiles(cfg, f) && GoodFiles(cfg, Apply(f, a)) && GoodFiles(cfg, Apply(Apply(f, a), b))
    ensures SafeWrites(cfg, f, [a, b])
  {
    assert [a, b][1..] == [b];
    SafeOne(cfg, Apply(f, a), b);
  }

  /** Two writes are safe when the worlds before, between and after are good. */
  lemma KeepsTwo(cfg: Config, w: World, mid: World, after: World, o: Outcome)
    requires Inv(cfg, w) && Inv(cfg, mid) && Inv(cfg, after)
    requires |o.writes| == 2 && mid.files == Apply(w.files, o.writes[0]) && after.files == Apply(mid.files, o.writes[1])
    requires o.world == after
    ensures Keeps(cfg, w, o)
  {
    assert o.writes == [o.writes[0], o.writes[1]];
    SafeTwo(cfg, w.files, o.writes[0], o.writes[1]);
  }

  // ---- changes of one record ----

  predicate GoodPod(cfg: Config, p: Pod, containers: map<string, Container>) {
    GoodList(p.info.id, p.containers, containers) && !GetRemoteRuntime(cfg.remotes, p.info.handler).NotFound?
  }

  function WithPod(w: World, p: Pod): World {
    w.(pods := w.pods[p.info.id := p], files := Apply(w.files, PutPod(p.info.id, p)))
  }

  function WithoutPod(w: World, id: string): World {
    w.(pods := w.pods - {id}, files := Apply(w.files, DeletePod(id)))
  }

  lemma PodStored(cfg: Config, f: Files, p: Pod)
    requires GoodFiles(cfg, f) && GoodPod(cfg, p, f.containers)
    ensures GoodFiles(cfg, Apply(f, PutPod(p.info.id, p)))
  {
  }

  lemma PodSaved(cfg: Config, w: World, p: Pod)
    requires Inv(cfg, w) && GoodPod(cfg, p, w.containers)
    ensures Inv(cfg, WithPod(w, p))
  {
    PodStored(cfg, w.files, p);
  }

  lemma PodForgotten(cfg: Config, w: World, id: string)
    requires Inv(cfg, w)
    ensures Inv(cfg, WithoutPod(w, id))
  {
  }

  /** A pod put twice, as when it is run. */
  lemma PodPutTwice(cfg: Config, w: World, p: Pod, q: Pod)
    requires Inv(cfg, w) && p.info.id == q.info.id && GoodPod(cfg, p, w.containers) && GoodPod(cfg, q, w.containers)
    ensures var id := p.info.id;
            Keeps(cfg, w, Commit(w.(pods := w.pods[id := q]), [PutPod(id, p), PutPod(id, q)], Done, []))
  {
    var id := p.info.id;
    PodSaved(cfg, w, p);
    PodSaved(cfg, WithPod(w, p), q);
    TwoWrites(w.files, PutPod(id, p), PutPod(id, q));
    PutOver(w.pods, id, p, q);
    KeepsTwo(cfg, w, WithPod(w, p), WithPod(WithPod(w, p), q),
      Commit(w.(pods := w.pods[id := q]), [PutPod(id, p), PutPod(id, q)], Done, []));
  }

  /** A pod put and deleted, as when running it fails. */
  lemma PodPutDeleted(cfg: Config, w: World, p: Pod)
    requires Inv(cfg, w) && GoodPod(cfg, p, w.containers)
    ensures var id := p.info.id;
            Keeps(cfg, w, Commit(w.(pods := w.pods - {id}), [PutPod(id, p), DeletePod(id)], Done, []))
  {
    var id := p.info.id;
    PodSaved(cfg, w, p);
    PodForgotten(cfg, WithPod(w, p), id);
    var o := Commit(w.(pods := w.pods - {id}), [PutPod(id, p), DeletePod(id)], Done, []);
    SamePods(w, p, o.world);
    KeepsTwo(cfg, w, WithPod(w, p), WithoutPod(WithPod(w, p), id), o);
  }

  lemma SamePods(w: World, p: Pod, after: World)
    requires after == w.(pods := w.pods - {p.info.id},
      files := Replay(w.files, [PutPod(p.info.id, p), DeletePod(p.info.id)]))
    ensures after == WithoutPod(WithPod(w, p), p.info.id)
  {
    TwoWrites(w.files, PutPod(p.info.id, p), DeletePod(p.info.id));
    assert w.pods[p.info.id := p] - {p.info.id} == w.pods - {p.info.id};
  }

  lemma PodPut(cfg: Config, w: World, p: Pod)
    requires Inv(cfg, w) && GoodPod(cfg, p, w.containers)
    ensures Keeps(cfg, w, Commit(w.(pods := w.pods[p.info.id := p]), [PutPod(p.info.id, p)], Done, []))
  {
    PodSaved(cfg, w, p);
    SafeOne(cfg, w.files, PutPod(p.info.id, p));
    OneWrite(w.files, PutPod(p.info.id, p));
  }

  lemma PodDeleted(cfg: Config, w: World, id: string)
    requires Inv(cfg, w)
    ensures Keeps(cfg, w, ForgetPod(w, id))
  {
    PodForgotten(cfg, w, id);
    SafeOne(cfg, w.files, DeletePod(id));
    OneWrite(w.files, DeletePod(id));
  }

  function WithContainer(w: World, c: Container): World {
    w.(containers := w.containers[c.id := c], files := Apply(w.files, PutContainer(c.id, c)))
  }

  /** A new record, or a new version of one that keeps its pod. */
  predicate Admissible(cfg: Config, containers: map<string, Container>, c: Container) {
    GoodContainer(cfg, c) && (c.id in containers ==> containers[c.id].pod.id == c.pod.id)
  }

  lemma ContainerStored(cfg: Config, f: Files, c: Container)
    requires GoodFiles(cfg, f) && Admissible(cfg, f.containers, c)
    ensures GoodFiles(cfg, Apply(f, PutContainer(c.id, c)))
  {
  }

  lemma ContainerSaved(cfg: Config, w: World, c: Container)
    requires Inv(cfg, w) && Admissible(cfg, w.containers, c)
    ensures Inv(cfg, WithContainer(w, c))
  {
    ContainerStored(cfg, w.files, c);
  }

  lemma SaveKeeps(cfg: Config, w: World, c: Container)
    requires Inv(cfg, w) && Admissible(cfg, w.containers, c)
    ensures Keeps(cfg, w, Save(w, c, Done, []))
  {
    ContainerSaved(cfg, w, c);
    OneWrite(w.files, PutContainer(c.id, c));
    SafeOne(cfg, w.files, PutContainer(c.id, c));
  }

  function WithImage(w: World, i: Image): World {
    w.(images := w.images[i.id := i], files := Apply(w.files, PutImage(i.id, i)))
  }

  function WithoutImage(w: World, id: string): World {
    w.(images := w.images - {id}, files := Apply(w.files, DeleteImage(id)))
  }

  lemma ImageSaved(cfg: Config, w: World, i: Image)
    requires Inv(cfg, w)
    ensures Inv(cfg, WithImage(w, i))
  {
  }

  lemma ImageForgotten(cfg: Config, w: World, id: string)
    requires Inv(cfg, w)
    ensures Inv(cfg, WithoutImage(w, id))
  {
  }

  /** Preparing an image changes its record in memory. */
  lemma ImageWorked(cfg: Config, w: World, k: string, work: ImageWork)
    requires Inv(cfg, w) && k in w.images
    ensures Inv(cfg, w.(images := w.images[k := Worked(w.images[k], work)]))
  {
  }

  // ---- every request keeps the invariant ----

  lemma RunPodKeeps(cfg: Config, w: World, r: Request)
    requires Inv(cfg, w) && r.RunPod?
    ensures Keeps(cfg, w, Exec(cfg, w, r))
  {
    var o := Exec(cfg, w, r);
    if o.writes != [] {
      var p := o.writes[0].pod;
      if |o.writes| == 1 {
        PodPut(cfg, w, p);
      } else if o.writes[1].PutPod? {
        PodPutTwice(cfg, w, p, o.writes[1].pod);
      } else {
        PodPutDeleted(cfg, w, p);
      }
    }
  }

  lemma MarkStoppedKeeps(cfg: Config, w: World, id: string)
    requires Inv(cfg, w)
    ensures Keeps(cfg, w, MarkStopped(w, id))
  {
    if id in w.pods {
      PodPut(cfg, w, Stopped(w.pods[id]));
    }
  }

  lemma StopPodKeeps(cfg: Config, w: World, r: Request)
    requires Inv(cfg, w) && r.StopPod?
    ensures Keeps(cfg, w, Exec(cfg, w, r))
  {
    MarkStoppedKeeps(cfg, w, r.id);
  }

  lemma StopPodShape(cfg: Config, w: World, r: Request)
    requires r.StopPod?
    ensures Exec(cfg, w, r) == Still(w, Exec(cfg, w, r).reply, []) || Exec(cfg, w, r) == MarkStopped(w, r.id)
  {
  }

  lemma RemovePodShape(cfg: Config, w: World, r: Request)
    requires r.RemovePod?
    ensures var o := Exec(cfg, w, r);
            o == Still(w, o.reply, []) || o == ForgetPod(w, if r.id in w.pods then w.pods[r.id].info.id else "")
  {
  }

  lemma StillKeeps(cfg: Config, w: World, reply: Reply, marks: seq<Mark>)
    requires Inv(cfg, w)
    ensures Keeps(cfg, w, Still(w, reply, marks))
  {
  }

  lemma RemovePodKeeps(cfg: Config, w: World, r: Request)
    requires Inv(cfg, w) && r.RemovePod?
    ensures Keeps(cfg, w, Exec(cfg, w, r))
  {
    RemovePodShape(cfg, w, r);
    StillKeeps(cfg, w, Exec(cfg, w, r).reply, []);
    PodDeleted(cfg, w, if r.id in w.pods then w.pods[r.id].info.id else "");
  }

  lemma PodStatusKeeps(cfg: Config, w: World, r: Request)
    requires Inv(cfg, w) && r.PodStatus?
    ensures Keeps(cfg, w, Exec(cfg, w, r))
  {
    var o := Exec(cfg, w, r);
    if o.world != w {
      var p := o.world.pods[r.id];
      assert GoodPod(cfg, p, w.containers);
    }
  }

  lemma CreateKeeps(cfg: Config, w: World, r: Request)
    requires Inv(cfg, w) && r.Create? && FreshIds(w, r)
    ensures Keeps(cfg, w, Exec(cfg, w, r))
  {
    if r.podId in w.pods {
      var p := w.pods[r.podId];
      match Dispatch(cfg.remotes, p.info.handler, r.remote)
      case Refused(_) =>
      case Answered(id) => CreateRemoteKeeps(cfg, w, p, id, Exec(cfg, w, r));
      case NotRemote =>
        CreateHereKeeps(cfg, w, p, r);
    }
  }

  lemma CreateHereKeeps(cfg: Config, w: World, p: Pod, r: Request)
    requires Inv(cfg, w) && r.Create? && r.podId in w.pods && w.pods[r.podId] == p && r.newId !in w.containers
    requires GetRemoteRuntime(cfg.remotes, p.info.handler) == Local
    ensures Keeps(cfg, w, CreateHere(w, p, r.name, r.imageRef, r.credentials, r.newId, r.order, r.work, r.now))
  {
    var k := FindImage(w.images, r.imageRef, r.order);
    if k.Some? {
      var c := NewContainer(r.newId, r.name, p.info, Some(k.value), r.credentials, r.now);
      if r.work.end == Returns {
        CreateLocalKeeps(cfg, w, p, k.value, r.work, c, CreateLocally(w, p, k.value, c, r.work));
      } else {
        ImageWorked(cfg, w, k.value, r.work);
        SaveKeeps(cfg, w.(images := w.images[k.value := Worked(w.images[k.value], r.work)]), c);
      }
    }
  }

  lemma JoinedGood(cfg: Config, w: World, p: Pod, c: Container)
    requires Inv(cfg, w) && p.info.id in w.pods && w.pods[p.info.id] == p
    requires c.id !in w.containers && c.pod == p.info
    ensures GoodPod(cfg, Joined(p, c.id), w.containers[c.id := c])
  {
    assert c.id !in p.containers;
  }

  lemma CreateRemoteKeeps(cfg: Config, w: World, p: Pod, id: string, o: Outcome)
    requires Inv(cfg, w) && p.info.id in w.pods && w.pods[p.info.id] == p && id !in w.containers
    requires GetRemoteRuntime(cfg.remotes, p.info.handler).Remote?
    requires var c := NewContainer(id, "", p.info, None, false, 0);
             var joined := Joined(p, id);
             o == Commit(w.(containers := w.containers[id := c], pods := w.pods[p.info.id := joined]),
                         [PutContainer(id, c), PutPod(p.info.id, joined)], o.reply, o.marks)
    ensures Keeps(cfg, w, o)
  {
    var c := NewContainer(id, "", p.info, None, false, 0);
    var mid := WithContainer(w, c);
    ContainerSaved(cfg, w, c);
    JoinedGood(cfg, w, p, c);
    PodSaved(cfg, mid, Joined(p, id));
    TwoWrites(w.files, o.writes[0], o.writes[1]);
    KeepsTwo(cfg, w, mid, WithPod(mid, Joined(p, id)), o);
  }

  lemma SafeCons(cfg: Config, f: Files, a: Write, ws: seq<Write>)
    requires GoodFiles(cfg, f) && SafeWrites(cfg, Apply(f, a), ws)
    ensures SafeWrites(cfg, f, [a] + ws)
    ensures Replay(f, [a] + ws) == Replay(Apply(f, a), ws)
  {
    assert ([a] + ws)[1..] == ws;
  }

  /** The local order of writes: container, image, container again, and the pod last. */
  lemma CreateLocalKeeps(cfg: Config, w: World, p: Pod, k: string, work: ImageWork, c: Container, o: Outcome)
    requires Inv(cfg, w) && p.info.id in w.pods && w.pods[p.info.id] == p && k in w.images
    requires c.id !in w.containers && c.pod == p.info && GoodContainer(cfg, c)
    requires var i := Worked(w.images[k], work);
             var joined := Joined(p, c.id);
             o == Commit(w.(containers := w.containers[c.id := c], images := w.images[k := i][i.id := i],
                            pods := w.pods[p.info.id := joined]),
                         [PutContainer(c.id, c), PutImage(i.id, i), PutContainer(c.id, c), PutPod(p.info.id, joined)],
                         o.reply, o.marks)
    ensures Keeps(cfg, w, o)
  {
    var i, joined := Worked(w.images[k], work), Joined(p, c.id);
    var w1 := WithContainer(w, c);
    ContainerSaved(cfg, w, c);
    var w2 := WithImage(w1, i);
    ImageSaved(cfg, w1, i);
    var w3 := WithContainer(w2, c);
    ContainerSaved(cfg, w2, c);
    JoinedGood(cfg, w, p, c);
    var w4 := WithPod(w3, joined);
    SameMaps(w, c, i, k);
    PodSaved(cfg, w3, joined);
    SafeOne(cfg, w3.files, o.writes[3]);
    SafeCons(cfg, w2.files, o.writes[2], [o.writes[3]]);
    SafeCons(cfg, w1.files, o.writes[1], [o.writes[2], o.writes[3]]);
    SafeCons(cfg, w.files, o.writes[0], [o.writes[1], o.writes[2], o.writes[3]]);
    FourWrites(w.files, o.writes);
    assert o.world == w4;
  }

  lemma SameMaps(w: World, c: Container, i: Image, k: string)
    requires i.id == k
    ensures w.containers[c.id := c][c.id := c] == w.containers[c.id := c]
    ensures w.images[k := i][i.id := i] == w.images[i.id := i]
  {
  }

  lemma FourWrites(f: Files, ws: seq<Write>)
    requires |ws| == 4
    ensures ws == [ws[0]] + [ws[1], ws[2], ws[3]]
    ensures [ws[1], ws[2], ws[3]] == [ws[1]] + [ws[2], ws[3]]
    ensures [ws[2], ws[3]] == [ws[2]] + [ws[3]]
    ensures Replay(f, ws) == Apply(Apply(Apply(Apply(f, ws[0]), ws[1]), ws[2]), ws[3])
  {
    assert ws[1..][1..] == [ws[2], ws[3]];
    TwoWrites(Apply(Apply(f, ws[0]), ws[1]), ws[2], ws[3]);
  }

  lemma StartedAdmissible(cfg: Config, w: World, c: Container, run: SbatchRun, now: int)
    requires Inv(cfg, w) && c.id in w.containers && w.containers[c.id] == c && c.state == CREATED
    ensures Admissible(cfg, w.containers, Started(c, Submit(c, run), now))
  {
  }

  lemma StartKeeps(cfg: Config, w: World, r: Request)
    requires Inv(cfg, w) && r.Start?
    ensures Keeps(cfg, w, Exec(cfg, w, r))
  {
    if r.id in w.containers {
      var c := w.containers[r.id];
      if c.state == CREATED {
        StartedAdmissible(cfg, w, c, r.run, r.now);
        SaveKeeps(cfg, w, Started(c, Submit(c, r.run), r.now));
      }
    }
  }

  lemma StopKeeps(cfg: Config, w: World, r: Request)
    requires Inv(cfg, w) && r.Stop?
    ensures Keeps(cfg, w, Exec(cfg, w, r))
  {
    if r.id in w.containers {
      SaveKeeps(cfg, w, w.containers[r.id].(state := EXITED, finishedAt := r.now));
    }
  }

  lemma RemoveKeeps(cfg: Config, w: World, r: Request)
    requires Inv(cfg, w) && r.Remove?
    ensures Keeps(cfg, w, Exec(cfg, w, r))
  {
    if r.id in w.containers {
      RemoveKnownShape(cfg, w, w.containers[r.id], r.remote, r.reopen);
      StillKeeps(cfg, w, Exec(cfg, w, r).reply, Exec(cfg, w, r).marks);
      DropKeeps(cfg, w, w.containers[r.id].pod.id, r.id);
    }
  }

  lemma RemoveKnownShape(cfg: Config, w: World, c: Container, remote: Answer, reopen: CallEnd)
    ensures var o := RemoveKnown(cfg, w, c, remote, reopen);
            o == Still(w, o.reply, o.marks) || o == DropFromPod(w, c.pod.id, c.id).(marks := o.marks)
  {
  }

  /** On the lists the service keeps, removal neither panics nor breaks them. */
  lemma DropKeeps(cfg: Config, w: World, podId: string, id: string)
    requires Inv(cfg, w)
    ensures Keeps(cfg, w, DropFromPod(w, podId, id)) && DropFromPod(w, podId, id).reply == Done
    ensures podId in w.pods ==>
              DropFromPod(w, podId, id).world.pods ==
                w.pods[podId := w.pods[podId].(containers := Without(w.pods[podId].containers, id))]
  {
    if podId in w.pods {
      var p := w.pods[podId];
      DeletesFromDuplicateFree(p.containers, id);
      PodPut(cfg, w, p.(containers := Without(p.containers, id)));
    }
  }

  lemma ObservedAdmissible(cfg: Config, w: World, c: Container, answer: StatusAnswer)
    requires GoodContainer(cfg, c) && c.id in w.containers && w.containers[c.id] == c
    ensures Admissible(cfg, w.containers, Observed(c, answer)) && Observed(c, answer).id == c.id
    ensures Observed(c, answer).pod == c.pod && Observed(c, answer).image == c.image
  {
    RefreshSetsExitFields(c, answer);
  }

  lemma StatusKeeps(cfg: Config, w: World, r: Request)
    requires Inv(cfg, w) && r.Status?
    ensures Keeps(cfg, w, Exec(cfg, w, r))
  {
    if r.id in w.containers {
      ObservedAdmissible(cfg, w, w.containers[r.id], r.answer);
      SaveKeeps(cfg, w, Observed(w.containers[r.id], r.answer));
    }
  }

  lemma PullKeeps(cfg: Config, w: World, r: Request)
    requires Inv(cfg, w) && r.Pull? && FreshIds(w, r)
    ensures Keeps(cfg, w, Exec(cfg, w, r))
  {
    match ImageManager(cfg.remotes, r.image, r.names)
    case ServeRemotely(_, _) => StillKeeps(cfg, w, Exec(cfg, w, r).reply, []);
    case ServeLocally(name) => PullLocallyKeeps(cfg, w, name, r.newId, r.work);
  }

  lemma PullLocallyKeeps(cfg: Config, w: World, name: string, newId: string, work: ImageWork)
    requires Inv(cfg, w)
    ensures Keeps(cfg, w, PullLocally(cfg, w, name, newId, work))
  {
    var o, created := PullLocally(cfg, w, name, newId, work), NewImage(cfg, newId, name);
    if ParseName(name).None? || work.end.Dies? {
      ImageSaved(cfg, w, created);
      OneWrite(w.files, PutImage(newId, created));
      SafeOne(cfg, w.files, PutImage(newId, created));
    } else if work.end == Returns {
      PullPutTwice(cfg, w, created, Worked(Parsed(created, ParseName(name).value), work), o);
    } else {
      PullPutDeleted(cfg, w, created, o);
    }
  }

  lemma PullPutTwice(cfg: Config, w: World, created: Image, pulled: Image, o: Outcome)
    requires Inv(cfg, w) && created.id == pulled.id
    requires o.writes == [PutImage(created.id, created), PutImage(created.id, pulled)]
    requires o.world == w.(images := w.images[created.id := pulled], files := Replay(w.files, o.writes))
    ensures Keeps(cfg, w, o)
  {
    var mid := WithImage(w, created);
    ImageSaved(cfg, w, created);
    ImageSaved(cfg, mid, pulled);
    TwoWrites(w.files, o.writes[0], o.writes[1]);
    PutOver(w.images, created.id, created, pulled);
    KeepsTwo(cfg, w, mid, WithImage(mid, pulled), o);
  }

  lemma PullPutDeleted(cfg: Config, w: World, created: Image, o: Outcome)
    requires Inv(cfg, w)
    requires o.writes == [PutImage(created.id, created), DeleteImage(created.id)]
    requires o.world == w.(images := w.images[created.id := created] - {created.id}, files := Replay(w.files, o.writes))
    ensures Keeps(cfg, w, o)
  {
    var mid := WithImage(w, created);
    ImageSaved(cfg, w, created);
    ImageForgotten(cfg, mid, created.id);
    TwoWrites(w.files, o.writes[0], o.writes[1]);
    KeepsTwo(cfg, w, mid, WithoutImage(mid, created.id), o);
  }

  lemma DropImageKeeps(cfg: Config, w: World, r: Request)
    requires Inv(cfg, w) && r.DropImage?
    ensures Keeps(cfg, w, Exec(cfg, w, r))
  {
    var o := Exec(cfg, w, r);
    if o.writes != [] {
      ImageForgotten(cfg, w, o.writes[0].id);
      OneWrite(w.files, o.writes[0]);
      SafeOne(cfg, w.files, o.writes[0]);
    }
  }

  lemma {:induction false} ListKeeps(cfg: Config, w: World, filter: string, order: seq<string>, present: set<string>)
    requires Inv(cfg, w)
    ensures var l := ListImages(w.images, filter, order, present);
            Keeps(cfg, w, Commit(w.(images := l.images), l.writes, Done, []))
    decreases |order|
  {
    if order != [] {
      if order[0] !in w.images || !ImageFilter(w.images[order[0]], filter) || w.images[order[0]].localPath in present {
        ListKeeps(cfg, w, filter, order[1..], present);
      } else {
        var id := w.images[order[0]].id;
        ImageForgotten(cfg, w, id);
        var w' := WithoutImage(w, id);
        ListKeeps(cfg, w', filter, order[1..], present);
        SafeCons(cfg, w.files, DeleteImage(id), ListImages(w'.images, filter, order[1..], present).writes);
      }
    }
  }

  /** Every request, whatever the outside calls return, keeps the invariant, and the files
      are good after each single write it makes. */
  lemma RequestKeeps(cfg: Config, w: World, r: Request)
    requires Inv(cfg, w) && FreshIds(w, r)
    ensures Keeps(cfg, w, Exec(cfg, w, r))
  {
    match r
    case RunPod(_, _, _, _, _, _, _) => RunPodKeeps(cfg, w, r);
    case StopPod(_, _, _, _) => StopPodKeeps(cfg, w, r);
    case RemovePod(_, _, _) => RemovePodKeeps(cfg, w, r);
    case PodStatus(_, _, _) => PodStatusKeeps(cfg, w, r);
    case Create(_, _, _, _, _, _, _, _, _) => CreateKeeps(cfg, w, r);
    case Start(_, _, _, _) => StartKeeps(cfg, w, r);
    case Stop(_, _, _, _) => StopKeeps(cfg, w, r);
    case Remove(_, _, _) => RemoveKeeps(cfg, w, r);
    case Status(_, _, _) => StatusKeeps(cfg, w, r);
    case Pull(_, _, _, _, _) => PullKeeps(cfg, w, r);
    case DropImage(_, _, _, _, _) => DropImageKeeps(cfg, w, r);
    case ListAll(filter, order, present, _) => ListKeeps(cfg, w, filter, order, present);
  }

  // ---- which pools a request changes ----

  lemma ContainersOnly(cfg: Config, w: World, r: Request)
    requires r.Start? || r.Stop? || r.Status?
    ensures var w' := Exec(cfg, w, r).world; w' == w.(containers := w'.containers, files := w'.files)
  {
  }

  lemma RunPodChangesPods(cfg: Config, w: World, r: Request)
    requires r.RunPod?
    ensures var w' := Exec(cfg, w, r).world; w' == w.(pods := w'.pods, files := w'.files)
  {
  }

  lemma PodsOnly(cfg: Config, w: World, r: Request)
    requires r.StopPod? || r.RemovePod? || r.PodStatus?
    ensures var w' := Exec(cfg, w, r).world; w' == w.(pods := w'.pods, files := w'.files)
  {
  }

  lemma RemoveChangesPods(cfg: Config, w: World, r: Request)
    requires r.Remove?
    ensures var w' := Exec(cfg, w, r).world; w' == w.(pods := w'.pods, files := w'.files)
  {
  }

  lemma PullChangesImages(cfg: Config, w: World, r: Request)
    requires r.Pull?
    ensures var w' := Exec(cfg, w, r).world; w' == w.(images := w'.images, files := w'.files)
  {
    match ImageManager(cfg.remotes, r.image, r.names)
    case ServeRemotely(_, _) =>
    case ServeLocally(name) => PullLocallyChangesImages(cfg, w, name, r.newId, r.work);
  }

  lemma PullLocallyChangesImages(cfg: Config, w: World, name: string, newId: string, work: ImageWork)
    ensures var w' := PullLocally(cfg, w, name, newId, work).world; w' == w.(images := w'.images, files := w'.files)
  {
  }

  lemma DropChangesImages(cfg: Config, w: World, r: Request)
    requires r.DropImage?
    ensures var w' := Exec(cfg, w, r).world; w' == w.(images := w'.images, files := w'.files)
  {
  }

  lemma ImagesOnly(cfg: Config, w: World, r: Request)
    requires r.Pull? || r.DropImage? || r.ListAll?
    ensures var w' := Exec(cfg, w, r).world; w' == w.(images := w'.images, files := w'.files)
  {
    if r.Pull? {
      PullChangesImages(cfg, w, r);
    } else if r.DropImage? {
      DropChangesImages(cfg, w, r);
    }
  }

  /** All but a creation change one pool: the pods for a removed container, which therefore
      stays in the container pool. */
  lemma RequestChangesOnePool(cfg: Config, w: World, r: Request)
    requires !r.Create?
    ensures var w' := Exec(cfg, w, r).world;
            && (w'.containers == w.containers || r.Start? || r.Stop? || r.Status?)
            && (w'.pods == w.pods || r.RunPod? || r.StopPod? || r.RemovePod? || r.PodStatus? || r.Remove?)
            && (w'.images == w.images || r.Pull? || r.DropImage? || r.ListAll?)
  {
    if r.Start? || r.Stop? || r.Status? {
      ContainersOnly(cfg, w, r);
    } else if r.Remove? {
      RemoveChangesPods(cfg, w, r);
    } else if r.RunPod? {
      RunPodChangesPods(cfg, w, r);
    } else if r.Pull? || r.DropImage? || r.ListAll? {
      ImagesOnly(cfg, w, r);
    } else {
      PodsOnly(cfg, w, r);
    }
  }
}
