/** The local parts of the listings: which records they return, and that they never
    dereference a missing image. */
module Listings {
  import opened Records
  import opened Persistence
  import opened RemoteRuntimes
  import opened Lifecycle
  import opened Requests
  import opened Runs
  import opened Histories

  // ---- pods ----

  /** Empty strings and None filter nothing. */
  datatype PodFilter = PodFilter(id: string, uid: string, state: Option<PodState>)

  predicate PodPasses(p: Pod, f: PodFilter) {
    && (f.id == "" || p.info.id == f.id)
    && (f.uid == "" || p.info.id == f.uid)
    && (f.state.None? || p.info.state == f.state.value)
  }

  /** `order` is the iteration order of the pool. */
  function ListPods(pods: map<string, Pod>, f: PodFilter, localName: string, order: seq<string>): seq<Pod> {
    if order == [] then []
    else if order[0] in pods && PodPasses(pods[order[0]], f) && pods[order[0]].info.handler == localName
    then [pods[order[0]]] + ListPods(pods, f, localName, order[1..])
    else ListPods(pods, f, localName, order[1..])
  }

  lemma {:induction false} ListPodsMembers(pods: map<string, Pod>, f: PodFilter, localName: string, order: seq<string>,
                                           p: Pod)
    ensures p in ListPods(pods, f, localName, order) <==>
            exists k :: k in order && k in pods && pods[k] == p && PodPasses(p, f) && p.info.handler == localName
  {
    if order != [] {
      ListPodsMembers(pods, f, localName, order[1..], p);
      assert forall k :: k in order <==> k == order[0] || k in order[1..];
    }
  }

  predicate DistinctPods(ps: seq<Pod>) {
    forall i, j :: 0 <= i < j < |ps| ==> ps[i].info.id != ps[j].info.id
  }

  lemma {:induction false} ListPodsOnce(pods: map<string, Pod>, f: PodFilter, localName: string, order: seq<string>)
    requires forall k :: k in pods ==> pods[k].info.id == k
    requires forall i, j :: 0 <= i < j < |order| ==> order[i] != order[j]
    ensures DistinctPods(ListPods(pods, f, localName, order))
  {
    if order != [] {
      var rest := ListPods(pods, f, localName, order[1..]);
      ListPodsOnce(pods, f, localName, order[1..]);
      forall p | p in rest ensures p.info.id != order[0] {
        ListPodsMembers(pods, f, localName, order[1..], p);
        assert forall k :: k in order[1..] ==> k != order[0];
      }
      assert forall i :: 0 <= i < |rest| ==> rest[i] in rest;
    }
  }

  /** In every reachable state with a default remote, listing pods returns exactly the pods
      of the service's own handler that meet every filter given, each once, whatever the
      iteration order: with a default remote these are the pods served locally. */
  lemma ListsExactlyLocalPods(cfg: Config, w: World, es: seq<Event>, f: PodFilter, order: seq<string>, p: Pod)
    requires Inv(cfg, w) && Run(cfg, w, es) && DEFAULT in cfg.remotes
    requires Enumerates(order, After(cfg, w, es).pods.Keys)
    ensures var end := After(cfg, w, es);
            var listed := ListPods(end.pods, f, MulticriRuntimeName(cfg.remotes), order);
            && (p in listed <==>
                  && p.info.id in end.pods && end.pods[p.info.id] == p && Belongs(cfg.remotes, p.info.handler, Local)
                  && (f.id == "" || f.id == p.info.id) && (f.uid == "" || f.uid == p.info.id)
                  && (f.state == None || f.state == Some(p.info.state)))
            && DistinctPods(listed)
  {
    RoutesExactlyWhen(cfg.remotes, p.info.handler, Local);
    RunKeepsInvariant(cfg, w, es);
    var end := After(cfg, w, es);
    ListPodsMembers(end.pods, f, MulticriRuntimeName(cfg.remotes), order, p);
    ListPodsOnce(end.pods, f, MulticriRuntimeName(cfg.remotes), order);
    ListedNameMeansLocalExactlyWhen(cfg.remotes);
  }

  /** Without a default remote the listing may miss pods that run locally: those whose
      handler is not empty. */
  lemma UnlistedExactlyWhen(cfg: Config, w: World, p: Pod, order: seq<string>)
    requires Inv(cfg, w) && Enumerates(order, w.pods.Keys)
    requires p.info.id in w.pods && w.pods[p.info.id] == p && GetRemoteRuntime(cfg.remotes, p.info.handler) == Local
    ensures p in ListPods(w.pods, PodFilter("", "", None), MulticriRuntimeName(cfg.remotes), order) <==>
            DEFAULT in cfg.remotes || p.info.handler == ""
  {
    ListPodsMembers(w.pods, PodFilter("", "", None), MulticriRuntimeName(cfg.remotes), order, p);
    ListedNameMeansLocalExactlyWhen(cfg.remotes);
  }

  // ---- containers ----

  datatype ContainerFilter = ContainerFilter(id: string, podId: string, uid: string, state: Option<ContainerState>)

  predicate ContainerPasses(c: Container, f: ContainerFilter) {
    && (f.podId == "" || c.pod.id == f.podId)
    && (f.uid == "" || c.pod.id == f.uid)
    && (f.state.None? || c.state == f.state.value)
    && (f.id == "" || c.id == f.id)
  }

  function ListContainers(containers: map<string, Container>, f: ContainerFilter, localName: string,
                          order: seq<string>): seq<Container> {
    if order == [] then []
    else if order[0] in containers && ContainerPasses(containers[order[0]], f) &&
      containers[order[0]].pod.handler == localName
    then [containers[order[0]]] + ListContainers(containers, f, localName, order[1..])
    else ListContainers(containers, f, localName, order[1..])
  }

  lemma {:induction false} ListContainersMembers(containers: map<string, Container>, f: ContainerFilter,
                                                 localName: string, order: seq<string>, c: Container)
    ensures c in ListContainers(containers, f, localName, order) <==>
            exists k :: k in order && k in containers && containers[k] == c && ContainerPasses(c, f) &&
                        c.pod.handler == localName
  {
    if order != [] {
      ListContainersMembers(containers, f, localName, order[1..], c);
      assert forall k :: k in order <==> k == order[0] || k in order[1..];
    }
  }

  predicate DistinctContainers(cs: seq<Container>) {
    forall i, j :: 0 <= i < j < |cs| ==> cs[i].id != cs[j].id
  }

  lemma {:induction false} ListContainersOnce(containers: map<string, Container>, f: ContainerFilter,
                                              localName: string, order: seq<string>)
    requires forall k :: k in containers ==> containers[k].id == k
    requires forall i, j :: 0 <= i < j < |order| ==> order[i] != order[j]
    ensures DistinctContainers(ListContainers(containers, f, localName, order))
  {
    if order != [] {
      var rest := ListContainers(containers, f, localName, order[1..]);
      ListContainersOnce(containers, f, localName, order[1..]);
      forall c | c in rest ensures c.id != order[0] {
        ListContainersMembers(containers, f, localName, order[1..], c);
        assert forall k :: k in order[1..] ==> k != order[0];
      }
      assert forall i :: 0 <= i < |rest| ==> rest[i] in rest;
    }
  }

  lemma ListedContainers(cfg: Config, w: World, f: ContainerFilter, order: seq<string>, c: Container)
    requires Inv(cfg, w) && Enumerates(order, w.containers.Keys)
    ensures var listed := ListContainers(w.containers, f, MulticriRuntimeName(cfg.remotes), order);
            && (c in listed <==>
                  && c.id in w.containers && w.containers[c.id] == c && ContainerPasses(c, f)
                  && c.pod.handler == if DEFAULT in cfg.remotes then HANDLER else "")
            && DistinctContainers(listed)
  {
    assert GoodContainers(cfg, w.containers);
    ListContainersMembers(w.containers, f, MulticriRuntimeName(cfg.remotes), order, c);
    ListContainersOnce(w.containers, f, MulticriRuntimeName(cfg.remotes), order);
  }

  /** In every reachable state, whatever the iteration order, listing containers returns exactly
      the known ones that meet every filter given and whose pod has the service's own handler,
      or without a default remote the empty one, each once. */
  lemma ListsExactlyContainers(cfg: Config, w: World, es: seq<Event>, f: ContainerFilter, order: seq<string>,
                               c: Container)
    requires Inv(cfg, w) && Run(cfg, w, es) && Enumerates(order, After(cfg, w, es).containers.Keys)
    ensures var end := After(cfg, w, es);
            var listed := ListContainers(end.containers, f, MulticriRuntimeName(cfg.remotes), order);
            && (c in listed <==>
                  && c.id in end.containers && end.containers[c.id] == c
                  && (f.id == "" || f.id == c.id) && (f.podId == "" || f.podId == c.pod.id)
                  && (f.uid == "" || f.uid == c.pod.id) && (f.state == None || f.state == Some(c.state))
                  && c.pod.handler == if DEFAULT in cfg.remotes then HANDLER else "")
            && DistinctContainers(listed)
  {
    RunKeepsInvariant(cfg, w, es);
    ListedContainers(cfg, After(cfg, w, es), f, order, c);
  }

  /** So a container that is served locally is in the unfiltered listing exactly when a default
      remote is configured or its pod has the empty handler, and one served by a remote never. */
  lemma ListedContainerExactlyWhen(cfg: Config, w: World, order: seq<string>, c: Container)
    requires Inv(cfg, w) && Enumerates(order, w.containers.Keys)
    requires c.id in w.containers && w.containers[c.id] == c
    ensures var all := ContainerFilter("", "", "", None);
            c in ListContainers(w.containers, all, MulticriRuntimeName(cfg.remotes), order) <==>
            Belongs(cfg.remotes, c.pod.handler, Local) && (DEFAULT in cfg.remotes || c.pod.handler == "")
  {
    ListedContainers(cfg, w, ContainerFilter("", "", "", None), order, c);
    assert GoodContainer(cfg, c);
    RoutesExactlyWhen(cfg.remotes, c.pod.handler, GetRemoteRuntime(cfg.remotes, c.pod.handler));
  }

  /** Every record the listing would convert carries an image. */
  predicate ListsSafely(containers: map<string, Container>, localName: string) {
    forall k :: k in containers && containers[k].pod.handler == localName ==> containers[k].image.Some?
  }

  /** For any fixed remote configuration and any run, listing containers never dereferences
      a missing image. */
  lemma ListingNeverMissesImage(cfg: Config, w: World, es: seq<Event>)
    requires Inv(cfg, w) && Run(cfg, w, es)
    ensures ListsSafely(After(cfg, w, es).containers, MulticriRuntimeName(cfg.remotes))
  {
    RunKeepsInvariant(cfg, w, es);
    ListedNameNeverRemote(cfg.remotes);
  }

  // ---- pods do not survive a restart ----

  predicate WithoutPaths(pods: map<string, Pod>) {
    forall k :: k in pods ==> pods[k].info.netNSPath == ""
  }

  /** No pod record has a namespace path. */
  predicate NoPaths(w: World) {
    WithoutPaths(w.pods) && WithoutPaths(w.files.pods)
  }

  predicate PutsNoPaths(ws: seq<Write>) {
    forall i :: 0 <= i < |ws| && ws[i].PutPod? ==> ws[i].pod.info.netNSPath == ""
  }

  lemma {:induction false} ReplayNoPaths(f: Files, ws: seq<Write>, k: nat)
    requires k <= |ws| && PutsNoPaths(ws) && WithoutPaths(f.pods)
    ensures WithoutPaths(Replay(f, ws[..k]).pods)
    decreases k
  {
    if k > 0 {
      assert ws[..k][1..] == ws[1..][..k - 1];
      ReplayNoPaths(Apply(f, ws[0]), ws[1..], k - 1);
    }
  }

  lemma RunPodSetsNoPath(cfg: Config, w: World, r: Request)
    requires NoPaths(w) && r.RunPod?
    ensures PutsNoPaths(Exec(cfg, w, r).writes) && WithoutPaths(Exec(cfg, w, r).world.pods)
  {
  }

  lemma StopPodSetsNoPath(cfg: Config, w: World, r: Request)
    requires NoPaths(w) && r.StopPod?
    ensures PutsNoPaths(Exec(cfg, w, r).writes) && WithoutPaths(Exec(cfg, w, r).world.pods)
  {
  }

  lemma PodReadsSetNoPath(cfg: Config, w: World, r: Request)
    requires NoPaths(w) && (r.RemovePod? || r.PodStatus?)
    ensures PutsNoPaths(Exec(cfg, w, r).writes) && WithoutPaths(Exec(cfg, w, r).world.pods)
  {
  }

  lemma CreateSetsNoPath(cfg: Config, w: World, r: Request)
    requires NoPaths(w) && r.Create?
    ensures PutsNoPaths(Exec(cfg, w, r).writes) && WithoutPaths(Exec(cfg, w, r).world.pods)
  {
  }

  lemma RemoveSetsNoPath(cfg: Config, w: World, r: Request)
    requires NoPaths(w) && r.Remove?
    ensures PutsNoPaths(Exec(cfg, w, r).writes) && WithoutPaths(Exec(cfg, w, r).world.pods)
  {
  }

  lemma ContainerRequestsSetNoPath(cfg: Config, w: World, r: Request)
    requires NoPaths(w) && (r.Start? || r.Stop? || r.Status?)
    ensures PutsNoPaths(Exec(cfg, w, r).writes) && WithoutPaths(Exec(cfg, w, r).world.pods)
  {
  }

  lemma PullSetsNoPath(cfg: Config, w: World, r: Request)
    requires NoPaths(w) && r.Pull?
    ensures PutsNoPaths(Exec(cfg, w, r).writes) && WithoutPaths(Exec(cfg, w, r).world.pods)
  {
    ImagesWriteNoPod(cfg, w, r);
    ImagesOnly(cfg, w, r);
  }

  lemma ImageRequestsSetNoPath(cfg: Config, w: World, r: Request)
    requires NoPaths(w) && (r.DropImage? || r.ListAll?)
    ensures PutsNoPaths(Exec(cfg, w, r).writes) && WithoutPaths(Exec(cfg, w, r).world.pods)
  {
    if r.ListAll? {
      ListWritesDeleteImages(w.images, r.filter, r.order, r.present);
    }
  }

  lemma RequestSetsNoPath(cfg: Config, w: World, r: Request)
    requires NoPaths(w)
    ensures PutsNoPaths(Exec(cfg, w, r).writes) && WithoutPaths(Exec(cfg, w, r).world.pods)
  {
    if r.RunPod? {
      RunPodSetsNoPath(cfg, w, r);
    } else if r.StopPod? {
      StopPodSetsNoPath(cfg, w, r);
    } else if r.RemovePod? || r.PodStatus? {
      PodReadsSetNoPath(cfg, w, r);
    } else if r.Create? {
      CreateSetsNoPath(cfg, w, r);
    } else if r.Remove? {
      RemoveSetsNoPath(cfg, w, r);
    } else if r.Start? || r.Stop? || r.Status? {
      ContainerRequestsSetNoPath(cfg, w, r);
    } else if r.Pull? {
      PullSetsNoPath(cfg, w, r);
    } else {
      ImageRequestsSetNoPath(cfg, w, r);
    }
  }

  lemma NextSetsNoPath(cfg: Config, w: World, e: Event)
    requires NoPaths(w) && Possible(cfg, w, e)
    ensures NoPaths(Next(cfg, w, e))
  {
    var ws := Exec(cfg, w, e.r).writes;
    RequestSetsNoPath(cfg, w, e.r);
    ReplayNoPaths(w.files, ws, if e.Handled? then |ws| else e.k);
    assert ws[..|ws|] == ws;
    FilesReplayed(cfg, w, e.r);
  }

  /** Setting up the network never stores the namespace path it opened, so from an empty
      service on, whatever the run, no pod has one. */
  lemma {:induction false} NoPathIsEverSet(cfg: Config, w: World, es: seq<Event>)
    requires NoPaths(w) && Run(cfg, w, es)
    ensures NoPaths(After(cfg, w, es))
    decreases |es|
  {
    if es != [] {
      NextSetsNoPath(cfg, w, es[0]);
      NoPathIsEverSet(cfg, Next(cfg, w, es[0]), es[1..]);
    }
  }

  /** Hence a restart forgets every pod and empties the pod file. */
  lemma RestartForgetsEveryPod(cfg: Config, es: seq<Event>, reopen: map<string, string>)
    requires Run(cfg, EMPTY, es)
    ensures var after := Restart(After(cfg, EMPTY, es).files, reopen);
            after.pods == map[] && after.files.pods == map[]
  {
    NoPathIsEverSet(cfg, EMPTY, es);
  }
}
