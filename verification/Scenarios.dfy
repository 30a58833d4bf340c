/** Runs from an empty service that reach the cases in which the service does not do what a
    caller expects. */
module Scenarios {
  import opened Records
  import opened ImageNames
  import opened SlurmText
  import opened Slurm
  import opened RemoteRuntimes
  import opened PodNetwork
  import opened Lifecycle
  import opened Requests
  import opened Outcomes
  import opened Runs
  import opened Histories

  /** The ids of a pod and of its container. */
  datatype Ids = Ids(pod: string, container: string)

  /** An image that a pull has to store: its name, its new id, and where its file goes. */
  datatype Pulled = Pulled(name: string, id: string, localPath: string, size: nat)

  /** A pod in the host's network, whose set-up meets no error. */
  const HOST_NETWORK :=
    NetworkCalls(false, Hollow, Returns, Returns, "", Returns, Returns, Returns, Returns, Returns, true)

  function RunP(ids: Ids, handler: string, remote: Answer): Request {
    RunPod(ids.pod, handler, ids.pod, remote, HOST_NETWORK, "", Returns)
  }

  function WorkOf(i: Pulled): ImageWork {
    ImageWork(Returns, i.localPath, i.size)
  }

  function PullI(i: Pulled): Request {
    Pull(HANDLER + "/" + i.name, [], i.id, Response(""), WorkOf(i))
  }

  /** The image is asked for by the reference that its pull returned. */
  function CreateC(ids: Ids, i: Pulled, remote: Answer): Request {
    Create(ids.pod, ids.container, ReferenceOf(i), true, ids.container, remote, [i.id], WorkOf(i), 0)
  }

  function ReferenceOf(i: Pulled): string {
    match ParseName(i.name) case Some(p) => p.remotePath case None => ""
  }

  lemma HeadFirst<T>(a: seq<T>, b: seq<T>)
    requires a != []
    ensures a == [a[0]] + a[1..] && a + b == [a[0]] + (a[1..] + b)
  {
  }

  lemma RunSplit(cfg: Config, w: World, es: seq<Event>)
    requires Run(cfg, w, es) && es != []
    ensures Possible(cfg, w, es[0]) && Run(cfg, Next(cfg, w, es[0]), es[1..])
    ensures After(cfg, w, es) == After(cfg, Next(cfg, w, es[0]), es[1..])
    ensures History(cfg, w, es) == MarksOf(cfg, w, es[0]) + History(cfg, Next(cfg, w, es[0]), es[1..])
  {
  }

  lemma RunAppendStep(cfg: Config, w: World, e: Event, a: seq<Event>, b: seq<Event>)
    requires Possible(cfg, w, e)
    requires var w' := Next(cfg, w, e);
             && Run(cfg, w', a) && Run(cfg, After(cfg, w', a), b) && Run(cfg, w', a + b)
             && After(cfg, w', a + b) == After(cfg, After(cfg, w', a), b)
             && History(cfg, w', a + b) == History(cfg, w', a) + History(cfg, After(cfg, w', a), b)
    ensures var w' := Next(cfg, w, e);
            && Run(cfg, w, [e] + (a + b)) && After(cfg, w, [e] + (a + b)) == After(cfg, After(cfg, w', a), b)
            && History(cfg, w, [e] + (a + b)) ==
               MarksOf(cfg, w, e) + History(cfg, w', a) + History(cfg, After(cfg, w', a), b)
  {
    var w' := Next(cfg, w, e);
    RunCons(cfg, w, e, a + b);
    AppendMarks(MarksOf(cfg, w, e), History(cfg, w', a), History(cfg, After(cfg, w', a), b));
  }

  lemma {:induction false} RunAppend(cfg: Config, w: World, a: seq<Event>, b: seq<Event>)
    requires Run(cfg, w, a) && Run(cfg, After(cfg, w, a), b)
    ensures Run(cfg, w, a + b) && After(cfg, w, a + b) == After(cfg, After(cfg, w, a), b)
    ensures History(cfg, w, a + b) == History(cfg, w, a) + History(cfg, After(cfg, w, a), b)
    decreases |a|
  {
    if a == [] {
      assert a + b == b;
    } else {
      RunSplit(cfg, w, a);
      RunAppend(cfg, Next(cfg, w, a[0]), a[1..], b);
      RunAppendStep(cfg, w, a[0], a[1..], b);
      HeadFirst(a, b);
    }
  }

  lemma OneEvent(cfg: Config, w: World, r: Request)
    requires FreshIds(w, r) && Exec(cfg, w, r).reply != Crashed
    ensures Run(cfg, w, [Handled(r)]) && After(cfg, w, [Handled(r)]) == Exec(cfg, w, r).world
    ensures History(cfg, w, [Handled(r)]) == Exec(cfg, w, r).marks
  {
    assert [Handled(r)][1..] == [];
  }

  /** One more request at the end of a run. */
  lemma Then(cfg: Config, es: seq<Event>, r: Request)
    requires Run(cfg, EMPTY, es) && FreshIds(After(cfg, EMPTY, es), r) &&
      Exec(cfg, After(cfg, EMPTY, es), r).reply != Crashed
    ensures var more := es + [Handled(r)];
            && Run(cfg, EMPTY, more) && After(cfg, EMPTY, more) == Exec(cfg, After(cfg, EMPTY, es), r).world
            && History(cfg, EMPTY, more) == History(cfg, EMPTY, es) + Exec(cfg, After(cfg, EMPTY, es), r).marks
  {
    OneEvent(cfg, After(cfg, EMPTY, es), r);
    RunAppend(cfg, EMPTY, es, [Handled(r)]);
  }

  // ---- a local container ----

  lemma RunLocalPod(cfg: Config, ids: Ids) returns (es: seq<Event>)
    ensures Run(cfg, EMPTY, es)
    ensures var w := After(cfg, EMPTY, es);
            ids.pod in w.pods && w.pods[ids.pod] == NewPod(ids.pod, HANDLER)
            && w.containers == map[] && w.images == map[]
  {
    var run, p := RunP(ids, HANDLER, Response("")), NewPod(ids.pod, HANDLER);
    es := [Handled(run)];
    RunLocallyIs(cfg, EMPTY, ids.pod, HANDLER, HOST_NETWORK, "", Returns);
    assert SetUpPod(cfg, p, HOST_NETWORK, "") == p;
    OneEvent(cfg, EMPTY, run);
  }

  lemma PullImageI(cfg: Config, w: World, i: Pulled)
    requires w.images == map[] && ParseName(i.name).Some?
    ensures var o := Exec(cfg, w, PullI(i));
            && o.reply == DoneId(ReferenceOf(i)) && i.id in o.world.images && o.world.images[i.id].id == i.id
            && o.world.images[i.id].repoTags == [ReferenceOf(i)]
            && o.world.pods == w.pods && o.world.containers == w.containers
  {
    var prefix := HANDLER + "/";
    assert (prefix + i.name)[|prefix|..] == i.name;
    assert ImageManager(cfg.remotes, prefix + i.name, []) == ServeLocally(i.name);
    PullLocallyIs(cfg, w, i.name, i.id, WorkOf(i));
  }

  function LocalContainer(ids: Ids, i: Pulled): Container {
    NewContainer(ids.container, ids.container, NewPod(ids.pod, HANDLER).info, Some(i.id), true, 0)
  }

  lemma CreateLocalC(cfg: Config, w: World, ids: Ids, i: Pulled)
    requires ids.pod in w.pods && w.pods[ids.pod] == NewPod(ids.pod, HANDLER) && w.containers == map[]
    requires i.id in w.images && w.images[i.id].id == i.id && w.images[i.id].repoTags == [ReferenceOf(i)]
    ensures var o := Exec(cfg, w, CreateC(ids, i, Response("")));
            && o.reply == DoneId(ids.container) && ids.container in o.world.containers
            && o.world.containers[ids.container] == LocalContainer(ids, i)
  {
    assert ReferenceOf(i) in [ReferenceOf(i)];
    assert Matches(i.id, w.images[i.id], ReferenceOf(i));
    assert FindImage(w.images, ReferenceOf(i), [i.id]) == Some(i.id);
    CreateLocallyIs(w, w.pods[ids.pod], i.id, LocalContainer(ids, i), WorkOf(i));
  }

  /** Under every configuration, whatever the ids and the accepted image name, a run reaches
      a local container that can be started. */
  lemma ReachLocalContainer(cfg: Config, ids: Ids, i: Pulled) returns (es: seq<Event>)
    requires ParseName(i.name).Some?
    ensures Run(cfg, EMPTY, es)
    ensures var w := After(cfg, EMPTY, es);
            ids.container in w.containers && w.containers[ids.container] == LocalContainer(ids, i)
  {
    es := RunLocalPod(cfg, ids);
    PullImageI(cfg, After(cfg, EMPTY, es), i);
    Then(cfg, es, PullI(i));
    es := es + [Handled(PullI(i))];
    var create := CreateC(ids, i, Response(""));
    CreateLocalC(cfg, After(cfg, EMPTY, es), ids, i);
    Then(cfg, es, create);
    es := es + [Handled(create)];
  }

  /** Under every configuration a run from an empty service submits a container's job twice. */
  lemma SubmittedTwiceFromEmpty(cfg: Config, ids: Ids, i: Pulled) returns (es: seq<Event>)
    requires ParseName(i.name).Some?
    ensures Run(cfg, EMPTY, es) && Count(History(cfg, EMPTY, es), Submitted(ids.container)) >= 2
  {
    var c := ids.container;
    var before := ReachLocalContainer(cfg, ids, i);
    EmptyIsGood(cfg);
    RunKeepsInvariant(cfg, EMPTY, before);
    var w := After(cfg, EMPTY, before);
    var first, again := Start(c, Response(""), Numbered(7, true), 1), Start(c, Response(""), Numbered(8, true), 3);
    var queued := Status(c, Response(""), Known(JobStatus("PENDING", 0, "", 0, 0)));
    QueuedJobIsSubmittedTwice(cfg, w, first, queued, again);
    var rest := [Handled(first), Handled(queued), Handled(again)];
    RunAppend(cfg, EMPTY, before, rest);
    es := before + rest;
    CountAppend(History(cfg, EMPTY, before), History(cfg, w, rest), Submitted(c));
  }

  /** Under every configuration a run reaches a started container whose next status request
      ends the process, when accounting answers with nothing. */
  lemma CrashFromEmpty(cfg: Config, ids: Ids, i: Pulled) returns (es: seq<Event>)
    requires ParseName(i.name).Some?
    ensures Run(cfg, EMPTY, es)
    ensures Exec(cfg, After(cfg, EMPTY, es), Status(ids.container, Response(""), ReadAccounting(""))).reply == Crashed
  {
    es := ReachLocalContainer(cfg, ids, i);
    EmptyIsGood(cfg);
    RunKeepsInvariant(cfg, EMPTY, es);
    var start := Start(ids.container, Response(""), Numbered(7, true), 1);
    StartStep(cfg, After(cfg, EMPTY, es), start);
    Then(cfg, es, start);
    es := es + [Handled(start)];
    RunKeepsInvariant(cfg, EMPTY, es);
    BlankAccountingCrashes(cfg, After(cfg, EMPTY, es), ids.container, Response(""), "");
  }

  // ---- a remote container ----

  function RemoteContainer(ids: Ids, handler: string): Container {
    NewContainer(ids.container, "", NewPod(ids.pod, handler).info, None, false, 0)
  }

  /** For every handler that leads to a remote, a run reaches a container of its own. */
  lemma ReachRemoteContainer(cfg: Config, ids: Ids, handler: string) returns (es: seq<Event>)
    requires GetRemoteRuntime(cfg.remotes, handler).Remote?
    ensures Run(cfg, EMPTY, es)
    ensures var w := After(cfg, EMPTY, es);
            ids.container in w.containers && w.containers[ids.container] == RemoteContainer(ids, handler)
  {
    var run := RunP(ids, handler, Response(ids.pod));
    var create := Create(ids.pod, "", "", false, ids.container, Response(ids.container), [],
                         ImageWork(Returns, "", 0), 0);
    RunRemotelyIs(cfg, EMPTY, ids.pod, ids.pod, handler);
    OneEvent(cfg, EMPTY, run);
    es := [Handled(run)];
    var w := After(cfg, EMPTY, es);
    assert w.pods[ids.pod] == NewPod(ids.pod, handler) && w.containers == map[];
    CreateRemotelyIs(cfg, w, w.pods[ids.pod], ids.container);
    Then(cfg, es, create);
    es := es + [Handled(create)];
  }

  /** For every handler that leads to a remote, a run reaches a container of its own whose
      failing start goes to the local adapter as well, which marks it as exited. */
  lemma RemoteStartFallsThroughFromEmpty(cfg: Config, ids: Ids, handler: string, fault: Fault)
    returns (es: seq<Event>)
    requires GetRemoteRuntime(cfg.remotes, handler).Remote?
    ensures Run(cfg, EMPTY, es) && Sent(StartOp, ids.container, Local) in History(cfg, EMPTY, es)
    ensures var w := After(cfg, EMPTY, es);
            && ids.container in w.containers && w.containers[ids.container].state == EXITED
            && Home(cfg, w, ids.container).Remote?
  {
    es := ReachRemoteContainer(cfg, ids, handler);
    var w, start := After(cfg, EMPTY, es), Start(ids.container, Failure(fault), NotRun(fault), 1);
    FailingRemoteStart(cfg, w, ids, handler, start);
    Then(cfg, es, start);
    es := es + [Handled(start)];
  }

  lemma FailingRemoteStart(cfg: Config, w: World, ids: Ids, handler: string, r: Request)
    requires GetRemoteRuntime(cfg.remotes, handler).Remote? && r.Start? && r.id == ids.container && r.remote.Failure?
    requires ids.container in w.containers && w.containers[ids.container] == RemoteContainer(ids, handler)
    ensures var o := Exec(cfg, w, r);
            && o.reply == Failed(NoCredentials) && Sent(StartOp, r.id, Local) in o.marks
            && r.id in o.world.containers && o.world.containers[r.id].state == EXITED
            && o.world.containers[r.id].pod.handler == handler
  {
  }

  // ---- a stopped pod ----

  /** Without a network plug-in a run reaches a stopped pod that cannot be removed. */
  lemma StoppedPodStaysFromEmpty(cfg: Config, ids: Ids) returns (es: seq<Event>)
    requires !cfg.netPlugin
    ensures Run(cfg, EMPTY, es)
    ensures Exec(cfg, After(cfg, EMPTY, es), RemovePod(ids.pod, Response(""), Returns)).reply == Failed(PodRunning)
  {
    var stop, status := StopPod(ids.pod, Response(""), Returns, Returns), PodStatus(ids.pod, Response(""), Returns);
    es := RunLocalPod(cfg, ids);
    Then(cfg, es, stop);
    es := es + [Handled(stop)];
    Then(cfg, es, status);
    es := es + [Handled(status)];
  }
}
