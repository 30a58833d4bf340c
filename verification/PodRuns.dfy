/** A pod from its set-up to its removal. */
module PodRuns {
  import opened Records
  import opened Persistence
  import opened RemoteRuntimes
  import opened PodNetwork
  import opened Lifecycle
  import opened Requests
  import opened Runs
  import opened Histories
  import opened Listings

  /** The id a local pod runs under. */
  function LocalId(r: Request): string
    requires r.RunPod?
  {
    if r.uid != "" then r.uid else r.newId
  }

  predicate RunsHere(cfg: Config, r: Request) {
    r.RunPod? && GetRemoteRuntime(cfg.remotes, r.handler) == Local
  }

  /** Running a local pod ends as its network set-up and then the adapter do. On an error no
      record of the pod stays, neither in the pool nor in the file; when the process ends,
      the record of a pod that is not ready stays in the file. */
  lemma FailedRunLeavesNoRecord(cfg: Config, w: World, r: Request)
    requires RunsHere(cfg, r)
    ensures var o, id := Exec(cfg, w, r), LocalId(r);
            var end := RunEnd(cfg, id, r.net, r.adapter);
            && (o.reply.DoneId? <==> end == Returns) && (o.reply == Crashed <==> end == Dies)
            && (id in o.world.files.pods <==> end == Returns || end == Dies)
            && (end == Dies ==> o.world.files.pods[id] == NewPod(id, r.handler))
            && (end != Dies ==> (id in o.world.pods <==> end == Returns))
  {
    var id := LocalId(r);
    RunLocallyShape(cfg, w, id, r);
    var o := RunLocally(cfg, w, id, r.handler, r.net, r.logPath, r.adapter);
    if |o.writes| == 2 {
      assert o.writes == [o.writes[0], o.writes[1]];
      TwoWrites(w.files, o.writes[0], o.writes[1]);
    } else {
      assert o.writes == [o.writes[0]];
      OneWrite(w.files, o.writes[0]);
    }
    RecordsOfRun(cfg, w, id, r);
  }

  /** The calls that running a local pod makes, in their order: those of its set-up, if there
      is a plug-in, and that of the adapter. It replies as they end, unless its set-up returns
      an error and one of the clean-ups then ends the process. */
  lemma RunRepliesAsItsCallsEnd(cfg: Config, w: World, r: Request) returns (end: CallEnd)
    requires RunsHere(cfg, r)
    ensures var s := SetupOf(LocalId(r), r.net);
            EndsAs((if cfg.netPlugin then StepEnds(s) else []) + [r.adapter], end)
            && Exec(cfg, w, r).reply ==
               if cfg.netPlugin && Forward(s).end.Errs? && SomeDies(Cleanups(s), r.net) then Crashed
               else match end case Returns => DoneId(LocalId(r)) case Errs(fault) => Failed(fault) case Dies => Crashed
  {
    var s := SetupOf(LocalId(r), r.net);
    RecordsOfRun(cfg, w, LocalId(r), r);
    var ends := (if cfg.netPlugin then StepEnds(s) else []) + [r.adapter];
    assert ends[|ends| - 1] == r.adapter;
    end := r.adapter;
    if cfg.netPlugin {
      SetupEndsAsItsCalls(s);
      assert forall k :: 0 <= k < |StepEnds(s)| ==> ends[k] == StepEnds(s)[k];
      if Forward(s).end != Returns {
        end := Forward(s).end;
      }
    }
  }

  lemma RecordsOfRun(cfg: Config, w: World, id: string, r: Request)
    requires RunsHere(cfg, r)
    ensures var o := RunLocally(cfg, w, id, r.handler, r.net, r.logPath, r.adapter);
            && o.world.files == Replay(w.files, o.writes)
            && match RunEnd(cfg, id, r.net, r.adapter)
               case Returns => o.reply == DoneId(id) && |o.writes| == 2 && o.writes[1].PutPod? && id in o.world.pods
               case Errs(fault) => o.reply == Failed(fault) && |o.writes| == 2 && o.writes[1].DeletePod? &&
                 id !in o.world.pods
               case Dies => o.reply == Crashed && o.writes == [PutPod(id, NewPod(id, r.handler))]
  {
  }

  /** When a namespace object comes back without a namespace, the process ends, and the
      record of the pod stays in the file. */
  lemma HollowNamespaceCrashes(cfg: Config, w: World, r: Request)
    requires RunsHere(cfg, r) && cfg.netPlugin && r.net.podMode && r.net.namespace == Hollow
    ensures Exec(cfg, w, r).reply == Crashed && LocalId(r) in Exec(cfg, w, r).world.files.pods
  {
    FailedRunLeavesNoRecord(cfg, w, r);
  }

  /** What running a pod leaves on a host, when it returns an error and every clean-up
      succeeds: nothing new without a network plug-in; the attachment when reading the pod
      address failed; and everything that was set up when the adapter failed afterwards,
      because the clean-ups belong to the set-up and only the record is dropped. A failing
      set-up also takes away what it had acquired and the pod held from an earlier run, and
      when it fails in its directory, the root directory with all that is in it. */
  lemma FailedRunHolds(cfg: Config, w: World, r: Request, before: set<Resource>)
    requires RunsHere(cfg, r) && Exec(cfg, w, r).reply.Failed? && CleanupsSucceed(r.net)
    ensures var s := SetupOf(LocalId(r), r.net);
            Held(before, RunActions(cfg, LocalId(r), r.net)) ==
            if !cfg.netPlugin then before
            else if Forward(s).end == Returns then
              before + {Directory(ROOT)} + (if r.net.podMode then {NamespaceOf(s), Attachment(s.pod)} else {})
            else
              (set x | x in before && x !in Forward(s).deferred &&
                       !(FailsInDirectory(s) && Removes(Directory(ROOT), x)))
              + (if FailsAtAddress(s) then {Attachment(s.pod)} else {})
  {
    var s := SetupOf(LocalId(r), r.net);
    NoPathMeansRoot();
    FailedRunLeavesNoRecord(cfg, w, r);
    if cfg.netPlugin {
      if Forward(s).end == Returns {
        SuccessfulSetupHolds(before, s);
      } else {
        FailedSetupLeaks(before, s);
      }
    }
  }

  /** One pod whose set-up fails in its directory destroys the directory of a pod that runs,
      although it leaves that pod's namespace and attachment alone: all pods share the root,
      because no pod's namespace path is ever recorded. */
  lemma FailedRunDestroysSharedDirectory(cfg: Config, before: set<Resource>, a: string, forA: NetworkCalls, b: string,
                                         forB: NetworkCalls)
    requires cfg.netPlugin && a != b && forA.podMode
    requires var s, t := SetupOf(a, forA), SetupOf(b, forB);
             && Forward(s).end == Returns && NamespaceOf(t) != NamespaceOf(s)
             && FailsInDirectory(t) && forB.directoryRemoval == Returns
    ensures var s := SetupOf(a, forA);
            var held := Held(before, RunActions(cfg, a, forA) + RunActions(cfg, b, forB));
            NamespaceOf(s) in held && Attachment(a) in held && Directory(ROOT) !in held
  {
    var s, t := SetupOf(a, forA), SetupOf(b, forB);
    NoPathMeansRoot();
    HeldAppend(before, SetupActions(s), SetupActions(t));
    SuccessfulSetupHolds(before, s);
    var running := Held(before, SetupActions(s));
    OthersKeepTheirNetworks(running, t, NamespaceOf(s));
    OthersKeepTheirNetworks(running, t, Attachment(a));
    DirectoryDestroyedExactlyWhen(running, t, ROOT);
  }

  /** Stopping a pod never tears its network down: in every reachable state the outcome is
      the same however the tear-down would have ended. */
  lemma StopNeverTearsDown(cfg: Config, es: seq<Event>, r: Request, teardown: CallEnd)
    requires Run(cfg, EMPTY, es) && r.StopPod?
    ensures Exec(cfg, After(cfg, EMPTY, es), r) == Exec(cfg, After(cfg, EMPTY, es), r.(teardown := teardown))
  {
    NoPathIsEverSet(cfg, EMPTY, es);
  }

  // ---- the host over runs ----

  /** What an event may do to the host. A set-up in which the process ends stops anywhere; a
      tear-down, where there is a path to tear down, may do anything. */
  predicate HostDoes(cfg: Config, w: World, e: Event, actions: seq<Action>) {
    if RunsHere(cfg, e.r) then
      var all := RunActions(cfg, LocalId(e.r), e.r.net);
      if e.Handled? then actions == all else actions <= all
    else
      actions == [] || (e.r.StopPod? && e.r.id in w.pods && w.pods[e.r.id].info.netNSPath != "")
  }

  /** A run with what each of its events does to the host. */
  predicate HostRuns(cfg: Config, w: World, es: seq<Event>, done: seq<seq<Action>>)
    decreases |es|
  {
    |done| == |es|
    && (es != [] ==>
          && Possible(cfg, w, es[0]) && HostDoes(cfg, w, es[0], done[0])
          && HostRuns(cfg, Next(cfg, w, es[0]), es[1..], done[1..]))
  }

  function Flat(done: seq<seq<Action>>): seq<Action> {
    if done == [] then [] else done[0] + Flat(done[1..])
  }

  /** No event of the run sets up a pod that would touch the resource. */
  predicate LeavesAlone(cfg: Config, es: seq<Event>, x: Resource) {
    forall i :: 0 <= i < |es| && RunsHere(cfg, es[i].r) ==>
      x != NamespaceOf(SetupOf(LocalId(es[i].r), es[i].r.net)) && x != Attachment(LocalId(es[i].r))
  }

  predicate Harmless(actions: seq<Action>, x: Resource) {
    forall i :: 0 <= i < |actions| && actions[i].Undone? ==> !Removes(actions[i].resource, x)
  }

  lemma {:induction false} HarmlessKeeps(before: set<Resource>, actions: seq<Action>, x: Resource)
    requires Harmless(actions, x) && x in before
    ensures x in Held(before, actions)
    decreases |actions|
  {
    if actions != [] {
      assert actions[0].Undone? ==> !Removes(actions[0].resource, x);
      assert Harmless(actions[1..], x);
      HarmlessKeeps(Step(before, actions[0]), actions[1..], x);
    }
  }

  lemma SetupIsHarmless(s: Setup, x: Resource)
    requires !x.Directory? && x != NamespaceOf(s) && x != Attachment(s.pod)
    ensures Harmless(SetupActions(s), x)
  {
    var acquired, rs := Forward(s).acquired, Cleanups(s);
    OwnSteps(s, x);
    forall r | r in rs ensures !Removes(r, x) {
      AttemptedIn(Forward(s).deferred, s.calls, r);
    }
    forall i | 0 <= i < |SetupActions(s)| && SetupActions(s)[i].Undone?
      ensures !Removes(SetupActions(s)[i].resource, x)
    {
      assert SetupActions(s)[i].resource == rs[i - |acquired|];
    }
  }

  lemma EventIsHarmless(cfg: Config, w: World, e: Event, actions: seq<Action>, x: Resource)
    requires NoPaths(w) && HostDoes(cfg, w, e, actions) && !x.Directory?
    requires RunsHere(cfg, e.r) ==>
               x != NamespaceOf(SetupOf(LocalId(e.r), e.r.net)) && x != Attachment(LocalId(e.r))
    ensures Harmless(actions, x)
  {
    if RunsHere(cfg, e.r) {
      SetupIsHarmless(SetupOf(LocalId(e.r), e.r.net), x);
    }
  }

  /** Over every run, crashes and stopped and removed pods included, a namespace or attachment
      that the host holds stays held, unless a later set-up opens the same path or is for the
      same pod: nothing else ever releases it. */
  lemma {:induction false} NetworksOutliveRuns(cfg: Config, w: World, es: seq<Event>, done: seq<seq<Action>>,
                                               before: set<Resource>, x: Resource)
    requires NoPaths(w) && HostRuns(cfg, w, es, done) && !x.Directory? && x in before && LeavesAlone(cfg, es, x)
    ensures x in Held(before, Flat(done))
    decreases |es|
  {
    if es != [] {
      EventIsHarmless(cfg, w, es[0], done[0], x);
      HarmlessKeeps(before, done[0], x);
      NextSetsNoPath(cfg, w, es[0]);
      HeldAppend(before, done[0], Flat(done[1..]));
      NetworksOutliveRuns(cfg, Next(cfg, w, es[0]), es[1..], done[1..], Held(before, done[0]), x);
    }
  }

  /** So the network of a pod that a run from an empty service sets up with success stays on
      the host over every later run that does not set up the same path or the same pod. */
  lemma SuccessfulRunStaysHeld(cfg: Config, es: seq<Event>, r: Request, later: seq<Event>, done: seq<seq<Action>>,
                               before: set<Resource>)
    requires Run(cfg, EMPTY, es) && RunsHere(cfg, r) && cfg.netPlugin && r.net.podMode
    requires Exec(cfg, After(cfg, EMPTY, es), r).reply.DoneId?
    requires HostRuns(cfg, Exec(cfg, After(cfg, EMPTY, es), r).world, later, done)
    requires var s := SetupOf(LocalId(r), r.net);
             LeavesAlone(cfg, later, NamespaceOf(s)) && LeavesAlone(cfg, later, Attachment(LocalId(r)))
    ensures var held := Held(before, RunActions(cfg, LocalId(r), r.net) + Flat(done));
            NamespaceOf(SetupOf(LocalId(r), r.net)) in held && Attachment(LocalId(r)) in held
  {
    var w, s := After(cfg, EMPTY, es), SetupOf(LocalId(r), r.net);
    NoPathIsEverSet(cfg, EMPTY, es);
    FailedRunLeavesNoRecord(cfg, w, r);
    SuccessfulSetupHolds(before, s);
    NextSetsNoPath(cfg, w, Handled(r));
    var held := Held(before, SetupActions(s));
    HeldAppend(before, SetupActions(s), Flat(done));
    NetworksOutliveRuns(cfg, Exec(cfg, w, r).world, later, done, held, NamespaceOf(s));
    NetworksOutliveRuns(cfg, Exec(cfg, w, r).world, later, done, held, Attachment(LocalId(r)));
  }

  // ---- stopping and removing ----

  /** A local pod that was stopped and then asked for its status can be removed exactly when
      there is a network plug-in: without one the status request marks it ready again. */
  lemma StoppedPodRemovableExactlyWhen(cfg: Config, w: World, stop: Request, status: Request, remove: Request)
    requires Inv(cfg, w) && stop.StopPod? && status.PodStatus? && remove.RemovePod?
    requires stop.id == status.id == remove.id && stop.id in w.pods
    requires GetRemoteRuntime(cfg.remotes, w.pods[stop.id].info.handler) == Local
    requires Exec(cfg, w, stop).reply == Done && remove.adapter == Returns
    requires Exec(cfg, Exec(cfg, w, stop).world, status).reply != Crashed
    ensures var stopped := Exec(cfg, w, stop).world;
            var seen := Exec(cfg, stopped, status).world;
            Exec(cfg, seen, remove).reply == Done <==> cfg.netPlugin
  {
  }

  /** The state in the file lags behind the pool exactly when a local status request marks
      a pod ready that was stored otherwise; every other request stores the state it sets. */
  lemma StatusLagsExactlyWhen(cfg: Config, w: World, r: Request)
    requires Inv(cfg, w) && r.PodStatus? && r.id in w.pods
    ensures var o := Exec(cfg, w, r);
            && o.world.files == w.files && r.id in o.world.pods
            && (o.world.pods[r.id].info.state != w.pods[r.id].info.state <==>
                  && GetRemoteRuntime(cfg.remotes, w.pods[r.id].info.handler) == Local
                  && (w.pods[r.id].info.ip != "" || !cfg.netPlugin) && w.pods[r.id].info.state == NOTREADY)
  {
  }
}
