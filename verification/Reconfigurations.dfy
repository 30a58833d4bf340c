/** Restarts with other remotes configured: which changes of the configuration make the
    listing of containers meet a record without an image. */
module Reconfigurations {
  import opened Records
  import opened Persistence
  import opened RemoteRuntimes
  import opened Slurm
  import opened Lifecycle
  import opened Requests
  import opened Runs
  import opened Histories
  import opened Listings
  import opened Scenarios

  // ---- records without an image ----

  /** A record that the listing may convert under either name: without an image it belongs to
      no pod of the service's own handler, and to one of the empty handler only if a default
      remote was configured at some time. */
  predicate Imaged(c: Container, defaulted: bool) {
    c.image.Some? || (c.pod.handler != HANDLER && (c.pod.handler == "" ==> defaulted))
  }

  predicate AllImaged(containers: map<string, Container>, defaulted: bool) {
    forall k :: k in containers ==> Imaged(containers[k], defaulted)
  }

  predicate WorldImaged(w: World, defaulted: bool) {
    AllImaged(w.containers, defaulted) && AllImaged(w.files.containers, defaulted)
  }

  predicate PutsImaged(ws: seq<Write>, defaulted: bool) {
    forall i :: 0 <= i < |ws| && ws[i].PutContainer? ==> Imaged(ws[i].container, defaulted)
  }

  /** What a request does to the containers and writes of them. */
  predicate KeepsImaged(o: Outcome, defaulted: bool) {
    AllImaged(o.world.containers, defaulted) && PutsImaged(o.writes, defaulted)
  }

  lemma {:induction false} ReplayImaged(f: Files, ws: seq<Write>, k: nat, defaulted: bool)
    requires k <= |ws| && PutsImaged(ws, defaulted) && AllImaged(f.containers, defaulted)
    ensures AllImaged(Replay(f, ws[..k]).containers, defaulted)
    decreases k
  {
    if k > 0 {
      assert ws[..k][1..] == ws[1..][..k - 1];
      ReplayImaged(Apply(f, ws[0]), ws[1..], k - 1, defaulted);
    }
  }

  lemma CreateImaged(cfg: Config, w: World, r: Request, defaulted: bool)
    requires WorldImaged(w, defaulted) && (DEFAULT in cfg.remotes ==> defaulted) && r.Create?
    ensures KeepsImaged(Exec(cfg, w, r), defaulted)
  {
  }

  lemma StartImaged(cfg: Config, w: World, r: Request, defaulted: bool)
    requires WorldImaged(w, defaulted) && r.Start?
    ensures KeepsImaged(Exec(cfg, w, r), defaulted)
  {
  }

  lemma StopImaged(cfg: Config, w: World, r: Request, defaulted: bool)
    requires WorldImaged(w, defaulted) && r.Stop?
    ensures KeepsImaged(Exec(cfg, w, r), defaulted)
  {
  }

  lemma StatusImaged(cfg: Config, w: World, r: Request, defaulted: bool)
    requires WorldImaged(w, defaulted) && r.Status?
    ensures KeepsImaged(Exec(cfg, w, r), defaulted)
  {
    if r.id in w.containers {
      var c := w.containers[r.id];
      StatusShape(cfg, w, c, r.remote, r.answer);
      EvolvedKeepsIdentity(cfg, c, Status(c.id, r.remote, r.answer));
    }
  }

  lemma RequestImaged(cfg: Config, w: World, r: Request, defaulted: bool)
    requires WorldImaged(w, defaulted) && (DEFAULT in cfg.remotes ==> defaulted)
    ensures KeepsImaged(Exec(cfg, w, r), defaulted)
  {
    if r.Create? {
      CreateImaged(cfg, w, r, defaulted);
    } else if r.Start? {
      StartImaged(cfg, w, r, defaulted);
    } else if r.Stop? {
      StopImaged(cfg, w, r, defaulted);
    } else if r.Status? {
      StatusImaged(cfg, w, r, defaulted);
    } else {
      OthersSpareContainers(cfg, w, r);
    }
  }

  lemma NextImaged(cfg: Config, w: World, e: Event, defaulted: bool)
    requires WorldImaged(w, defaulted) && (DEFAULT in cfg.remotes ==> defaulted) && Possible(cfg, w, e)
    ensures WorldImaged(Next(cfg, w, e), defaulted)
  {
    var ws := Exec(cfg, w, e.r).writes;
    RequestImaged(cfg, w, e.r, defaulted);
    ReplayImaged(w.files, ws, if e.Handled? then |ws| else e.k, defaulted);
    assert ws[..|ws|] == ws;
    FilesReplayed(cfg, w, e.r);
  }

  lemma {:induction false} RunImaged(cfg: Config, w: World, es: seq<Event>, defaulted: bool)
    requires WorldImaged(w, defaulted) && (DEFAULT in cfg.remotes ==> defaulted) && Run(cfg, w, es)
    ensures WorldImaged(After(cfg, w, es), defaulted)
    decreases |es|
  {
    if es != [] {
      NextImaged(cfg, w, es[0], defaulted);
      RunImaged(cfg, Next(cfg, w, es[0]), es[1..], defaulted);
    }
  }

  // ---- one configuration after another ----

  /** What happens under one configuration; the end is a restart. */
  datatype Era = Era(cfg: Config, es: seq<Event>, reopen: map<string, string>)

  predicate Eras(w: World, eras: seq<Era>)
    decreases |eras|
  {
    eras != [] ==> Run(eras[0].cfg, w, eras[0].es) && Eras(EraEnd(w, eras[0]), eras[1..])
  }

  function EraEnd(w: World, e: Era): World
    requires Run(e.cfg, w, e.es)
  {
    Restart(After(e.cfg, w, e.es).files, e.reopen)
  }

  function AfterEras(w: World, eras: seq<Era>): World
    requires Eras(w, eras)
    decreases |eras|
  {
    if eras == [] then w else AfterEras(EraEnd(w, eras[0]), eras[1..])
  }

  predicate Under(eras: seq<Era>, cfgs: seq<Config>) {
    |eras| == |cfgs| && forall i :: 0 <= i < |eras| ==> eras[i].cfg == cfgs[i]
  }

  predicate HadDefault(cfgs: seq<Config>) {
    exists i :: 0 <= i < |cfgs| && DEFAULT in cfgs[i].remotes
  }

  lemma {:induction false} ErasImaged(w: World, eras: seq<Era>, cfgs: seq<Config>, defaulted: bool)
    requires WorldImaged(w, defaulted) && Eras(w, eras) && Under(eras, cfgs) && (HadDefault(cfgs) ==> defaulted)
    ensures WorldImaged(AfterEras(w, eras), defaulted)
    decreases |eras|
  {
    if eras != [] {
      RunImaged(eras[0].cfg, w, eras[0].es, defaulted);
      assert HadDefault(cfgs[1..]) ==> HadDefault(cfgs);
      ErasImaged(EraEnd(w, eras[0]), eras[1..], cfgs[1..], defaulted);
    }
  }

  /** Whatever happened under the configurations, listing meets no record without an image
      under the one in force. */
  ghost predicate ListsSafelyAfter(cfgs: seq<Config>, now: Config) {
    forall eras, es :: Eras(EMPTY, eras) && Under(eras, cfgs) && Run(now, AfterEras(EMPTY, eras), es) ==>
      ListsSafely(After(now, AfterEras(EMPTY, eras), es).containers, MulticriRuntimeName(now.remotes))
  }

  // ---- a run that leaves a record without an image ----

  predicate HasBare(w: World) {
    exists c :: c in w.files.containers && w.files.containers[c].image.None? && w.files.containers[c].pod.handler == ""
  }

  /** Restarts alone keep the container file. */
  lemma {:induction false} IdleEras(w: World, cfgs: seq<Config>) returns (eras: seq<Era>)
    requires HasBare(w) && w.containers == w.files.containers
    ensures Eras(w, eras) && Under(eras, cfgs)
    ensures var end := AfterEras(w, eras); HasBare(end) && end.containers == end.files.containers
    decreases |cfgs|
  {
    if cfgs == [] {
      eras := [];
    } else {
      var idle := Era(cfgs[0], [], map[]);
      var rest := IdleEras(EraEnd(w, idle), cfgs[1..]);
      eras := [idle] + rest;
      assert eras[1..] == rest;
    }
  }

  /** The default remote makes a container of a pod of the empty handler. */
  lemma MakeBare(cfg: Config) returns (e: Era)
    requires DEFAULT in cfg.remotes
    ensures e.cfg == cfg && Run(cfg, EMPTY, e.es)
    ensures var end := EraEnd(EMPTY, e); HasBare(end) && end.containers == end.files.containers
  {
    var es := ReachRemoteContainer(cfg, Ids("pod", "container"), "");
    e := Era(cfg, es, map[]);
    EmptyIsGood(cfg);
    RunKeepsInvariant(cfg, EMPTY, es);
    assert "container" in EraEnd(EMPTY, e).files.containers;
  }

  /** Under configurations one of which has a default remote, a container that the default
      remote made stays. */
  lemma {:induction false} ReachBare(w: World, cfgs: seq<Config>) returns (eras: seq<Era>)
    requires HadDefault(cfgs) && w == EMPTY
    ensures Eras(w, eras) && Under(eras, cfgs)
    ensures var end := AfterEras(w, eras); HasBare(end) && end.containers == end.files.containers
    decreases |cfgs|
  {
    var first, rest;
    if DEFAULT in cfgs[0].remotes {
      first := MakeBare(cfgs[0]);
      rest := IdleEras(EraEnd(w, first), cfgs[1..]);
    } else {
      var i :| 0 <= i < |cfgs| && DEFAULT in cfgs[i].remotes;
      assert cfgs[1..][i - 1] == cfgs[i];
      first := Era(cfgs[0], [], map[]);
      rest := ReachBare(EraEnd(w, first), cfgs[1..]);
    }
    eras := [first] + rest;
    assert eras[1..] == rest;
  }

  /** A status request that the service serves itself ends the process when the record has no
      image, after it has saved the record as exited. */
  lemma BareStatusCrashes(cfg: Config, w: World, r: Request)
    requires r.Status? && r.id in w.containers && w.containers[r.id].id == r.id && w.containers[r.id].image.None?
    requires Belongs(cfg.remotes, w.containers[r.id].pod.handler, Local)
    requires !w.containers[r.id].credentials
    ensures var o := Exec(cfg, w, r);
            && o.reply == Crashed
            && r.id in o.world.files.containers && o.world.files.containers[r.id].state == EXITED
  {
    RoutesExactlyWhen(cfg.remotes, w.containers[r.id].pod.handler, Local);
    var c := w.containers[r.id];
    OneWrite(w.files, PutContainer(c.id, Observed(c, r.answer)));
  }

  /** So after a restart without any remote, where there was a default one, a status request for
      one of its containers ends the process, whatever the cluster answers. */
  lemma ReconfiguredStatusCrashes(cfg: Config, now: Config, remote: Answer, answer: StatusAnswer)
    returns (e: Era, id: string)
    requires DEFAULT in cfg.remotes && now.remotes == map[]
    ensures e.cfg == cfg && Run(cfg, EMPTY, e.es)
    ensures Exec(now, EraEnd(EMPTY, e), Status(id, remote, answer)).reply == Crashed
  {
    var ids := Ids("pod", "container");
    var es := ReachRemoteContainer(cfg, ids, "");
    EmptyIsGood(cfg);
    RunKeepsInvariant(cfg, EMPTY, es);
    e, id := Era(cfg, es, map[]), ids.container;
    BareStatusCrashes(now, EraEnd(EMPTY, e), Status(id, remote, answer));
  }

  lemma ListingSafe(cfgs: seq<Config>, now: Config, eras: seq<Era>, es: seq<Event>)
    requires Eras(EMPTY, eras) && Under(eras, cfgs) && Run(now, AfterEras(EMPTY, eras), es)
    requires HadDefault(cfgs) ==> DEFAULT in now.remotes
    ensures ListsSafely(After(now, AfterEras(EMPTY, eras), es).containers, MulticriRuntimeName(now.remotes))
  {
    var defaulted := DEFAULT in now.remotes;
    ErasImaged(EMPTY, eras, cfgs, defaulted);
    RunImaged(now, AfterEras(EMPTY, eras), es, defaulted);
  }

  /** Over any sequence of restarts, each with another configuration, listing containers never
      dereferences a missing image if and only if a default remote that was configured at some
      time still is. */
  lemma ReconfigurationKeepsListingSafeExactlyWhen(cfgs: seq<Config>, now: Config)
    ensures ListsSafelyAfter(cfgs, now) <==> (HadDefault(cfgs) ==> DEFAULT in now.remotes)
  {
    if HadDefault(cfgs) && DEFAULT !in now.remotes {
      var eras := ReachBare(EMPTY, cfgs);
      var end := AfterEras(EMPTY, eras);
      assert Run(now, end, []) && After(now, end, []) == end;
      var c :| c in end.containers && end.containers[c].image.None? && end.containers[c].pod.handler == "";
      assert !ListsSafely(After(now, end, []).containers, MulticriRuntimeName(now.remotes));
    } else {
      forall eras, es | Eras(EMPTY, eras) && Under(eras, cfgs) && Run(now, AfterEras(EMPTY, eras), es)
        ensures ListsSafely(After(now, AfterEras(EMPTY, eras), es).containers, MulticriRuntimeName(now.remotes))
      {
        ListingSafe(cfgs, now, eras, es);
      }
    }
  }
}
