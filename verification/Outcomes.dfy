/** The outcomes of the handlers spelled out: the worlds one write after another, which is
    how the shared objects reach them. */
module Outcomes {
  import opened Records
  import opened Persistence
  import opened RemoteRuntimes
  import opened ImageNames
  import opened PodNetwork
  import opened Slurm
  import opened Lifecycle
  import opened Requests

  // ---- putting and appending ----

  /** Maps that agree but for one key agree once it is put. */
  lemma PutAgree<V>(m: map<string, V>, n: map<string, V>, k: string, v: V)
    requires m.Keys == n.Keys && forall j :: j in m && j != k ==> m[j] == n[j]
    ensures m[k := v] == n[k := v]
  {
    assert forall j :: j in m <==> j in m.Keys;
  }

  lemma AppendMarks(a: seq<Mark>, b: seq<Mark>, c: seq<Mark>)
    ensures a + b + c == a + (b + c)
  {
  }

  lemma AppendTwo(ws: seq<Write>, a: Write, b: Write)
    ensures ws + [a] + [b] == ws + [a, b]
  {
  }

  lemma AppendFour(ws: seq<Write>, a: Write, b: Write, c: Write, d: Write)
    ensures ws + [a] + [b] + [c] + [d] == ws + [a, b, c, d]
  {
  }

  // ---- containers ----

  lemma SaveIs(w: World, c: Container, reply: Reply, marks: seq<Mark>)
    ensures Save(w, c, reply, marks) == Outcome(WithContainer(w, c), reply, [PutContainer(c.id, c)], marks)
  {
    OneWrite(w.files, PutContainer(c.id, c));
  }

  lemma StatusLocallyIs(w: World, c: Container, answer: StatusAnswer, seen: Container, broken: bool)
    requires Sighted(c, answer, seen, broken)
    ensures StatusLocally(w, c, answer) ==
            if broken then Still(w, Crashed, [Sent(StatusOp, c.id, Local)])
            else Save(w, seen, if seen.image.Some? then Done else Crashed, Sightings(c, seen))
  {
  }

  lemma CreateRemotelyIs(cfg: Config, w: World, p: Pod, id: string)
    ensures var c, joined := NewContainer(id, "", p.info, None, false, 0), Joined(p, id);
            CreateRemotely(cfg, w, p, id) ==
            Outcome(WithPod(WithContainer(w, c), joined), DoneId(id), [PutContainer(id, c), PutPod(p.info.id, joined)],
                    SentTo(cfg.remotes, CreateOp, id, p.info.handler))
  {
    TwoWrites(w.files, PutContainer(id, NewContainer(id, "", p.info, None, false, 0)),
      PutPod(p.info.id, Joined(p, id)));
  }

  /** A container is stored and its image prepared. */
  function Prepared(w: World, k: string, c: Container, work: ImageWork): World
    requires k in w.images
  {
    WithContainer(w, c).(images := w.images[k := Worked(w.images[k], work)])
  }

  function Settled(w: World, p: Pod, i: Image, c: Container): World {
    WithPod(WithContainer(WithImage(w, i), c), Joined(p, c.id))
  }

  lemma CreateLocallyIs(w: World, p: Pod, k: string, c: Container, work: ImageWork)
    requires k in w.images
    ensures var i, joined := Worked(w.images[k], work), Joined(p, c.id);
            CreateLocally(w, p, k, c, work) ==
            if work.end != Returns then
              Outcome(Prepared(w, k, c, work), Broken(work.end), [PutContainer(c.id, c)], [Sent(CreateOp, c.id, Local)])
            else
              Outcome(Settled(Prepared(w, k, c, work), p, i, c), DoneId(c.id),
                      [PutContainer(c.id, c), PutImage(i.id, i), PutContainer(c.id, c), PutPod(joined.info.id, joined)],
                      [Sent(CreateOp, c.id, Local)])
  {
    var i, joined := Worked(w.images[k], work), Joined(p, c.id);
    OneWrite(w.files, PutContainer(c.id, c));
    FourWrites(w.files, [PutContainer(c.id, c), PutImage(i.id, i), PutContainer(c.id, c),
      PutPod(joined.info.id, joined)]);
    PutOver(w.containers, c.id, c, c);
  }

  // ---- pods ----

  lemma RunRemotelyIs(cfg: Config, w: World, remoteId: string, newId: string, handler: string)
    ensures var id := if remoteId != "" then remoteId else newId;
            var p := NewPod(id, handler);
            RunRemotely(cfg, w, remoteId, newId, handler) ==
            Outcome(WithPod(WithPod(w, p), p), DoneId(remoteId), [PutPod(id, p), PutPod(id, p)],
                    SentTo(cfg.remotes, RunOp, id, handler))
  {
    var id := if remoteId != "" then remoteId else newId;
    var p := NewPod(id, handler);
    TwoWrites(w.files, PutPod(id, p), PutPod(id, p));
    PutOver(w.pods, id, p, p);
  }

  lemma RunLocallyIs(cfg: Config, w: World, id: string, handler: string, net: NetworkCalls, logPath: string,
                     adapter: CallEnd)
    ensures var p := NewPod(id, handler);
            var ready := SetUpPod(cfg, p, net, logPath);
            RunLocally(cfg, w, id, handler, net, logPath, adapter) ==
            match RunEnd(cfg, id, net, adapter)
            case Errs(e) => Outcome(WithoutPod(WithPod(w, p), id), Failed(e), [PutPod(id, p), DeletePod(id)], [])
            case Dies => Outcome(WithPod(w, p), Crashed, [PutPod(id, p)], [])
            case Returns =>
              Outcome(WithPod(WithPod(w, p), ready), DoneId(id), [PutPod(id, p), PutPod(id, ready)],
                [Sent(RunOp, id, Local)])
  {
    var p := NewPod(id, handler);
    var ready := SetUpPod(cfg, p, net, logPath);
    SamePods(w, p, w.(pods := w.pods - {id}, files := Replay(w.files, [PutPod(id, p), DeletePod(id)])));
    OneWrite(w.files, PutPod(id, p));
    TwoWrites(w.files, PutPod(id, p), PutPod(id, ready));
    PutOver(w.pods, id, p, ready);
  }

  // ---- images ----

  lemma PullLocallyIs(cfg: Config, w: World, name: string, newId: string, work: ImageWork)
    ensures var created := NewImage(cfg, newId, name);
            PullLocally(cfg, w, name, newId, work) ==
            if ParseName(name).None? then
              Outcome(WithImage(w, created), Failed(ImageNotSupported), [PutImage(newId, created)], [])
            else
              var pulled := Worked(Parsed(created, ParseName(name).value), work);
              match work.end
              case Errs(e) =>
                Outcome(WithoutImage(WithImage(w, created), newId), Failed(e),
                        [PutImage(newId, created), DeleteImage(newId)], [])
              case Dies => Outcome(WithImage(w, created), Crashed, [PutImage(newId, created)], [])
              case Returns =>
                Outcome(WithImage(WithImage(w, created), pulled), DoneId(pulled.remotePath),
                        [PutImage(newId, created), PutImage(newId, pulled)], [])
  {
    var created := NewImage(cfg, newId, name);
    OneWrite(w.files, PutImage(newId, created));
    TwoWrites(w.files, PutImage(newId, created), DeleteImage(newId));
    if ParseName(name).Some? {
      var pulled := Worked(Parsed(created, ParseName(name).value), work);
      TwoWrites(w.files, PutImage(newId, created), PutImage(newId, pulled));
      PutOver(w.images, newId, created, pulled);
    }
  }
}
