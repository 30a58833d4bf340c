/** The three key/value files behind the stores, and what a restart reads back. */
module Persistence {
  import opened Records

  datatype Files = Files(containers: map<string, Container>, pods: map<string, Pod>, images: map<string, Image>)

  datatype Write =
    | PutContainer(id: string, container: Container)
    | PutPod(id: string, pod: Pod)
    | DeletePod(id: string)
    | PutImage(id: string, image: Image)
    | DeleteImage(id: string)

  function Apply(f: Files, w: Write): Files {
    match w
    case PutContainer(id, c) => f.(containers := f.containers[id := c])
    case PutPod(id, p) => f.(pods := f.pods[id := p])
    case DeletePod(id) => f.(pods := f.pods - {id})
    case PutImage(id, i) => f.(images := f.images[id := i])
    case DeleteImage(id) => f.(images := f.images - {id})
  }

  function Replay(f: Files, ws: seq<Write>): Files
    decreases |ws|
  {
    if ws == [] then f else Replay(Apply(f, ws[0]), ws[1..])
  }

  // ---- loading pods ----

  /** A pod record that a restart tries to resume. */
  predicate Resumable(p: Pod) {
    p.info.netNSPath != "" && p.info.state == READY
  }

  datatype LoadedPods = LoadedPods(pool: map<string, Pod>, stored: map<string, Pod>)

  function Reopened(p: Pod, path: string): Pod {
    p.(info := p.info.(netNSPath := path))
  }

  /** `reopen` gives the new namespace path of every record whose namespace opens again. */
  function LoadPods(stored: map<string, Pod>, reopen: map<string, string>): LoadedPods {
    LoadedPods(
      map k | k in stored && Resumable(stored[k]) && k in reopen :: Reopened(stored[k], reopen[k]),
      map k | k in stored && Resumable(stored[k]) :: if k in reopen then Reopened(stored[k], reopen[k]) else stored[k])
  }

  /** A restart resumes exactly the ready pods with a path whose namespace opens again, each
      with its new path and otherwise as stored; the file keeps exactly the ready pods with a
      path, so both hold the same keys exactly when no namespace fails to open. */
  lemma LoadKeepsExactly(stored: map<string, Pod>, reopen: map<string, string>)
    ensures var r := LoadPods(stored, reopen);
            && (forall k :: k in r.stored <==>
                  k in stored && stored[k].info.state == READY && stored[k].info.netNSPath != "")
            && (forall k :: k in r.pool <==> k in r.stored && k in reopen)
            && (forall k :: k in r.stored && k !in reopen ==> r.stored[k] == stored[k])
            && (forall k :: k in r.pool ==>
                  && r.stored[k] == r.pool[k] && r.pool[k].containers == stored[k].containers
                  && r.pool[k].info == stored[k].info.(netNSPath := reopen[k]))
            && (r.pool.Keys == r.stored.Keys <==> forall k :: k in stored && Resumable(stored[k]) ==> k in reopen)
  {
    var r := LoadPods(stored, reopen);
    if forall k :: k in stored && Resumable(stored[k]) ==> k in reopen {
      assert forall k :: k in r.stored.Keys ==> k in r.pool.Keys;
    } else {
      var k :| k in stored && Resumable(stored[k]) && k !in reopen;
      assert k in r.stored.Keys && k !in r.pool.Keys;
    }
  }

  /** A second restart with the same outcomes resumes the same pods exactly when no
      reopened namespace came back with an empty path. */
  lemma ReloadIsStableExactlyWhen(stored: map<string, Pod>, reopen: map<string, string>)
    ensures var first := LoadPods(stored, reopen);
            LoadPods(first.stored, reopen).pool.Keys == first.pool.Keys <==>
              forall k :: k in first.pool ==> reopen[k] != ""
  {
    var first := LoadPods(stored, reopen);
    var second := LoadPods(first.stored, reopen);
    if forall k :: k in first.pool ==> reopen[k] != "" {
      assert forall k :: k in first.pool.Keys <==> k in second.pool.Keys;
    } else {
      var k :| k in first.pool && reopen[k] == "";
      assert k in first.pool.Keys && k !in second.pool.Keys;
    }
  }
}
