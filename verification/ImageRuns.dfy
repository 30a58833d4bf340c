/** The image store: pulling, finding, removing and listing images. */
module ImageRuns {
  import opened Records
  import opened Persistence
  import opened RemoteRuntimes
  import opened ImageNames
  import opened Lifecycle
  import opened Requests
  import opened SliceDeletion
  import opened Runs
  import opened GoStrings
  import opened Outcomes

  // ---- pulling ----

  /** A lookup finds an entry, in any iteration order, exactly when the query is part of the id
      or the image name of some entry, or one of its tags or digests. */
  lemma LookupSucceedsExactlyWhen(images: map<string, Image>, query: string, order: seq<string>)
    requires Enumerates(order, images.Keys)
    ensures FindImage(images, query, order).Some? <==>
            exists k :: k in images && (Contains(k, query) || Contains(images[k].imageName, query)
                                        || query in images[k].repoTags || query in images[k].repoDigest)
  {
    FoundExactlyWhen(images, query, order);
    if k :| k in images && (Contains(k, query) || Contains(images[k].imageName, query)
                            || query in images[k].repoTags || query in images[k].repoDigest) {
      assert Matches(k, images[k], query);
    }
  }

  lemma {:induction false} FoundExactlyWhen(images: map<string, Image>, query: string, order: seq<string>)
    requires Enumerates(order, images.Keys)
    ensures FindImage(images, query, order).Some? <==> exists k :: k in images && Matches(k, images[k], query)
  {
    if k :| k in images && Matches(k, images[k], query) {
      assert k in order;
    }
  }

  /** No other entry matches the query. */
  predicate OnlyMatch(images: map<string, Image>, query: string, k: string) {
    forall j :: j in images && j != k ==> !Matches(j, images[j], query)
  }

  lemma {:induction false} OnlyMatchFound(images: map<string, Image>, query: string, order: seq<string>, k: string)
    requires k in order && k in images && Matches(k, images[k], query)
    requires OnlyMatch(images, query, k)
    ensures FindImage(images, query, order) == Some(k)
  {
    if order[0] != k {
      OnlyMatchFound(images, query, order[1..], k);
    }
  }

  lemma {:induction false} SomeOrder(keys: set<string>) returns (order: seq<string>)
    ensures Enumerates(order, keys)
    decreases |keys|
  {
    if keys == {} {
      order := [];
    } else {
      var k :| k in keys;
      var rest := SomeOrder(keys - {k});
      order := [k] + rest;
      assert forall j :: j in keys ==> j == k || j in rest;
    }
  }

  lemma OrderFrom(keys: set<string>, k: string) returns (order: seq<string>)
    requires k in keys
    ensures Enumerates(order, keys) && order != [] && order[0] == k
  {
    var rest := SomeOrder(keys - {k});
    order := [k] + rest;
    assert forall j :: j in keys ==> j == k || j in rest;
  }

  /** A lookup finds an entry in every iteration order exactly when it is the only match. */
  lemma FoundInEveryOrderExactlyWhen(images: map<string, Image>, query: string, k: string)
    requires k in images
    ensures (forall order :: Enumerates(order, images.Keys) ==> FindImage(images, query, order) == Some(k)) <==>
            Matches(k, images[k], query) && OnlyMatch(images, query, k)
  {
    if forall order :: Enumerates(order, images.Keys) ==> FindImage(images, query, order) == Some(k) {
      var order := SomeOrder(images.Keys);
      assert FindImage(images, query, order) == Some(k);
      forall j | j in images && j != k ensures !Matches(j, images[j], query) {
        var first := OrderFrom(images.Keys, j);
        assert FindImage(images, query, first) == Some(k);
      }
    }
    if Matches(k, images[k], query) && OnlyMatch(images, query, k) {
      forall order | Enumerates(order, images.Keys) ensures FindImage(images, query, order) == Some(k) {
        OnlyMatchFound(images, query, order, k);
      }
    }
  }

  /** The name a pull request asks the local adapter for. */
  function LocalName(cfg: Config, r: Request): string
    requires r.Pull? || r.DropImage?
  {
    ImageManager(cfg.remotes, r.image, r.names).image
  }

  predicate PullsLocally(cfg: Config, w: World, r: Request) {
    r.Pull? && FreshIds(w, r) && ImageManager(cfg.remotes, r.image, r.names).ServeLocally?
  }

  /** A local pull succeeds exactly for an accepted name that the adapter fetches. */
  lemma PullSucceedsExactlyWhen(cfg: Config, w: World, r: Request)
    requires PullsLocally(cfg, w, r)
    ensures Exec(cfg, w, r).reply.DoneId? <==> ParseName(LocalName(cfg, r)).Some? && r.work.end == Returns
    ensures var o := Exec(cfg, w, r);
            o.reply.DoneId? ==>
              && r.newId in o.world.images && o.world.images == w.images[r.newId := o.world.images[r.newId]]
              && o.reply.id == o.world.images[r.newId].remotePath == ParseName(LocalName(cfg, r)).value.remotePath
  {
  }

  /** The entry it stores, in the pool and in the file: the pull path is the scheme of the name's
      repository followed by the text after the last marker, and is also the tag and the reply;
      the whole name is the digest; the image name is that of the path; local path and size are
      what the adapter fetched. */
  lemma PulledEntry(cfg: Config, w: World, r: Request)
    requires PullsLocally(cfg, w, r) && Exec(cfg, w, r).reply.DoneId?
    ensures var o, name := Exec(cfg, w, r), LocalName(cfg, r);
            var repo := RepositoryOf(name);
            var rest := Last(Split(name, Marker(repo)));
            var path := Scheme(repo) + rest;
            var i := Image(r.newId, Split(Last(Split(rest, "/")), ":")[0], r.work.localPath, path, [path], [name],
                           r.work.size, repo);
            && repo != UnknownRepository && o.reply == DoneId(path)
            && o.world.images == w.images[r.newId := i] && o.world.files.images == w.files.images[r.newId := i]
  {
    var name := LocalName(cfg, r);
    PullLocallyIs(cfg, w, name, r.newId, r.work);
    var created := NewImage(cfg, r.newId, name);
    var pulled := Worked(Parsed(created, ParseName(name).value), r.work);
    PutOver(w.images, r.newId, created, pulled);
    PutOver(w.files.images, r.newId, created, pulled);
  }

  /** An image request that a remote serves replies with what the remote answers and changes
      nothing here. */
  lemma RemoteImagesLeaveNoTrace(cfg: Config, w: World, r: Request)
    requires (r.Pull? || r.DropImage?) && ImageManager(cfg.remotes, r.image, r.names).ServeRemotely?
    ensures var o := Exec(cfg, w, r);
            && o.world == w
            && match r.remote
               case Response(id) => o.reply == if r.Pull? then DoneId(id) else Done
               case Failure(fault) => o.reply == Failed(fault)
  {
  }

  /** It then adds exactly one entry; lookups by its name without the routing prefix and by the
      returned reference find an entry whatever the iteration order. */
  lemma PullAddsOneFindable(cfg: Config, w: World, r: Request, order: seq<string>)
    requires PullsLocally(cfg, w, r) && Exec(cfg, w, r).reply.DoneId?
    requires Enumerates(order, Exec(cfg, w, r).world.images.Keys)
    ensures var o := Exec(cfg, w, r);
            && o.world.images - {r.newId} == w.images && o.world.images.Keys == w.images.Keys + {r.newId}
            && FindImage(o.world.images, LocalName(cfg, r), order).Some?
            && FindImage(o.world.images, o.reply.id, order).Some?
  {
    var images := Exec(cfg, w, r).world.images;
    PullSucceedsExactlyWhen(cfg, w, r);
    PulledRecord(cfg, w, r);
    FoundExactlyWhen(images, LocalName(cfg, r), order);
    FoundExactlyWhen(images, Exec(cfg, w, r).reply.id, order);
    assert Matches(r.newId, images[r.newId], LocalName(cfg, r)) &&
      Matches(r.newId, images[r.newId], Exec(cfg, w, r).reply.id);
  }

  /** A pull that returns an error restores the pool and the file, except for a name of no
      repository: then the unparsed entry stays in both. */
  lemma FailedPullRestoresExactlyWhen(cfg: Config, w: World, r: Request)
    requires Inv(cfg, w) && PullsLocally(cfg, w, r) && Exec(cfg, w, r).reply.Failed?
    ensures var o := Exec(cfg, w, r);
            && (o.world.images == w.images && o.world.files.images == w.files.images <==>
                 ParseName(LocalName(cfg, r)).Some?)
            && (ParseName(LocalName(cfg, r)).None? ==>
                  o.world.images.Keys == o.world.files.images.Keys == w.images.Keys + {r.newId})
  {
    var created := NewImage(cfg, r.newId, LocalName(cfg, r));
    assert w.images.Keys == w.files.images.Keys;
    FailedPull(cfg, w, r);
    PutThenDelete(w.images, r.newId, created);
    PutThenDelete(w.files.images, r.newId, created);
  }

  lemma FailedPull(cfg: Config, w: World, r: Request)
    requires PullsLocally(cfg, w, r) && Exec(cfg, w, r).reply.Failed?
    ensures var o := Exec(cfg, w, r);
            var created := NewImage(cfg, r.newId, LocalName(cfg, r));
            var unparsed := ParseName(LocalName(cfg, r)).None?;
            && o.world.images == (if unparsed then w.images[r.newId := created]
              else w.images[r.newId := created] - {r.newId})
            && o.world.files.images ==
               (if unparsed then w.files.images[r.newId := created] else w.files.images[r.newId := created] - {r.newId})
  {
    PullLocallyIs(cfg, w, LocalName(cfg, r), r.newId, r.work);
  }

  lemma PutThenDelete(images: map<string, Image>, k: string, i: Image)
    requires k !in images
    ensures images[k := i] - {k} == images
    ensures images[k := i] != images && images[k := i].Keys == images.Keys + {k}
  {
    assert k in images[k := i];
  }

  /** A local removal succeeds exactly when the lookup finds an entry and the adapter removes it;
      otherwise no image changes. */
  lemma RemovalSucceedsExactlyWhen(cfg: Config, w: World, r: Request)
    requires r.DropImage? && ImageManager(cfg.remotes, r.image, r.names).ServeLocally?
    ensures var o, found := Exec(cfg, w, r), FindImage(w.images, LocalName(cfg, r), r.order);
            && (o.reply == Done <==> found.Some? && r.adapter == Returns)
            && (o.reply != Done ==> o.world == w)
            && (found.None? ==> o.reply == Failed(ImageNotFound))
            && (found.Some? && r.adapter.Errs? ==> o.reply == Failed(r.adapter.fault))
  {
  }

  /** A successful local removal takes out exactly one entry, and it matched the query. */
  lemma RemovalConserves(cfg: Config, w: World, r: Request)
    requires Inv(cfg, w) && r.DropImage? && ImageManager(cfg.remotes, r.image, r.names).ServeLocally?
    requires Exec(cfg, w, r).reply == Done
    ensures var o := Exec(cfg, w, r);
            exists k :: k in w.images && Matches(k, w.images[k], LocalName(cfg, r))
              && o.world.images == w.images - {k} && o.world.files.images == w.files.images - {k}
  {
    var k := RemovedEntry(cfg, w, r);
  }

  lemma RemovedEntry(cfg: Config, w: World, r: Request) returns (k: string)
    requires Inv(cfg, w) && r.DropImage? && ImageManager(cfg.remotes, r.image, r.names).ServeLocally?
    requires Exec(cfg, w, r).reply == Done
    ensures var o := Exec(cfg, w, r);
            && k in w.images && Matches(k, w.images[k], LocalName(cfg, r))
            && o.world.images == w.images - {k} && o.world.files.images == w.files.images - {k}
  {
    k := FindImage(w.images, LocalName(cfg, r), r.order).value;
    OneWrite(w.files, DeleteImage(k));
  }

  // ---- what an image record keeps ----

  /** Every write to an image's record changes at most its local path and size. */
  predicate PutsSameImage(ws: seq<Write>, k: string, i: Image) {
    forall n :: 0 <= n < |ws| && ws[n].PutImage? && ws[n].id == k ==> SameButWork(ws[n].image, i)
  }

  lemma {:induction false} PrefixImage(f: Files, ws: seq<Write>, n: nat, k: string, i: Image)
    requires n <= |ws| && PutsSameImage(ws, k, i) && (k in f.images ==> SameButWork(f.images[k], i))
    ensures var g := Replay(f, ws[..n]); k in g.images ==> SameButWork(g.images[k], i)
    decreases n
  {
    if n > 0 {
      assert ws[..n][1..] == ws[1..][..n - 1];
      PrefixImage(Apply(f, ws[0]), ws[1..], n - 1, k, i);
    }
  }

  predicate ImageEffect(cfg: Config, w: World, r: Request, k: string)
    requires k in w.images
  {
    var o := Exec(cfg, w, r);
    (k in o.world.images ==> SameButWork(o.world.images[k], w.images[k])) && PutsSameImage(o.writes, k, w.images[k])
  }

  lemma RunPodKeepsImages(cfg: Config, w: World, r: Request, k: string)
    requires k in w.images && r.RunPod?
    ensures ImageEffect(cfg, w, r, k)
  {
  }

  lemma PodsKeepImages(cfg: Config, w: World, r: Request, k: string)
    requires k in w.images && (r.StopPod? || r.PodStatus?)
    ensures ImageEffect(cfg, w, r, k)
  {
  }

  lemma RemovePodKeepsImages(cfg: Config, w: World, r: Request, k: string)
    requires k in w.images && r.RemovePod?
    ensures ImageEffect(cfg, w, r, k)
  {
  }

  lemma CreateKeepsImages(cfg: Config, w: World, r: Request, k: string)
    requires Inv(cfg, w) && k in w.images && r.Create?
    ensures ImageEffect(cfg, w, r, k)
  {
    if r.podId in w.pods {
      var p := w.pods[r.podId];
      match Dispatch(cfg.remotes, p.info.handler, r.remote)
      case Refused(_) =>
      case Answered(id) => CreateRemotelyKeepsImages(cfg, w, p, id, k);
      case NotRemote => CreateHereKeepsImages(w, p, r, k);
    }
  }

  lemma CreateRemotelyKeepsImages(cfg: Config, w: World, p: Pod, id: string, k: string)
    requires k in w.images
    ensures var o := CreateRemotely(cfg, w, p, id);
            o.world.images == w.images && PutsSameImage(o.writes, k, w.images[k])
  {
  }

  lemma CreateHereKeepsImages(w: World, p: Pod, r: Request, k: string)
    requires GoodImages(w.images) && k in w.images && r.Create?
    ensures var o := CreateHere(w, p, r.name, r.imageRef, r.credentials, r.newId, r.order, r.work, r.now);
            && (k in o.world.images ==> SameButWork(o.world.images[k], w.images[k]))
            && PutsSameImage(o.writes, k, w.images[k])
  {
    var found := FindImage(w.images, r.imageRef, r.order);
    if found.Some? {
      var c := NewContainer(r.newId, r.name, p.info, Some(w.images[found.value].id), r.credentials, r.now);
      CreateLocallyKeepsImages(w, p, found.value, c, r.work, k);
    }
  }

  lemma CreateLocallyKeepsImages(w: World, p: Pod, found: string, c: Container, work: ImageWork, k: string)
    requires GoodImages(w.images) && found in w.images && k in w.images
    ensures var o := CreateLocally(w, p, found, c, work);
            && k in o.world.images && SameButWork(o.world.images[k], w.images[k])
            && PutsSameImage(o.writes, k, w.images[k])
  {
  }

  lemma ContainersKeepImages(cfg: Config, w: World, r: Request, k: string)
    requires k in w.images && (r.Start? || r.Stop? || r.Status?)
    ensures ImageEffect(cfg, w, r, k)
  {
  }

  lemma RemoveKeepsImages(cfg: Config, w: World, r: Request, k: string)
    requires k in w.images && r.Remove?
    ensures ImageEffect(cfg, w, r, k)
  {
  }

  lemma PullKeepsImages(cfg: Config, w: World, r: Request, k: string)
    requires k in w.images && r.Pull? && FreshIds(w, r)
    ensures ImageEffect(cfg, w, r, k)
  {
    if PullsLocally(cfg, w, r) {
      PullLocallyKeepsImages(cfg, w, LocalName(cfg, r), r.newId, r.work, k);
    }
  }

  lemma PullLocallyKeepsImages(cfg: Config, w: World, name: string, newId: string, work: ImageWork, k: string)
    requires k in w.images && newId !in w.images
    ensures var o := PullLocally(cfg, w, name, newId, work);
            && k in o.world.images && o.world.images[k] == w.images[k]
            && forall n :: 0 <= n < |o.writes| ==> o.writes[n].id == newId
  {
  }

  lemma DropKeepsImages(cfg: Config, w: World, r: Request, k: string)
    requires k in w.images && r.DropImage?
    ensures ImageEffect(cfg, w, r, k)
  {
  }

  lemma ListingKeepsImages(cfg: Config, w: World, r: Request, k: string)
    requires Inv(cfg, w) && k in w.images && r.ListAll?
    ensures ImageEffect(cfg, w, r, k)
  {
    ListWritesDeleteImages(w.images, r.filter, r.order, r.present);
    ListedSubmap(w.images, r.filter, r.order, r.present);
  }

  lemma {:induction false} ListedSubmap(images: map<string, Image>, filter: string, order: seq<string>,
                                        present: set<string>)
    ensures var l := ListImages(images, filter, order, present).images;
            forall k :: k in l ==> k in images && l[k] == images[k]
    decreases |order|
  {
    if order != [] {
      ListedSubmap(images, filter, order[1..], present);
      if order[0] in images {
        ListedSubmap(images - {images[order[0]].id}, filter, order[1..], present);
      }
    }
  }

  lemma RequestKeepsImage(cfg: Config, w: World, r: Request, k: string)
    requires Inv(cfg, w) && FreshIds(w, r) && k in w.images
    ensures ImageEffect(cfg, w, r, k)
  {
    if r.RunPod? {
      RunPodKeepsImages(cfg, w, r, k);
    } else if r.RemovePod? {
      RemovePodKeepsImages(cfg, w, r, k);
    } else if r.StopPod? || r.PodStatus? {
      PodsKeepImages(cfg, w, r, k);
    } else if r.Create? {
      CreateKeepsImages(cfg, w, r, k);
    } else if r.Start? || r.Stop? || r.Status? {
      ContainersKeepImages(cfg, w, r, k);
    } else if r.Remove? {
      RemoveKeepsImages(cfg, w, r, k);
    } else if r.Pull? {
      PullKeepsImages(cfg, w, r, k);
    } else if r.DropImage? {
      DropKeepsImages(cfg, w, r, k);
    } else {
      ListingKeepsImages(cfg, w, r, k);
    }
  }

  lemma EventKeepsImage(cfg: Config, w: World, e: Event, k: string)
    requires Inv(cfg, w) && Possible(cfg, w, e) && k in w.images && k in Next(cfg, w, e).images
    ensures SameButWork(Next(cfg, w, e).images[k], w.images[k])
  {
    RequestKeepsImage(cfg, w, e.r, k);
    if e.CutOff? {
      PrefixImage(w.files, Exec(cfg, w, e.r).writes, e.k, k, w.images[k]);
    }
  }

  /** The image is never removed during the run. */
  predicate Stays(cfg: Config, w: World, es: seq<Event>, k: string)
    requires Run(cfg, w, es)
    decreases |es|
  {
    k in w.images && (es != [] ==> Stays(cfg, Next(cfg, w, es[0]), es[1..], k))
  }

  lemma {:induction false} ImagePersists(cfg: Config, w: World, es: seq<Event>, k: string)
    requires Inv(cfg, w) && Run(cfg, w, es) && Stays(cfg, w, es, k)
    ensures var end := After(cfg, w, es); k in end.images && SameButWork(end.images[k], w.images[k])
    decreases |es|
  {
    if es != [] {
      EventKeeps(cfg, w, es[0]);
      EventKeepsImage(cfg, w, es[0], k);
      ImagePersists(cfg, Next(cfg, w, es[0]), es[1..], k);
    }
  }

  /** After a successful local pull, and over every run until its entry is removed, crashes
      included, an image is found by its name and by the returned reference, and it is the
      pulled one if no other matches. */
  lemma PulledImageStaysFindable(cfg: Config, w: World, r: Request, es: seq<Event>, order: seq<string>)
    requires Inv(cfg, w) && PullsLocally(cfg, w, r) && Exec(cfg, w, r).reply.DoneId?
    requires Run(cfg, Exec(cfg, w, r).world, es) && Stays(cfg, Exec(cfg, w, r).world, es, r.newId)
    requires Enumerates(order, After(cfg, Exec(cfg, w, r).world, es).images.Keys)
    ensures var end := After(cfg, Exec(cfg, w, r).world, es);
            FindImage(end.images, LocalName(cfg, r), order).Some?
            && FindImage(end.images, Exec(cfg, w, r).reply.id, order).Some?
            && (OnlyMatch(end.images, LocalName(cfg, r), r.newId) ==>
                  FindImage(end.images, LocalName(cfg, r), order) == Some(r.newId))
            && (OnlyMatch(end.images, Exec(cfg, w, r).reply.id, r.newId) ==>
                  FindImage(end.images, Exec(cfg, w, r).reply.id, order) == Some(r.newId))
  {
    var pulled := Exec(cfg, w, r).world;
    PullKeeps(cfg, w, r);
    ImagePersists(cfg, pulled, es, r.newId);
    var end := After(cfg, pulled, es);
    var name, reference := LocalName(cfg, r), Exec(cfg, w, r).reply.id;
    PulledRecord(cfg, w, r);
    assert Matches(r.newId, end.images[r.newId], name) && Matches(r.newId, end.images[r.newId], reference);
    FoundExactlyWhen(end.images, name, order);
    FoundExactlyWhen(end.images, reference, order);
    if OnlyMatch(end.images, name, r.newId) {
      OnlyMatchFound(end.images, name, order, r.newId);
    }
    if OnlyMatch(end.images, reference, r.newId) {
      OnlyMatchFound(end.images, reference, order, r.newId);
    }
  }

  lemma PulledRecord(cfg: Config, w: World, r: Request)
    requires PullsLocally(cfg, w, r) && Exec(cfg, w, r).reply.DoneId?
    ensures var o := Exec(cfg, w, r);
            r.newId in o.world.images && o.reply.id in o.world.images[r.newId].repoTags
            && LocalName(cfg, r) in o.world.images[r.newId].repoDigest
  {
  }

  // ---- listing ----

  predicate Dropped(i: Image, filter: string, present: set<string>) {
    ImageFilter(i, filter) && i.localPath !in present
  }

  lemma {:induction false} ListingPool(images: map<string, Image>, filter: string, order: seq<string>,
                                       present: set<string>)
    requires GoodImages(images) && NoDuplicates(order)
    ensures var l := ListImages(images, filter, order, present);
            && (forall k :: k in l.images <==> k in images && !(k in order && Dropped(images[k], filter, present)))
            && (forall k :: k in l.images ==> l.images[k] == images[k])
    decreases |order|
  {
    if order != [] {
      var rest := if order[0] in images && Dropped(images[order[0]], filter, present) then images - {order[0]}
        else images;
      ListingPool(rest, filter, order[1..], present);
      assert order[0] !in order[1..];
      assert forall k :: k in order <==> k == order[0] || k in order[1..];
    }
  }

  lemma {:induction false} ListingResult(images: map<string, Image>, filter: string, order: seq<string>,
                                         present: set<string>, i: Image)
    requires GoodImages(images) && NoDuplicates(order)
    ensures i in ListImages(images, filter, order, present).listed <==>
            i.id in order && i.id in images && images[i.id] == i && ImageFilter(i, filter) && i.localPath in present
    decreases |order|
  {
    if order != [] {
      var rest := if order[0] in images && Dropped(images[order[0]], filter, present) then images - {order[0]}
        else images;
      ListingResult(rest, filter, order[1..], present, i);
      assert order[0] !in order[1..];
      assert i.id in order <==> i.id == order[0] || i.id in order[1..];
    }
  }

  predicate DistinctImages(listed: seq<Image>) {
    forall a, b :: 0 <= a < b < |listed| ==> listed[a].id != listed[b].id
  }

  lemma {:induction false} ListingOnce(images: map<string, Image>, filter: string, order: seq<string>,
                                       present: set<string>)
    requires GoodImages(images) && NoDuplicates(order)
    ensures DistinctImages(ListImages(images, filter, order, present).listed)
    decreases |order|
  {
    if order != [] {
      var rest := if order[0] in images && Dropped(images[order[0]], filter, present) then images - {order[0]}
        else images;
      ListingOnce(rest, filter, order[1..], present);
      var listed := ListImages(rest, filter, order[1..], present).listed;
      forall n | 0 <= n < |listed| ensures listed[n].id != order[0] {
        ListingResult(rest, filter, order[1..], present, listed[n]);
      }
    }
  }

  lemma {:induction false} ListingWritesNothing(images: map<string, Image>, filter: string, order: seq<string>,
                                                present: set<string>)
    requires forall k :: k in images && k in order ==> !Dropped(images[k], filter, present)
    ensures ListImages(images, filter, order, present).writes == []
    decreases |order|
  {
    if order != [] {
      ListingWritesNothing(images, filter, order[1..], present);
    }
  }

  /** Listing, for every iteration order: returns exactly the matching images whose file
      exists, each once; removes from the pool and from the file exactly the matching ones
      whose file is missing; and leaves all other entries as they are. */
  lemma ListingExactly(cfg: Config, w: World, filter: string, order: seq<string>, present: set<string>,
                       adapter: CallEnd, i: Image)
    requires Inv(cfg, w) && Enumerates(order, w.images.Keys)
    ensures var o := Exec(cfg, w, ListAll(filter, order, present, adapter));
            var listed := ListImages(w.images, filter, order, present).listed;
            && (i in listed <==>
                 && i.id in w.images && w.images[i.id] == i && i.localPath in present
                 && (filter == "" || filter == i.remotePath || filter in i.repoDigest))
            && DistinctImages(listed)
            && (forall k :: k in o.world.images <==> k in w.images && !Dropped(w.images[k], filter, present))
            && (forall k :: k in o.world.images ==> o.world.images[k] == w.images[k])
            && o.world.files.images.Keys == o.world.images.Keys
            && (forall k :: k in o.world.files.images ==> o.world.files.images[k] == w.files.images[k])
  {
    ListingResult(w.images, filter, order, present, i);
    ListingOnce(w.images, filter, order, present);
    ListingPool(w.images, filter, order, present);
    ListKeeps(cfg, w, filter, order, present);
    ListWritesDeleteImages(w.images, filter, order, present);
    DeletingKeepsOthers(w.files, ListImages(w.images, filter, order, present).writes);
  }

  lemma {:induction false} DeletingKeepsOthers(f: Files, ws: seq<Write>)
    requires OnlyImageDeletes(ws)
    ensures var g := Replay(f, ws).images; forall k :: k in g ==> k in f.images && g[k] == f.images[k]
    decreases |ws|
  {
    if ws != [] {
      assert ws[0].DeleteImage?;
      assert OnlyImageDeletes(ws[1..]);
      DeletingKeepsOthers(Apply(f, ws[0]), ws[1..]);
    }
  }

  /** Listing again, in any order, returns the same images and removes nothing. */
  lemma ListingIsIdempotent(images: map<string, Image>, filter: string, order: seq<string>, again: seq<string>,
                            present: set<string>, i: Image)
    requires GoodImages(images) && Enumerates(order, images.Keys)
    requires Enumerates(again, ListImages(images, filter, order, present).images.Keys)
    ensures var first := ListImages(images, filter, order, present);
            var second := ListImages(first.images, filter, again, present);
            second.images == first.images && second.writes == [] && (i in second.listed <==> i in first.listed)
  {
    var first := ListImages(images, filter, order, present);
    ListingPool(images, filter, order, present);
    ListingPool(first.images, filter, again, present);
    ListingResult(images, filter, order, present, i);
    ListingResult(first.images, filter, again, present, i);
    ListingWritesNothing(first.images, filter, again, present);
  }
}
