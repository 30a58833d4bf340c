/** The three stores: a pool of shared objects each, written through to its file. */
module Stores {
  import opened Records
  import opened Persistence
  import opened RemoteRuntimes
  import opened SliceDeletion
  import opened Lifecycle
  import opened Metadata
  import opened Listings

  /** The key/value files, with the writes carried out so far. */
  class KVStore {
    var files: Files
    ghost var journal: seq<Write>

    constructor (files: Files)
      ensures this.files == files && journal == []
    {
      this.files, journal := files, [];
    }

    method Do(w: Write)
      modifies this
      ensures files == Apply(old(files), w) && journal == old(journal) + [w]
    {
      files := Apply(files, w);
      journal := journal + [w];
    }
  }

  predicate GoodKeys(containers: map<string, Container>) {
    forall k :: k in containers ==> containers[k].id == k
  }

  datatype K8sContainer = K8sContainer(record: Container, imageRef: string)

  class ContainerStorage {
    const persist: KVStore
    var pool: map<string, ContainerMetadata>

    predicate Valid()
      reads this
    {
      forall k :: k in pool ==> pool[k].id == k
    }

    function View(): map<string, Container>
      reads this, pool.Values
    {
      map k | k in pool :: pool[k].Record()
    }

    constructor (persist: KVStore)
      ensures Valid() && this.persist == persist && pool == map[]
    {
      this.persist, pool := persist, map[];
    }

    /** Every stored record becomes an object; `decoded` is the image copy stored with it. */
    method LoadAll(order: seq<string>, decoded: map<string, Image>)
      requires Enumerates(order, persist.files.containers.Keys) && GoodKeys(persist.files.containers)
      requires forall k :: k in persist.files.containers && persist.files.containers[k].image.Some? ==>
                 k in decoded && decoded[k].id == persist.files.containers[k].image.value
      modifies this
      ensures Valid() && View() == persist.files.containers
    {
      var result := persist.files.containers;
      var n := 0;
      pool := map[];
      while n < |order|
        invariant 0 <= n <= |order|
        invariant forall k :: k in pool <==> k in order[..n]
        invariant forall k :: k in pool ==> k in result && pool[k].Record() == result[k] && fresh(pool[k])
      {
        var k := order[n];
        var image: ImageMetadata? := null;
        if result[k].image.Some? {
          image := new ImageMetadata(decoded[k]);
        }
        var cm := new ContainerMetadata(result[k], image);
        pool := pool[k := cm];
        n := n + 1;
      }
      assert order[..n] == order;
    }

    /** `Add` and `Update` alike. */
    method Update(cm: ContainerMetadata)
      requires Valid()
      modifies this, persist
      ensures Valid() && pool == old(pool)[cm.id := cm]
      ensures View() == old(View())[cm.id := cm.Record()]
      ensures persist.files == Apply(old(persist.files), PutContainer(cm.id, cm.Record()))
      ensures persist.journal == old(persist.journal) + [PutContainer(cm.id, cm.Record())]
    {
      pool := pool[cm.id := cm];
      persist.Do(PutContainer(cm.id, cm.Record()));
    }

    method CreateContainerMetadata(c: Container, image: ImageMetadata?) returns (cm: ContainerMetadata)
      requires Valid() && c.image == if image == null then None else Some(image.id)
      modifies this, persist
      ensures Valid() && fresh(cm) && cm.image == image && cm.Record() == c && pool == old(pool)[c.id := cm]
      ensures View() == old(View())[c.id := c]
      ensures persist.files == Apply(old(persist.files), PutContainer(c.id, c))
      ensures persist.journal == old(persist.journal) + [PutContainer(c.id, c)]
    {
      cm := new ContainerMetadata(c, image);
      Update(cm);
    }

    function Get(id: string): ContainerMetadata?
      reads this
    {
      if id in pool then pool[id] else null
    }

    /** What the listing makes of a record: the image is read through its object. */
    predicate Converts(c: Container, k8s: K8sContainer)
      reads this, pool.Values, set k | k in pool && pool[k].image != null :: pool[k].image
    {
      && k8s.record == c && c.id in pool && pool[c.id].image != null
      && k8s.imageRef == pool[c.id].image.localPath
    }

    /** The listing reads the image of every record it returns. */
    method ListK8s(f: ContainerFilter, localName: string, order: seq<string>) returns (out: seq<K8sContainer>)
      requires Valid() && ListsSafely(View(), localName)
      ensures var l := ListContainers(View(), f, localName, order);
              |out| == |l| && forall i :: 0 <= i < |l| ==> Converts(l[i], out[i])
    {
      out := [];
      var n := 0;
      ghost var done: seq<Container> := [];
      while n < |order|
        invariant 0 <= n <= |order|
        invariant ListContainers(View(), f, localName, order) == done + ListContainers(View(), f, localName, order[n..])
        invariant |out| == |done| && forall i :: 0 <= i < |done| ==> Converts(done[i], out[i])
      {
        if order[n] in pool {
          var cm := pool[order[n]];
          if ContainerPasses(cm.Record(), f) && cm.pod.handler == localName {
            assert View()[order[n]] == cm.Record();
            out := out + [K8sContainer(cm.Record(), cm.image.localPath)];
            done := done + [cm.Record()];
          }
        }
        n := n + 1;
      }
      assert done + [] == done;
    }
  }

  class SandboxStorage {
    const persist: KVStore
    var pool: map<string, SandboxMetadata>

    /** Every object sits under its id and no two share a backing array. */
    predicate Valid()
      reads this, pool.Values
    {
      && (forall k :: k in pool ==> pool[k].id == k && pool[k].Valid())
      && (forall k, l :: k in pool && l in pool && k != l ==> pool[k].backing != pool[l].backing)
    }

    function Arrays(): set<array<string>>
      reads this, pool.Values
    {
      set k | k in pool :: pool[k].backing
    }

    function View(): map<string, Pod>
      requires Valid()
      reads this, pool.Values, Arrays()
    {
      map k | k in pool :: pool[k].Record()
    }

    constructor (persist: KVStore)
      ensures Valid() && this.persist == persist && pool == map[]
    {
      this.persist, pool := persist, map[];
    }

    /** A write leaves the pool alone. */
    method Persist(w: Write)
      requires Valid()
      modifies persist
      ensures Valid() && View() == old(View())
      ensures persist.files == Apply(old(persist.files), w) && persist.journal == old(persist.journal) + [w]
    {
      persist.Do(w);
    }

    /** One record of the loading loop. */
    method LoadOne(k: string, p: Pod, reopen: map<string, string>)
      requires Valid() && p.info.id == k
      modifies this, persist
      ensures Valid()
      ensures forall m :: m in pool ==>
        (m in old(pool) && pool[m] == old(pool)[m]) || (fresh(pool[m]) && fresh(pool[m].backing))
      ensures var resumed := Resumable(p) && k in reopen;
              && View() == (if resumed then old(View())[k := Reopened(p, reopen[k])] else old(View()))
              && persist.files == if resumed then Apply(old(persist.files), PutPod(k, Reopened(p, reopen[k])))
                                  else if Resumable(p) then old(persist.files)
                                  else Apply(old(persist.files), DeletePod(k))
    {
      if Resumable(p) {
        if k in reopen {
          var sm := CreateSandboxMetadata(Reopened(p, reopen[k]));
        }
      } else {
        Persist(DeletePod(k));
      }
    }

    /** One step of the loading loop, against the records it started from. */
    method LoadNext(result: map<string, Pod>, reopen: map<string, string>, order: seq<string>, n: nat)
      requires n < |order| && Enumerates(order, result.Keys) && result[order[n]].info.id == order[n]
      requires Valid() && View() == LoadedSoFar(result, reopen, order[..n]).pool
      requires persist.files.pods == LoadedSoFar(result, reopen, order[..n]).stored
      modifies this, persist
      ensures Valid() && View() == LoadedSoFar(result, reopen, order[..n + 1]).pool
      ensures forall m :: m in pool ==>
        (m in old(pool) && pool[m] == old(pool)[m]) || (fresh(pool[m]) && fresh(pool[m].backing))
      ensures persist.files == old(persist.files).(pods := LoadedSoFar(result, reopen, order[..n + 1]).stored)
    {
      LoadedOneMore(result, reopen, order, n);
      LoadOne(order[n], result[order[n]], reopen);
    }

    /** Loading resumes exactly the ready pods whose namespace opens again, stores their new
        paths, and deletes exactly the records that are not ready or have no path. */
    method LoadAll(order: seq<string>, reopen: map<string, string>)
      requires Enumerates(order, persist.files.pods.Keys)
      requires forall k :: k in persist.files.pods ==> persist.files.pods[k].info.id == k
      modifies this, persist
      ensures Valid() && View() == LoadPods(old(persist.files.pods), reopen).pool
      ensures persist.files == old(persist.files).(pods := LoadPods(old(persist.files.pods), reopen).stored)
      ensures forall k :: k in pool <==>
        k in old(persist.files.pods) && Resumable(old(persist.files.pods)[k]) && k in reopen
      ensures forall k :: k in persist.files.pods <==>
        k in old(persist.files.pods) && Resumable(old(persist.files.pods)[k])
    {
      var result := persist.files.pods;
      var n := 0;
      pool := map[];
      LoadedNone(result, reopen);
      assert order[..n] == [];
      while n < |order|
        invariant 0 <= n <= |order|
        invariant Valid() && forall k :: k in pool ==> fresh(pool[k]) && fresh(pool[k].backing)
        invariant View() == LoadedSoFar(result, reopen, order[..n]).pool
        invariant persist.files == old(persist.files).(pods := LoadedSoFar(result, reopen, order[..n]).stored)
      {
        LoadNext(result, reopen, order, n);
        n := n + 1;
      }
      assert order[..n] == order;
      LoadedAll(result, reopen, order);
      LoadKeepsExactly(result, reopen);
      assert View().Keys == pool.Keys;
    }

    /** `Add` and `Update` alike. */
    method Update(sm: SandboxMetadata)
      requires Valid() && sm.Valid()
      requires forall k :: k in pool && k != sm.id ==> pool[k].backing != sm.backing
      modifies this, persist
      ensures Valid() && pool == old(pool)[sm.id := sm]
      ensures View() == old(View())[sm.id := sm.Record()]
      ensures persist.files == Apply(old(persist.files), PutPod(sm.id, sm.Record()))
      ensures persist.journal == old(persist.journal) + [PutPod(sm.id, sm.Record())]
    {
      Place(sm);
      Persist(PutPod(sm.id, sm.Record()));
    }

    method Place(sm: SandboxMetadata)
      requires Valid() && sm.Valid()
      requires forall k :: k in pool && k != sm.id ==> pool[k].backing != sm.backing
      modifies this
      ensures Valid() && pool == old(pool)[sm.id := sm]
      ensures View() == old(View())[sm.id := sm.Record()]
    {
      Insert(sm);
    }

    method Insert(sm: SandboxMetadata)
      requires Valid() && sm.Valid()
      requires forall k :: k in pool && k != sm.id ==> pool[k].backing != sm.backing
      modifies this
      ensures Valid() && pool == old(pool)[sm.id := sm]
    {
      pool := pool[sm.id := sm];
    }

    method CreateSandboxMetadata(p: Pod) returns (sm: SandboxMetadata)
      requires Valid()
      modifies this, persist
      ensures Valid() && fresh(sm) && sm.Valid() && fresh(sm.backing) && sm.Record() == p &&
        pool == old(pool)[p.info.id := sm]
      ensures View() == old(View())[p.info.id := p]
      ensures persist.files == Apply(old(persist.files), PutPod(p.info.id, p))
      ensures persist.journal == old(persist.journal) + [PutPod(p.info.id, p)]
    {
      sm := new SandboxMetadata(p);
      assert View() == old(View());
      Update(sm);
    }

    method Take(id: string)
      requires Valid()
      modifies this
      ensures Valid() && pool == old(pool) - {id}
      ensures View() == old(View()) - {id}
    {
      pool := pool - {id};
    }

    method Remove(id: string)
      requires Valid()
      modifies this, persist
      ensures Valid() && pool == old(pool) - {id}
      ensures View() == old(View()) - {id}
      ensures persist.files == Apply(old(persist.files), DeletePod(id))
      ensures persist.journal == old(persist.journal) + [DeletePod(id)]
    {
      Take(id);
      Persist(DeletePod(id));
    }

    /** The deletion loop on one pod's array leaves the other pods alone. */
    method DeleteFrom(sm: SandboxMetadata, containerId: string) returns (panicked: bool)
      requires Valid() && sm.id in pool && pool[sm.id] == sm
      modifies sm, sm.backing
      ensures Valid()
      ensures forall k :: k in pool && pool[k] != sm ==> pool[k].Record() == old(pool[k].Record())
      ensures var p := old(sm.Record());
              match Sweep(p.containers, |p.containers|, 0, containerId)
              case Panicked => panicked
              case Kept(ids) => !panicked && sm.Record() == p.(containers := ids)
    {
      forall k | k in pool && pool[k] != sm ensures pool[k].backing != sm.backing {
        assert k != sm.id;
      }
      panicked := sm.Delete(containerId);
    }

    /** Takes an id off a pod's list in place and stores the pod; a panic stores nothing. */
    method RemoveContainer(id: string, containerId: string) returns (panicked: bool)
      requires Valid() && id in pool
      modifies persist, pool[id], pool[id].backing
      ensures Valid()
      ensures var p := old(View())[id];
              match Sweep(p.containers, |p.containers|, 0, containerId)
              case Panicked => panicked && persist.files == old(persist.files) &&
                persist.journal == old(persist.journal)
              case Kept(ids) =>
                var rest := p.(containers := ids);
                && !panicked && View() == old(View())[id := rest]
                && persist.files == Apply(old(persist.files), PutPod(id, rest))
                && persist.journal == old(persist.journal) + [PutPod(id, rest)]
    {
      var sm := pool[id];
      panicked := DeleteFrom(sm, containerId);
      if !panicked {
        Persist(PutPod(id, sm.Record()));
      }
    }

    function Get(id: string): SandboxMetadata?
      reads this
    {
      if id in pool then pool[id] else null
    }

    method ListK8s(f: PodFilter, localName: string, order: seq<string>) returns (out: seq<Pod>)
      requires Valid()
      ensures out == ListPods(View(), f, localName, order)
    {
      out := [];
      var n := 0;
      while n < |order|
        invariant 0 <= n <= |order|
        invariant ListPods(View(), f, localName, order) == out + ListPods(View(), f, localName, order[n..])
      {
        if order[n] in pool {
          var sandbox := pool[order[n]];
          if PodPasses(sandbox.Record(), f) && sandbox.handler == localName {
            assert View()[order[n]] == sandbox.Record();
            out := out + [sandbox.Record()];
          }
        }
        n := n + 1;
      }
      assert out + [] == out;
    }
  }

  /** The loading loop after the keys in `done`. */
  function LoadedSoFar(stored: map<string, Pod>, reopen: map<string, string>, done: seq<string>): LoadedPods {
    LoadedPods(
      map k | k in stored && k in done && Resumable(stored[k]) && k in reopen :: Reopened(stored[k], reopen[k]),
      map k | k in stored && (k in done ==> Resumable(stored[k])) ::
        if k in done && k in reopen then Reopened(stored[k], reopen[k]) else stored[k])
  }

  lemma LoadedNone(stored: map<string, Pod>, reopen: map<string, string>)
    ensures LoadedSoFar(stored, reopen, []) == LoadedPods(map[], stored)
  {
  }

  lemma LoadedOneMore(stored: map<string, Pod>, reopen: map<string, string>, order: seq<string>, n: nat)
    requires n < |order| && Enumerates(order, stored.Keys)
    ensures var k := order[n];
            var before, after := LoadedSoFar(stored, reopen, order[..n]), LoadedSoFar(stored, reopen, order[..n + 1]);
            && after.pool == (if Resumable(stored[k]) && k in reopen
              then before.pool[k := Reopened(stored[k], reopen[k])] else before.pool)
            && after.stored == if Resumable(stored[k]) && k in reopen
              then before.stored[k := Reopened(stored[k], reopen[k])]
                               else if Resumable(stored[k]) then before.stored else before.stored - {k}
  {
    assert order[n] !in order[..n];
    assert order[..n + 1] == order[..n] + [order[n]];
    OneMorePooled(stored, reopen, order[..n], order[n]);
    OneMoreStored(stored, reopen, order[..n], order[n]);
  }

  lemma OneMorePooled(stored: map<string, Pod>, reopen: map<string, string>, done: seq<string>, k: string)
    requires k in stored && k !in done
    ensures LoadedSoFar(stored, reopen, done + [k]).pool ==
            if Resumable(stored[k]) && k in reopen
              then LoadedSoFar(stored, reopen, done).pool[k := Reopened(stored[k], reopen[k])]
            else LoadedSoFar(stored, reopen, done).pool
  {
    assert forall x :: x in done + [k] <==> x in done || x == k;
  }

  lemma OneMoreStored(stored: map<string, Pod>, reopen: map<string, string>, done: seq<string>, k: string)
    requires k in stored && k !in done
    ensures LoadedSoFar(stored, reopen, done + [k]).stored ==
            if Resumable(stored[k]) && k in reopen
              then LoadedSoFar(stored, reopen, done).stored[k := Reopened(stored[k], reopen[k])]
            else if Resumable(stored[k]) then LoadedSoFar(stored, reopen, done).stored
            else LoadedSoFar(stored, reopen, done).stored - {k}
  {
    assert forall x :: x in done + [k] <==> x in done || x == k;
  }

  lemma LoadedAll(stored: map<string, Pod>, reopen: map<string, string>, order: seq<string>)
    requires Enumerates(order, stored.Keys)
    ensures LoadedSoFar(stored, reopen, order) == LoadPods(stored, reopen)
  {
    assert forall k :: k in stored.Keys ==> k in order;
  }

  class ImageStorage {
    const persist: KVStore
    var pool: map<string, ImageMetadata>

    predicate Valid()
      reads this
    {
      forall k :: k in pool ==> pool[k].id == k
    }

    function View(): map<string, Image>
      reads this, pool.Values
    {
      map k | k in pool :: pool[k].Record()
    }

    constructor (persist: KVStore)
      ensures Valid() && this.persist == persist && pool == map[]
    {
      this.persist, pool := persist, map[];
    }

    /** Every stored record becomes an object. */
    method LoadAll(order: seq<string>)
      requires Enumerates(order, persist.files.images.Keys)
      requires forall k :: k in persist.files.images ==> persist.files.images[k].id == k
      modifies this
      ensures Valid() && View() == persist.files.images
    {
      var result := persist.files.images;
      var n := 0;
      pool := map[];
      while n < |order|
        invariant 0 <= n <= |order|
        invariant forall k :: k in pool <==> k in order[..n]
        invariant forall k :: k in pool ==> k in result && pool[k].Record() == result[k] && fresh(pool[k])
      {
        var im := new ImageMetadata(result[order[n]]);
        pool := pool[order[n] := im];
        n := n + 1;
      }
      assert order[..n] == order;
    }

    method Update(im: ImageMetadata)
      requires Valid()
      modifies this, persist
      ensures Valid() && pool == old(pool)[im.id := im]
      ensures View() == old(View())[im.id := im.Record()]
      ensures persist.files == Apply(old(persist.files), PutImage(im.id, im.Record()))
      ensures persist.journal == old(persist.journal) + [PutImage(im.id, im.Record())]
    {
      pool := pool[im.id := im];
      persist.Do(PutImage(im.id, im.Record()));
    }

    method Remove(id: string)
      requires Valid()
      modifies this, persist
      ensures Valid() && pool == old(pool) - {id}
      ensures View() == old(View()) - {id}
      ensures persist.files == Apply(old(persist.files), DeleteImage(id))
      ensures persist.journal == old(persist.journal) + [DeleteImage(id)]
    {
      pool := pool - {id};
      persist.Do(DeleteImage(id));
    }

    /** The first object in iteration order that matches. */
    method GetByID(query: string, order: seq<string>) returns (im: ImageMetadata?)
      requires Valid()
      ensures im == match FindImage(View(), query, order) case Some(k) => pool[k] case None => null
    {
      var n := 0;
      while n < |order|
        invariant 0 <= n <= |order|
        invariant FindImage(View(), query, order) == FindImage(View(), query, order[n..])
      {
        if order[n] in pool && Matches(order[n], pool[order[n]].Record(), query) {
          return pool[order[n]];
        }
        n := n + 1;
      }
      return null;
    }

    /** Listing drops entries from the pool while it walks over it. */
    method ListK8s(filter: string, order: seq<string>, present: set<string>) returns (out: seq<Image>)
      requires Valid()
      modifies this, persist
      ensures Valid()
      ensures var l := ListImages(old(View()), filter, order, present);
              && View() == l.images && out == l.listed
              && persist.files == Replay(old(persist.files), l.writes)
              && persist.journal == old(persist.journal) + l.writes
    {
      out := [];
      var n := 0;
      ghost var done: seq<Write> := [];
      while n < |order|
        invariant 0 <= n <= |order|
        invariant Valid() && pool.Values <= old(pool.Values)
        invariant var all, rest := ListImages(old(View()), filter, order, present),
          ListImages(View(), filter, order[n..], present);
                  all.images == rest.images && all.listed == out + rest.listed && all.writes == done + rest.writes
        invariant persist.files == Replay(old(persist.files), done)
        invariant persist.journal == old(persist.journal) + done
      {
        if order[n] in pool {
          var image := pool[order[n]];
          if ImageFilter(image.Record(), filter) {
            if image.localPath !in present {
              ReplayAppend(old(persist.files), done, DeleteImage(image.id));
              done := done + [DeleteImage(image.id)];
              Remove(image.id);
            } else {
              out := out + [image.Record()];
            }
          }
        }
        n := n + 1;
      }
      assert done + [] == done && out + [] == out;
    }
  }

  lemma {:induction false} ReplayAppend(f: Files, ws: seq<Write>, w: Write)
    ensures Replay(f, ws + [w]) == Apply(Replay(f, ws), w)
    decreases |ws|
  {
    if ws == [] {
      assert ws + [w] == [w];
      assert [w][1..] == [];
    } else {
      assert (ws + [w])[1..] == ws[1..] + [w];
      ReplayAppend(Apply(f, ws[0]), ws[1..], w);
    }
  }
}
