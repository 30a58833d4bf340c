/** The records as the service holds them: objects that its handlers share and update in
    place, each with the value it stands for. */
module Metadata {
  import opened GoStrings
  import opened Records
  import opened SliceDeletion
  import opened ImageNames
  import opened Lifecycle

  class ImageMetadata {
    const id: string
    var imageName: string
    var localPath: string
    var remotePath: string
    var repoTags: seq<string>
    var repoDigest: seq<string>
    var size: nat
    var repoType: RepoType

    function Record(): Image
      reads this
    {
      Image(id, imageName, localPath, remotePath, repoTags, repoDigest, size, repoType)
    }

    constructor (i: Image)
      ensures Record() == i
    {
      id, imageName, localPath, remotePath := i.id, i.imageName, i.localPath, i.remotePath;
      repoTags, repoDigest, size, repoType := i.repoTags, i.repoDigest, i.size, i.repoType;
    }

    /** Rewrites an accepted name in place; rejects any other and changes nothing. */
    method ParseImage() returns (ok: bool)
      modifies this
      ensures ok <==> ParseName(old(remotePath)).Some?
      ensures Record() == if ok then Parsed(old(Record()), ParseName(old(remotePath)).value) else old(Record())
    {
      var repo := RepositoryOf(remotePath);
      if repo == UnknownRepository {
        return false;
      }
      var split := Split(remotePath, Marker(repo));
      var realImagePath := Last(split);
      repoType := repo;
      repoDigest := [remotePath];
      var nameWithVersion := Last(Split(realImagePath, "/"));
      imageName := Split(nameWithVersion, ":")[0];
      remotePath := Scheme(repo) + realImagePath;
      repoTags := [remotePath];
      return true;
    }

    /** What a pull or a preparation leaves in the record. */
    method Work(work: ImageWork)
      modifies this
      ensures Record() == Worked(old(Record()), work)
    {
      localPath, size := work.localPath, work.size;
    }
  }

  class SandboxMetadata {
    const id: string
    const handler: string
    var state: PodState
    var logPath: string
    var netNSPath: string
    var ip: string
    /** The slice of container ids: a backing array and a length. */
    var backing: array<string>
    var count: nat

    predicate Valid()
      reads this
    {
      count <= backing.Length
    }

    function Info(): PodInfo
      reads this
    {
      PodInfo(id, state, logPath, netNSPath, ip, handler)
    }

    function Record(): Pod
      requires Valid()
      reads this, backing
    {
      Pod(Info(), backing[..count])
    }

    constructor (p: Pod)
      ensures Valid() && Record() == p && fresh(backing)
    {
      id, state, logPath := p.info.id, p.info.state, p.info.logPath;
      netNSPath, ip, handler := p.info.netNSPath, p.info.ip, p.info.handler;
      var ids := p.containers;
      backing := new string[|ids|](i requires 0 <= i < |ids| => ids[i]);
      count := |ids|;
      new;
      assert backing[..count] == ids;
    }

    /** Go's append: in place while there is room, else into a larger array. */
    method Append(container: string)
      requires Valid()
      modifies this, backing
      ensures Valid() && (backing == old(backing) || fresh(backing))
      ensures Record() == Joined(old(Record()), container)
    {
      if count == backing.Length {
        var old' := backing[..];
        backing := new string[2 * count + 1](i => if 0 <= i < |old'| then old'[i] else "");
        assert backing[..count] == old'[..count];
      }
      backing[count] := container;
      count := count + 1;
    }

    /** The deletion loop on the shared array. */
    method Delete(container: string) returns (panicked: bool)
      requires Valid()
      modifies this, backing
      ensures Valid() && backing == old(backing) && Info() == old(Info())
      ensures var ids := old(Record()).containers;
              match Sweep(ids, |ids|, 0, container)
              case Panicked => panicked
              case Kept(rest) => !panicked && Record().containers == rest
    {
      var len;
      len, panicked := DeleteInPlace(backing, count, container);
      if !panicked {
        count := len;
      }
    }
  }

  class ContainerMetadata {
    const id: string
    const name: string
    const pod: PodInfo
    const image: ImageMetadata?
    const credentials: bool
    const createdAt: int
    var state: ContainerState
    var startedAt: int
    var finishedAt: int
    var reason: Reason
    var exitCode: int
    var pid: int

    function Record(): Container
      reads this
    {
      Container(id, name, state, pod, if image == null then None else Some(image.id), credentials,
                createdAt, startedAt, finishedAt, reason, exitCode, pid)
    }

    constructor (c: Container, image: ImageMetadata?)
      requires c.image == if image == null then None else Some(image.id)
      ensures Record() == c && this.image == image
    {
      id, name, pod, credentials, createdAt := c.id, c.name, c.pod, c.credentials, c.createdAt;
      this.image := image;
      state, startedAt, finishedAt := c.state, c.startedAt, c.finishedAt;
      reason, exitCode, pid := c.reason, c.exitCode, c.pid;
    }
  }
}
