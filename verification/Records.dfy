/** The records the three stores keep, as values. */
module Records {

  datatype Option<+T> = None | Some(value: T)

  datatype ContainerState = CREATED | RUNNING | EXITED | UNKNOWN

  datatype PodState = READY | NOTREADY

  datatype RepoType =
    SingularityRepository | DockerRepository | LocalRepository | LocalDefinitionFile | UnknownRepository

  /** A pod record without its list of containers: the part copied into each container. */
  datatype PodInfo = PodInfo(id: string, state: PodState, logPath: string, netNSPath: string, ip: string,
                             handler: string)

  datatype Pod = Pod(info: PodInfo, containers: seq<string>)

  datatype Image = Image(id: string, imageName: string, localPath: string, remotePath: string,
                         repoTags: seq<string>, repoDigest: seq<string>, size: nat, repoType: RepoType)

  /** How a call to the adapter, the cluster, the network or the file system ends: it
      returns, returns an error, or ends the process, by a panic that nothing recovers or by
      a fatal log message. */
  datatype CallEnd = Returns | Errs(fault: Fault) | Dies

  /** Why a request or an outside call failed. */
  datatype Fault =
    | RemoteFault(text: string) | RemoteNotFound(name: string)
    | PodNotFound | PodRunning | AdapterFault(text: string)
    | ContainerNotFound | AlreadyStarted | ContainerFailed | ContainerRunning
    | ImageNotFound | ImageNotSupported
    | NoCredentials | ClusterFault(text: string) | NoJobId | BadJobId | BadAccounting

  /** The reason texts of a container: none, the two of a start, those of a finished job,
      or the text of an error. */
  datatype Reason =
    NoReason | StartOk | CannotRun | Completed | OomKilled | JobEnded(jobState: string) | Because(fault: Fault)

  /** `image` names the image object the record points to; `pod` is the copy taken at
      creation; `credentials` says whether its environment holds a key or a password. */
  datatype Container = Container(id: string, name: string, state: ContainerState, pod: PodInfo, image: Option<string>,
                                 credentials: bool, createdAt: int, startedAt: int, finishedAt: int,
                                 reason: Reason, exitCode: int, pid: int)
}
