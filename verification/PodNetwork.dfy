/** Setting up a pod's network: steps that each may fail, and the deferred clean-ups that
    run in reverse order when the set-up returns an error. All pods share one host. */
module PodNetwork {
  import opened GoStrings
  import opened Records

  /** What a host holds: namespaces by path, attachments by pod, directories by path. */
  datatype Resource = Namespace(path: string) | Attachment(pod: string) | Directory(path: string)

  datatype Action = Acquired(resource: Resource) | Undone(resource: Resource, ok: bool)

  /** How opening a namespace ends; `Hollow` is an object without a namespace and without an
      error, whose path cannot be read. */
  datatype Opening = Opened(path: string) | NotOpened(fault: Fault) | Hollow

  /** How every call the set-up makes ends, its clean-ups included. `podMode` is false for the
      host network; `unwinds` says whether the other clean-ups still run when one of them
      ends the process, as they do for a panic and not for a fatal log message. */
  datatype NetworkCalls = NetworkCalls(podMode: bool, namespace: Opening, attach: CallEnd, address: CallEnd, ip: string,
                                       directory: CallEnd, files: CallEnd,
                                       removal: CallEnd, detachment: CallEnd, directoryRemoval: CallEnd, unwinds: bool)
  {
    function Cleanup(r: Resource): CallEnd {
      match r
      case Namespace(_) => removal
      case Attachment(_) => detachment
      case Directory(_) => directoryRemoval
    }
  }

  /** One set-up: for which pod, with which recorded namespace path. */
  datatype Setup = Setup(pod: string, netNSPath: string, calls: NetworkCalls)

  const ROOT := "/etc/netns"

  /** `getNetNsDir`: the root joined with the last piece of the path, as `filepath.Join`
      cleans it. */
  function NetNsDir(netNSPath: string): string {
    var last := Last(Split(netNSPath, "/"));
    if last == "" || last == "." then ROOT
    else if last == ".." then "/etc"
    else ROOT + "/" + last
  }

  lemma NoPathMeansRoot()
    ensures NetNsDir("") == ROOT
  {
    SplitNowhere("", "/");
  }

  /** The forward steps: how they end, what they acquired, which clean-ups they deferred,
      and the address they stored in the sandbox, if they got that far. */
  datatype Steps = Steps(end: CallEnd, ip: Option<string>, acquired: seq<Resource>, deferred: seq<Resource>)

  function NamespaceOf(s: Setup): Resource {
    Namespace(if s.calls.namespace.Opened? then s.calls.namespace.path else "")
  }

  function DirectoryOf(s: Setup): Resource {
    Directory(NetNsDir(s.netNSPath))
  }

  /** The steps of a pod that does not use the host's network. */
  function AttachSteps(s: Setup): Steps {
    var ns, net := NamespaceOf(s), Attachment(s.pod);
    match s.calls.namespace
    case NotOpened(fault) => Steps(Errs(fault), None, [], [])
    case Hollow => Steps(Dies, None, [], [])
    case Opened(_) =>
      if s.calls.attach != Returns then Steps(s.calls.attach, None, [ns], [ns])
      else if s.calls.address.Dies? then Steps(Dies, None, [ns, net], [ns])
      else if s.calls.address.Errs? then Steps(s.calls.address, Some(s.calls.ip), [ns, net], [ns])
      else Steps(Returns, Some(s.calls.ip), [ns, net], [ns, net])
  }

  function Forward(s: Setup): Steps {
    var before := if s.calls.podMode then AttachSteps(s) else Steps(Returns, None, [], []);
    if before.end != Returns || s.calls.directory != Returns then
      before.(end := if before.end != Returns then before.end else s.calls.directory)
    else
      Steps(s.calls.files, before.ip, before.acquired + [DirectoryOf(s)], before.deferred + [DirectoryOf(s)])
  }

  function Acquisitions(rs: seq<Resource>): seq<Action> {
    seq(|rs|, i requires 0 <= i < |rs| => Acquired(rs[i]))
  }

  /** The clean-ups that are attempted, last registered first. */
  function Attempted(deferred: seq<Resource>, calls: NetworkCalls): seq<Resource> {
    if deferred == [] then []
    else
      var r := Last(deferred);
      [r] + if calls.Cleanup(r).Dies? && !calls.unwinds then [] else Attempted(deferred[..|deferred| - 1], calls)
  }

  function Undoings(rs: seq<Resource>, calls: NetworkCalls): seq<Action> {
    seq(|rs|, i requires 0 <= i < |rs| => Undone(rs[i], calls.Cleanup(rs[i]) == Returns))
  }

  predicate SomeDies(rs: seq<Resource>, calls: NetworkCalls) {
    exists i :: 0 <= i < |rs| && calls.Cleanup(rs[i]).Dies?
  }

  /** The clean-ups of a set-up: they run when an error is returned, and not when the process
      ends before. */
  function Cleanups(s: Setup): seq<Resource> {
    if Forward(s).end.Errs? then Attempted(Forward(s).deferred, s.calls) else []
  }

  function SetupActions(s: Setup): seq<Action> {
    Acquisitions(Forward(s).acquired) + Undoings(Cleanups(s), s.calls)
  }

  /** How the whole set-up ends: a clean-up may end the process. */
  function SetupEnd(s: Setup): CallEnd {
    if SomeDies(Cleanups(s), s.calls) then Dies else Forward(s).end
  }

  /** A directory goes with everything below it. */
  predicate Removes(r: Resource, x: Resource) {
    x == r || (r.Directory? && x.Directory? && r.path + "/" <= x.path)
  }

  function Step(before: set<Resource>, a: Action): set<Resource> {
    match a
    case Acquired(r) => before + {r}
    case Undone(r, ok) => if ok then set x | x in before && !Removes(r, x) else before
  }

  /** What the host holds after a sequence of actions. */
  function Held(before: set<Resource>, actions: seq<Action>): set<Resource>
    decreases |actions|
  {
    if actions == [] then before else Held(Step(before, actions[0]), actions[1..])
  }

  class Host {
    var actions: seq<Action>

    constructor ()
      ensures actions == []
    {
      actions := [];
    }

    method Acquire(r: Resource)
      modifies this
      ensures actions == old(actions) + [Acquired(r)]
    {
      actions := actions + [Acquired(r)];
    }

    /** The namespace and the attachment, with the stack of deferred clean-ups. */
    method Attach(s: Setup) returns (end: CallEnd, ip: Option<string>, deferred: seq<Resource>)
      modifies this
      ensures AttachSteps(s) == Steps(end, ip, AttachSteps(s).acquired, deferred)
      ensures actions == old(actions) + Acquisitions(AttachSteps(s).acquired)
    {
      ip, deferred := None, [];
      match s.calls.namespace {
        case NotOpened(fault) => return Errs(fault), None, [];
        case Hollow => return Dies, None, [];
        case Opened(path) =>
          Acquire(Namespace(path));
          deferred := deferred + [Namespace(path)];
          assert [Acquired(Namespace(path))] == Acquisitions([Namespace(path)]);
      }
      if s.calls.attach != Returns {
        return s.calls.attach, None, deferred;
      }
      Acquire(Attachment(s.pod));
      assert [Acquired(NamespaceOf(s)), Acquired(Attachment(s.pod))] ==
        Acquisitions([NamespaceOf(s), Attachment(s.pod)]);
      if s.calls.address.Dies? {
        return Dies, None, deferred;
      }
      ip := Some(s.calls.ip);
      if s.calls.address.Errs? {
        return s.calls.address, ip, deferred;
      }
      deferred := deferred + [Attachment(s.pod)];
      return Returns, ip, deferred;
    }

    /** The body of the set-up up to its return. */
    method RunSteps(s: Setup) returns (end: CallEnd, ip: Option<string>, deferred: seq<Resource>)
      modifies this
      ensures Forward(s) == Steps(end, ip, Forward(s).acquired, deferred)
      ensures actions == old(actions) + Acquisitions(Forward(s).acquired)
    {
      end, ip, deferred := Returns, None, [];
      ghost var acquired: seq<Resource> := [];
      if s.calls.podMode {
        end, ip, deferred := Attach(s);
        acquired := AttachSteps(s).acquired;
        if end != Returns {
          return;
        }
      }
      if s.calls.directory != Returns {
        return s.calls.directory, ip, deferred;
      }
      Acquire(DirectoryOf(s));
      assert Acquisitions(acquired) + [Acquired(DirectoryOf(s))] == Acquisitions(acquired + [DirectoryOf(s)]);
      deferred := deferred + [DirectoryOf(s)];
      end := s.calls.files;
    }

    method Undo(r: Resource, calls: NetworkCalls)
      modifies this
      ensures actions == old(actions) + [Undone(r, calls.Cleanup(r) == Returns)]
    {
      actions := actions + [Undone(r, calls.Cleanup(r) == Returns)];
    }

    /** Runs the deferred clean-ups, last registered first. */
    method Unwind(all: seq<Resource>, calls: NetworkCalls) returns (died: bool)
      modifies this
      ensures actions == old(actions) + Undoings(Attempted(all, calls), calls)
      ensures died == SomeDies(Attempted(all, calls), calls)
    {
      var deferred := all;
      ghost var done: seq<Resource> := [];
      died := false;
      assert old(actions) + Undoings([], calls) == old(actions);
      while deferred != []
        invariant Attempted(all, calls) == done + Attempted(deferred, calls)
        invariant actions == old(actions) + Undoings(done, calls) && died == SomeDies(done, calls)
        decreases |deferred|
      {
        var r := Last(deferred);
        Undo(r, calls);
        OneMoreUndone(old(actions), done, r, calls);
        OneMoreDies(done, r, calls);
        OneMoreAttempted(done, deferred, calls);
        done := done + [r];
        died := died || calls.Cleanup(r).Dies?;
        if calls.Cleanup(r).Dies? && !calls.unwinds {
          return;
        }
        deferred := deferred[..|deferred| - 1];
      }
      assert Attempted(all, calls) == done;
    }

    method SetupPodNetwork(s: Setup) returns (end: CallEnd, ip: Option<string>)
      modifies this
      ensures end == SetupEnd(s) && ip == Forward(s).ip
      ensures actions == old(actions) + SetupActions(s)
    {
      var deferred;
      AppendActions(actions, Acquisitions(Forward(s).acquired), Undoings(Cleanups(s), s.calls));
      end, ip, deferred := RunSteps(s);
      assert Undoings([], s.calls) == [];
      if end.Errs? {
        var died := Unwind(deferred, s.calls);
        if died {
          end := Dies;
        }
      }
    }
  }

  lemma OneMoreUndone(before: seq<Action>, done: seq<Resource>, r: Resource, calls: NetworkCalls)
    ensures before + Undoings(done, calls) + [Undone(r, calls.Cleanup(r) == Returns)] ==
            before + Undoings(done + [r], calls)
  {
    assert Undoings(done + [r], calls) == Undoings(done, calls) + [Undone(r, calls.Cleanup(r) == Returns)];
  }

  lemma OneMoreDies(done: seq<Resource>, r: Resource, calls: NetworkCalls)
    ensures SomeDies(done + [r], calls) <==> SomeDies(done, calls) || calls.Cleanup(r).Dies?
  {
    var all := done + [r];
    assert all[|done|] == r && forall i :: 0 <= i < |done| ==> all[i] == done[i];
  }

  lemma OneMoreAttempted(done: seq<Resource>, deferred: seq<Resource>, calls: NetworkCalls)
    requires deferred != []
    ensures var r := Last(deferred);
            done + Attempted(deferred, calls) ==
            if calls.Cleanup(r).Dies? && !calls.unwinds then done + [r]
            else done + [r] + Attempted(deferred[..|deferred| - 1], calls)
  {
  }

  lemma AppendActions(a: seq<Action>, b: seq<Action>, c: seq<Action>)
    ensures a + b + c == a + (b + c) && a + (b + []) == a + b
  {
  }

  // ---- what actions leave ----

  lemma {:induction false} HeldAppend(before: set<Resource>, a: seq<Action>, b: seq<Action>)
    ensures Held(before, a + b) == Held(Held(before, a), b)
    decreases |a|
  {
    if a == [] {
      assert a + b == b;
    } else {
      assert (a + b)[1..] == a[1..] + b;
      HeldAppend(Step(before, a[0]), a[1..], b);
    }
  }

  lemma {:induction false} HeldAfterAcquisitions(before: set<Resource>, rs: seq<Resource>)
    ensures Held(before, Acquisitions(rs)) == before + set r | r in rs
    decreases |rs|
  {
    if rs != [] {
      HeldAfterAcquisitions(before + {rs[0]}, rs[1..]);
      assert Acquisitions(rs)[1..] == Acquisitions(rs[1..]);
      assert rs == [rs[0]] + rs[1..];
    } else {
      assert Acquisitions(rs) == [];
    }
  }

  /** Some clean-up that works takes the resource with it. */
  predicate Cleaned(rs: seq<Resource>, calls: NetworkCalls, x: Resource) {
    exists r :: r in rs && calls.Cleanup(r) == Returns && Removes(r, x)
  }

  lemma {:induction false} HeldAfterUndoing(before: set<Resource>, rs: seq<Resource>, calls: NetworkCalls)
    ensures Held(before, Undoings(rs, calls)) == set x | x in before && !Cleaned(rs, calls, x)
    decreases |rs|
  {
    if rs != [] {
      var r := rs[0];
      var next := Step(before, Undone(r, calls.Cleanup(r) == Returns));
      assert Undoings(rs, calls)[1..] == Undoings(rs[1..], calls);
      HeldAfterUndoing(next, rs[1..], calls);
      forall x
        ensures Cleaned(rs, calls, x) <==>
                Cleaned(rs[1..], calls, x) || (calls.Cleanup(r) == Returns && Removes(r, x))
      {
        assert forall y :: y in rs <==> y == r || y in rs[1..];
      }
    }
  }

  /** Clean-ups run in the reverse of their registration; all of them, unless one ends the
      process at once. */
  lemma {:induction false} CleanupsReverse(deferred: seq<Resource>, calls: NetworkCalls)
    ensures var rs := Attempted(deferred, calls);
            && |rs| <= |deferred| && (forall i :: 0 <= i < |rs| ==> rs[i] == deferred[|deferred| - 1 - i])
            && (|rs| < |deferred| ==> rs != [] && calls.Cleanup(Last(rs)).Dies? && !calls.unwinds)
  {
    if deferred != [] {
      CleanupsReverse(deferred[..|deferred| - 1], calls);
    }
  }

  /** The clean-ups of a failed set-up are those deferred, in reverse: the namespace last, and
      all acquired steps once the pod address was read; fewer only when one ends the process. */
  predicate UndoesInReverse(s: Setup) {
    var f, rs := Forward(s), Cleanups(s);
    && |rs| <= |f.deferred| && (forall i :: 0 <= i < |rs| ==> rs[i] == f.deferred[|f.deferred| - 1 - i])
    && (|rs| < |f.deferred| ==> SetupEnd(s) == Dies)
    && (s.calls.podMode && s.calls.namespace.Opened? ==> f.deferred[0] == NamespaceOf(s))
    && (s.calls.podMode ==> (f.deferred == f.acquired <==> !FailsAtAddress(s)))
  }

  lemma DeferredSteps(s: Setup)
    requires Forward(s).end.Errs? && s.calls.podMode
    ensures var f := Forward(s);
            && (s.calls.namespace.Opened? ==> f.deferred != [] && f.deferred[0] == NamespaceOf(s))
            && (f.deferred == f.acquired <==> !FailsAtAddress(s))
  {
  }

  lemma CleanupsOf(s: Setup)
    requires Forward(s).end.Errs?
    ensures UndoesInReverse(s)
  {
    var f, rs := Forward(s), Cleanups(s);
    if s.calls.podMode {
      DeferredSteps(s);
    }
    CleanupsReverse(f.deferred, s.calls);
    if |rs| < |f.deferred| {
      assert s.calls.Cleanup(rs[|rs| - 1]).Dies?;
    }
  }

  /** What a set-up does on a host that already holds something: it adds what it acquired,
      and on an error everything that a working clean-up takes with it is gone, whoever
      acquired it. */
  lemma HeldAfterSetup(before: set<Resource>, s: Setup)
    ensures Held(before, SetupActions(s)) ==
            set x | x in before + (set r | r in Forward(s).acquired) && !Cleaned(Cleanups(s), s.calls, x)
    ensures if Forward(s).end.Errs? then UndoesInReverse(s) else Cleanups(s) == []
  {
    var acquired := Forward(s).acquired;
    HeldAfterAcquisitions(before, acquired);
    HeldAppend(before, Acquisitions(acquired), Undoings(Cleanups(s), s.calls));
    HeldAfterUndoing(before + (set r | r in acquired), Cleanups(s), s.calls);
    if Forward(s).end.Errs? {
      CleanupsOf(s);
    }
  }

  // ---- one set-up ----

  predicate CleanupsSucceed(calls: NetworkCalls) {
    calls.removal == Returns && calls.detachment == Returns && calls.directoryRemoval == Returns
  }

  /** The set-up made its directory and then failed in it. */
  predicate FailsInDirectory(s: Setup) {
    && (s.calls.podMode ==> AttachSteps(s).end == Returns)
    && s.calls.directory == Returns && s.calls.files.Errs?
  }

  /** Reading the pod address failed. */
  predicate FailsAtAddress(s: Setup) {
    s.calls.podMode && s.calls.namespace.Opened? && s.calls.attach == Returns && s.calls.address.Errs?
  }

  /** What a failed set-up acquired, and what it deferred clean-ups for. */
  lemma FailedSteps(s: Setup, r: Resource)
    requires Forward(s).end.Errs?
    ensures var c := s.calls;
            && (r in Forward(s).acquired <==>
                  || (c.podMode && c.namespace.Opened? && r == NamespaceOf(s))
                  || (c.podMode && c.namespace.Opened? && c.attach == Returns && r == Attachment(s.pod))
                  || (FailsInDirectory(s) && r == DirectoryOf(s)))
            && (r in Forward(s).deferred <==>
                  r in Forward(s).acquired && !(FailsAtAddress(s) && r == Attachment(s.pod)))
  {
  }

  lemma AttemptedIn(deferred: seq<Resource>, calls: NetworkCalls, r: Resource)
    ensures r in Attempted(deferred, calls) ==> r in deferred
    ensures CleanupsSucceed(calls) && r in deferred ==> r in Attempted(deferred, calls)
    ensures deferred != [] ==> Last(deferred) in Attempted(deferred, calls)
  {
    CleanupsReverse(deferred, calls);
    if CleanupsSucceed(calls) && r in deferred {
      var i :| 0 <= i < |deferred| && deferred[i] == r;
      assert Attempted(deferred, calls)[|deferred| - 1 - i] == r;
    }
  }

  /** With clean-ups succeeding a failed set-up leaves nothing of its own behind, except the
      attachment when reading the pod address failed. What it had acquired is gone even if the
      pod held it before; what others held is left alone, except that failing in its directory
      destroys that directory and all below it. */
  lemma FailedSetupLeaks(before: set<Resource>, s: Setup)
    requires Forward(s).end.Errs? && CleanupsSucceed(s.calls)
    ensures Held(before, SetupActions(s)) ==
            (set x | x in before && x !in Forward(s).deferred && !(FailsInDirectory(s) && Removes(DirectoryOf(s), x)))
            + (if FailsAtAddress(s) then {Attachment(s.pod)} else {})
  {
    var held := Held(before, SetupActions(s));
    forall x ensures x in held <==> LeftBehind(before, s, x) {
      HeldAfterFailure(before, s, x);
    }
  }

  predicate LeftBehind(before: set<Resource>, s: Setup, x: Resource) {
    || (x in before && x !in Forward(s).deferred && !(FailsInDirectory(s) && Removes(DirectoryOf(s), x)))
    || (FailsAtAddress(s) && x == Attachment(s.pod))
  }

  lemma HeldAfterFailure(before: set<Resource>, s: Setup, x: Resource)
    requires Forward(s).end.Errs? && CleanupsSucceed(s.calls)
    ensures x in Held(before, SetupActions(s)) <==> LeftBehind(before, s, x)
  {
    HeldAfterSetup(before, s);
    CleanedExactlyWhen(s, x);
    FailedSteps(s, x);
  }

  lemma CleanedExactlyWhen(s: Setup, x: Resource)
    requires Forward(s).end.Errs? && CleanupsSucceed(s.calls)
    ensures Cleaned(Cleanups(s), s.calls, x) <==>
            x in Forward(s).deferred || (FailsInDirectory(s) && Removes(DirectoryOf(s), x))
  {
    AttemptedIn(Forward(s).deferred, s.calls, x);
    AttemptedIn(Forward(s).deferred, s.calls, DirectoryOf(s));
    FailedSteps(s, DirectoryOf(s));
    if r :| r in Cleanups(s) && s.calls.Cleanup(r) == Returns && Removes(r, x) {
      AttemptedIn(Forward(s).deferred, s.calls, r);
      FailedSteps(s, r);
    }
  }

  /** A set-up that succeeds holds everything it acquired. */
  lemma SuccessfulSetupHolds(before: set<Resource>, s: Setup)
    requires Forward(s).end == Returns
    ensures Held(before, SetupActions(s)) ==
            before + {DirectoryOf(s)} + (if s.calls.podMode then {NamespaceOf(s), Attachment(s.pod)} else {})
  {
    HeldAfterSetup(before, s);
  }

  /** How the calls of the set-up end, in their order. */
  function StepEnds(s: Setup): seq<CallEnd> {
    var opening := match s.calls.namespace
                   case Opened(_) => Returns
                   case NotOpened(fault) => Errs(fault)
                   case Hollow => Dies;
    (if s.calls.podMode then [opening, s.calls.attach, s.calls.address] else []) + [s.calls.directory, s.calls.files]
  }

  /** A sequence of calls, each made only if the one before returned, ends as the first that
      does not return, or returns. */
  predicate EndsAs(ends: seq<CallEnd>, end: CallEnd) {
    if end == Returns then forall k :: 0 <= k < |ends| ==> ends[k] == Returns
    else exists k :: 0 <= k < |ends| && ends[k] == end && forall j :: 0 <= j < k ==> ends[j] == Returns
  }

  /** The set-up ends as its calls do, unless it returns an error and one of its clean-ups then
      ends the process. */
  lemma SetupEndsAsItsCalls(s: Setup)
    ensures EndsAs(StepEnds(s), Forward(s).end)
    ensures SetupEnd(s) == if Forward(s).end.Errs? && SomeDies(Cleanups(s), s.calls) then Dies else Forward(s).end
  {
    var ends, end := StepEnds(s), Forward(s).end;
    if end != Returns {
      var base := if s.calls.podMode then 3 else 0;
      var k := if s.calls.podMode && ends[0] != Returns then 0
               else if s.calls.podMode && ends[1] != Returns then 1
               else if s.calls.podMode && ends[2] != Returns then 2
               else if ends[base] != Returns then base else base + 1;
      assert ends[k] == end;
    }
  }

  /** A set-up succeeds exactly when every step of it does, and in pod mode it has then read
      the address that the plug-in reported. */
  lemma SetupSucceedsExactlyWhen(s: Setup)
    ensures SetupEnd(s) == Returns <==>
            && (s.calls.podMode ==>
                  s.calls.namespace.Opened? && s.calls.attach == Returns && s.calls.address == Returns)
            && s.calls.directory == Returns && s.calls.files == Returns
    ensures SetupEnd(s) == Returns ==> Forward(s).ip == if s.calls.podMode then Some(s.calls.ip) else None
  {
  }

  /** The directory of a path is the one of its last piece below the root: the root itself for
      none or for the same directory, and the one above it for the parent. */
  lemma DirectoryOfName(front: string, name: string)
    requires Free(name, '/')
    ensures NetNsDir(front + "/" + name) ==
            if name in {"", "."} then "/etc/netns" else if name == ".." then "/etc" else "/etc/netns/" + name
  {
    assert "/" == ['/'];
    LastPieceAfter(front, '/', name);
  }

  // ---- what one pod's set-up does to others ----

  /** Namespaces under other paths and attachments of other pods are left alone, whatever
      the set-up does. */
  lemma OthersKeepTheirNetworks(before: set<Resource>, s: Setup, x: Resource)
    requires !x.Directory? && x != NamespaceOf(s) && x != Attachment(s.pod)
    ensures x in Held(before, SetupActions(s)) <==> x in before
  {
    HeldAfterSetup(before, s);
    OwnSteps(s, x);
    AttemptedIn(Forward(s).deferred, s.calls, x);
  }

  lemma OwnSteps(s: Setup, x: Resource)
    requires !x.Directory? && x != NamespaceOf(s) && x != Attachment(s.pod)
    ensures x !in Forward(s).acquired && x !in Forward(s).deferred
  {
  }

  /** A directory that the host holds is destroyed by a set-up exactly when it lies at or
      below that of the set-up, the directory step succeeded, the files step failed, and
      the removal worked. */
  lemma DirectoryDestroyedExactlyWhen(before: set<Resource>, s: Setup, path: string)
    requires Directory(path) in before
    ensures Directory(path) !in Held(before, SetupActions(s)) <==>
            FailsInDirectory(s) && s.calls.directoryRemoval == Returns && Removes(DirectoryOf(s), Directory(path))
  {
    HeldAfterSetup(before, s);
    if Forward(s).end.Errs? {
      DirectoryCleanedExactlyWhen(s, Directory(path));
    }
  }

  lemma DirectoryCleanedExactlyWhen(s: Setup, x: Resource)
    requires Forward(s).end.Errs? && x.Directory?
    ensures Cleaned(Cleanups(s), s.calls, x) <==>
            FailsInDirectory(s) && s.calls.directoryRemoval == Returns && Removes(DirectoryOf(s), x)
  {
    if FailsInDirectory(s) {
      DirectoryAttempted(s);
    }
    if r :| r in Cleanups(s) && s.calls.Cleanup(r) == Returns && Removes(r, x) {
      OnlyItsDirectory(s, r);
    }
  }

  lemma DirectoryAttempted(s: Setup)
    requires FailsInDirectory(s)
    ensures Forward(s).end.Errs? && DirectoryOf(s) in Cleanups(s)
  {
    assert Last(Forward(s).deferred) == DirectoryOf(s);
    AttemptedIn(Forward(s).deferred, s.calls, DirectoryOf(s));
  }

  lemma OnlyItsDirectory(s: Setup, r: Resource)
    requires Forward(s).end.Errs? && r in Cleanups(s) && r.Directory?
    ensures FailsInDirectory(s) && r == DirectoryOf(s)
  {
    AttemptedIn(Forward(s).deferred, s.calls, r);
    FailedSteps(s, r);
  }

  function AllActions(setups: seq<Setup>): seq<Action> {
    if setups == [] then [] else SetupActions(setups[0]) + AllActions(setups[1..])
  }

  /** Over any sequence of set-ups a namespace or an attachment stays held unless a later
      set-up opens the same path or is for the same pod. */
  lemma {:induction false} NetworksOutliveSetups(before: set<Resource>, setups: seq<Setup>, x: Resource)
    requires !x.Directory? && x in before
    requires forall i :: 0 <= i < |setups| ==> x != NamespaceOf(setups[i]) && x != Attachment(setups[i].pod)
    ensures x in Held(before, AllActions(setups))
    decreases |setups|
  {
    if setups != [] {
      var s := setups[0];
      OthersKeepTheirNetworks(before, s, x);
      HeldAppend(before, SetupActions(s), AllActions(setups[1..]));
      NetworksOutliveSetups(Held(before, SetupActions(s)), setups[1..], x);
    }
  }
}
