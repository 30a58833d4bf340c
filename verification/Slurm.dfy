/** The Slurm adapter as functions of a container record and of what the cluster answers. */
module Slurm {
  import opened GoStrings
  import opened Records
  import opened SlurmText

  /** A client needs a key or a password in the container's environment. */
  predicate HasCredentials(environment: map<string, string>) {
    Lookup(environment, "CLUSTER_KEYVALUE") != "" || Lookup(environment, "CLUSTER_PASSWORD") != ""
  }

  datatype KeyValue = KeyValue(key: string, value: string)

  /** The environment a request lists: the last value given for each key. */
  function EnvironmentOf(envs: seq<KeyValue>): map<string, string> {
    if envs == [] then map[]
    else
      var last := envs[|envs| - 1];
      EnvironmentOf(envs[..|envs| - 1])[last.key := last.value]
  }

  predicate IsCredential(key: string) {
    key == "CLUSTER_KEYVALUE" || key == "CLUSTER_PASSWORD"
  }

  /** The last entry of a list for its key. */
  predicate LastOfKey(envs: seq<KeyValue>, i: nat)
    requires i < |envs|
  {
    forall j :: i < j < |envs| ==> envs[j].key != envs[i].key
  }

  lemma {:induction false} EnvironmentHoldsLast(envs: seq<KeyValue>, key: string)
    ensures key in EnvironmentOf(envs) <==> exists i :: 0 <= i < |envs| && envs[i].key == key
    ensures forall i :: 0 <= i < |envs| && envs[i].key == key && LastOfKey(envs, i) ==>
              key in EnvironmentOf(envs) && EnvironmentOf(envs)[key] == envs[i].value
  {
    if envs != [] {
      var front, last := envs[..|envs| - 1], envs[|envs| - 1];
      EnvironmentHoldsLast(front, key);
      assert forall i :: 0 <= i < |front| ==> front[i] == envs[i];
      forall i | 0 <= i < |envs| && envs[i].key == key && LastOfKey(envs, i)
        ensures key in EnvironmentOf(envs) && EnvironmentOf(envs)[key] == envs[i].value
      {
        if i < |front| {
          assert LastOfKey(front, i);
          assert last.key != key;
        }
      }
    }
  }

  lemma {:induction false} SomeLast(envs: seq<KeyValue>, i: nat) returns (last: nat)
    requires i < |envs|
    ensures i <= last < |envs| && envs[last].key == envs[i].key && LastOfKey(envs, last)
    decreases |envs| - i
  {
    if j :| i < j < |envs| && envs[j].key == envs[i].key {
      last := SomeLast(envs, j);
    } else {
      last := i;
    }
  }

  /** A request gives access to the cluster exactly when, for the key variable or the password
      variable, the last entry of its list has a value. */
  lemma AccessExactlyWhen(envs: seq<KeyValue>)
    ensures HasCredentials(EnvironmentOf(envs)) <==>
            exists i :: 0 <= i < |envs| && IsCredential(envs[i].key) && envs[i].value != "" && LastOfKey(envs, i)
  {
    EnvironmentHoldsLast(envs, "CLUSTER_KEYVALUE");
    EnvironmentHoldsLast(envs, "CLUSTER_PASSWORD");
    var e := EnvironmentOf(envs);
    if HasCredentials(e) {
      var key := if Lookup(e, "CLUSTER_KEYVALUE") != "" then "CLUSTER_KEYVALUE" else "CLUSTER_PASSWORD";
      var i :| 0 <= i < |envs| && envs[i].key == key;
      var last := SomeLast(envs, i);
      assert e[key] == envs[last].value;
    }
  }

  // ---- submission ----

  /** The scripts may not reach the cluster, the run script may fail, or it prints text
      without a job id, or with one that converts to `pid` or does not convert; or the
      process ends meanwhile, before or after the job was submitted. */
  datatype SbatchRun = NotRun(fault: Fault) | RunFailed(fault: Fault) | Unnumbered | Numbered(pid: int, ok: bool)
    | RunDies(reached: bool)

  /** What a printed submission report amounts to. */
  function ReadSbatch(output: string): SbatchRun {
    match ParseJobId(output)
    case None => Unnumbered
    case Some(jobId) => var pid := JobPid(jobId); Numbered(pid.value, pid.ok)
  }

  datatype Submission = Submission(pid: int, fault: Option<Fault>, submitted: bool) | Interrupted(submitted: bool)

  function Submit(c: Container, run: SbatchRun): Submission {
    if !c.credentials then Submission(c.pid, Some(NoCredentials), false)
    else
      match run
      case NotRun(fault) => Submission(c.pid, Some(fault), false)
      case RunFailed(fault) => Submission(c.pid, Some(fault), true)
      case Unnumbered => Submission(c.pid, Some(NoJobId), true)
      case Numbered(pid, ok) => Submission(pid, if ok then None else Some(BadJobId), true)
      case RunDies(reached) => Interrupted(reached)
  }

  /** Submitting job `n` starts the container with that pid, and its cancel command names
      the job, exactly when `n` fits in 32 bits; beyond 64 bits the start fails. */
  lemma SubmittedJobIsCancelledExactlyWhen(c: Container, noise: string, n: nat, blanks: string)
    requires c.credentials && !Contains(noise, SUBMITTED) && Blank(blanks)
    ensures var s := Submit(c, ReadSbatch(SbatchReport(noise, n, blanks)));
            && s.Submission? && s.submitted
            && (s.fault.None? && s.pid == n <==> n <= MAX_INT)
            && (CancelCommand(s.pid) == CANCEL + Itoa(n) <==> n < 0x8000_0000)
  {
    JobIdRoundTripExactlyWhen(noise, n, blanks);
  }

  // ---- status ----

  /** The job states the adapter knows; a job in any other one is taken for queued. */
  const JOB_STATES: set<string> :=
    {"RUNNING", "COMPLETED", "COMPLETING", "CANCELLED", "TIMEOUT", "FAILED", "NODE_FAIL"}

  datatype StatusAnswer = NoStatus(fault: Fault) | Known(status: JobStatus) | StatusDies

  /** What accounting answers amounts to. */
  function ReadAccounting(output: string): StatusAnswer {
    match ParseAcctStatus(output)
    case AccountingStatus(status) => Known(status)
    case AccountingError => NoStatus(BadAccounting)
    case AccountingPanic => StatusDies
  }

  datatype Refreshed = Refreshed(container: Container, fault: Option<Fault>) | Halted(container: Container)

  function WithJobState(c: Container, status: JobStatus): Container {
    if status.jobState == "RUNNING" then c.(state := RUNNING)
    else if status.jobState == "COMPLETED" || status.jobState == "COMPLETING" then
      c.(state := EXITED, exitCode := status.exitCode, reason := Completed, finishedAt := status.endTime)
    else if status.jobState == "CANCELLED" || status.jobState == "TIMEOUT" then
      c.(state := EXITED, exitCode := 1, reason := OomKilled, finishedAt := status.endTime)
    else if status.jobState == "FAILED" || status.jobState == "NODE_FAIL" then
      c.(state := EXITED, exitCode := if status.exitCode == 0 then 1 else c.exitCode,
         reason := JobEnded(status.jobState))
    else c.(state := CREATED)
  }

  function Refresh(c: Container, answer: StatusAnswer): Refreshed {
    if !c.credentials then Refreshed(c, Some(NoCredentials))
    else if c.pid == 0 then Refreshed(c, None)
    else
      match answer
      case NoStatus(fault) => Refreshed(c, Some(fault))
      case Known(status) => Refreshed(WithJobState(c, status), None)
      case StatusDies => Halted(c)
  }

  /** What each job state makes of a container that has a job. Of a failed one only whether its
      exit code is zero counts, and then the wrong way round: zero is recorded as 1, any other
      code as the 0 that the record still holds. */
  lemma StateNameDecides(c: Container, status: JobStatus)
    requires c.credentials && c.pid != 0
    ensures var name, r := status.jobState, Refresh(c, Known(status));
            var d := r.container;
            && r == Refreshed(d, None)
            && (name == "RUNNING" <==> d.state == RUNNING)
            && (name == "COMPLETED" || name == "COMPLETING" ==>
                  d.state == EXITED && d.exitCode == status.exitCode && d.reason == Completed
                  && d.finishedAt == status.endTime)
            && (name == "CANCELLED" || name == "TIMEOUT" ==>
                  d.state == EXITED && d.exitCode == 1 && d.reason == OomKilled && d.finishedAt == status.endTime)
            && (name == "FAILED" || name == "NODE_FAIL" ==>
                  d.state == EXITED && d.exitCode == (if status.exitCode == 0 then 1 else c.exitCode)
                  && d.reason == JobEnded(name) && d.finishedAt == c.finishedAt)
            && (name !in JOB_STATES <==> d.state == CREATED)
  {
  }

  /** A job in any other state is taken for queued: its container counts as created again. */
  lemma OtherStateMeansQueued(c: Container, status: JobStatus)
    requires c.credentials && c.pid != 0
    ensures Refresh(c, Known(status)) == Refreshed(c.(state := CREATED), None) <==> status.jobState !in JOB_STATES
  {
  }

  /** A job that only accounting still knows is taken for queued, whatever its state, unless
      its start time is the name of a job state. */
  lemma AccountingMeansQueued(c: Container, start: string, end: string, exitCode: string, state: string,
                              comment: string, more: string)
    requires c.credentials && c.pid != 0
    requires ReadableRow(AccountingRow(start, end, exitCode, state, comment)) && (more == "" || more[0] == '\n')
    requires Atoi(Split(exitCode, ":")[0]).ok
    ensures var answer := ReadAccounting(RenderRow(AccountingRow(start, end, exitCode, state, comment)) + more);
            Refresh(c, answer) == Refreshed(c.(state := CREATED), None) <==>
            start !in JOB_STATES
  {
    AccountingReadsStartAsState(start, end, exitCode, state, comment, more);
    var code := Atoi(Split(exitCode, ":")[0]).value;
    OtherStateMeansQueued(c, JobStatus(start, code, if state != "" then state else start, 0, 0));
  }

  // ---- cancellation ----

  /** The cluster's side of a cancellation: the loggers may not open, and then nothing is sent. */
  datatype ScancelAnswer = NoLoggers(fault: Fault) | Ran(end: CallEnd)

  function Cancel(c: Container, scancel: ScancelAnswer): CallEnd {
    if !c.credentials then Errs(NoCredentials)
    else match scancel case NoLoggers(fault) => Errs(fault) case Ran(end) => end
  }

  /** The command that reaches the cluster, if any. */
  function CommandOf(c: Container, scancel: ScancelAnswer): Option<string> {
    if c.credentials && scancel.Ran? then Some(CancelCommand(c.pid)) else None
  }

  /** A cancellation reaches the cluster exactly with access and open loggers. It names the job
      by the low 32 bits of its number, and ends as the command does. */
  lemma CancelsExactly(c: Container, scancel: ScancelAnswer)
    ensures CommandOf(c, scancel).Some? <==> c.credentials && scancel.Ran?
    ensures CommandOf(c, scancel).Some? ==>
              && Cancel(c, scancel) == scancel.end
              && exists n :: -0x8000_0000 <= n < 0x8000_0000 && (c.pid - n) % 0x1_0000_0000 == 0 &&
                             CommandOf(c, scancel).value == "scancel " + Itoa(n)
    ensures CommandOf(c, scancel).None? ==>
              Cancel(c, scancel) == Errs(if c.credentials then scancel.fault else NoCredentials)
  {
    var n := ToInt32(c.pid);
    assert CancelCommand(c.pid) == "scancel " + Itoa(n);
  }

  /** Only the lifecycle fields may differ. */
  predicate SameIdentity(c: Container, d: Container) {
    c == d.(state := c.state, startedAt := c.startedAt, finishedAt := c.finishedAt, reason := c.reason,
            exitCode := c.exitCode, pid := c.pid)
  }

  /** A status answer sets the exit fields only together with the exited state, and never
      touches the job number. */
  lemma RefreshSetsExitFields(c: Container, answer: StatusAnswer)
    ensures var d := Refresh(c, answer).container;
            && SameIdentity(d, c) && d.pid == c.pid && d.startedAt == c.startedAt
            && (d.state == EXITED || d.state == RUNNING || d.state == CREATED || d.state == c.state)
            && (d.state != EXITED ==> d == c.(state := d.state))
            && (Refresh(c, answer).Halted? || Refresh(c, answer).fault.Some? ==> d == c)
  {
  }
}
