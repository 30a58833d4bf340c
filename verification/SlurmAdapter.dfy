/** The Slurm adapter's operations on the shared container objects. */
module SlurmAdapter {
  import opened GoStrings
  import opened Records
  import opened SlurmText
  import opened Slurm
  import opened Metadata

  /** The cluster's side of a submission: errors, or the text `sbatch` printed, or the
      process ends in a call to the cluster. */
  datatype SbatchAnswer =
    Unreachable(fault: Fault) | Failing(fault: Fault) | Printing(output: string) | Dying(reached: bool)

  function Read(a: SbatchAnswer): SbatchRun {
    match a
    case Unreachable(fault) => NotRun(fault)
    case Failing(fault) => RunFailed(fault)
    case Printing(output) => ReadSbatch(output)
    case Dying(reached) => RunDies(reached)
  }

  /** What comes of a submission, from what the cluster does: nothing is submitted without access
      or when the scripts do not arrive; else the job is, and the start succeeds when the report
      prints a number of at most 64 bits, or, with 0 for a number, when it prints none. */
  lemma SubmissionExactly(c: Container, a: SbatchAnswer)
    ensures var s := Submit(c, Read(a));
            if !c.credentials then s == Submission(c.pid, Some(NoCredentials), false)
            else
              match a
              case Unreachable(fault) => s == Submission(c.pid, Some(fault), false)
              case Failing(fault) => s == Submission(c.pid, Some(fault), true)
              case Dying(reached) => s == Interrupted(reached)
              case Printing(output) =>
                && s.Submission? && s.submitted
                && (!Contains(output, SUBMITTED) ==> s.fault == Some(NoJobId) && s.pid == c.pid)
                && (forall noise, blanks ::
                      !Contains(noise, SUBMITTED) && Blank(blanks) && output == noise + SUBMITTED + blanks ==>
                        s == Submission(0, None, true))
                && forall noise, n: nat, blanks ::
                     !Contains(noise, SUBMITTED) && Blank(blanks) && output == SbatchReport(noise, n, blanks) ==>
                       if n <= MAX_INT then s == Submission(n, None, true)
                       else s == Submission(MAX_INT, Some(BadJobId), true)
  {
    if c.credentials && a.Printing? {
      if !Contains(a.output, SUBMITTED) {
        SplitNowhere(a.output, SUBMITTED);
      }
      forall noise, blanks |
        !Contains(noise, SUBMITTED) && Blank(blanks) && a.output == noise + SUBMITTED + blanks
        ensures ReadSbatch(a.output) == Numbered(0, true)
      {
        BlankJobId(noise, blanks);
      }
      forall noise, n: nat, blanks |
        !Contains(noise, SUBMITTED) && Blank(blanks) && a.output == SbatchReport(noise, n, blanks)
        ensures ReadSbatch(a.output) == if n <= MAX_INT then Numbered(n, true) else Numbered(MAX_INT, false)
      {
        ReportedJobId(noise, n, blanks);
        AtoiDigits(n);
      }
    }
  }

  /** Submits the job and stores its number as the pid; `s` says what came of it. */
  method StartContainer(cm: ContainerMetadata, answer: SbatchAnswer) returns (s: Submission)
    modifies cm
    ensures s == Submit(old(cm.Record()), Read(answer))
    ensures cm.Record() == old(cm.Record()).(pid := if s.Submission? then s.pid else old(cm.pid))
  {
    if !cm.credentials {
      return Submission(cm.pid, Some(NoCredentials), false);
    }
    match answer {
      case Unreachable(e) => return Submission(cm.pid, Some(e), false);
      case Failing(e) => return Submission(cm.pid, Some(e), true);
      case Dying(reached) => return Interrupted(reached);
      case Printing(output) =>
        var jobId := ParseJobId(output);
        if jobId.None? {
          return Submission(cm.pid, Some(NoJobId), true);
        }
        var pid, ok := 0, true;
        if jobId.value != "" {
          var n := Atoi(jobId.value);
          pid, ok := n.value, n.ok;
        }
        cm.pid := pid;
        return Submission(pid, if ok then None else Some(BadJobId), true);
    }
  }

  /** Sends the cancel command for the stored job. */
  method StopContainer(cm: ContainerMetadata, answer: ScancelAnswer) returns (end: CallEnd, command: Option<string>)
    ensures end == Cancel(cm.Record(), answer) && command == CommandOf(cm.Record(), answer)
    ensures command.Some? ==> command.value == CANCEL + Itoa(ToInt32(cm.pid))
  {
    if !cm.credentials {
      return Errs(NoCredentials), None;
    }
    match answer {
      case NoLoggers(fault) => return Errs(fault), None;
      case Ran(e) => return e, Some(CANCEL + Itoa(ToInt32(cm.pid)));
    }
  }

  /** No answer, `scontrol` output, or the accounting output when `scontrol` fails; or the
      process ends in a call to the cluster. */
  datatype SstatusAnswer = Missing(fault: Fault) | Control(output: string) | Accounts(output: string) | Dropped

  function ReadStatus(a: SstatusAnswer): StatusAnswer {
    match a
    case Missing(fault) => NoStatus(fault)
    case Control(output) => Known(StatusOf(AddLines(map[], Split(output, "\n"))))
    case Accounts(output) => ReadAccounting(output)
    case Dropped => StatusDies
  }

  /** A status answer ends the process exactly when the call does, or when the first line of
      the accounting output has too few bars. */
  lemma StatusDiesExactlyWhen(a: SstatusAnswer)
    ensures ReadStatus(a) == StatusDies <==>
            || a.Dropped?
            || (a.Accounts?
                && var line := AccountingLine(a.output);
                   CountChar(line, '|') < 2 || (CountChar(line, '|') < 4 && HasExitNumber(line)))
  {
    if a.Accounts? {
      AccountingPanicsExactlyWhen(a.output);
    }
  }

  /** A readable control report comes back as job state, reason and exit code of its last
      fields of these names. */
  lemma ControlReportIsRead(ls: seq<Line>)
    requires Readable(ls)
    ensures ReadStatus(Control(RenderReport(ls))) ==
            Known(JobStatus(ValueOf(ls, "JobState"), Atoi(ValueOf(ls, "ExitCode")).value, ValueOf(ls, "Reason"), 0, 0))
  {
    ReportedStatus(ls);
  }

  /** A status request on a container with a job fails exactly when the call does, with its
      fault, or when the exit code of the accounting line does not start with a number. */
  lemma StatusFailsExactlyWhen(c: Container, a: SstatusAnswer, fault: Fault)
    requires c.credentials && c.pid != 0 && ReadStatus(a) != StatusDies
    ensures Refresh(c, ReadStatus(a)) == Refreshed(c, Some(fault)) <==>
            || a == Missing(fault)
            || (a.Accounts? && fault == BadAccounting && !HasExitNumber(AccountingLine(a.output)))
  {
  }

  /** Maps the job state onto the record. */
  method SetJobState(cm: ContainerMetadata, status: JobStatus)
    modifies cm
    ensures cm.Record() == WithJobState(old(cm.Record()), status)
  {
    if status.jobState == "RUNNING" {
      cm.state := RUNNING;
    } else if status.jobState == "COMPLETED" || status.jobState == "COMPLETING" {
      cm.state, cm.exitCode, cm.reason, cm.finishedAt := EXITED, status.exitCode, Completed, status.endTime;
    } else if status.jobState == "CANCELLED" || status.jobState == "TIMEOUT" {
      cm.state, cm.exitCode, cm.reason, cm.finishedAt := EXITED, 1, OomKilled, status.endTime;
    } else if status.jobState == "FAILED" || status.jobState == "NODE_FAIL" {
      cm.state := EXITED;
      if status.exitCode == 0 {
        cm.exitCode := 1;
      }
      cm.reason := JobEnded(status.jobState);
    } else {
      cm.state := CREATED;
    }
  }

  method ContainerStatus(cm: ContainerMetadata, answer: SstatusAnswer) returns (end: CallEnd)
    modifies cm
    ensures Refresh(old(cm.Record()), ReadStatus(answer)) ==
            match end
            case Returns => Refreshed(cm.Record(), None)
            case Errs(fault) => Refreshed(cm.Record(), Some(fault))
            case Dies => Halted(cm.Record())
  {
    if !cm.credentials {
      return Errs(NoCredentials);
    }
    if cm.pid != 0 {
      match answer {
        case Missing(e) => return Errs(e);
        case Dropped => return Dies;
        case Control(output) =>
          var status := ParseControlStatus(output);
          SetJobState(cm, status);
        case Accounts(output) =>
          match ParseAcctStatus(output) {
            case AccountingStatus(status) => SetJobState(cm, status);
            case AccountingError => return Errs(BadAccounting);
            case AccountingPanic => return Dies;
          }
      }
    }
    return Returns;
  }
}
