/** The text exchanged with the Slurm commands: the job id that `sbatch` reports, the
    cancel command, and the `scontrol` status report. */
module SlurmText {
  import opened GoStrings
  import opened Records

  // ---- job ids ----

  const SUBMITTED := "Submitted batch job "

  /** The text between the first marker and the next one, without surrounding blanks. */
  function ParseJobId(response: string): Option<string> {
    var pieces := Split(response, SUBMITTED);
    if |pieces| > 1 then Some(TrimSpace(pieces[1])) else None
  }

  /** The pid a submission stores: `ok` is false when the id is not a 64-bit number. */
  function JobPid(jobId: string): Conversion {
    if jobId == "" then Conversion(0, true) else Atoi(jobId)
  }

  const CANCEL := "scancel "

  function CancelCommand(pid: int): string {
    CANCEL + Itoa(ToInt32(pid))
  }

  /** What `sbatch` prints for job `n`, after any text without the marker. */
  function SbatchReport(noise: string, n: nat, blanks: string): string {
    noise + "Submitted batch job " + (Digits(n) + blanks)
  }

  /** After noise without the marker, the first marker stands right behind the noise. */
  lemma FirstMarkerAfterNoise(noise: string, rest: string)
    requires !Contains(noise, SUBMITTED)
    ensures Index(noise + SUBMITTED + rest, SUBMITTED) == |noise|
  {
    var s := noise + SUBMITTED + rest;
    forall k | 0 <= k < |noise| ensures !Occurs(s, SUBMITTED, k) {
      MarkerDoesNotOverlap(noise, rest, k);
    }
    assert Occurs(s, SUBMITTED, |noise|);
    IndexIs(s, SUBMITTED, |noise|);
  }

  /** The marker's first letter occurs nowhere else in it, so two occurrences are disjoint. */
  lemma MarkerDoesNotOverlap(noise: string, rest: string, k: nat)
    requires k < |noise|
    requires !Contains(noise, SUBMITTED)
    ensures !Occurs(noise + SUBMITTED + rest, SUBMITTED, k)
  {
    var s := noise + SUBMITTED + rest;
    if k + |SUBMITTED| <= |noise| {
      assert s[k..k + |SUBMITTED|] == noise[k..k + |SUBMITTED|];
      assert !Occurs(noise, SUBMITTED, k);
    } else {
      var d := |noise| - k;
      assert k + |SUBMITTED| <= |s| ==> s[k..k + |SUBMITTED|][d] == s[|noise|] == SUBMITTED[0] == 'S';
      assert forall j :: 0 < j < |SUBMITTED| ==> SUBMITTED[j] != 'S';
    }
  }

  lemma NumberWithoutMarker(n: nat, blanks: string)
    requires Blank(blanks)
    ensures !Contains(Digits(n) + blanks, SUBMITTED)
  {
    var tail := Digits(n) + blanks;
    DigitsSolid(n);
    forall k | 0 <= k && k + |SUBMITTED| <= |tail| ensures !Occurs(tail, SUBMITTED, k) {
      assert tail[k..k + |SUBMITTED|][0] == tail[k] != SUBMITTED[0];
    }
  }

  lemma ReportSplits(noise: string, n: nat, blanks: string)
    requires !Contains(noise, SUBMITTED) && Blank(blanks)
    ensures Split(SbatchReport(noise, n, blanks), SUBMITTED) == [noise, Digits(n) + blanks]
  {
    FirstMarkerAfterNoise(noise, Digits(n) + blanks);
    NumberWithoutMarker(n, blanks);
    SplitBetween(noise, SUBMITTED, Digits(n) + blanks);
  }

  lemma TrimmedNumber(n: nat, blanks: string)
    requires Blank(blanks)
    ensures TrimSpace(Digits(n) + blanks) == Digits(n)
  {
    DigitsSolid(n);
    TrimFinds("", Digits(n), blanks);
    assert "" + Digits(n) + blanks == Digits(n) + blanks;
  }

  lemma ReportedJobId(noise: string, n: nat, blanks: string)
    requires !Contains(noise, SUBMITTED) && Blank(blanks)
    ensures ParseJobId(SbatchReport(noise, n, blanks)) == Some(Digits(n))
  {
    ReportSplits(noise, n, blanks);
    TrimmedNumber(n, blanks);
  }

  /** A report without a number has the empty job id. */
  lemma BlankJobId(noise: string, blanks: string)
    requires !Contains(noise, SUBMITTED) && Blank(blanks)
    ensures ParseJobId(noise + SUBMITTED + blanks) == Some("")
  {
    assert !Contains(blanks, SUBMITTED) by {
      forall k | 0 <= k && k + |SUBMITTED| <= |blanks| ensures !Occurs(blanks, SUBMITTED, k) {
        assert blanks[k..k + |SUBMITTED|][0] == blanks[k] != SUBMITTED[0];
      }
    }
    FirstMarkerAfterNoise(noise, blanks);
    SplitBetween(noise, SUBMITTED, blanks);
    TrimFinds("", "", blanks);
    assert "" + "" + blanks == blanks;
  }

  /** A reported job number is stored, and the later cancel command names it, exactly up
      to 2^31 - 1: above that the 32-bit reference names another job, and above 2^63 - 1
      the number is not stored at all. */
  lemma JobIdRoundTripExactlyWhen(noise: string, n: nat, blanks: string)
    requires !Contains(noise, SUBMITTED) && Blank(blanks)
    ensures var jobId := ParseJobId(SbatchReport(noise, n, blanks));
            jobId.Some? && (JobPid(jobId.value) == Conversion(n, true) <==> n <= MAX_INT)
    ensures var jobId := ParseJobId(SbatchReport(noise, n, blanks));
            CancelCommand(JobPid(jobId.value).value) == "scancel " + Itoa(n) <==> n < 0x8000_0000
  {
    ReportedJobId(noise, n, blanks);
    AtoiDigits(n);
    var pid := JobPid(Digits(n)).value;
    if CancelCommand(pid) == CANCEL + Itoa(n) {
      SamePrefix(CANCEL, Itoa(ToInt32(pid)), Itoa(n));
      ItoaInjective(ToInt32(pid), n);
    }
  }

  lemma SamePrefix(p: string, a: string, b: string)
    requires p + a == p + b
    ensures a == b
  {
    assert a == (p + a)[|p|..] && b == (p + b)[|p|..];
  }

  // ---- status reports ----

  datatype JobStatus = JobStatus(jobState: string, exitCode: int, reason: string, startTime: int, endTime: int)

  type Fields = map<string, string>

  function Lookup(fields: Fields, key: string): string {
    if key in fields then fields[key] else ""
  }

  /** One blank-separated item of a report line. */
  function AddItem(fields: Fields, item: string): Fields {
    var parts := Split(item, "=");
    if |parts| > 1 then fields[TrimSpace(parts[0]) := TrimSpace(parts[1])] else fields
  }

  function AddItems(fields: Fields, items: seq<string>): Fields
    decreases |items|
  {
    if items == [] then fields else AddItems(AddItem(fields, items[0]), items[1..])
  }

  function ItemsOf(line: string): seq<string> {
    Split(TrimSpace(line), " ")
  }

  function AddLines(fields: Fields, lines: seq<string>): Fields
    decreases |lines|
  {
    if lines == [] then fields else AddLines(AddItems(fields, ItemsOf(lines[0])), lines[1..])
  }

  /** Dates other than "Unknown" yield 0 at once, and "Unknown" does not parse: 0 again. */
  function ParseDate(text: string): int {
    0
  }

  function StatusOf(fields: Fields): JobStatus {
    JobStatus(Lookup(fields, "JobState"), Atoi(Lookup(fields, "ExitCode")).value, Lookup(fields, "Reason"),
              ParseDate(Lookup(fields, "StartTime")), ParseDate(Lookup(fields, "EndTime")))
  }

  method ParseControlStatus(stdout: string) returns (status: JobStatus)
    ensures status == StatusOf(AddLines(map[], Split(stdout, "\n")))
    ensures forall ls :: Readable(ls) && stdout == RenderReport(ls) ==> status == Reported(ls)
  {
    var jobInfo: Fields := map[];
    var lines := Split(stdout, "\n");
    var n := 0;
    while n < |lines|
      invariant 0 <= n <= |lines|
      invariant AddLines(map[], lines) == AddLines(jobInfo, lines[n..])
    {
      var items := Split(TrimSpace(lines[n]), " ");
      ghost var before := jobInfo;
      var k := 0;
      while k < |items|
        invariant 0 <= k <= |items|
        invariant AddItems(before, items) == AddItems(jobInfo, items[k..])
      {
        var item := Split(items[k], "=");
        if |item| > 1 {
          jobInfo := jobInfo[TrimSpace(item[0]) := TrimSpace(item[1])];
        }
        k := k + 1;
      }
      n := n + 1;
    }
    var exitCode := 0;
    if "ExitCode" in jobInfo {
      exitCode := Atoi(jobInfo["ExitCode"]).value;
    }
    ReportsRead(stdout);
    return JobStatus(Lookup(jobInfo, "JobState"), exitCode, Lookup(jobInfo, "Reason"),
                     ParseDate(Lookup(jobInfo, "StartTime")), ParseDate(Lookup(jobInfo, "EndTime")));
  }

  // ---- reports as Slurm lays them out ----

  /** A field of a report, or a word that holds no '=': the empty one is what two blanks in
      a row produce. */
  datatype Item = Field(key: string, value: string) | Word(text: string)

  /** A report line: any indentation, items separated by single blanks, trailing blanks. */
  datatype Line = Line(indent: string, items: seq<Item>, trail: string)

  predicate Plain(s: string) {
    Solid(s) && Free(s, '=')
  }

  /** Values may hold anything but white space; keys also no '='. */
  predicate ReadableItem(i: Item) {
    match i
    case Field(key, value) => Plain(key) && Solid(value)
    case Word(text) => Plain(text)
  }

  predicate ReadableLine(l: Line) {
    && Blank(l.indent) && Free(l.indent, '\n') && Blank(l.trail) && Free(l.trail, '\n')
    && (forall k :: 0 <= k < |l.items| ==> ReadableItem(l.items[k]))
    && (l.items != [] ==> RenderItem(l.items[0]) != "" && RenderItem(Last(l.items)) != "")
  }

  predicate Readable(ls: seq<Line>) {
    forall k :: 0 <= k < |ls| ==> ReadableLine(ls[k])
  }

  function RenderItem(i: Item): string {
    match i
    case Field(key, value) => key + "=" + value
    case Word(text) => text
  }

  function RenderItems(items: seq<Item>): (r: seq<string>)
    ensures |r| == |items|
    ensures forall k :: 0 <= k < |items| ==> r[k] == RenderItem(items[k])
  {
    if items == [] then [] else [RenderItem(items[0])] + RenderItems(items[1..])
  }

  function RenderLine(l: Line): string {
    l.indent + Join(RenderItems(l.items), " ") + l.trail
  }

  function RenderLines(ls: seq<Line>): (r: seq<string>)
    ensures |r| == |ls|
    ensures forall k :: 0 <= k < |ls| ==> r[k] == RenderLine(ls[k])
  {
    if ls == [] then [] else [RenderLine(ls[0])] + RenderLines(ls[1..])
  }

  function RenderReport(ls: seq<Line>): string {
    Join(RenderLines(ls), "\n")
  }

  /** The value of a field up to its first '='. */
  function UpToEquals(value: string): string {
    Split(value, "=")[0]
  }

  function AllItems(ls: seq<Line>): seq<Item> {
    if ls == [] then [] else ls[0].items + AllItems(ls[1..])
  }

  /** The last field with the key, in reading order: the value it holds up to its first '='. */
  function LastValue(items: seq<Item>, key: string): Option<string> {
    if items == [] then None
    else if Last(items).Field? && Last(items).key == key then Some(UpToEquals(Last(items).value))
    else LastValue(items[..|items| - 1], key)
  }

  /** The text that a report gives for a key: of its last field with the key, if any. */
  function ValueOf(ls: seq<Line>, key: string): string {
    match LastValue(AllItems(ls), key) case Some(v) => v case None => ""
  }

  lemma SplitField(key: string, value: string)
    requires Plain(key) && Solid(value)
    ensures var parts := Split(key + "=" + value, "=");
            |parts| > 1 && TrimSpace(parts[0]) == key && TrimSpace(parts[1]) == UpToEquals(value)
  {
    assert "=" == ['='];
    IndexOfChar(key, '=', value);
    var s := key + ['='] + value;
    assert s[..|key|] == key && s[|key| + 1..] == value;
    TrimSolid(key);
    var i := Index(value, "=");
    assert UpToEquals(value) == if i < 0 then value else value[..i];
    TrimSolid(UpToEquals(value));
  }

  lemma WordIsNoField(text: string)
    requires Free(text, '=')
    ensures Split(text, "=") == [text]
  {
    assert "=" == ['='];
    FreeIndex(text, '=');
    SplitNowhere(text, "=");
  }

  lemma AddRenderedItem(fields: Fields, item: Item)
    requires ReadableItem(item)
    ensures AddItem(fields, RenderItem(item)) ==
            if item.Field? then fields[item.key := UpToEquals(item.value)] else fields
  {
    match item
    case Field(key, value) => SplitField(key, value);
    case Word(text) => WordIsNoField(text);
  }

  /** Items one at a time, as fields. */
  function Record(fields: Fields, items: seq<Item>): Fields {
    if items == [] then fields
    else
      var before := Record(fields, items[..|items| - 1]);
      if Last(items).Field? then before[Last(items).key := UpToEquals(Last(items).value)] else before
  }

  lemma {:induction false} AddItemsAppend(fields: Fields, a: seq<string>, b: seq<string>)
    ensures AddItems(fields, a + b) == AddItems(AddItems(fields, a), b)
    decreases |a|
  {
    if a == [] {
      assert a + b == b;
    } else {
      assert (a + b)[1..] == a[1..] + b;
      AddItemsAppend(AddItem(fields, a[0]), a[1..], b);
    }
  }

  lemma AddOneItem(fields: Fields, item: string)
    ensures AddItems(fields, [item]) == AddItem(fields, item)
  {
    assert [item][1..] == [];
  }

  lemma LastRendered(items: seq<Item>)
    requires items != []
    ensures RenderItems(items) == RenderItems(items[..|items| - 1]) + [RenderItem(Last(items))]
  {
  }

  lemma {:induction false} AddRenderedItems(fields: Fields, items: seq<Item>)
    requires forall k :: 0 <= k < |items| ==> ReadableItem(items[k])
    ensures AddItems(fields, RenderItems(items)) == Record(fields, items)
  {
    if items != [] {
      var front, last := items[..|items| - 1], Last(items);
      LastRendered(items);
      AddItemsAppend(fields, RenderItems(front), [RenderItem(last)]);
      AddRenderedItems(fields, front);
      AddRenderedItem(Record(fields, front), last);
      AddOneItem(Record(fields, front), RenderItem(last));
    }
  }

  lemma {:induction false} RecordAppend(fields: Fields, a: seq<Item>, b: seq<Item>)
    ensures Record(fields, a + b) == Record(Record(fields, a), b)
  {
    if b == [] {
      assert a + b == a;
    } else {
      assert (a + b)[..|a + b| - 1] == a + b[..|b| - 1];
      RecordAppend(fields, a, b[..|b| - 1]);
    }
  }

  lemma {:induction false} RecordKeepsLast(items: seq<Item>, key: string)
    ensures Lookup(Record(map[], items), key) == match LastValue(items, key) case Some(v) => v case None => ""
  {
    if items != [] {
      RecordKeepsLast(items[..|items| - 1], key);
    }
  }

  lemma {:induction false} JoinShape(pieces: seq<string>, c: char)
    requires pieces != [] && pieces[0] != "" && Last(pieces) != ""
    ensures var s := Join(pieces, [c]); s != "" && s[0] == pieces[0][0] && Last(s) == Last(Last(pieces))
  {
    if |pieces| > 1 {
      JoinEnds(pieces[1..], c);
    }
  }

  lemma {:induction false} JoinEnds(pieces: seq<string>, c: char)
    requires pieces != [] && Last(pieces) != ""
    ensures var s := Join(pieces, [c]); s != "" && Last(s) == Last(Last(pieces))
  {
    if |pieces| > 1 {
      JoinEnds(pieces[1..], c);
    }
  }

  lemma {:induction false} JoinFree(pieces: seq<string>, sep: char, c: char)
    requires sep != c && forall k :: 0 <= k < |pieces| ==> Free(pieces[k], c)
    ensures Free(Join(pieces, [sep]), c)
  {
    if |pieces| > 1 {
      JoinFree(pieces[1..], sep, c);
    }
  }

  lemma SolidIsFree(s: string)
    requires Solid(s)
    ensures Free(s, ' ') && Free(s, '\n')
  {
    assert IsSpace(' ') && IsSpace('\n');
  }

  lemma RenderedItemSolid(i: Item)
    requires ReadableItem(i)
    ensures Solid(RenderItem(i))
  {
  }

  /** The text between the indentation and the trailing blanks of a line. */
  lemma CoreOf(l: Line) returns (core: string)
    requires ReadableLine(l)
    ensures core == Join(RenderItems(l.items), [' ']) && Free(core, '\n')
    ensures core == "" || (!IsSpace(core[0]) && !IsSpace(Last(core)))
    ensures Split(core, [' ']) == if l.items == [] then [""] else RenderItems(l.items)
  {
    var pieces := RenderItems(l.items);
    core := Join(pieces, [' ']);
    forall k | 0 <= k < |pieces| ensures Solid(pieces[k]) && Free(pieces[k], ' ') && Free(pieces[k], '\n') {
      RenderedItemSolid(l.items[k]);
      SolidIsFree(pieces[k]);
    }
    JoinFree(pieces, ' ', '\n');
    if l.items != [] {
      RenderedItemSolid(l.items[0]);
      RenderedItemSolid(Last(l.items));
      JoinShape(pieces, ' ');
      SplitJoin(pieces, ' ');
    }
  }

  /** Whatever the indentation and trailing blanks, a line is cut into its items. */
  lemma ItemsOfLine(fields: Fields, l: Line)
    requires ReadableLine(l)
    ensures AddItems(fields, ItemsOf(RenderLine(l))) == Record(fields, l.items)
    ensures Free(RenderLine(l), '\n')
  {
    assert " " == [' '];
    var core := CoreOf(l);
    TrimFinds(l.indent, core, l.trail);
    if l.items == [] {
      assert Split("", "=") == [""];
      assert [""][1..] == [];
    } else {
      AddRenderedItems(fields, l.items);
    }
  }

  lemma {:induction false} AddRenderedLines(fields: Fields, ls: seq<Line>)
    requires Readable(ls)
    ensures AddLines(fields, RenderLines(ls)) == Record(fields, AllItems(ls))
    decreases |ls|
  {
    if ls != [] {
      ItemsOfLine(fields, ls[0]);
      AddRenderedLines(Record(fields, ls[0].items), ls[1..]);
      RecordAppend(fields, ls[0].items, AllItems(ls[1..]));
      assert RenderLines(ls)[1..] == RenderLines(ls[1..]);
    }
  }

  /** Reading a rendered report returns, for every key, the value of its last field up to
      the value's first '=', whatever the line layout; so JobState and Reason come back
      whole exactly when their last value holds no '='. */
  lemma ReportReadsLastFields(ls: seq<Line>, key: string)
    requires Readable(ls)
    ensures Lookup(AddLines(map[], Split(RenderReport(ls), "\n")), key) ==
            ValueOf(ls, key)
  {
    assert "\n" == ['\n'];
    var lines := RenderLines(ls);
    forall k | 0 <= k < |lines| ensures Free(lines[k], '\n') {
      ItemsOfLine(map[], ls[k]);
    }
    if ls == [] {
      assert Split("", "=") == [""] && Split("", "\n") == [""] && Split("", " ") == [""];
      assert [""][1..] == [];
    } else {
      SplitJoin(lines, '\n');
      AddRenderedLines(map[], ls);
    }
    RecordKeepsLast(AllItems(ls), key);
  }

  /** The status in a readable report: job state and reason of the last fields of these names,
      the exit code of the last field of that name where it converts, and no dates. */
  function Reported(ls: seq<Line>): JobStatus {
    JobStatus(ValueOf(ls, "JobState"), Atoi(ValueOf(ls, "ExitCode")).value, ValueOf(ls, "Reason"), 0, 0)
  }

  /** It is what the parser makes of the report's text. */
  lemma ReportedStatus(ls: seq<Line>)
    requires Readable(ls)
    ensures StatusOf(AddLines(map[], Split(RenderReport(ls), "\n"))) == Reported(ls)
  {
    ReportReadsLastFields(ls, "JobState");
    ReportReadsLastFields(ls, "Reason");
    ReportReadsLastFields(ls, "ExitCode");
  }

  lemma ReportsRead(stdout: string)
    ensures forall ls :: Readable(ls) && stdout == RenderReport(ls) ==>
              StatusOf(AddLines(map[], Split(stdout, "\n"))) == Reported(ls)
  {
    forall ls | Readable(ls) && stdout == RenderReport(ls)
      ensures StatusOf(AddLines(map[], Split(stdout, "\n"))) == Reported(ls)
    {
      ReportedStatus(ls);
    }
  }

  /** An exit code that is printed with its signal, after a colon, is read as 0. */
  lemma SignalHidesExitCode(code: string, signal: string)
    ensures Atoi(code + ":" + signal) == Conversion(0, false)
  {
    var s := code + ":" + signal;
    assert s[|code|] == ':' && !Digit(':');
    if code != "" && (code[0] == '-' || code[0] == '+') {
      assert s[1..][|code| - 1] == ':';
    }
  }

  /** A value is read whole exactly when it has no '='. */
  lemma ValueReadWholeExactlyWhen(value: string)
    ensures UpToEquals(value) == value <==> Free(value, '=')
  {
    assert "=" == ['='];
    FreeIndex(value, '=');
  }

  // ---- accounting ----

  /** The accounting parser returns a status, an error, or reads past the pieces of the line. */
  datatype Accounting = AccountingStatus(status: JobStatus) | AccountingError | AccountingPanic

  function AccountingLine(stdout: string): string {
    Split(TrimSpace(stdout), "\n")[0]
  }

  function ParseAcctStatus(stdout: string): Accounting {
    var output := Split(AccountingLine(stdout), "|");
    if |output| < 3 then AccountingPanic
    else
      var exitCode := Atoi(Split(output[2], ":")[0]);
      if !exitCode.ok then AccountingError
      else if |output| < 5 then AccountingPanic
      else
        var reason := if output[4] != "" then output[4] else output[3];
        AccountingStatus(JobStatus(output[3], exitCode.value, reason, ParseDate(output[0]), ParseDate(output[1])))
  }

  /** The third piece of a line, up to its first colon, is a number. */
  predicate HasExitNumber(line: string) {
    var output := Split(line, "|");
    |output| >= 3 && Atoi(Split(output[2], ":")[0]).ok
  }

  /** The parser panics exactly on a first line with fewer than two bars, or with fewer than
      four when its third piece starts with a number. */
  lemma AccountingPanicsExactlyWhen(stdout: string)
    ensures ParseAcctStatus(stdout) == AccountingPanic <==>
            var line := AccountingLine(stdout);
            CountChar(line, '|') < 2 || (CountChar(line, '|') < 4 && HasExitNumber(line))
  {
    assert "|" == ['|'];
    PieceCount(AccountingLine(stdout), '|');
  }

  /** So it panics on the empty answer that a job missing from accounting gets. */
  lemma BlankAccountingPanics(stdout: string)
    requires Blank(stdout)
    ensures ParseAcctStatus(stdout) == AccountingPanic
  {
    TrimFinds(stdout, "", "");
    assert stdout + "" + "" == stdout;
    assert "\n" == ['\n'];
    FreeIndex("", '\n');
    SplitNowhere("", "\n");
    AccountingPanicsExactlyWhen(stdout);
  }

  /** The columns `sacct` is asked for, in order: the start time twice. */
  function AccountingRow(start: string, end: string, exitCode: string, state: string, comment: string): seq<string> {
    [start, end, exitCode, start, state, comment]
  }

  /** A row as `sacct -p -n` prints it: a bar after every column. */
  function RenderRow(row: seq<string>): string {
    Join(row + [""], "|")
  }

  predicate ReadableRow(row: seq<string>) {
    && (forall k :: 0 <= k < |row| ==> Free(row[k], '|') && Free(row[k], '\n'))
    && row != [] && (row[0] == "" || !IsSpace(row[0][0]))
  }

  lemma {:induction false} TrimRightKeeps(a: string, b: string) returns (t: string)
    requires a != "" && !IsSpace(Last(a))
    ensures TrimRight(a + b) == a + t && (t == "" || (b != "" && t[0] == b[0]))
    decreases |b|
  {
    if b == "" {
      assert a + b == a;
      t := "";
    } else if IsSpace(Last(b)) {
      var front := b[..|b| - 1];
      assert (a + b)[..|a + b| - 1] == a + front;
      t := TrimRightKeeps(a, front);
    } else {
      t := b;
    }
  }

  lemma FirstLine(r: string, t: string)
    requires Free(r, '\n') && (t == "" || t[0] == '\n')
    ensures Split(r + t, "\n")[0] == r
  {
    assert "\n" == ['\n'];
    if t == "" {
      assert r + t == r;
      FreeIndex(r, '\n');
      SplitNowhere(r, "\n");
    } else {
      assert r + t == r + ['\n'] + t[1..];
      IndexOfChar(r, '\n', t[1..]);
      SplitHere(r + t, "\n", |r|);
    }
  }

  lemma {:induction false} JoinWithEmptyEnd(pieces: seq<string>, c: char)
    requires pieces != []
    ensures var s := Join(pieces + [""], [c]);
            s != "" && Last(s) == c && s[0] == if pieces[0] == "" then c else pieces[0][0]
  {
    var all := pieces + [""];
    assert all[1..] == pieces[1..] + [""];
    if |pieces| == 1 {
      assert all[1..] == [""];
    } else {
      JoinWithEmptyEnd(pieces[1..], c);
    }
  }

  /** The first line of an answer is its first row, whatever follows. */
  lemma FirstRow(row: seq<string>, more: string)
    requires ReadableRow(row) && (more == "" || more[0] == '\n')
    ensures Split(AccountingLine(RenderRow(row) + more), "|") == row + [""]
  {
    assert "|" == ['|'];
    var r := RenderRow(row);
    JoinWithEmptyEnd(row, '|');
    assert !IsSpace('|');
    assert TrimLeft(r + more) == r + more;
    var t := TrimRightKeeps(r, more);
    JoinFree(row + [""], '|', '\n');
    FirstLine(r, t);
    SplitJoin(row + [""], '|');
  }

  /** On every answer to the query, the status is the text of the start column: the state
      column only becomes the reason. */
  lemma AccountingReadsStartAsState(start: string, end: string, exitCode: string, state: string, comment: string,
                                    more: string)
    requires ReadableRow(AccountingRow(start, end, exitCode, state, comment)) && (more == "" || more[0] == '\n')
    ensures var code := Atoi(Split(exitCode, ":")[0]);
            ParseAcctStatus(RenderRow(AccountingRow(start, end, exitCode, state, comment)) + more) ==
            if code.ok then AccountingStatus(JobStatus(start, code.value, if state != "" then state else start, 0, 0))
            else AccountingError
  {
    FirstRow(AccountingRow(start, end, exitCode, state, comment), more);
  }
}
