/** The job listings of views.py: `Failed.failed_jobs` (failure records
    made ready for display), `Queue.jobs` (the jobs of one queue) and
    `QueuesMixin.queues` (every queue with its size, by name). */
module ListingViews {
  import opened PyStr
  import opened PySort

  /** A failure's backtrace: pyres stores a list of lines; any other value is shown as it is. */
  datatype Backtrace = Lines(lines: seq<string>) | Text(text: string)

  /** A job payload: its `class` and the text `str(args)` of its argument list. */
  datatype Payload = Payload(cls: string, argsText: string)

  /** One failure record of `failure.all`, a dict with these keys. */
  datatype FailureRecord = FailureRecord(
    failedAt: string, payload: Payload, exception: string, error: string,
    backtrace: Backtrace, worker: string, queue: string, redisValue: string)

  /** A displayed failure: the record's keys (its backtrace rewritten) plus
      `payload_class` and `payload_args`. */
  datatype FailedRow = FailedRow(record: FailureRecord, payloadClass: string, payloadArgs: string)

  /** How much of the argument text a failure row shows. */
  const ArgsDisplayLimit: nat := 1024

  /** The row `failed_jobs` makes of one record: a list backtrace becomes its
      lines joined by newlines, anything else stays; the payload's class and
      at most `ArgsDisplayLimit` characters of its arguments are added. */
  function FailedRowOf(j: FailureRecord): (row: FailedRow)
    ensures row.record.backtrace.Text?
    ensures j.backtrace.Text? ==> row.record == j
    ensures j.backtrace.Lines? ==> row.record == j.(backtrace := Text(Join(j.backtrace.lines, "\n")))
    ensures j.backtrace.Lines? && |j.backtrace.lines| >= 1 && (forall l :: l in j.backtrace.lines ==> '\n' !in l) ==>
      Split(row.record.backtrace.text, '\n') == j.backtrace.lines
    ensures row.payloadClass == j.payload.cls
    ensures |row.payloadArgs| <= ArgsDisplayLimit && |row.payloadArgs| <= |j.payload.argsText|
    ensures row.payloadArgs == j.payload.argsText[..|row.payloadArgs|]
    ensures |j.payload.argsText| <= ArgsDisplayLimit ==> row.payloadArgs == j.payload.argsText
    ensures |j.payload.argsText| > ArgsDisplayLimit ==> |row.payloadArgs| == ArgsDisplayLimit
  {
    var record := match j.backtrace
      case Lines(ls) => j.(backtrace := Text(Join(ls, "\n")))
      case Text(_) => j;
    assert j.backtrace.Lines? && |j.backtrace.lines| >= 1 && (forall l :: l in j.backtrace.lines ==> '\n' !in l) ==>
      Split(record.backtrace.text, '\n') == j.backtrace.lines by {
      if j.backtrace.Lines? && |j.backtrace.lines| >= 1 && (forall l :: l in j.backtrace.lines ==> '\n' !in l) {
        SplitJoin(j.backtrace.lines, '\n');
      }
    }
    FailedRow(record, j.payload.cls, Prefix(j.payload.argsText, ArgsDisplayLimit))
  }

  /** `Failed.failed_jobs`: the rows of the page of failure records, in order. */
  method FailedJobs(records: seq<FailureRecord>) returns (rows: seq<FailedRow>)
    ensures |rows| == |records|
    ensures forall i :: 0 <= i < |records| ==> rows[i] == FailedRowOf(records[i])
  {
    rows := [];
    for i := 0 to |records|
      invariant |rows| == i
      invariant forall k :: 0 <= k < i ==> rows[k] == FailedRowOf(records[k])
    {
      var j := records[i];
      if j.backtrace.Lines? {
        j := j.(backtrace := Text(Join(j.backtrace.lines, "\n")));
      }
      rows := rows + [FailedRow(j, j.payload.cls, Prefix(j.payload.argsText, ArgsDisplayLimit))];
    }
  }

  /** A queued job: its `class` and the text `str(x)` of each argument. */
  datatype QueuedJob = QueuedJob(cls: string, args: seq<string>)

  /** A displayed job: its class and its arguments as one comma-separated text. */
  datatype JobRow = JobRow(cls: string, args: string)

  /** The row `Queue.jobs` makes of one job: each argument's text rebuilt
      from its characters, the texts joined by commas. */
  function JobRowOf(j: QueuedJob): (row: JobRow)
    ensures row.cls == j.cls
    ensures row.args == Join(j.args, ",")
    ensures |j.args| >= 1 && (forall a :: a in j.args ==> ',' !in a) ==> Split(row.args, ',') == j.args
  {
    var texts := seq(|j.args|, i requires 0 <= i < |j.args| => Join(Chars(j.args[i]), ""));
    assert texts == j.args by {
      forall i | 0 <= i < |j.args| ensures texts[i] == j.args[i] { JoinChars(j.args[i]); }
    }
    assert |j.args| >= 1 && (forall a :: a in j.args ==> ',' !in a) ==> Split(Join(j.args, ","), ',') == j.args by {
      if |j.args| >= 1 && forall a :: a in j.args ==> ',' !in a {
        SplitJoin(j.args, ',');
      }
    }
    JobRow(j.cls, Join(texts, ","))
  }

  /** `Queue.jobs`: a row per job of the peeked window, in order. */
  function QueueJobs(peeked: seq<QueuedJob>): (rows: seq<JobRow>)
    ensures |rows| == |peeked|
    ensures forall i :: 0 <= i < |peeked| ==> rows[i] == JobRowOf(peeked[i])
  {
    seq(|peeked|, i requires 0 <= i < |peeked| => JobRowOf(peeked[i]))
  }

  /** A queue and its size, as `QueuesMixin.queues` lists them. */
  datatype QueueRow = QueueRow(name: string, size: int)

  function Names(rows: seq<QueueRow>): (names: seq<string>)
    ensures |names| == |rows|
    ensures forall i :: 0 <= i < |rows| ==> names[i] == rows[i].name
  {
    seq(|rows|, i requires 0 <= i < |rows| => rows[i].name)
  }

  /** `QueuesMixin.queues`: every known queue with its size, in name order. */
  function QueueRows(queues: seq<string>, sizeOf: string -> int): (rows: seq<QueueRow>)
    ensures Sorted(Names(rows))
    ensures multiset(Names(rows)) == multiset(queues)
    ensures forall i :: 0 <= i < |rows| ==> rows[i].size == sizeOf(rows[i].name)
  {
    var sorted := SortStrings(queues);
    var rows := seq(|sorted|, i requires 0 <= i < |sorted| => QueueRow(sorted[i], sizeOf(sorted[i])));
    assert Names(rows) == sorted;
    rows
  }

  /** The order of the queue listing is fully determined: it is the one
      sorted arrangement of the queue names. */
  lemma QueueOrderDetermined(queues: seq<string>, sizeOf: string -> int, arranged: seq<string>)
    requires Sorted(arranged) && multiset(arranged) == multiset(queues)
    ensures Names(QueueRows(queues, sizeOf)) == arranged
  {
    SortedUnique(Names(QueueRows(queues, sizeOf)), arranged);
  }
}
