/** The worker listings of views.py: `WorkingMixin.workers` (the busy
    workers), `Workers.workers` (every registered worker) and
    `Worker.worker` (one worker). Each splits the worker's identity string
    `host:pid:queues` into exactly three fields; the last two views also
    split the queue field on commas. */
module WorkerViews {
  import opened Results
  import opened PyStr

  /** What `w.processing()` holds while the worker runs a job (the case
      `'queue' in data`): the payload's class and the raw `run_at` stamp. */
  datatype Processing = Processing(queue: string, payloadClass: string, runAt: string)

  /** A registered worker as the views read it: `str(w)`, `w.state()`,
      `w.job().get('queue')` and `w.processing()`. */
  datatype WorkerInfo = WorkerInfo(
    identity: string, state: string, jobQueue: Option<string>, processing: Option<Processing>)

  /** The `ValueError` of `host, pid, queues = ...` when the identity does
      not split into exactly three fields; `count` is how many it gave. */
  datatype UnpackError = UnpackError(count: nat)

  /** The three fields of a worker identity. */
  datatype Identity = Identity(host: string, pid: string, queues: string)

  /** `host, pid, queues = str(w).split(':')`. */
  function ParseIdentity(id: string): (r: Result<Identity, UnpackError>)
    ensures r.Ok? <==> CountChar(id, ':') == 2
    ensures r.Err? ==> r.error.count == CountChar(id, ':') + 1 && r.error.count != 3
    ensures r.Ok? ==> ':' !in r.value.host && ':' !in r.value.pid && ':' !in r.value.queues
  {
    var parts := Split(id, ':');
    assert forall k :: 0 <= k < |parts| ==> parts[k] in parts;
    if |parts| == 3 then Ok(Identity(parts[0], parts[1], parts[2]))
    else Err(UnpackError(|parts|))
  }

  /** The identity pyres gives a worker: `host:pid:q1,q2,...`. */
  function FormatIdentity(host: string, pid: string, queues: seq<string>): string
  {
    Join([host, pid, Join(queues, ",")], ":")
  }

  /** A parsed identity put back together is the identity. */
  lemma ParsedIdentityRejoins(id: string)
    requires ParseIdentity(id).Ok?
    ensures var i := ParseIdentity(id).value; i.host + ":" + i.pid + ":" + i.queues == id
  {
    JoinSplit(id, ':');
    var parts := Split(id, ':');
    assert Join(parts, ":") == parts[0] + ":" + Join(parts[1..], ":");
    assert Join(parts[1..], ":") == parts[1] + ":" + Join(parts[2..], ":");
  }

  /** Every identity pyres writes (host and pid free of `:`, queue names free
      of `:` and `,`, at least one queue) parses back into its parts, and
      its queue field splits back into the queue names. */
  lemma IdentityRoundTrip(host: string, pid: string, queues: seq<string>)
    requires ':' !in host && ':' !in pid && |queues| >= 1
    requires forall q :: q in queues ==> ':' !in q && ',' !in q
    ensures ParseIdentity(FormatIdentity(host, pid, queues)) == Ok(Identity(host, pid, Join(queues, ",")))
    ensures Split(Join(queues, ","), ',') == queues
  {
    JoinAvoids(queues, ",", ':');
    var fields := [host, pid, Join(queues, ",")];
    SplitJoin(fields, ':');
    SplitJoin(queues, ',');
  }

  /** What a row shows of the job a busy worker runs: `data`, `code`, `runat`. */
  datatype Activity = Activity(code: string, runAt: string)

  /** One `WebContainer` of a worker listing; `queues` is listed only by `Workers`. */
  datatype WorkerRow = WorkerRow(
    state: string, host: string, pid: string, worker: WorkerInfo,
    queues: Option<seq<string>>, queue: Option<string>, activity: Option<Activity>)

  /** The row built for worker `w` whose identity parsed as `id`: the worker's
      state, host, pid and job queue; its queues only when listed, as the
      comma-separated pieces of the queue field; and the class and start
      stamp of the job it runs, if any. */
  function Row(w: WorkerInfo, id: Identity, listQueues: bool): (row: WorkerRow)
    ensures row.worker == w && row.state == w.state && row.queue == w.jobQueue
    ensures row.host == id.host && row.pid == id.pid
    ensures row.queues.Some? <==> listQueues
    ensures listQueues ==> Join(row.queues.value, ",") == id.queues && forall q :: q in row.queues.value ==> ',' !in q
    ensures listQueues ==> |row.queues.value| >= 1
    ensures row.activity.Some? <==> w.processing.Some?
    ensures w.processing.Some? ==>
      row.activity.value == Activity(w.processing.value.payloadClass, w.processing.value.runAt)
  {
    JoinSplit(id.queues, ',');
    WorkerRow(
      w.state, id.host, id.pid, w,
      if listQueues then Some(Split(id.queues, ',')) else None,
      w.jobQueue,
      match w.processing
      case Some(p) => Some(Activity(p.payloadClass, p.runAt))
      case None => None)
  }

  /** `rows` is the listing of `ws`: one row per worker, in order. */
  ghost predicate ListsAll(ws: seq<WorkerInfo>, rows: seq<WorkerRow>, listQueues: bool)
  {
    |rows| == |ws| &&
    forall i :: 0 <= i < |ws| ==>
      ParseIdentity(ws[i].identity).Ok? && rows[i] == Row(ws[i], ParseIdentity(ws[i].identity).value, listQueues)
  }

  /** Listing one more worker whose identity parses extends the listing by its row. */
  lemma ListsAllStep(ws: seq<WorkerInfo>, i: int, rows: seq<WorkerRow>, listQueues: bool)
    requires 0 <= i < |ws| && ListsAll(ws[..i], rows, listQueues) && ParseIdentity(ws[i].identity).Ok?
    ensures ListsAll(ws[..i + 1], rows + [Row(ws[i], ParseIdentity(ws[i].identity).value, listQueues)], listQueues)
  {
    var rows' := rows + [Row(ws[i], ParseIdentity(ws[i].identity).value, listQueues)];
    forall k | 0 <= k < i + 1
      ensures ParseIdentity(ws[..i + 1][k].identity).Ok?
      ensures rows'[k] == Row(ws[..i + 1][k], ParseIdentity(ws[..i + 1][k].identity).value, listQueues)
    {
      if k < i {
        assert ws[..i + 1][k] == ws[..i][k];
      }
    }
  }

  /** The listing fails with the unpacking error of the first worker whose identity does not parse. */
  ghost predicate FailsAtFirstBad(ws: seq<WorkerInfo>, e: UnpackError)
  {
    exists k :: 0 <= k < |ws| &&
      (forall i :: 0 <= i < k ==> ParseIdentity(ws[i].identity).Ok?) &&
      ParseIdentity(ws[k].identity) == Err(e)
  }

  /** `WorkingMixin.workers`: a row per busy worker, without its queue list. */
  method WorkingRows(ws: seq<WorkerInfo>) returns (r: Result<seq<WorkerRow>, UnpackError>)
    ensures r.Ok? <==> forall i :: 0 <= i < |ws| ==> CountChar(ws[i].identity, ':') == 2
    ensures r.Ok? ==> ListsAll(ws, r.value, false)
    ensures r.Err? ==> FailsAtFirstBad(ws, r.error)
  {
    var rows := [];
    for i := 0 to |ws|
      invariant forall k :: 0 <= k < i ==> ParseIdentity(ws[k].identity).Ok?
      invariant ListsAll(ws[..i], rows, false)
    {
      match ParseIdentity(ws[i].identity) {
        case Err(e) =>
          r := Err(e);
          return;
        case Ok(id) =>
          ListsAllStep(ws, i, rows, false);
          rows := rows + [Row(ws[i], id, false)];
      }
    }
    assert ws[..|ws|] == ws;
    r := Ok(rows);
  }

  /** `Workers.workers`: a row per registered worker, with its queue list. */
  method AllWorkerRows(ws: seq<WorkerInfo>) returns (r: Result<seq<WorkerRow>, UnpackError>)
    ensures r.Ok? <==> forall i :: 0 <= i < |ws| ==> CountChar(ws[i].identity, ':') == 2
    ensures r.Ok? ==> ListsAll(ws, r.value, true)
    ensures r.Err? ==> FailsAtFirstBad(ws, r.error)
  {
    var rows := [];
    for i := 0 to |ws|
      invariant forall k :: 0 <= k < i ==> ParseIdentity(ws[k].identity).Ok?
      invariant ListsAll(ws[..i], rows, true)
    {
      match ParseIdentity(ws[i].identity) {
        case Err(e) =>
          r := Err(e);
          return;
        case Ok(id) =>
          ListsAllStep(ws, i, rows, true);
          rows := rows + [Row(ws[i], id, true)];
      }
    }
    assert ws[..|ws|] == ws;
    r := Ok(rows);
  }

  /** A row of `Workers` shows the worker's host, pid and queue list, which
      put back together give the worker's identity. */
  lemma RowShowsIdentity(w: WorkerInfo)
    requires ParseIdentity(w.identity).Ok?
    ensures var row := Row(w, ParseIdentity(w.identity).value, true);
      row.queues.Some? && row.host + ":" + row.pid + ":" + Join(row.queues.value, [',']) == w.identity
  {
    ParsedIdentityRejoins(w.identity);
    JoinSplit(ParseIdentity(w.identity).value.queues, ',');
  }

  /** The worker `Worker.worker` shows, with the three identity fields set on it. */
  datatype WorkerDetail = WorkerDetail(worker: WorkerInfo, host: string, pid: string, queues: seq<string>)

  /** `Worker.worker`: nothing when the lookup found no worker; otherwise the
      worker with its host, pid and queue list. */
  function WorkerView(found: Option<WorkerInfo>): (r: Result<Option<WorkerDetail>, UnpackError>)
    ensures found.None? ==> r == Ok(None)
    ensures found.Some? ==> (r.Ok? <==> CountChar(found.value.identity, ':') == 2)
    ensures found.Some? && r.Err? ==> r.error == ParseIdentity(found.value.identity).error
    ensures found.Some? && r.Ok? ==> (
      && r.value.Some? && r.value.value.worker == found.value
      && r.value.value.host + ":" + r.value.value.pid + ":" + Join(r.value.value.queues, [',']) == found.value.identity
      && |r.value.value.queues| >= 1 && forall q :: q in r.value.value.queues ==> ',' !in q)
  {
    match found
    case None => Ok(None)
    case Some(w) =>
      match ParseIdentity(w.identity)
      case Err(e) => Err(e)
      case Ok(id) =>
        ParsedIdentityRejoins(w.identity);
        JoinSplit(id.queues, ',');
        Ok(Some(WorkerDetail(w, id.host, id.pid, Split(id.queues, ','))))
  }
}
