# pyres_django, modelled in Dafny

pyres_django is a Django front end ("resweb") for the `pyres` job queue,
together with a `pyres_worker` management command that starts a pyres
worker. The queue engine itself lives in the external `pyres` library. This
project models the deterministic logic the repository adds on top of it:

- **Access control.** The `smart_auth` decorator either returns a view
  unchanged or gates it behind a checker that answers `Http404` on refusal
  (module `Auth`).
- **Pagination.** This covers the `_keys`/`_paginated` table of every view,
  `_get_keys`, and the `start` query-parameter parse in `dispatch`, which sets
  the `_start`/`_end` fields. It also covers `page_range`, the loop that
  builds the page links (module `Pagination`, class `ReswebView`).
- **Worker listings.** An identity `host:pid:queues` splits into exactly three
  fields, and the queue field splits on commas. The two loops build worker rows
  (`WorkingMixin.workers`, `Workers.workers`), and `Worker.worker` shows one
  worker (module `WorkerViews`).
- **Job listings.** `Failed.failed_jobs` turns a list backtrace into text and
  cuts the argument text at 1024 characters. `Queue.jobs` joins the arguments
  with commas. `QueuesMixin.queues` lists the queues sorted by name (module
  `ListingViews`).
- **Statistics pages.** `Stats.stats` and `Stats.key_title` choose the table by
  key, and `Stat.stat_items` chooses by Redis type (module `StatsViews`).
- **The worker command.** `Command.handle_noargs` resolves the queues, the
  server address, the polling interval and the log level. It yields either
  the one `Worker.run` call or the error that stops it (module `WorkerCommand`).

The Python 2 built-ins these rely on get their own modules:

- `PyStr` models `split` on one character, `join`, `upper`, `strip` and `s[:n]`.
- `PyInt` models `int()` of a string and `'%d'`.
- `PySort` models `sorted()` of strings.

`Results` holds `Option`/`Result`; `Http` holds the request, the user and the
response. Redis, Django and `pyres` objects are parameters: a queue-name
sequence, an identity string, a failure record, a map of query parameters.
`WebContainer` is a plain record, one datatype per use.

`handle_noargs` is a function from the environment, the settings and the
options to `Result<Launch, Failure>`. A `Failure` is one of the two
`CommandError`s, or the `TypeError` a text `REDIS_PORT` causes. A `Launch`
holds the log level, the log file and the arguments of `Worker.run`.

The code that changes state keeps its form:

- `ReswebView` is a class whose `Dispatch` assigns the `start`/`end` fields
  and whose `PageRange` is a method with a loop;
- the worker and failure listings are methods with loops, proved against
  specification functions of one element (`Row`, `FailedRowOf`).

## Model

| member | source | states |
|---|---|---|
| Auth.Checker | views.py:53-56 | The checker is exactly `PYRES_PROTECT_WITH` when that is set; otherwise it admits exactly an active staff user. |
| Auth.SmartAuth | views.py:26-59 | With protection off the decorated view is the view itself. With it on, every request gets the original view's response when the checker admits it, and `Http404` otherwise. |
| Auth.DefaultProtection | views.py:32 | Under the default checker, protection admits exactly the users that are both active and staff. |
| Pagination.NumPages | views.py:86-88 | The page count is at least 1 and is the ceiling of size/20: `(n-1)*20 < size <= n*20`. |
| Pagination.ViewKeys | views.py:181-401 | Every view renders at least one key of its own, none twice, and neither `version` nor `address`. |
| Pagination.Paginated | views.py:205-401 | Every paginated view renders its `size`, which `page_range` counts pages from. |
| Pagination.ContextKeys | views.py:107-108 | Every view's context keys are `version`, `address`, then exactly its own `_keys`. |
| Pagination.PagingKeysOnlyOnPaginatedViews | views.py:181-401 | A view renders `page_range`, `start` and `end`, each if and only if it is paginated. `page_range` reads `_start`, which only paginated views set. |
| Pagination.ParseStart | views.py:122-126 | A missing `start` parameter gives 0. A parameter that `int()` rejects gives 0. Otherwise the result is the parsed integer. |
| Pagination.ParseStartOfLink | views.py:122-124 | A query carrying `start='%d' % n` yields offset `n`. |
| Pagination.ParseStartWithoutDigits | views.py:123-126 | A `start` parameter with no decimal digit falls back to 0. |
| Pagination.ReswebView.Dispatch | views.py:119-128 | A paginated view sets `_start` to the parsed offset and `_end` to `_start + 20`. Any other view keeps both fields unchanged. |
| Pagination.ReswebView.PageRange | views.py:79-99 | Fewer than 20 items give no links. Otherwise there are `NumPages(size)` links, in order and numbered 1.., where link `i` starts at `i * num_pages` and is current exactly when that equals `_start`. |
| Pagination.AtMostOneCurrentPage | views.py:92-96 | No two page links are both current. |
| Pagination.CurrentPageExists | views.py:91-98 | Some link is current exactly when `_start` is a multiple of `num_pages` below `num_pages²`. The current link is then number `_start / num_pages + 1`. |
| Pagination.AsWrittenPagesOverlap | views.py:92 | For 60 items the links start at 0, 3 and 6. Taking a page to show the 20 items from its offset, the second page overlaps the first, and item 59 is on no page. |
| Pagination.IntendedPages | views.py:91-98 | The corrected links: the same count, numbering and current flag, with link `i` starting at `i * 20`. |
| Pagination.IntendedPagesTile | views.py:92 | With the corrected offsets each item lies on exactly one page, number `k / 20 + 1`. |
| WorkerViews.ParseIdentity | views.py:258 | Unpacking succeeds if and only if the identity has exactly two `:`. On failure the error reports the piece count, which is not 3. On success no field contains `:`. |
| WorkerViews.ParsedIdentityRejoins | views.py:258 | A parsed identity rejoined as `host:pid:queues` is the original identity. |
| WorkerViews.IdentityRoundTrip | views.py:258-263 | Every identity pyres writes for a worker with at least one queue (`host:pid:q1,q2,...`, separator-free fields) parses into its host, pid and queue field. That field splits back into the queue names. |
| WorkerViews.Row | views.py:259-268 | A row carries the worker, its state, host, pid and job queue. It lists the queues exactly when asked, as at least one comma-free piece; the pieces rejoin into the queue field, so an empty field gives one empty name. It has a current job exactly when the worker is processing one, with that job's class and start stamp. |
| WorkerViews.WorkingRows | views.py:147-162 | Succeeds if and only if every busy worker's identity has exactly two `:`. It then gives one row per worker, in order, with state, host, pid, job queue and current job, and no queue list. Otherwise it fails with the first bad identity's error. |
| WorkerViews.AllWorkerRows | views.py:254-270 | The same for every registered worker, with each row also listing the worker's queues. |
| WorkerViews.RowShowsIdentity | views.py:258-263 | A `Workers` row's host, pid and comma-joined queue list rebuild the worker's identity. |
| WorkerViews.WorkerView | views.py:280-289 | No worker found gives `None`. Otherwise it succeeds if and only if the identity has two `:`, and fails with that identity's unpacking error. On success it returns the worker itself with host, pid and a non-empty list of comma-free queue names, which rebuild its identity. |
| ListingViews.FailedRowOf | views.py:234-239 | A text backtrace is unchanged. A list backtrace becomes its lines joined by newlines, which split back into the lines when there is at least one and none holds a newline. No other field changes. `payload_class` is the payload's class. `payload_args` is a prefix of the argument text: all of it when it has at most 1024 characters, otherwise exactly the first 1024. |
| ListingViews.FailedJobs | views.py:231-241 | One row per failure record of the page, in order, each the row `FailedRowOf` describes. |
| ListingViews.JobRowOf | views.py:212 | The row keeps the job's class. Its argument text is the argument texts joined by `,`, which splits back into them when there is at least one and none holds a comma. |
| ListingViews.QueueJobs | views.py:211-213 | One row per peeked job, in order. |
| ListingViews.QueueRows | views.py:167-169 | The rows' names are sorted and are a permutation of the known queues. Each row carries its queue's size. |
| ListingViews.QueueOrderDetermined | views.py:169 | The listing's name order is the unique sorted arrangement of the queue names. |
| StatsViews.KeyTitle | views.py:314-325 | `resque` is titled `Pyres` and `keys` is titled `Keys owned by Pyres`. `redis` is titled `host:port`, which splits back into host and port when the host has no `:`. Any other key is its own title. |
| StatsViews.StatsRows | views.py:302-312 | `resque` and `redis` list their info items in order. `keys` lists every pyres key with the Redis type of `resque:`+key and its size. Any other key gives an empty table. |
| StatsViews.UnknownKeyPage | views.py:302-325 | An unknown key shows an empty table titled with the key. |
| StatsViews.TypeName | views.py:340 | `TYPE` answers `string`, `list` or `set` exactly for a value of that type, and otherwise one of `zset`, `hash` or `none`. |
| StatsViews.LRange | views.py:353 | `LRANGE start stop` returns the items from `start` to `stop` inclusive, in order. When `start` is within the list and `stop` is past its end, that is every item from `start` on. A `stop` below `start` gives no items. |
| StatsViews.StatItemsOf | views.py:348-358 | A list gives its first 21 items. A set gives its members, or an empty list when it has none. A string gives its value alone. Any other type gives nothing. |
| WorkerCommand.QueueSource | management/commands/pyres_worker.py:36-37 | The queues come from the first non-empty source: the `QUEUES` env, then the `QUEUE` env, then `PYRES_QUEUES`. When none is non-empty there is no source. |
| WorkerCommand.ResolveQueues | management/commands/pyres_worker.py:39-45 | The result is an error (`NoQueues`) if and only if no source is non-empty. |
| WorkerCommand.ResolvedQueues | management/commands/pyres_worker.py:44-45 | The worker gets at least one queue. A string source gives exactly its comma-separated names. A list source passes through unchanged. |
| WorkerCommand.Server | management/commands/pyres_worker.py:47-48 | A text `REDIS_PORT` makes `%d` fail. Otherwise the server is `host:port` from `REDIS_HOST`/`REDIS_PORT`, with the defaults `localhost` and 6379, and it splits back into host and port when the host has no `:`. |
| WorkerCommand.DefaultServer | management/commands/pyres_worker.py:47-48 | With neither setting the server is `localhost:6379`. |
| WorkerCommand.ParseInterval | management/commands/pyres_worker.py:50-53 | The default number is kept. A text succeeds if and only if `int()` accepts it, and then yields exactly `int()` of it. A failure is `IntervalNotInteger`. |
| WorkerCommand.IntervalTextRoundTrip | management/commands/pyres_worker.py:51 | An interval written as `'%d' % n` is read as `n`. |
| WorkerCommand.LoggingAttribute | management/commands/pyres_worker.py:55 | Only upper-case names reach an attribute. The level attributes are 0 to 50 in steps of 10 (`INFO` is 20), and the only text attribute is `BASIC_FORMAT`. |
| WorkerCommand.LogLevelFor | management/commands/pyres_worker.py:55-56 | A name whose upper-case form is a `logging` attribute gives that attribute. Any other name gives the text `'INFO'`. |
| WorkerCommand.LogLevelIgnoresCase | management/commands/pyres_worker.py:55 | The level does not depend on the letter case of the name. |
| WorkerCommand.DocumentedLogLevels | management/commands/pyres_worker.py:24-28 | The names `debug`, `info`, `warning`, `error` and `critical` give levels 10 to 50. |
| WorkerCommand.HandleNoArgs | management/commands/pyres_worker.py:34-60 | The checks run in source order. No queue source gives `NoQueues`. Then a text port gives the format error. Then a bad interval gives `IntervalNotInteger`. Success holds if and only if all three pass, and it is the one `Worker.run` call with the resolved queues, server and interval, plus the log level and file. |
| WorkerCommand.DefaultLaunch | management/commands/pyres_worker.py:19-28 | With the default options, some queue source and a numeric or absent port, the worker starts with interval 5 at level INFO (20). |
| WorkerCommand.EnvironmentQueuesWin | management/commands/pyres_worker.py:36-45 | When the port and interval are usable, `QUEUES=q1,q2` runs the worker on `["q1", "q2"]`, whatever `PYRES_QUEUES` says. |
| PyStr.Split | views.py:258 | `split(':')` gives one more piece than there are separators, and no piece contains the separator. |
| PyStr.JoinSplit | views.py:285 | Joining the pieces of a split with the separator gives the string back. |
| PyStr.Join | views.py:236 | `sep.join` of at least one piece has the pieces' total length plus one separator between each two, and starts with the first piece; of no piece it is empty. |
| PyStr.SplitJoin | views.py:236 | Splitting a join of separator-free pieces gives the pieces back. |
| PyStr.Prefix | views.py:239 | `s[:n]` has at most `n` characters, is a prefix of `s`, and is all of `s` when `s` is that short. |
| PyStr.Upper | management/commands/pyres_worker.py:55 | `upper()` keeps the length and upper-cases exactly the ASCII lower-case letters. |
| PyStr.StripKeepsMiddle | views.py:124 | `strip()` keeps a contiguous slice of the text that neither starts nor ends with white space. |
| PyStr.StripRemovesSpace | views.py:124 | Everything `strip()` drops before and after that slice is white space. |
| PyStr.UpperIdempotent | management/commands/pyres_worker.py:55 | Upper-casing twice is upper-casing once. |
| PyInt.IntToString | views.py:77 | `'%d' % n` starts with `-` exactly when `n` is negative. The rest is decimal digits denoting the magnitude of `n`, with no leading zero: zero is printed as `0` alone. |
| PyInt.ParseInt | management/commands/pyres_worker.py:51 | `int()` succeeds exactly on text that, once stripped, is an optional sign followed by decimal digits. The value's magnitude is the digits' value. It is negative only under a `-`, and never positive under one. |
| PyInt.IntRoundTrip | views.py:124 | `int('%d' % n) == n`. |
| PyInt.NoDigitsNoInt | management/commands/pyres_worker.py:50-53 | Text without any decimal digit makes `int()` raise. |
| PyInt.HostPort | views.py:76-77 | `'%s:%d' % (host, port)` is the host, `:`, and the port's decimal text. It splits on `:` back into those two when the host has no `:`. |
| PySort.Below | views.py:169 | Python's `<=` on strings: a prefix is below its extensions, and a string is below another only if its first character is not greater. |
| PySort.BelowTotal | views.py:169 | Any two strings are ordered one way or the other. |
| PySort.BelowAntisymmetric | views.py:169 | Two strings ordered both ways are equal. |
| PySort.BelowTransitive | views.py:169 | The order is transitive. |
| PySort.SortStrings | views.py:169 | `sorted()` returns a sorted permutation of its input. |
| PySort.SortedUnique | views.py:169 | Two sorted permutations of the same strings are equal. |

## Left out

- The pyres library calls are parameters of the model, not models: `ResQ`, `failure.all`, `failure.count`, `Worker.all`, `Worker.find`, `resq.working`, `resq.queues`, `resq.size` and `resq.peek`. Their results come in as sequences, maps and functions.
- No Redis command is issued. A key's stored value (`StatsViews.RedisValue`) and the info items stand in for the server. `TYPE` and `LRANGE` are modelled on that value (`StatsViews.TypeName`, `StatsViews.LRange`); `SMEMBERS`, `GET` and `INFO` simply read it.
- `failed_job`, `delete_all_failed`, `retry_failed` and `delete_queue` are not modelled. Each makes library or Redis calls (`failed_job` and `delete_queue` with data from the request; `retry_failed` always with its default `number` of 5000) and then redirects.
- `Delayed.jobs`, `Delayed.size`, `DelayedTimestamp.jobs`, `DelayedTimestamp.size`, `Queue.size` and `Failed.size` are not modelled. They return a library answer (or 0 for `None`), and the model takes the size as a parameter. `DelayedTimestamp.size` names a `resq` that is not defined there.
- `datetime.fromtimestamp(float(...))` is not modelled (floats, local time). `run_at` stays as its raw text.
- `b64decode` and `ResQ.decode` are not modelled (library decoding).
- `get_context_data`'s reflective `getattr` lookup is reduced to the key list `ContextKeys`.
- The Django plumbing is not modelled: `TemplateView`, `as_view`, `redirect`, `require_POST` and `method_decorator`.
- urls.py, the `autodiscover` of `__init__.py` and helpers.py (`get_pyres`, `ClosingIterator`) are not part of this model. They are routing, threads, connections and I/O.
- `redis_size` and `WebContainer` are imported at views.py:18 but defined in no file of this model. `redis_size` is a parameter (`sizeOf`), and each `WebContainer` is a plain record.
- `setup_logging` and the `Worker.run` process loop are not modelled. The model stops at the arguments they are given.
- PyInt.ParseInt: it models `int()` of a byte string. CPython 2 also accepts white space between the sign and the digits (`int('- 5')`); the model rejects it.
- Pagination.ParseStart: Django hands `request.GET` values over as unicode strings. On those, Python 2's `int()` first turns every Unicode decimal digit into its ASCII digit and every Unicode white space into a space, so `int(u'\u0665') == 5` and `int(u'\xa05') == 5`. The model parses only ASCII digits and C-locale white space, so it gives 0 for such text. The Unicode character database behind that mapping is not modelled.
- Pagination.ParseStartWithoutDigits: for the same reason, it treats a `start` holding only non-ASCII decimal digits as having no digit and gives 0, where the source parses it.
- ListingViews.FailedRowOf: `str(args)` is taken as the given argument text. The Python `repr` of the argument list is not modelled.
- ListingViews.FailedJobs: the source rewrites each failure dict in place and appends it. The model builds new records, so aliasing with the dicts `failure.all` returned is not captured.
- ListingViews.JobRowOf: `str(x)` of each argument is taken as the given text. In Python 2, `str()` of a JSON-decoded unicode argument holding a non-ASCII character raises `UnicodeEncodeError`, so the Queue page fails; the model does not capture that failure.
- WorkerViews.WorkingRows, WorkerViews.AllWorkerRows: a missing key in `processing()['payload']` (a `KeyError`) is not modelled. A running job is assumed to carry its class.
- StatsViews.StatItemsOf: `smembers` answers a Python set, modelled as a Dafny `set` without order.
- WorkerCommand.Server: a `REDIS_PORT` of another Python type is not modelled. `%d` truncates a float and prints a bool as 0 or 1. A `REDIS_HOST` that is not a string is not modelled either; `%s` would print its `str()`.

## Findings

| source | as written | input that shows it | evidently intended | confidence | as-written member | corrected member |
|---|---|---|---|---|---|---|
| views.py:92 | page `i` links to offset `i * num_pages` | 60 items: links at 0, 3, 6; if a page shows the window `[start, start+20)`, as `_end = _start + 20` suggests, page 2 overlaps page 1 and item 59 is on no page | page `i` links to offset `i * items_per_page` (0, 20, 40) | high, not executed | Pagination.AsWrittenPagesOverlap | Pagination.IntendedPagesTile |
