# Verified model of go-speedtest's measurement and admission engine

go-speedtest measures the throughput, ping and jitter between a client and a server. This project
models the parts of it whose correctness depends on state and on order: the admission limiter, the
request middleware and the metrics registry on the server; the throughput meter and the two
clients, browser worker and CLI, that drive a measurement; and the resolution of a request's client
address. `dafny verify dfyconfig.toml` checks everything.

| file | models |
|---|---|
| `Clock.dfy`, `Option.dfy` | time as nanoseconds, seconds as reals; optional values |
| `Limiter.dfy` | the limiter: map of entry objects, lazy sweep, one-shot release handles |
| `LimiterRuns.dfy` | whole runs: safety under any clock, admissions in a window, size of the map |
| `LimiterEntries.dfy` | which addresses are remembered, read off the calls of a run |
| `LimiterGate.dfy` | what the limiter answers, read off the calls of a run |
| `LimiterEviction.dfy` | when forgetting idle clients can be noticed |
| `LimiterRefusals.dfy` | when a refused call can be noticed later |
| `Registry.dfy` | the metrics registry, for one goroutine and for any number of them |
| `Middleware.dfy` | requests through limiter and registry, cut into the steps that interleave |
| `Requests.dfy` | the counters against the events, and one request left alone |
| `Exposition.dfy` | the text exposition of the registry |
| `Scrape.dfy` | what a scrape of a running server shows |
| `Meter.dfy` | the throughput meter with its grace reset |
| `Jitter.dfy` | ping and jitter in both clients |
| `Transfer.dfy` | one transfer phase of the browser worker |
| `Procedure.dfy` | the throughput procedure of the browser against that of the CLI |
| `Worker.dfy` | the browser worker's sequence of phases and its messages |
| `Report.dfy` | where the figures of the browser's result come from |
| `Completion.dfy` | when a browser run ends, what it shows on the way, what an abort stops |
| `Streams.dfy` | the parallel streams of the CLI |
| `ClientIp.dfy` | forwarded-header resolution |

Every component that the program updates in place is a class here, with one method for each of its
operations or callbacks. Each method is proved equal to a function on values (`Step`, `Added`,
`Handle`, `Next`, ...), and the properties of runs are proved about those functions; two `Replay`
methods drive the limiter's and the worker's objects through whole runs. Concurrency is a state
machine whose steps are the stretches of code between lock operations, so a theorem about `Run` is
about every interleaving. What a run was given, such as the bytes of accepted requests, the calls
that returned or the round trips heard, is computed from its events, apart from the state that the
steps keep.

## Conventions and assumptions

- Times are integers, in nanoseconds since Go's zero time, which is 0; the browser's clock has the
  same unit. Rates, tokens, jitter and throughput are reals in place of `float64`. Integers are
  unbounded.
- The limiter reads its clock before it takes its lock (`internal/ratelimit/ratelimit.go:70-72`), so
  calls need not come in the order of their times. The safety theorems hold for any clock, and so does
  what is said of entries and answers (`StoredExactly`, `GrantedExactly`, `RefillNeverBack`). The
  theorems about rates, eviction, refusals and the size of the map assume times that do not go back
  in lock order (`Ordered`); `WindowBound` assumes it of the window only.
- Other goroutines of the server update no series of the middleware; for scrapes, they count bytes
  (`internal/handlers/handlers.go:315`, `internal/handlers/handlers.go:340`) and nothing else.
- A worker gets one `start` message (`internal/webui/assets/speedtest.js:80-86`).
- Requests, responses, timers and sockets are events that may come in any order the program allows.

## Where the code and what is said of it differ

- Forgetting an idle client is invisible to its decisions exactly when the bucket is off or
  `rate` times five minutes and one nanosecond is at least `burst`. Otherwise a client can empty
  its bucket, wait to be forgotten, and empty it again, at any time (`EvictionInvisibleExactly`,
  `ForgettingShows`).
- Refused calls move `lastSeen`. They can be noticed later except where forgetting is invisible, or
  where there is no concurrency gate and a token returns within a nanosecond
  (`RefusalLeavesNoTraceExactly`).
- `Stop` on the meter can raise the reported rate in one case, which is a counted window of no
  length (`StopLowers`, `StopRaises`).
- A comment says an upload phase fails only if no stream ever delivered any bytes
  (`cmd/go-speedtest-cli/main.go:579-580`). The code fails it whenever the meter shows none, which
  is the case when nothing arrives after the sample that ends the grace period: with any number of
  streams, one upload accepted at that moment and refused requests from then to the deadline
  (`FailsExactly`, `DeliveredButDiscarded`).
- The exposition is called sorted for deterministic output (`internal/metrics/metrics.go:110-111`).
  By what the sort's documentation promises, which leaves ties in any order, it is deterministic
  exactly when no name is at once a counter and a gauge of another value (`CanonicalExactly`); the
  server's own series meet this. How the sort treats ties in fact is not part of this model.
- The two clients are said to follow the same procedure (`DESIGN.md:25-26`). Their jitter starts
  differently, at the first change and at zero, and converges (`JitterConverges`). The browser
  subtracts a snapshot where the CLI resets, which comes to the same (`ResetIsBaseline`).

## Model

| member | source | states |
|---|---|---|
| `RateLimit.Limiter.Acquire` | internal/ratelimit/ratelimit.go:69-116 | on the shared objects: sweep, find or create, refill, gate and bucket come to one `Step`; the answer is `Granted`, which `GrantedExactly` reads off the run; a handle is issued exactly when admitted, and every handle not yet called points at the entry now in the map |
| `RateLimit.Limiter.Release` | internal/ratelimit/ratelimit.go:108-115 | a handle gives its slot back to the live entry the first time and does nothing the second |
| `RateLimit.Limiter.SweepIdle` | internal/ratelimit/ratelimit.go:75-83 | the sweep drops exactly the idle entries, none of which an uncalled handle points at |
| `RateLimit.Limiter.TouchEntry` | internal/ratelimit/ratelimit.go:85-95 | a new entry starts with a full bucket; the refill is capped and only for time that has passed |
| `RateLimit.Limiter.Admit` | internal/ratelimit/ratelimit.go:103-115 | admission takes one slot and, with a bucket, one token, and issues a handle of its own |
| `RateLimit.Limiter.constructor` | internal/ratelimit/ratelimit.go:41-49 | a new limiter has no entries and no handles |
| `RateLimit.StepCounted` | internal/ratelimit/ratelimit.go:106-113 | every call keeps `active` equal to the number of uncalled handles, for each address |
| `RateLimit.HeldIsActive` | internal/ratelimit/ratelimit.go:78 | an uncalled handle keeps its entry in the map with `active` above zero, so no sweep takes it |
| `RateLimitRuns.SafeUnderAnyClock` | internal/ratelimit/ratelimit.go:69-116 | over any run under any clock: `active` counts the uncalled handles, 0 <= active, active <= perIP when the gate is on, 0 <= tokens <= burst |
| `RateLimitRuns.Replay` | internal/ratelimit/ratelimit.go:69-116 | the shared objects behave as `Run` on every sequence of calls and releases |
| `RateLimitRuns.WindowBound` | internal/ratelimit/ratelimit.go:76-106 | no time window admits more than burst + max(rate, burst/idleTTL) times its length, across evictions and whatever came before |
| `RateLimitRuns.CoveredRun` | internal/ratelimit/ratelimit.go:76-106 | the accounting behind it: tokens left and tokens spent are covered by a full bucket and the long-run rate |
| `RateLimitRuns.EvictionEarned` | internal/ratelimit/ratelimit.go:30-32 | a bucket that was evicted had been idle for as long as the long-run rate takes to fill it |
| `RateLimitRuns.MapBounded` | internal/ratelimit/ratelimit.go:75-90 | after any call, each entry had a test in flight at the last sweep or called within idleTTL + cleanupEvery; the map is no larger than these two sets |
| `RateLimitEntries.StoredExactly` | internal/ratelimit/ratelimit.go:75-90 | under any clock, an address has an entry exactly if it has called and, since some call of its, no sweep came more than idleTTL after its last call with none of its handles uncalled; a call sweeps when the one that last swept is more than cleanupEvery before |
| `RateLimitEntries.FoundExactly` | internal/ratelimit/ratelimit.go:75-87 | a call finds its entry exactly if, in addition, it does not itself sweep the address away |
| `RateLimitGate.GrantedExactly` | internal/ratelimit/ratelimit.go:69-106 | under any clock, a call is admitted if and only if the gate is off or fewer than perIP handles of the address are uncalled, and the bucket is off, or the call finds no entry, or in every stretch of the calls the address is remembered by there is room for one more admission in a full bucket and the refill of that stretch |
| `RateLimitGate.MemoryRecalled` | internal/ratelimit/ratelimit.go:92-105 | the tokens of a stored bucket are the least room over these stretches |
| `RateLimitGate.GateAlone` | internal/ratelimit/ratelimit.go:97 | with the bucket off, a call is admitted if and only if the gate is off or fewer than perIP handles are uncalled |
| `RateLimitGate.RefillNeverBack` | internal/ratelimit/ratelimit.go:92-95 | under any clock, the refill time of an entry that stays never goes back, and moves to a call of its own address when that is later |
| `RateLimitEviction.EvictionInvisible` | internal/ratelimit/ratelimit.go:76-106 | each address gets, in any time-ordered run over any addresses, the answers of its own never-forgotten gate and bucket on its own calls |
| `RateLimitEviction.EvictionInvisibleExactly` | internal/ratelimit/ratelimit.go:30-83 | that holds for all runs, and for all runs from any time on, if and only if the bucket is off or refills while idle |
| `RateLimitEviction.ForgettingShows` | internal/ratelimit/ratelimit.go:76-89 | otherwise a run that shows the difference can start at any time |
| `RateLimitEviction.SameDecisions` | internal/ratelimit/ratelimit.go:69-116 | the simulation behind it, from any pair of agreeing states |
| `RateLimitEviction.TwiceForgotten` | internal/ratelimit/ratelimit.go:85-89 | a forgotten client gets a second full bucket |
| `RateLimitRefusals.RefillsCompose` | internal/ratelimit/ratelimit.go:92-95 | two lazy capped refills come to the same as one |
| `RateLimitRefusals.RefusalLeavesNoTrace` | internal/ratelimit/ratelimit.go:90-102 | where forgetting is invisible, removing a refused call from a time-ordered run changes no other answer to any address |
| `RateLimitRefusals.RefusalLeavesNoTraceExactly` | internal/ratelimit/ratelimit.go:76-102 | that holds for all runs, and for all runs from any time on, if and only if forgetting is invisible, or there is no gate and a token returns within a nanosecond |
| `RateLimitRefusals.RefusalIsStutter` | internal/ratelimit/ratelimit.go:92-102 | in the second case a refused call does not change the limiter at all |
| `RateLimitRefusals.RefusedByGate` | internal/ratelimit/ratelimit.go:90-99 | from any start time, a run in which leaving out a call refused at the gate changes a later answer |
| `RateLimitRefusals.RefusedByBucket` | internal/ratelimit/ratelimit.go:90-102 | and one with a call refused by the bucket |
| `Metrics.Registry.Do` | internal/metrics/metrics.go:92-108 | `Add`, `AddGauge` and `Set` change exactly the named series, creating it at zero |
| `Metrics.Registry.Find` | internal/metrics/metrics.go:75-90 | the cell of a series, created at zero only if there was none, is found again under its name |
| `Metrics.Registry.constructor` | internal/metrics/metrics.go:49-70 | the known series, and no others, are registered at zero |
| `Metrics.NextSound` | internal/metrics/metrics.go:76-108 | one step of any goroutine keeps each name in its one cell, each goroutine past its lookup with that cell in hand, and each cell at the outcome of the calls done |
| `Metrics.NoLostUpdates` | internal/metrics/metrics.go:76-108 | over every interleaving a name is bound to one cell for ever, calls done are never undone, and every cell shows their outcome |
| `Metrics.ReturnedOnce` | internal/metrics/metrics.go:96-108 | a step touches no other goroutine's call, and a call's atomic operation has happened exactly when the call returns |
| `Metrics.LogIsCompleted` | internal/metrics/metrics.go:76-108 | over any run, the operations done are the calls that returned, each once, in their order |
| `Metrics.CounterIsSum` | internal/metrics/metrics.go:92-98 | from a new registry, a counter is the sum of the deltas of the calls that returned |
| `Metrics.OutcomeIsSum` | internal/metrics/metrics.go:96-108 | the order of deltas does not matter to a series nobody sets |
| `Metrics.GaugeIsLastSet` | internal/metrics/metrics.go:92-108 | from a new registry, a gauge that was set shows its last value and the deltas of the calls that returned since |
| `Metrics.AloneIsDo` | internal/metrics/metrics.go:76-108 | a goroutine left alone does to the cells what `Registry.Do` does |
| `Middleware.TestMW` | internal/handlers/handlers.go:113-128 | on the shared objects: a refused request changes no metric; a served one releases its slot and lowers the gauge even if its handler panics |
| `Middleware.InstrumentedCounts` | internal/handlers/handlers.go:122-127 | a served request adds one test started, one completed unless it panicked, and nothing to any other series |
| `Middleware.Conservation` | internal/handlers/handlers.go:110-129 | over every interleaving and any clock: gauge = requests between its updates; started = completed + running + panicked, by the stages of the requests; slots taken = requests between admission and release <= perIP |
| `Requests.CountersAreEvents` | internal/handlers/handlers.go:113-128 | the same against events: the started series and the requests inside that call are the admissions, the completed series and the requests inside that call are the handlers that returned, and the panicked requests are the handlers that panicked |
| `Requests.RequestAlone` | internal/handlers/handlers.go:113-128 | the interleavable steps of a request left alone do to limiter and registry what `TestMW` does: one started, one completed if and only if its handler returned, the gauge as before, the slot given back |
| `Requests.DownwardAlone` | internal/handlers/handlers.go:120-127 | its steps after the handler returns or panics, from any state in which it is being served |
| `Middleware.QuietAtRest` | internal/handlers/handlers.go:120-124 | when every request is over, the gauge and all slots are back at zero |
| `Middleware.RunInv` | internal/handlers/handlers.go:110-129 | the joint invariant of limiter, registry and requests is kept by every run |
| `Middleware.StepAdmitted` | internal/handlers/handlers.go:115-120 | every step keeps one uncalled handle of its own for each request in flight |
| `Middleware.SeriesApart` | internal/handlers/handlers.go:131-134 | started, completed and gauge series of any types never coincide |
| `Exposition.Expose` | internal/metrics/metrics.go:130-170 | grouping and sorting over maps in any order gives the lines a scrape must show, in order |
| `Exposition.RenderingIsExposition` | internal/metrics/metrics.go:151-168 | so does writing the families with their samples sorted by anything that keeps the contract of a sort |
| `Exposition.Collect` | internal/metrics/metrics.go:132-145 | every series of a map is appended to its family's group once; the first map to use a family fixes its kind |
| `Exposition.WriteFamily` | internal/metrics/metrics.go:158-168 | help if there is any, one type line, then all the samples in order |
| `Exposition.SortedKeys` | internal/metrics/metrics.go:151-155 | the families, each once, ascending |
| `Exposition.CanonicalExactly` | internal/metrics/metrics.go:110-170 | a scrape could have come out in no other way if and only if no name is both a counter and a gauge of another value |
| `Exposition.SharedNameShowsTwice` | internal/metrics/metrics.go:164 | such a name makes two scrapes possible that differ in the order of its samples |
| `Exposition.SortedUnique` | internal/metrics/metrics.go:155-164 | two ordered lists of the same lines without ties are the same list |
| `Exposition.LessExactly` | internal/metrics/metrics.go:155-164 | the order of names: a proper prefix comes first, and otherwise the first character that differs decides |
| `Exposition.OneSample` | internal/metrics/metrics.go:165-167 | every series is shown exactly once, with its value |
| `Exposition.EachLineOnce` | internal/metrics/metrics.go:158-168 | no line is shown twice and none is missing |
| `Exposition.FamilyIsOneBlock` | internal/metrics/metrics.go:158-168 | the lines of a family are contiguous |
| `Exposition.HelpTypeSamples` | internal/metrics/metrics.go:158-168 | inside a family no line comes before help and no sample before the type, also when a name has both kinds |
| `Exposition.StrictlyAscending` | internal/metrics/metrics.go:155-167 | families strictly ascend, help before type before samples, and samples strictly ascend |
| `Exposition.KindsRightExactly` | internal/metrics/metrics.go:138-148 | every gauge is announced as one if and only if no family has both kinds |
| `Exposition.ServerScrapeCanonical` | internal/metrics/metrics.go:17-27 | the server's series give one text, with the gauge announced as a gauge |
| `Exposition.TypedFamily` | internal/handlers/handlers.go:131-134 | the family of a labelled series is the name before its label |
| `Scrapes.ScrapeIsOne` | internal/metrics/metrics.go:110-170 | after any run of requests and byte counts through the server, there is one text a scrape can come out as |
| `Scrapes.ScrapeShowsTests` | internal/handlers/handlers.go:122-127 | it shows the test series of a type, where there are any, once each, with the requests past the started counter and past the completed one |
| `Measure.ThroughputMeter.Start` | internal/measure/measure.go:119-125 | a new window forgets the past |
| `Measure.ThroughputMeter.Add` | internal/measure/measure.go:131-146 | a sample counts, or ends the grace period and is dropped with all before it |
| `Measure.ThroughputMeter.Stop` | internal/measure/measure.go:180-187 | the window is extended, only after the grace period |
| `Measure.MeterIsWindow` | internal/measure/measure.go:119-146 | whatever the past and the order of times: bytes are the sum over the window after the crossing sample, elapsed is its largest offset |
| `Measure.ImplicitStart` | internal/measure/measure.go:132-134 | a meter nobody started starts at its first sample |
| `Measure.SpanIsLargest` | internal/measure/measure.go:143-145 | elapsed is zero or the offset of some sample, and no sample's offset is larger |
| `Measure.BytesConserved` | internal/measure/measure.go:131-146 | counted and discarded bytes add up to what was fed in |
| `Measure.RateSandwich` | internal/measure/measure.go:119-161 | if every counted sample keeps between lo and hi bytes per second of its gap, the reported rate lies between those rates |
| `Measure.RateIsBits` | internal/measure/measure.go:155-161 | a rate times its time is eight bits a byte, times the overhead, in millions |
| `Measure.WindowSpan` | internal/measure/measure.go:135-145 | in order, the window is as long as from its base to its last sample |
| `Measure.StopLowers` | internal/measure/measure.go:173-187 | `Stop` raises the rate if and only if bytes were counted in a window of no length |
| `Measure.StopRaises` | internal/measure/measure.go:119-187 | it does where grace is off and all bytes come at the instant of `Start` |
| `Measure.StopSpans` | internal/measure/measure.go:173-187 | after `Stop` the window is the wall-clock span since the grace period ended |
| `Jitter.JitterEWMA.Update` | internal/measure/measure.go:202-214 | the first change starts the average; a spike pulls it up fast and calm lets it fall slowly, by the exact laws of `LastDistance` and `CalmDecays` |
| `Jitter.PingStats.Add` | internal/measure/measure.go:233-243 | running minimum, last round trip, and jitter of the change |
| `Jitter.SamePing` | internal/webui/assets/worker.js:49-57 | both clients hold the smallest round trip and the last one |
| `Jitter.FoldContracts` | internal/measure/measure.go:208-212 | the asymmetric update is monotone and shrinks differences by a fifth, across its branches |
| `Jitter.LastDistance` | internal/measure/measure.go:199-214 | over any round trips, in both clients: a last change above the average leaves exactly 0.3 of its distance to it, one at or below it 0.8; the first change is where the CLI starts |
| `Jitter.CalmDecays` | internal/measure/measure.go:189-214 | n more equal round trips after a first change d leave the CLI at exactly d 0.8^n and the browser at 0.7 d 0.8^n |
| `Jitter.DecayedIsPower` | internal/measure/measure.go:211 | that is the power |
| `Jitter.JitterConverges` | internal/measure/measure.go:203-207 | on the same round trips with first change d, after n changes the browser's estimate is below the CLI's by at most 0.3 d 0.8^(n-1) |
| `Jitter.JitterInRange` | internal/webui/assets/worker.js:49-57 | both estimates stay between zero and the range of the round trips |
| `Transfers.Engine.constructor` | internal/webui/assets/worker.js:187-246 | a phase starts with one request in each slot |
| `Transfers.Engine.OnProgress` | internal/webui/assets/worker.js:253-257 | positive progress is added, and only that |
| `Transfers.Engine.OnLoad` | internal/webui/assets/worker.js:258-260 | a finished request is followed by the next while the phase runs |
| `Transfers.Engine.OnError` | internal/webui/assets/worker.js:261-263 | a failed request is followed by a retry timer while the phase runs |
| `Transfers.Engine.OnRetry` | internal/webui/assets/worker.js:281-283 | a retry spawns only while the phase runs |
| `Transfers.Engine.OnGrace` | internal/webui/assets/worker.js:226-230 | the snapshot is taken once |
| `Transfers.Engine.Stop` | internal/webui/assets/worker.js:199-207 | timers are cleared and the request of each slot is aborted |
| `Transfers.Engine.Receive` | internal/webui/assets/worker.js:226-287 | any event of a transfer: its callback if it can come now, nothing if not |
| `Transfers.HandleOk` | internal/webui/assets/worker.js:249-287 | every callback keeps each slot of a running phase with exactly one open request or one pending retry |
| `Transfers.StoppedOk` | internal/webui/assets/worker.js:199-207 | stopping closes every request of the phase, not only the latest ones |
| `Transfers.NothingAfterStop` | internal/webui/assets/worker.js:258-263 | after stop no callback spawns a request or moves a byte |
| `Transfers.BytesTelescope` | internal/webui/assets/worker.js:252-257 | over every interleaving, `loaded` is the sum of what each request last reported plus what reports went back by |
| `Transfers.PhaseBytes` | internal/webui/assets/worker.js:187-287 | over a whole phase, `loaded` is exactly that sum if and only if no request's progress went down |
| `Transfers.BegunSlots` | internal/webui/assets/worker.js:246 | a phase of `streams` streams begins with that many requests, all open, one for each slot |
| `Transfers.PhaseSlots` | internal/webui/assets/worker.js:249-287 | and keeps that many slots, each with one open request or one retry |
| `Transfers.PhaseRequests` | internal/webui/assets/worker.js:258-263 | while a phase runs, its requests are one for each stream, each request that loaded and each retry timer that fired; each request that failed waits for its timer or has been retried |
| `Transfers.PlayKeeps` | internal/webui/assets/worker.js:226-287 | no event of a transfer stops it or touches its end timer, its ticker or its start |
| `Transfers.SpeedIsBits` | internal/webui/assets/worker.js:213-214 | a rate times its time is eight bits a byte, times the overhead, in millions |
| `Procedure.ResetIsBaseline` | internal/webui/assets/worker.js:209-230 | with the snapshot at the CLI's crossing sample, browser and CLI show the same bytes, rate and duration at every later instant |
| `Procedure.GainsCounted` | internal/webui/assets/worker.js:253-257 | what a phase delivers, as samples, is what it counts |
| `Procedure.FigureIsDelivered` | internal/webui/assets/worker.js:209-230 | the bytes of a phase's figure are those delivered after its snapshot, and its duration is the time since then |
| `BrowserWorker.Protocol` | internal/webui/assets/worker.js:291-333 | for every order of events: phase messages and the result in the one order, each at most once; without an abort exactly as many as phases have finished; with one exactly those from before the abort event |
| `BrowserWorker.AbortSilences` | internal/webui/assets/worker.js:29-33 | in any state, neither an abort nor any event after one posts a phase message or a result |
| `BrowserWorker.SilentFrom` | internal/webui/assets/worker.js:295-308 | over runs: the phase messages and the result are those posted before the abort event |
| `BrowserWorker.ResultEndsScript` | internal/webui/assets/worker.js:311-329 | a result is posted only as the end of a complete run, and repeats the rates, ping and jitter of its phase messages |
| `Reports.ResultIsMeasured` | internal/webui/assets/worker.js:295-329 | every posted result has the ping and jitter of the round trips heard until the ping phase ended, and the rates, bytes and durations of the two transfers of the run at their ends |
| `Reports.ResultIsDelivered` | internal/webui/assets/worker.js:209-230 | its bytes are those delivered after the snapshots, its rates are these over the time since then, its ping is the smallest round trip heard or zero if there was none, its jitter that of the round trips heard |
| `Reports.StepClassified` | internal/webui/assets/worker.js:218-333 | without an abort, an event ends one phase at most, and hands on that phase's figures |
| `Reports.PingsAreHeard` | internal/webui/assets/worker.js:49-57 | the ping state is that of the round trips heard, whatever else happens |
| `Completions.PingEndsExactly` | internal/webui/assets/worker.js:69-166 | without an abort, the ping phase has ended if and only if as many requests of the chain have loaded or failed as there are samples to take, or as many echoes were heard, or the socket closed after fewer but some echoes |
| `Completions.Completes` | internal/webui/assets/worker.js:218-332 | a run with an end timer of the download after the ping phase, and one of the upload after that, and no abort by then, has finished its three phases and posted all seven messages, the last one a result |
| `Completions.ResultExactly` | internal/webui/assets/worker.js:291-332 | a result is posted in exactly those runs |
| `Completions.AbortAnswered` | internal/webui/assets/worker.js:29-33 | an abort is acknowledged, whatever the state, and posts nothing else |
| `Completions.AbortStops` | internal/webui/assets/worker.js:29-33 | from an abort on, no transfer runs and no request is open |
| `Completions.AbortedPosts` | internal/webui/assets/worker.js:29-33 | after an abort nothing is posted but acknowledgements, and the ping of a request that was under way |
| `Completions.TickShows` | internal/webui/assets/worker.js:232-242 | while a transfer runs, each tick posts its rate so far and the share of its time, at most all of it |
| `Completions.HeardShows` | internal/webui/assets/worker.js:59-67 | each round trip is shown with the ping and jitter of those heard so far, and its number out of the samples |
| `Completions.Round2Near` | internal/webui/assets/worker.js:335-337 | a figure is rounded to the nearest hundredth |
| `Completions.MillisecondsNear` | internal/webui/assets/worker.js:215 | a duration is rounded to the nearest millisecond |
| `BrowserWorker.StepOk` | internal/webui/assets/worker.js:23-333 | every callback keeps the protocol's invariant |
| `BrowserWorker.Worker.constructor` | internal/webui/assets/worker.js:69-95 | the run begins with the ping phase, over a socket or over requests |
| `BrowserWorker.Worker.AddSample` | internal/webui/assets/worker.js:49-57 | the globals hold the browser's ping state, whose jitter follows `LastDistance` |
| `BrowserWorker.Worker.EndPing` | internal/webui/assets/worker.js:69-84 | the ping phase finishes once, and starts the download unless aborted |
| `BrowserWorker.Worker.EndDownload` | internal/webui/assets/worker.js:218-223 | the download stops and finishes once, and starts the upload unless aborted |
| `BrowserWorker.Worker.EndUpload` | internal/webui/assets/worker.js:307-329 | the upload stops and finishes once, and posts the result unless aborted |
| `BrowserWorker.Worker.OnAbort` | internal/webui/assets/worker.js:29-33 | an abort finishes the phase under way, without its messages, and acknowledges |
| `BrowserWorker.Worker.Next` | internal/webui/assets/worker.js:145-165 | the chain of ping requests goes on, or ends after enough or an abort |
| `BrowserWorker.Worker.OnPingLoad` | internal/webui/assets/worker.js:152-157 | a ping response is a sample and the next link of the chain |
| `BrowserWorker.Worker.OnPingError` | internal/webui/assets/worker.js:158-161 | a failed ping request counts towards the end without a sample |
| `BrowserWorker.Worker.OnSocketOpen` | internal/webui/assets/worker.js:113-116 | an open socket cancels the connect timer |
| `BrowserWorker.Worker.OnSocketMessage` | internal/webui/assets/worker.js:117-128 | an echo is a sample; the last one ends the phase; after an abort it is ignored |
| `BrowserWorker.Worker.OnSocketError` | internal/webui/assets/worker.js:129-135 | an error before any echo falls back to requests, once |
| `BrowserWorker.Worker.OnSocketClose` | internal/webui/assets/worker.js:136-140 | a close after some echoes ends the phase |
| `BrowserWorker.Worker.OnSocketTimeout` | internal/webui/assets/worker.js:100-106 | no connection in time falls back to requests |
| `BrowserWorker.Worker.OnTick` | internal/webui/assets/worker.js:232-242 | the rate so far and the share of the time are posted unless aborted |
| `BrowserWorker.Worker.OnEndTimer` | internal/webui/assets/worker.js:244 | the end timer finishes its phase, which leads to the result by `Completes` |
| `BrowserWorker.Worker.OnTransfer` | internal/webui/assets/worker.js:226-287 | the callbacks of a transfer's requests, retries and grace timer act on its own state only |
| `BrowserWorker.Worker.Dispatch` | internal/webui/assets/worker.js:23-333 | any event on the objects is one `Step`; the runs that end in a result are those of `ResultExactly` |
| `BrowserWorker.Replay` | internal/webui/assets/worker.js:23-333 | the worker and its transfers behave as `Run` on every sequence of events |
| `Streams.UploadOnce` | cmd/go-speedtest-cli/main.go:611-631 | only a 200 makes an upload count, and then exactly what the transport took |
| `Streams.DownloadOnce` | cmd/go-speedtest-cli/main.go:491-517 | every non-empty chunk of a 200 counts, even if the body breaks off |
| `Streams.UploadAlone` | cmd/go-speedtest-cli/main.go:586-631 | the interleavable steps of a stream, left alone, do to the meter what `UploadOnce` does |
| `Streams.DownloadAlone` | cmd/go-speedtest-cli/main.go:466-517 | and those of a download what `DownloadOnce` does |
| `Streams.OnlyAcceptedCount` | cmd/go-speedtest-cli/main.go:549-631 | over every interleaving: counted + discarded + about to be committed = the bytes of the events of requests answered with a 200 <= one blob for each such answer |
| `Streams.EndedPhase` | cmd/go-speedtest-cli/main.go:600-608 | when all streams have ended, counted + discarded bytes are all the bytes of requests answered with a 200 |
| `Streams.EndsAfterDeadline` | cmd/go-speedtest-cli/main.go:586-598 | after the deadline each step a stream takes brings it nearer its end, whatever the others do |
| `Streams.EndedAfterThree` | cmd/go-speedtest-cli/main.go:586-598 | so that it has ended by its third |
| `Streams.StepsLeft` | cmd/go-speedtest-cli/main.go:586-598 | a stream that has not ended always has a step to take |
| `Streams.NoneEndsEarly` | cmd/go-speedtest-cli/main.go:586-598 | before the deadline no stream ends |
| `Streams.RequestsAccounted` | cmd/go-speedtest-cli/main.go:586-598 | until the deadline, over every interleaving: each request a stream begins is served, has failed or is under way, and each failure is slept off before the next request |
| `Streams.FailsExactly` | cmd/go-speedtest-cli/main.go:603-606 | a phase is declared failed if and only if no byte reached the meter after the crossing sample |
| `Streams.DeliveredButDiscarded` | cmd/go-speedtest-cli/main.go:571-606 | with any streams, blob and duration, a phase that accepted an upload can be declared failed |
| `ClientIp.NewResolver` | internal/clientip/clientip.go:21-31 | an entry that does not parse is an error; otherwise the masked networks cover what the configured ones do |
| `ClientIp.Trusted` | internal/clientip/clientip.go:74-82 | an address is trusted if and only if some network covers its unmapped form, which `ContainsBitwise` says bit by bit |
| `ClientIp.ContainsBitwise` | internal/clientip/clientip.go:77 | a network covers exactly the addresses of its family that agree with it in each of its leading bits |
| `ClientIp.ExtremeLengths` | internal/clientip/clientip.go:77 | length zero covers the family, full length one address |
| `ClientIp.TwoHalves` | internal/clientip/clientip.go:77 | a network is the disjoint union of its two halves |
| `ClientIp.MaskedBitwise` | internal/clientip/clientip.go:28 | masking keeps the leading bits and clears the others |
| `ClientIp.UnmapExactly` | internal/clientip/clientip.go:75 | exactly the addresses ::ffff:a.b.c.d become IPv4 addresses |
| `ClientIp.MappedTrustedAlike` | internal/clientip/clientip.go:75 | an IPv4 address and its mapped IPv6 form are trusted alike |
| `ClientIp.FromRequest` | internal/clientip/clientip.go:36-72 | untrusted or unparsable peer: the peer; else the rightmost valid untrusted hop, else the leftmost valid one, else X-Real-IP, else the peer; trusted as covered by a network, bit by bit |
| `ClientIp.OneClient` | internal/clientip/clientip.go:36-72 | this determines the answer |
| `ClientIp.LeftHopsIgnored` | internal/clientip/clientip.go:45-56 | once the list holds a valid untrusted hop, prepending any hops changes nothing |
| `ClientIp.LeftIgnoredExactly` | internal/clientip/clientip.go:36-72 | the answer is independent of what stands further left if and only if the peer is no trusted proxy or the list holds such a hop |

## Left out

- Floating-point rounding, integer and `Duration` overflow, and the saturation of `time.Time.Sub`: reals and unbounded integers stand in for them.
- The no-op limiter of lan mode: it always admits and has no state.
- HTTP servers and clients, WebSocket framing, signals and logging: their outcomes are events.
- SQLite storage, configuration parsing and the user interface: no state that other parts depend on.
- Textual parsing of addresses and networks: `parseAddr` is a partial function already applied, and a header is a list of its results.
- The characters of the exposition: it is a list of lines, and a scrape is of the values as the maps show them when it reads them, not of updates during it.
- The standard library's sort: any ordered permutation, ties in any order.
- `BrowserWorker.Protocol`: ping progress messages after an abort are possible and not excluded; `Completions.AbortedPosts` says which.
- Division by zero in a share of progress, which needs a configuration the server refuses (`internal/config/config.go:257-264`): the share is zero.
- Whether the events that end a phase ever come: `ResultExactly` says what follows when they do. A clean close of the socket before the first echo does not end the ping phase.
- `Reports.ResultIsMeasured`: says nothing of the fields of a result that are copied from the configuration.
- Browser events the worker does not listen to, and progress events of a request after it was aborted.
- The CLI's ping loop and its warm-up request, progress display, truncation warning and back-off delay: the meter and the streams are modelled without them.
- `Streams.OnlyAcceptedCount`: bytes the transport may still read from an upload body after the response has come are not modelled; the count is taken when the response is handled.
- `RateLimitRuns.WindowBound`: stated for burst >= 1 and rate >= 0, as without a bucket there is no bound.
- Random payload generation, bearer tokens and CORS: external calls and one-branch checks.
