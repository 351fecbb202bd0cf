# parexec execution engine, modelled in Dafny

parexec reads a YAML description of command pipelines. The `functions` key holds
a list of `execdata` groups, and each group holds an ordered list of command
descriptors (`name`, `cmd`, `args`). Every group becomes one job (`execData`).
Within a job the commands run one after another. Jobs run in parallel on a pool
of `runtime.NumCPU()` workers, which receive jobs over one unbuffered channel.

This project models the deterministic part of that engine:

- `config.dfy` (module `Config`): the decoded configuration (`functionsMeta`,
  `execdataMeta`, `functionMeta`), the command unit `cli`, and the job graph the
  configuration describes (`Graph`).
- `jobs.dfy` (module `Jobs`): the job container `execData` as a class with an
  append-only `fs` field, and the nested construction loop of `processConfig`.
- `executor.dfy` (module `Executor`): the inner action loop of `executor`.
  Running an action is an oracle `run: Cli -> Outcome`. Any error is reported,
  and the loop always goes on to the next action.
- `dispatch.dfy` (module `Dispatch`): the send / close / done / wait protocol
  of `main`, as a sequential state machine (class `Dispatcher`). Also the whole
  run (`RunAll`), from the decoded configuration to the coordinator's wait.

An action is represented by the `cli` value it is built from, not by a closure.
Invoking it means applying the oracle to that value.

Two facts about the decoded configuration:

- The groups form an ordered list (`Ex []execdataMeta`), and the job graph
  keeps their declared order.
- A descriptor without `cmd` is not a decoding error. The YAML decoder leaves
  the field empty, and an action with an empty program name is still built. It
  would only fail when run. So the model takes any decoded strings, and only an
  unreadable or undecodable document is fatal (`Decoded.Undecodable`).

## Model

| member | source | states |
|---|---|---|
| Config.GroupActions | main.go:122-126 | a group gives exactly one action per descriptor, in declared order, each carrying that descriptor's `Cmd` and `Args` |
| Config.Graph | main.go:119-129 | the graph has exactly one job per `execdata` group, in declared order, and job i is the action list of group i |
| Config.GroupActionsIgnoreNames | main.go:123 | two descriptor lists give the same actions if and only if they have the same length and agree everywhere except in `Name` |
| Config.GraphIgnoresNames | main.go:119-129 | two decoded configurations build the same graph if and only if they are equal once every display name is erased |
| Jobs.ExecData.constructor | main.go:58-60 | a new job holds no actions |
| Jobs.ExecData.Add | main.go:62-64 | the action is appended at the end, and the earlier actions stay unchanged and in order |
| Jobs.BuildJob | main.go:121-126 | the inner loop yields a new job whose actions are exactly the group's actions |
| Jobs.Build | main.go:119-129 | the nested loops yield one new, distinct job per group, in order, and job i's actions are job i of `Graph` |
| Executor.Reported | main.go:72-77 | no more errors than actions, and none exactly when every action succeeds |
| Executor.ReportedAppend | main.go:72-77 | the errors of two action lists run back to back are the errors of the first followed by those of the second |
| Executor.ReportedAt | main.go:73-76 | a failing action's error is reported, directly after the errors of the actions before it |
| Executor.ReportedInOrder | main.go:72-76 | a failing action's error is reported before the errors of every later action |
| Executor.ReportedOrigin | main.go:73-76 | every reported error is the error of some failing action, at that action's position |
| Executor.RunJob | main.go:72-77 | every action is attempted exactly once, in declared order, whatever the earlier outcomes, and the errors printed are `Reported` |
| Dispatch.BoundedSetSize | main.go:153-158 | a set of worker indices below n has at most n members, and it has n members exactly when it holds every index |
| Dispatch.Dispatcher.constructor | main.go:151-158 | after start-up the whole graph is pending, the channel is open and no worker has signalled done |
| Dispatch.Dispatcher.Send | main.go:159-161 | one send hands the next pending job, in graph order, to one worker, which runs it and reports its errors |
| Dispatch.Dispatcher.Close | main.go:162 | the channel is closed once, and only when no job is left to send |
| Dispatch.Dispatcher.WorkerDone | main.go:79 | a worker signals done once, only after the channel is closed, and the counter goes up by one |
| Dispatch.DoneBounded | main.go:153 | no more done signals arrive than there are workers |
| Dispatch.WaitMeansAllExited | main.go:163 | once the wait sees every done signal, every worker has exited, the channel was closed and the whole graph was sent |
| Dispatch.ReceivedExactlyOnce | main.go:159-162 | received and pending jobs together are the graph, and after close every job has been received exactly once |
| Dispatch.Coordinate | main.go:151-163 | every job is sent once, in graph order, to a valid worker, and its report is that job's `Reported`; the wait ends with all workers done |
| Dispatch.RunAll | main.go:109-163 | an unreadable or undecodable configuration stops the run before any job or worker exists; otherwise the built jobs are all run and reported |

## Left out

- Reading `config.yaml` and decoding the YAML are not modelled. They are file
  I/O and a foreign library. The model takes their result, `Decoded`, as input.
- `log.Fatal` is modelled only as `RunAll` returning `fatal` with no job built
  and no worker started. Process exit itself is not modelled.
- `processConfig` ignores its `config` argument and always reads
  `"config.yaml"`. Only the decoded result enters the model, so this is not
  modelled.
- The body of `buildFunc` is replaced by the oracle `run`. That body spawns a
  process, buffers its standard output and prints it. The oracle gives the
  same outcome each time it is applied to the same command unit, while a real
  re-run may give a different one.
- All printing is left out: the "executing" notice, the captured output and the
  printed errors. The printed errors are kept as values (`errors`, `reports`).
- Goroutines, the channel's blocking handoff, `sync.WaitGroup` and
  `runtime.NumCPU()` are not modelled as concurrency. The pool size is the
  parameter `workers`, at least 1 as `NumCPU` guarantees. Each handoff is one
  atomic step. The bound on concurrently running jobs is not stated.
- Dispatch.Dispatcher.Send: the receiving worker runs the job inside the send
  step. In the source it runs after the handoff, concurrently with later sends.
  Output from different jobs may interleave in any order; the model keeps one
  report per job instead of one interleaved stream.
- Dispatch.Coordinate: which idle worker receives a job, and the order in which
  workers signal done, are chosen arbitrarily. This stands for the scheduler's
  unspecified choice. The model does not cover every schedule the runtime
  could produce.
