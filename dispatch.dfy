/** The dispatch protocol of the coordinator and its workers, as a sequential
    state machine.

    The coordinator sends every job of the graph over one unbuffered channel,
    in graph order; each send is matched by exactly one worker's receive, and
    that worker runs the job to completion. After the last send the channel is
    closed; every worker's receive loop then ends and the worker signals done
    once; the coordinator goes on only when all workers have done so.
    Interleavings are not modelled: each handoff is one atomic step. */
module Dispatch {
  import opened Config
  import opened Jobs
  import opened Executor

  /** A set of worker indices below `n` has at most `n` elements, and it has
      `n` elements only when it holds every index below `n`. */
  lemma {:induction false} BoundedSetSize(s: set<nat>, n: nat)
    requires forall x :: x in s ==> x < n
    ensures |s| <= n
    ensures |s| == n <==> forall x: nat :: x < n ==> x in s
  {
    if n == 0 {
      assert s == {};
    } else {
      var s' := s - {n - 1};
      BoundedSetSize(s', n - 1);
      if n - 1 in s {
        assert s == s' + {n - 1};
      } else {
        assert s == s';
      }
    }
  }

  /** The channel, the pool's completion counter and what has been handed to
      which worker. */
  class Dispatcher {
    /** The job graph, in the order the coordinator sends it. */
    const graph: seq<ExecData>
    /** The number of workers started. */
    const workers: nat
    /** Jobs not yet sent. */
    var pending: seq<ExecData>
    /** Jobs sent so far, in the order they were sent. */
    var sent: seq<ExecData>
    /** owner[i] is the worker that received sent[i]. */
    var owner: seq<nat>
    /** reports[i] are the errors reported while running sent[i]. */
    var reports: seq<seq<string>>
    /** Whether the channel has been closed. */
    var closed: bool
    /** Workers whose receive loop has ended and that have signalled done. */
    var exited: set<nat>
    /** How many done signals the coordinator's wait has seen. */
    var done: nat

    ghost predicate Valid()
      reads this
    {
      && workers >= 1
      && sent + pending == graph
      && |owner| == |sent| && |reports| == |sent|
      && (forall i :: 0 <= i < |owner| ==> owner[i] < workers)
      && (closed ==> pending == [])
      && (forall w :: w in exited ==> w < workers)
      && (exited != {} ==> closed)
      && done == |exited|
    }

    /** The jobs workers have received, counted with multiplicity. */
    ghost function Received(): multiset<ExecData>
      reads this
    {
      multiset(sent)
    }

    /** The coordinator's state after the pool is started: the whole graph is
        pending, the channel is open and no worker has signalled done. */
    constructor (graph: seq<ExecData>, workers: nat)
      requires workers >= 1
      ensures Valid()
      ensures this.graph == graph && this.workers == workers
      ensures pending == graph && sent == [] && owner == [] && reports == []
      ensures !closed && exited == {} && done == 0
    {
      this.graph := graph;
      this.workers := workers;
      pending := graph;
      sent, owner, reports := [], [], [];
      closed := false;
      exited := {};
      done := 0;
    }

    /** One send on the channel: the next pending job is handed to worker
        `w`, which runs all of its actions and reports their errors. */
    method Send(w: nat, run: Cli -> Outcome)
      requires Valid() && pending != [] && w < workers
      modifies this
      ensures Valid()
      ensures sent == old(sent) + [old(pending)[0]] && pending == old(pending)[1..]
      ensures owner == old(owner) + [w]
      ensures reports == old(reports) + [Reported(old(pending)[0].fs, run)]
      ensures closed == old(closed) && exited == old(exited) && done == old(done)
    {
      var job := pending[0];
      var _, errors := RunJob(job.fs, run);
      sent, pending := sent + [job], pending[1..];
      owner, reports := owner + [w], reports + [errors];
    }

    /** Closes the channel; allowed only once, and only when nothing is left
        to send. */
    method Close()
      requires Valid() && !closed && pending == []
      modifies this
      ensures Valid() && closed
      ensures sent == old(sent) && pending == old(pending) && owner == old(owner)
      ensures reports == old(reports) && exited == old(exited) && done == old(done)
    {
      closed := true;
    }

    /** Worker `w`'s receive loop has ended on the closed, drained channel:
        it signals done, once. */
    method WorkerDone(w: nat)
      requires Valid() && closed && w < workers && w !in exited
      modifies this
      ensures Valid()
      ensures exited == old(exited) + {w} && done == old(done) + 1
      ensures sent == old(sent) && pending == old(pending) && owner == old(owner)
      ensures reports == old(reports) && closed == old(closed)
    {
      exited := exited + {w};
      done := done + 1;
    }
  }

  /** No more done signals can arrive than there are workers. */
  lemma DoneBounded(d: Dispatcher)
    requires d.Valid()
    ensures d.done <= d.workers
  {
    BoundedSetSize(d.exited, d.workers);
  }

  /** When the wait returns, every worker has left its receive loop, and the
      channel had been closed with nothing left to send. */
  lemma WaitMeansAllExited(d: Dispatcher)
    requires d.Valid() && d.done == d.workers
    ensures forall w: nat :: w < d.workers ==> w in d.exited
    ensures d.closed && d.pending == [] && d.sent == d.graph
  {
    BoundedSetSize(d.exited, d.workers);
    assert 0 in d.exited;
  }

  /** Every job of the graph is received exactly once: what has been received
      and what is still pending make up the graph, and once the channel is
      closed the received jobs are exactly the graph's. */
  lemma ReceivedExactlyOnce(d: Dispatcher)
    requires d.Valid()
    ensures d.Received() + multiset(d.pending) == multiset(d.graph)
    ensures d.closed ==> d.Received() == multiset(d.graph)
  {
  }

  /** The coordinator: start the workers, send every job in graph order to
      some worker, close the channel, and wait for every worker's done
      signal. */
  method Coordinate(graph: seq<ExecData>, workers: nat, run: Cli -> Outcome)
    returns (sent: seq<ExecData>, owner: seq<nat>, reports: seq<seq<string>>, done: nat)
    requires workers >= 1
    ensures sent == graph && done == workers
    ensures |owner| == |graph| && forall i :: 0 <= i < |owner| ==> owner[i] < workers
    ensures |reports| == |graph|
    ensures forall i :: 0 <= i < |graph| ==> reports[i] == Reported(graph[i].fs, run)
  {
    var d := new Dispatcher(graph, workers);
    for i := 0 to |graph|
      invariant d.Valid() && d.graph == graph && d.workers == workers
      invariant d.sent == graph[..i] && d.pending == graph[i..] && !d.closed
      invariant forall k :: 0 <= k < i ==> d.reports[k] == Reported(graph[k].fs, run)
      invariant d.exited == {} && d.done == 0
    {
      var w: nat :| w < workers;
      d.Send(w, run);
    }
    d.Close();
    ghost var finalReports := d.reports;
    DoneBounded(d);
    while d.done < workers
      invariant d.Valid() && d.graph == graph && d.workers == workers && d.closed
      invariant d.sent == graph && d.reports == finalReports
      invariant d.done <= workers
      decreases workers - d.done
    {
      BoundedSetSize(d.exited, workers);
      var w: nat :| w < workers && w !in d.exited;
      d.WorkerDone(w);
      DoneBounded(d);
    }
    sent, owner, reports, done := d.sent, d.owner, d.reports, d.done;
  }

  /** The whole run: build the job graph, or stop before any job exists and
      before any worker starts if the configuration could not be read or
      decoded; otherwise hand the graph to the coordinator. */
  method RunAll(config: Decoded, workers: nat, run: Cli -> Outcome)
    returns (fatal: bool, jobs: seq<ExecData>, owner: seq<nat>, reports: seq<seq<string>>, done: nat)
    requires workers >= 1
    ensures fatal <==> config.Undecodable?
    ensures fatal ==> jobs == [] && reports == [] && done == 0
    ensures !fatal ==> |jobs| == |config.meta.ex|
                       && (forall i :: 0 <= i < |jobs| ==> jobs[i].fs == Graph(config.meta.ex)[i])
                       && (forall i, k :: 0 <= i < k < |jobs| ==> jobs[i] != jobs[k])
                       && done == workers
    ensures |owner| == |jobs| && forall i :: 0 <= i < |owner| ==> owner[i] < workers
    ensures |reports| == |jobs|
    ensures forall i :: 0 <= i < |jobs| ==> reports[i] == Reported(jobs[i].fs, run)
  {
    if config.Undecodable? {
      return true, [], [], [], 0;
    }
    fatal := false;
    jobs := Build(config.meta);
    var sent;
    sent, owner, reports, done := Coordinate(jobs, workers, run);
  }
}
