/** Jobs and the construction of the job graph from a decoded configuration.

    A job (`execData` in main.go) is an append-only list of actions. Each
    action is represented by the command unit it was built from rather than
    by the closure that runs it. */
module Jobs {
  import opened Config

  /** One sequential chain of actions, built once and then only read. */
  class ExecData {
    var fs: seq<Cli>

    /** A new job holds no actions. */
    constructor ()
      ensures fs == []
    {
      fs := [];
    }

    /** Appends one action after the existing ones, which keep their order. */
    method Add(c: Cli)
      modifies this
      ensures fs == old(fs) + [c]
    {
      fs := fs + [c];
    }
  }

  /** Builds one new job holding one action per descriptor of the group, in
      declared order, each from that descriptor's program and arguments. */
  method BuildJob(funcs: seq<FunctionMeta>) returns (eData: ExecData)
    ensures fresh(eData)
    ensures eData.fs == GroupActions(funcs)
  {
    eData := new ExecData();
    for j := 0 to |funcs|
      invariant |eData.fs| == j
      invariant forall m :: 0 <= m < j ==> eData.fs[m] == CliOf(funcs[m])
    {
      eData.Add(CliOf(funcs[j]));
    }
  }

  /** Builds one new job per group, in declared order; job i holds one action
      per descriptor of group i, in declared order. */
  method Build(f: FunctionsMeta) returns (jobs: seq<ExecData>)
    ensures |jobs| == |f.ex|
    ensures forall i :: 0 <= i < |jobs| ==> jobs[i].fs == Graph(f.ex)[i]
    ensures forall i, k :: 0 <= i < k < |jobs| ==> jobs[i] != jobs[k]
    ensures forall i :: 0 <= i < |jobs| ==> fresh(jobs[i])
  {
    ghost var graph := Graph(f.ex);
    jobs := [];
    for i := 0 to |f.ex|
      invariant |jobs| == i
      invariant forall k :: 0 <= k < i ==> jobs[k].fs == graph[k]
      invariant forall k, l :: 0 <= k < l < i ==> jobs[k] != jobs[l]
      invariant forall k :: 0 <= k < i ==> fresh(jobs[k])
    {
      var eData := BuildJob(f.ex[i].funcs);
      jobs := jobs + [eData];
    }
  }
}
