/** The decoded configuration and the job graph it describes.

    A configuration is a list of `execdata` groups; each group is an ordered
    list of command descriptors. Every group becomes one job, and every
    descriptor becomes one action of that job, built from its program name and
    arguments only. */
module Config {

  /** One command descriptor: a display name, a program and its arguments. */
  datatype FunctionMeta = FunctionMeta(name: string, cmd: string, args: seq<string>)

  /** One `execdata` group: descriptors that run one after another. */
  datatype ExecDataMeta = ExecDataMeta(funcs: seq<FunctionMeta>)

  /** The whole decoded document: the groups under the `functions` key. */
  datatype FunctionsMeta = FunctionsMeta(ex: seq<ExecDataMeta>)

  /** What reading and decoding the configuration file produced. */
  datatype Decoded = Decoded(meta: FunctionsMeta) | Undecodable(reason: string)

  /** The command unit behind one action: program name and argument list. */
  datatype Cli = Cli(command: string, args: seq<string>)

  /** The command unit built from one descriptor. */
  function CliOf(m: FunctionMeta): Cli
  {
    Cli(m.cmd, m.args)
  }

  /** The actions of one job: one command unit per descriptor, in declared
      order, each carrying that descriptor's program and arguments. */
  function GroupActions(funcs: seq<FunctionMeta>): (r: seq<Cli>)
    ensures |r| == |funcs|
    ensures forall j :: 0 <= j < |funcs| ==> r[j] == CliOf(funcs[j])
  {
    if funcs == [] then [] else [CliOf(funcs[0])] + GroupActions(funcs[1..])
  }

  /** The job graph: one job per group, in the order the groups are declared. */
  function Graph(groups: seq<ExecDataMeta>): (r: seq<seq<Cli>>)
    ensures |r| == |groups|
    ensures forall i :: 0 <= i < |groups| ==> r[i] == GroupActions(groups[i].funcs)
  {
    if groups == [] then [] else [GroupActions(groups[0].funcs)] + Graph(groups[1..])
  }

  /** A descriptor with its display name blanked out. */
  function Unnamed(m: FunctionMeta): FunctionMeta
  {
    m.(name := "")
  }

  /** The configuration with every display name blanked out: what is left is
      exactly the information a job graph can carry. */
  function EraseNames(f: FunctionsMeta): (g: FunctionsMeta)
    ensures |g.ex| == |f.ex|
    ensures forall i :: 0 <= i < |f.ex| ==> |g.ex[i].funcs| == |f.ex[i].funcs|
    ensures forall i, j :: 0 <= i < |f.ex| && 0 <= j < |f.ex[i].funcs| ==>
              g.ex[i].funcs[j] == Unnamed(f.ex[i].funcs[j])
  {
    FunctionsMeta(seq(|f.ex|, i requires 0 <= i < |f.ex| =>
      ExecDataMeta(seq(|f.ex[i].funcs|, j requires 0 <= j < |f.ex[i].funcs| =>
        Unnamed(f.ex[i].funcs[j])))))
  }

  /** Two groups give the same actions exactly when they agree on everything
      but the display names. */
  lemma GroupActionsIgnoreNames(a: seq<FunctionMeta>, b: seq<FunctionMeta>)
    ensures GroupActions(a) == GroupActions(b) <==>
              (|a| == |b| && forall j :: 0 <= j < |a| ==> Unnamed(a[j]) == Unnamed(b[j]))
  {
  }

  /** The job graph depends on the configuration only through the programs
      and arguments: two configurations build the same graph if and only if
      they differ at most in their display names. */
  lemma {:induction false} GraphIgnoresNames(f: FunctionsMeta, g: FunctionsMeta)
    ensures Graph(f.ex) == Graph(g.ex) <==> EraseNames(f) == EraseNames(g)
  {
    var ef, eg := EraseNames(f), EraseNames(g);
    if Graph(f.ex) == Graph(g.ex) {
      forall i | 0 <= i < |f.ex|
        ensures ef.ex[i] == eg.ex[i]
      {
        assert Graph(f.ex)[i] == Graph(g.ex)[i];
        GroupActionsIgnoreNames(f.ex[i].funcs, g.ex[i].funcs);
        assert ef.ex[i].funcs == eg.ex[i].funcs;
      }
      assert ef.ex == eg.ex;
    }
    if ef == eg {
      forall i | 0 <= i < |f.ex|
        ensures Graph(f.ex)[i] == Graph(g.ex)[i]
      {
        assert ef.ex[i] == eg.ex[i];
        forall j | 0 <= j < |f.ex[i].funcs|
          ensures Unnamed(f.ex[i].funcs[j]) == Unnamed(g.ex[i].funcs[j])
        {
          assert ef.ex[i].funcs[j] == eg.ex[i].funcs[j];
        }
        GroupActionsIgnoreNames(f.ex[i].funcs, g.ex[i].funcs);
      }
    }
  }
}
