/** Running one job inside a worker: every action is invoked once, in order,
    and a failing action only has its error reported; it never stops the
    actions after it.

    Invoking an action spawns a process; here that is an oracle `run` that
    says, for a command unit, whether it succeeded or with which error it
    failed. */
module Executor {
  import opened Config

  /** What invoking one action gives back: nothing, or an error. */
  datatype Outcome = Succeeded | Failed(err: string)

  /** One invocation of an action and what it gave back. */
  datatype Attempt = Attempt(action: Cli, outcome: Outcome)

  /** The errors reported while running `actions`, in the order reported. */
  function Reported(actions: seq<Cli>, run: Cli -> Outcome): (r: seq<string>)
    ensures |r| <= |actions|
    ensures r == [] <==> forall i :: 0 <= i < |actions| ==> run(actions[i]).Succeeded?
  {
    if actions == [] then []
    else
      (match run(actions[0])
       case Succeeded => []
       case Failed(e) => [e])
      + Reported(actions[1..], run)
  }

  /** Reporting is compositional: the errors of a concatenation are the errors
      of the first part followed by those of the second. */
  lemma {:induction false} ReportedAppend(a: seq<Cli>, b: seq<Cli>, run: Cli -> Outcome)
    ensures Reported(a + b, run) == Reported(a, run) + Reported(b, run)
  {
    if a != [] {
      assert (a + b)[1..] == a[1..] + b;
      ReportedAppend(a[1..], b, run);
    } else {
      assert a + b == b;
    }
  }

  /** The error of a failing action `i` is reported, right after the errors
      of the actions before it. */
  lemma ReportedAt(actions: seq<Cli>, run: Cli -> Outcome, i: nat)
    requires i < |actions| && run(actions[i]).Failed?
    ensures |Reported(actions[..i], run)| < |Reported(actions, run)|
    ensures Reported(actions, run)[|Reported(actions[..i], run)|] == run(actions[i]).err
  {
    assert actions[..i] + actions[i..] == actions;
    ReportedAppend(actions[..i], actions[i..], run);
    assert actions[i..][0] == actions[i];
  }

  /** Failing actions are reported in the order they appear in the job. */
  lemma ReportedInOrder(actions: seq<Cli>, run: Cli -> Outcome, i: nat, k: nat)
    requires i < k < |actions|
    requires run(actions[i]).Failed?
    ensures |Reported(actions[..i], run)| < |Reported(actions[..k], run)|
  {
    assert actions[..i] + actions[i..k] == actions[..k];
    ReportedAppend(actions[..i], actions[i..k], run);
    assert actions[i..k][0] == actions[i];
  }

  /** Every reported error is the error of some failing action, and it sits
      exactly where `ReportedAt` places that action's error. */
  lemma {:induction false} ReportedOrigin(actions: seq<Cli>, run: Cli -> Outcome, k: nat)
    requires k < |Reported(actions, run)|
    ensures exists i :: 0 <= i < |actions| && run(actions[i]) == Failed(Reported(actions, run)[k])
                        && |Reported(actions[..i], run)| == k
  {
    var rest := actions[1..];
    if run(actions[0]).Failed? && k == 0 {
      assert actions[..0] == [];
      assert run(actions[0]) == Failed(Reported(actions, run)[k]);
    } else {
      var k' := if run(actions[0]).Failed? then k - 1 else k;
      assert Reported(actions, run)[k] == Reported(rest, run)[k'];
      ReportedOrigin(rest, run, k');
      var i' :| 0 <= i' < |rest| && run(rest[i']) == Failed(Reported(rest, run)[k'])
                && |Reported(rest[..i'], run)| == k';
      assert actions[..i' + 1] == [actions[0]] + rest[..i'];
      ReportedAppend([actions[0]], rest[..i'], run);
      assert run(actions[i' + 1]) == Failed(Reported(actions, run)[k]);
    }
  }

  /** Runs every action of a job once, in order, reporting the error of each
      failing action and carrying on with the next one. */
  method RunJob(actions: seq<Cli>, run: Cli -> Outcome) returns (attempts: seq<Attempt>, errors: seq<string>)
    ensures |attempts| == |actions|
    ensures forall i :: 0 <= i < |actions| ==> attempts[i] == Attempt(actions[i], run(actions[i]))
    ensures errors == Reported(actions, run)
  {
    attempts, errors := [], [];
    for i := 0 to |actions|
      invariant |attempts| == i
      invariant forall k :: 0 <= k < i ==> attempts[k] == Attempt(actions[k], run(actions[k]))
      invariant errors == Reported(actions[..i], run)
    {
      var outcome := run(actions[i]);
      attempts := attempts + [Attempt(actions[i], outcome)];
      if outcome.Failed? {
        errors := errors + [outcome.err];
      }
      assert actions[..i + 1] == actions[..i] + [actions[i]];
      ReportedAppend(actions[..i], [actions[i]], run);
    }
    assert actions[..|actions|] == actions;
  }
}
