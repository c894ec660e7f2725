/**
 * What the deployment checker and the QA testing panel share: a list of
 * named checks, each with a run status, that a "run all" button walks
 * through in order, marking each one running and then passed or failed.
 *
 * A check's own code (DOM queries, fetches) is not modelled: its result is
 * an `Outcome` supplied by the caller, one per check.
 */
module QaRuns {
  /** `pending | running | passed | failed` (the deployment checker spells
      the running state `checking`). */
  datatype RunStatus = Pending | Running | Passed | Failed

  predicate Settled(s: RunStatus) {
    s == Passed || s == Failed
  }

  /** What awaiting a check produced: a boolean, or an exception. */
  datatype Outcome = Returned(ok: bool) | Threw

  /** `result ? 'passed' : 'failed'`, and `failed` from the catch block. */
  function Settle(o: Outcome): (s: RunStatus)
    ensures Settled(s)
    ensures s == Passed <==> o == Returned(true)
  {
    match o
    case Returned(ok) => if ok then Passed else Failed
    case Threw => Failed
  }

  /** One row of a panel: its id, whatever else the panel shows, and its status. */
  datatype Entry<M> = Entry(id: string, info: M, status: RunStatus)

  /** `prev.map(c => c.id === id ? { ...c, status } : c)`. */
  function SetStatus<M(==)>(xs: seq<Entry<M>>, id: string, s: RunStatus): (r: seq<Entry<M>>)
    ensures |r| == |xs|
    ensures forall i :: 0 <= i < |xs| ==> r[i].id == xs[i].id && r[i].info == xs[i].info
    ensures forall i :: 0 <= i < |xs| && xs[i].id == id ==> r[i].status == s
    ensures forall i :: 0 <= i < |xs| && xs[i].id != id ==> r[i] == xs[i]
    decreases |xs|
  {
    if |xs| == 0 then []
    else
      var head := if xs[0].id == id then xs[0].(status := s) else xs[0];
      var rest := SetStatus(xs[1..], id, s);
      assert forall i :: 1 <= i < |xs| ==> ([head] + rest)[i] == rest[i - 1] && xs[i] == xs[1..][i - 1];
      [head] + rest
  }

  /** The second of two updates of the same id is the one that shows. */
  lemma SetStatusTwice<M>(xs: seq<Entry<M>>, id: string, s: RunStatus, s': RunStatus)
    ensures SetStatus(SetStatus(xs, id, s), id, s') == SetStatus(xs, id, s')
  {
    var a := SetStatus(SetStatus(xs, id, s), id, s');
    var b := SetStatus(xs, id, s');
    assert forall i :: 0 <= i < |a| ==> a[i] == b[i];
  }

  /** Updating an id no row carries changes nothing. */
  lemma SetStatusAbsent<M>(xs: seq<Entry<M>>, id: string, s: RunStatus)
    requires forall i :: 0 <= i < |xs| ==> xs[i].id != id
    ensures SetStatus(xs, id, s) == xs
  {
  }

  predicate UniqueIds<M>(xs: seq<Entry<M>>) {
    forall i, j :: 0 <= i < j < |xs| ==> xs[i].id != xs[j].id
  }

  /** `runAllTests` / `runDeploymentChecks`: each row in list order is marked
      running, then settled by its outcome. Afterwards no row is pending or
      running, the rows keep their ids and contents, and, when ids are
      unique, each row shows its own outcome. */
  method RunAll<M(==)>(xs: seq<Entry<M>>, outcomes: seq<Outcome>) returns (r: seq<Entry<M>>)
    requires |outcomes| == |xs|
    ensures |r| == |xs|
    ensures forall j :: 0 <= j < |r| ==> r[j].id == xs[j].id && r[j].info == xs[j].info
    ensures forall j :: 0 <= j < |r| ==> Settled(r[j].status)
    ensures UniqueIds(xs) ==> forall j :: 0 <= j < |r| ==> r[j].status == Settle(outcomes[j])
    ensures Count(r, Passed) + Count(r, Failed) == |r|
  {
    r := xs;
    var i := 0;
    while i < |xs|
      invariant 0 <= i <= |xs|
      invariant RunProgress(xs, outcomes, r, i)
    {
      var running := SetStatus(r, xs[i].id, Running);
      SetStatusTwice(r, xs[i].id, Running, Settle(outcomes[i]));
      RunStep(xs, outcomes, r, i);
      r := SetStatus(running, xs[i].id, Settle(outcomes[i]));
      i := i + 1;
    }
    AllSettledCounts(r);
  }

  /** The loop's state after the first `i` rows have run: rows keep their
      ids and contents and the first `i` are settled; with unique ids, the
      first `i` show their own outcome and the rest are untouched. */
  predicate RunProgress<M(==)>(xs: seq<Entry<M>>, outcomes: seq<Outcome>, r: seq<Entry<M>>, i: nat)
    requires |outcomes| == |xs| && i <= |xs|
  {
    Shaped(xs, r, i) && (UniqueIds(xs) ==> Faithful(xs, outcomes, r, i))
  }

  predicate Shaped<M(==)>(xs: seq<Entry<M>>, r: seq<Entry<M>>, i: nat) {
    && |r| == |xs|
    && (forall j :: 0 <= j < |r| ==> r[j].id == xs[j].id && r[j].info == xs[j].info)
    && (forall j :: 0 <= j < i && j < |r| ==> Settled(r[j].status))
  }

  predicate Faithful<M(==)>(xs: seq<Entry<M>>, outcomes: seq<Outcome>, r: seq<Entry<M>>, i: nat)
    requires |outcomes| == |xs| == |r| && i <= |xs|
  {
    && (forall j :: 0 <= j < i ==> r[j].status == Settle(outcomes[j]))
    && (forall j :: i <= j < |r| ==> r[j] == xs[j])
  }

  /** Running row `i` extends the progress by one row. */
  lemma RunStep<M>(xs: seq<Entry<M>>, outcomes: seq<Outcome>, r: seq<Entry<M>>, i: nat)
    requires |outcomes| == |xs| && i < |xs|
    requires RunProgress(xs, outcomes, r, i)
    ensures RunProgress(xs, outcomes, SetStatus(r, xs[i].id, Settle(outcomes[i])), i + 1)
  {
    ShapedStep(xs, r, i, Settle(outcomes[i]));
    if UniqueIds(xs) {
      FaithfulStep(xs, outcomes, r, i);
    }
  }

  lemma ShapedStep<M>(xs: seq<Entry<M>>, r: seq<Entry<M>>, i: nat, s: RunStatus)
    requires i < |xs| && Shaped(xs, r, i) && Settled(s)
    ensures Shaped(xs, SetStatus(r, xs[i].id, s), i + 1)
  {
    var r' := SetStatus(r, xs[i].id, s);
    assert r'[i].status == s;
  }

  lemma FaithfulStep<M>(xs: seq<Entry<M>>, outcomes: seq<Outcome>, r: seq<Entry<M>>, i: nat)
    requires |outcomes| == |xs| == |r| && i < |xs|
    requires UniqueIds(xs) && forall j :: 0 <= j < |r| ==> r[j].id == xs[j].id
    requires Faithful(xs, outcomes, r, i)
    ensures var r' := SetStatus(r, xs[i].id, Settle(outcomes[i]));
      && (forall j :: 0 <= j <= i ==> r'[j].status == Settle(outcomes[j]))
      && (forall j :: i < j < |r'| ==> r'[j] == xs[j])
  {
    var r' := SetStatus(r, xs[i].id, Settle(outcomes[i]));
    forall j | i < j < |r|
      ensures r'[j] == xs[j]
    {
      assert r[j].id != xs[i].id;
    }
    forall j | 0 <= j < i
      ensures r'[j] == r[j]
    {
      assert r[j].id != xs[i].id;
    }
  }

  // ---------------------------------------------------------------------------
  // Counts
  // ---------------------------------------------------------------------------

  /** `xs.filter(x => x.status === s).length`. */
  function Count<M>(xs: seq<Entry<M>>, s: RunStatus): (n: nat)
    ensures n <= |xs|
    decreases |xs|
  {
    if |xs| == 0 then 0
    else (if xs[0].status == s then 1 else 0) + Count(xs[1..], s)
  }

  /** The passed and failed counts never exceed the number of rows. */
  lemma {:induction false} PassedFailedBound<M>(xs: seq<Entry<M>>)
    ensures Count(xs, Passed) + Count(xs, Failed) <= |xs|
    decreases |xs|
  {
    if |xs| > 0 {
      PassedFailedBound(xs[1..]);
    }
  }

  /** Once every row is settled, the two counts add up to the number of rows. */
  lemma {:induction false} AllSettledCounts<M>(xs: seq<Entry<M>>)
    requires forall j :: 0 <= j < |xs| ==> Settled(xs[j].status)
    ensures Count(xs, Passed) + Count(xs, Failed) == |xs|
    decreases |xs|
  {
    if |xs| > 0 {
      AllSettledCounts(xs[1..]);
    }
  }

  /** A count is zero exactly when no row has that status. */
  lemma {:induction false} CountZeroIff<M>(xs: seq<Entry<M>>, s: RunStatus)
    ensures Count(xs, s) == 0 <==> forall j :: 0 <= j < |xs| ==> xs[j].status != s
    decreases |xs|
  {
    if |xs| > 0 {
      CountZeroIff(xs[1..], s);
      assert forall j :: 1 <= j < |xs| ==> xs[j] == xs[1..][j - 1];
    }
  }

  /** Two different rows with the same status make the count at least two. */
  lemma {:induction false} CountTwo<M>(xs: seq<Entry<M>>, s: RunStatus, i: nat, j: nat)
    requires i < j < |xs|
    requires xs[i].status == s && xs[j].status == s
    ensures Count(xs, s) >= 2
    decreases |xs|
  {
    if i == 0 {
      CountZeroIff(xs[1..], s);
      assert xs[1..][j - 1] == xs[j];
    } else {
      assert xs[1..][i - 1] == xs[i] && xs[1..][j - 1] == xs[j];
      CountTwo(xs[1..], s, i - 1, j - 1);
    }
  }
}
