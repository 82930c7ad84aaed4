/** The database table as the handlers use it: each `process_event` runs one
    plain INSERT and then commits, or rolls back when the statement fails.
    The database's verdict on each attempt is not modelled; it is an oracle
    `accept`, indexed by the position of the attempt within the request. */
module Table {

  /** One INSERT followed by commit (accepted) or rollback (refused): the row
      is appended at the end, or the table is left as it was. No row is ever
      replaced, because the statement carries no conflict clause. */
  function Insert<R>(table: seq<R>, row: R, accepted: bool): (r: seq<R>)
    ensures table <= r && |r| <= |table| + 1
    ensures |r| == |table| + 1 <==> accepted
    ensures accepted ==> r[|table|] == row
  {
    if accepted then table + [row] else table
  }

  /** The rows that survive a run of INSERT attempts `rows`, numbered from
      `from`: exactly those the oracle accepts, in attempt order. */
  function Committed<R>(rows: seq<R>, accept: nat -> bool, from: nat): (c: seq<R>)
    ensures |c| <= |rows|
    decreases |rows|
  {
    if rows == [] then []
    else Insert([], rows[0], accept(from)) + Committed(rows[1..], accept, from + 1)
  }

  /** Only attempted rows are ever committed. */
  lemma {:induction false} CommittedFromAttempts<R>(rows: seq<R>, accept: nat -> bool, from: nat)
    ensures forall x :: x in Committed(rows, accept, from) ==> x in rows
    decreases |rows|
  {
    if rows != [] {
      CommittedFromAttempts(rows[1..], accept, from + 1);
    }
  }

  /** One more attempt in front: its insert, then the later commits. */
  lemma CommitStep<R>(table: seq<R>, row: R, rows: seq<R>, accept: nat -> bool, from: nat)
    ensures Insert(table, row, accept(from)) + Committed(rows, accept, from + 1)
            == table + Committed([row] + rows, accept, from)
  {
    assert ([row] + rows)[1..] == rows;
  }

  /** Committing attempts in two stretches is committing them in one. */
  lemma {:induction false} CommittedConcat<R>(a: seq<R>, b: seq<R>, accept: nat -> bool, from: nat)
    ensures Committed(a + b, accept, from) == Committed(a, accept, from) + Committed(b, accept, from + |a|)
    decreases |a|
  {
    if a == [] {
      assert a + b == b;
    } else {
      assert (a + b)[1..] == a[1..] + b;
      CommittedConcat(a[1..], b, accept, from + 1);
    }
  }

  /** When every attempt is accepted, every row is committed. */
  lemma {:induction false} CommittedAllAccepted<R>(rows: seq<R>, accept: nat -> bool, from: nat)
    requires forall k :: from <= k < from + |rows| ==> accept(k)
    ensures Committed(rows, accept, from) == rows
    decreases |rows|
  {
    if rows != [] {
      CommittedAllAccepted(rows[1..], accept, from + 1);
    }
  }

  /** When every attempt is refused, nothing is committed. */
  lemma {:induction false} CommittedNoneAccepted<R>(rows: seq<R>, accept: nat -> bool, from: nat)
    requires forall k :: from <= k < from + |rows| ==> !accept(k)
    ensures Committed(rows, accept, from) == []
    decreases |rows|
  {
    if rows != [] {
      CommittedNoneAccepted(rows[1..], accept, from + 1);
    }
  }

  /** The committed rows depend only on the verdicts for the attempts made. */
  lemma {:induction false} CommittedAgree<R>(rows: seq<R>, accept: nat -> bool, accept': nat -> bool, from: nat)
    requires forall k :: from <= k < from + |rows| ==> accept(k) == accept'(k)
    ensures Committed(rows, accept, from) == Committed(rows, accept', from)
    decreases |rows|
  {
    if rows != [] {
      CommittedAgree(rows[1..], accept, accept', from + 1);
    }
  }

  /** A refused attempt costs exactly its own row: turning the verdict for
      the attempt after `pre` from accept to refuse removes that one row and
      leaves the rows of every other attempt, before and after it, committed
      as before. */
  lemma RefusalLosesOnlyItsRow<R>(pre: seq<R>, row: R, post: seq<R>, accept: nat -> bool, accept': nat -> bool, from: nat)
    requires accept(from + |pre|) && !accept'(from + |pre|)
    requires forall m :: from <= m < from + |pre| + 1 + |post| && m != from + |pre| ==> accept(m) == accept'(m)
    ensures Committed(pre + ([row] + post), accept, from)
            == Committed(pre, accept, from) + [row] + Committed(post, accept, from + |pre| + 1)
    ensures Committed(pre + ([row] + post), accept', from)
            == Committed(pre, accept, from) + Committed(post, accept, from + |pre| + 1)
  {
    CommittedAgree(pre, accept, accept', from);
    CommittedAgree(post, accept, accept', from + |pre| + 1);
    CommittedAround(pre, row, post, accept, from);
    CommittedAround(pre, row, post, accept', from);
  }

  /** A sequence is its prefix, its element `k` and its suffix. */
  lemma SplitAround<T>(s: seq<T>, k: nat)
    requires k < |s|
    ensures s == s[..k] + ([s[k]] + s[k + 1..])
  {
  }

  /** The commits of attempts around one distinguished attempt. */
  lemma CommittedAround<R>(pre: seq<R>, row: R, post: seq<R>, accept: nat -> bool, from: nat)
    ensures Committed(pre + ([row] + post), accept, from)
            == Committed(pre, accept, from) + Insert([], row, accept(from + |pre|)) + Committed(post, accept, from + |pre| + 1)
  {
    CommittedConcat(pre, [row] + post, accept, from);
    CommitStep([], row, post, accept, from + |pre|);
    AppendAssoc(Committed(pre, accept, from), Insert([], row, accept(from + |pre|)), Committed(post, accept, from + |pre| + 1));
  }

  lemma AppendAssoc<T>(a: seq<T>, b: seq<T>, c: seq<T>)
    ensures a + (b + c) == a + b + c
  {
  }
}
