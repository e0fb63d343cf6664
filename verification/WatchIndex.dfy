/** The index machine of the catalogue watch (consul.go): which polls are emitted, how a
    rewound index is re-based, and how long failed polls wait. */
module WatchIndex {
  import opened Timing

  /** One blocking query: it failed, or it returned the index and the entries. */
  datatype Poll<E> = Failed | Answer(index: nat, entries: seq<E>)

  /** The index held after an answer: zero after a rewind, else the answer's own. */
  function Rebased(last: nat, index: nat): nat {
    if index < last then 0 else index
  }

  /** The index held before poll number k. */
  function LastIndexAt<E>(polls: seq<Poll<E>>, k: nat): nat
    requires k <= |polls|
  {
    if k == 0 then 0
    else
      match polls[k - 1]
      case Failed => LastIndexAt(polls, k - 1)
      case Answer(index, _) => Rebased(LastIndexAt(polls, k - 1), index)
  }

  /** Poll k is emitted. */
  predicate Emits<E>(polls: seq<Poll<E>>, k: nat)
    requires k < |polls|
  {
    polls[k].Answer? && polls[k].index > LastIndexAt(polls, k)
  }

  /** Poll k shows that the registry's index went back. */
  predicate Rewinds<E>(polls: seq<Poll<E>>, k: nat)
    requires k < |polls|
  {
    polls[k].Answer? && polls[k].index < LastIndexAt(polls, k)
  }

  /** The failures in a row right before poll k. */
  function AttemptAt<E>(polls: seq<Poll<E>>, k: nat): nat
    requires k <= |polls|
  {
    if k == 0 || polls[k - 1].Answer? then 0 else AttemptAt(polls, k - 1) + 1
  }

  /** The waits of all failed polls before poll k, together. */
  function WaitedAt<E>(polls: seq<Poll<E>>, k: nat): int
    requires k <= |polls|
  {
    if k == 0 then 0
    else WaitedAt(polls, k - 1) + (if polls[k - 1].Failed? then BackoffDuration(AttemptAt(polls, k - 1)) else 0)
  }

  /** The polling loop, on the answers it gets until it is cancelled; it returns the
      numbers of the polls it emits and the time it spends backing off. */
  method WatchLoop<E>(polls: seq<Poll<E>>) returns (emitted: seq<nat>, waited: int)
    ensures forall i, j :: 0 <= i < j < |emitted| ==> emitted[i] < emitted[j]
    ensures forall k: nat :: k in emitted <==> k < |polls| && Emits(polls, k)
    ensures waited == WaitedAt(polls, |polls|)
  {
    var lastIndex: nat, attempt: nat := 0, 0;
    emitted, waited := [], 0;
    for k := 0 to |polls|
      invariant lastIndex == LastIndexAt(polls, k) && attempt == AttemptAt(polls, k)
      invariant waited == WaitedAt(polls, k)
      invariant forall i, j :: 0 <= i < j < |emitted| ==> emitted[i] < emitted[j]
      invariant forall i: nat :: i in emitted <==> i < k && Emits(polls, i)
    {
      if polls[k].Failed? {
        waited := waited + BackoffDuration(attempt);
        attempt := attempt + 1;
        continue;
      }
      attempt := 0;
      var index := polls[k].index;
      if index < lastIndex {
        lastIndex := 0;
        continue;
      }
      if index == lastIndex {
        continue;
      }
      lastIndex := index;
      assert forall i :: 0 <= i < |emitted| ==> emitted[i] in emitted;
      emitted := emitted + [k];
    }
  }

  predicate AllFailed<E>(polls: seq<Poll<E>>, from: nat, to: nat)
    requires to <= |polls|
  {
    forall i :: from <= i < to ==> polls[i].Failed?
  }

  /** The index held is that of the last answer, or zero if that answer was a rewind. */
  lemma {:induction false} LastAnswerDecides<E>(polls: seq<Poll<E>>, a: nat, k: nat)
    requires a < k <= |polls| && polls[a].Answer? && AllFailed(polls, a + 1, k)
    ensures LastIndexAt(polls, k) == if Rewinds(polls, a) then 0 else polls[a].index
  {
    if a + 1 < k {
      assert polls[k - 1].Failed?;
      LastAnswerDecides(polls, a, k - 1);
    }
  }

  /** After a rewind, the next answer with a positive index is emitted, whatever the
      index is and however many polls fail in between. */
  lemma RewindReemits<E>(polls: seq<Poll<E>>, a: nat, k: nat)
    requires a < k < |polls| && Rewinds(polls, a) && AllFailed(polls, a + 1, k)
    ensures Emits(polls, k) <==> polls[k].Answer? && polls[k].index > 0
  {
    LastAnswerDecides(polls, a, k);
  }

  lemma {:induction false} IndexOnlyGrows<E>(polls: seq<Poll<E>>, i: nat, k: nat)
    requires i <= k <= |polls|
    requires forall r :: i <= r < k ==> !Rewinds(polls, r)
    ensures LastIndexAt(polls, i) <= LastIndexAt(polls, k)
  {
    if i < k {
      assert !Rewinds(polls, k - 1);
      IndexOnlyGrows(polls, i, k - 1);
    }
  }

  /** From rewind to rewind the emitted indices strictly increase, so no state of the
      catalogue is emitted twice. */
  lemma EmittedIndicesIncrease<E>(polls: seq<Poll<E>>, i: nat, j: nat)
    requires i < j < |polls| && Emits(polls, i) && Emits(polls, j)
    requires forall r :: i < r < j ==> !Rewinds(polls, r)
    ensures polls[i].index < polls[j].index
  {
    IndexOnlyGrows(polls, i + 1, j);
  }

  lemma {:induction false} AttemptsCount<E>(polls: seq<Poll<E>>, a: nat, k: nat)
    requires a <= k <= |polls| && AllFailed(polls, a, k) && AttemptAt(polls, a) == 0
    ensures AttemptAt(polls, k) == k - a
    ensures WaitedAt(polls, k) == WaitedAt(polls, a) + TotalWait(k - a)
  {
    if a < k {
      AttemptsCount(polls, a, k - 1);
    }
  }

  /** A poll that is answered costs no wait, and the next failure waits the shortest. */
  lemma AnswersCostNothing<E>(polls: seq<Poll<E>>, k: nat)
    requires k < |polls| && polls[k].Answer?
    ensures WaitedAt(polls, k + 1) == WaitedAt(polls, k)
    ensures k + 1 < |polls| && polls[k + 1].Failed? ==> WaitedAt(polls, k + 2) == WaitedAt(polls, k) + WATCH_BACKOFF_BASE
  {
    assert AttemptAt(polls, k + 1) == 0;
  }

  /** An outage that starts after an answer (or with the watch) and lasts k polls costs
      exactly the partial sum of the backoffs, and a later outage starts afresh. */
  lemma OutageWaits<E>(polls: seq<Poll<E>>, a: nat, k: nat)
    requires a + k <= |polls| && (a == 0 || polls[a - 1].Answer?) && AllFailed(polls, a, a + k)
    ensures WaitedAt(polls, a + k) - WaitedAt(polls, a) ==
            if k <= 9 then WATCH_BACKOFF_BASE * Pow2(k) - WATCH_BACKOFF_BASE
            else 51_100 * MILLISECOND + WATCH_BACKOFF_MAX * (k - 9)
  {
    AttemptsCount(polls, a, a + k);
    TotalWaitExactly(k);
  }
}
