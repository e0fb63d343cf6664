/** What the poller makes of the answers it gets in a run, and what becomes of the events:
    the step system against the index machine of WatchIndex. Polls, batches and events are
    read off the states of a run, not kept by it. */
module WatchCacheEvents {
  import opened Wrappers
  import opened WatchCache
  import WatchIndex

  type Poll = WatchIndex.Poll<Instance>

  /** The polls decided or seen to fail in a run, for each the batch that was begun at it, if
      any, the events that entered the channel and those that left it. */
  datatype Trace = Trace(polls: seq<Poll>, begun: seq<Option<seq<Instance>>>, sent: seq<Instance>, received: seq<Instance>)

  const NOTHING_YET := Trace([], [], [], [])

  /** The poll that a step disposes of. */
  function PollOf(s: State, a: Action): Option<Poll> {
    if a == Poll(Decide) && s.poller.Answered? then Some(WatchIndex.Answer(s.poller.answer.index, s.poller.answer.instances))
    else if a == Poll(AnswerFails) then Some(WatchIndex.Failed)
    else None
  }

  /** What the poller is about to send. */
  function Unsent(s: State): seq<Instance> {
    if s.poller.Emitting? then s.poller.rest else []
  }

  function Extend(t: Trace, s: State, a: Action): Trace
    requires Enabled(s, a)
  {
    var s' := Apply(s, a);
    var n, n' := |s.channel|, |s'.channel|;
    Trace(
      t.polls + (if PollOf(s, a).Some? then [PollOf(s, a).value] else []),
      t.begun + (if PollOf(s, a).Some? then [if s'.poller.Emitting? then Some(s'.poller.rest) else None] else []),
      t.sent + (if n' > n then s'.channel[n..] else []),
      t.received + (if n' < n then s.channel[..n - n'] else []))
  }

  function Observed(s: State, acts: seq<Action>, t: Trace): Trace
    requires Runs(s, acts)
    decreases |acts|
  {
    if acts == [] then t else Observed(Apply(s, acts[0]), acts[1..], Extend(t, s, acts[0]))
  }

  /** The instances of all polls that are emitted, in order. */
  function Emitted(polls: seq<Poll>): seq<Instance> {
    if polls == [] then []
    else
      var k := |polls| - 1;
      Emitted(polls[..k]) + (if WatchIndex.Emits(polls, k) then polls[k].entries else [])
  }

  // ------------------------------------------------- polls and batches

  /** The index machine's view of the polls, and the batches begun at them. */
  predicate BatchesOk(last: nat, polls: seq<Poll>, begun: seq<Option<seq<Instance>>>) {
    && last == WatchIndex.LastIndexAt(polls, |polls|)
    && |begun| == |polls|
    && (forall k :: 0 <= k < |polls| ==>
          begun[k] == if WatchIndex.Emits(polls, k) then Some(polls[k].entries) else None)
  }

  predicate BatchesInv(s: State, t: Trace) {
    BatchesOk(s.lastIndex, t.polls, t.begun)
  }

  lemma {:induction false} IndexOfPrefix(polls: seq<Poll>, p: Poll, k: nat)
    requires k <= |polls|
    ensures WatchIndex.LastIndexAt(polls + [p], k) == WatchIndex.LastIndexAt(polls, k)
  {
    if k > 0 {
      IndexOfPrefix(polls, p, k - 1);
    }
  }

  lemma OneMorePoll(polls: seq<Poll>, p: Poll, k: nat)
    requires k < |polls|
    ensures WatchIndex.Emits(polls + [p], k) == WatchIndex.Emits(polls, k)
  {
    IndexOfPrefix(polls, p, k);
  }

  lemma OneMoreBatch(last: nat, polls: seq<Poll>, begun: seq<Option<seq<Instance>>>, p: Poll)
    requires BatchesOk(last, polls, begun)
    ensures BatchesOk(if p.Failed? then last else WatchIndex.Rebased(last, p.index), polls + [p],
                      begun + [if p.Answer? && p.index > last then Some(p.entries) else None])
  {
    var n := |polls|;
    IndexOfPrefix(polls, p, n);
    forall k: nat | k < n
      ensures WatchIndex.Emits(polls + [p], k) == WatchIndex.Emits(polls, k)
    {
      OneMorePoll(polls, p, k);
    }
    assert (polls + [p])[n] == p;
  }

  /** What the poller does with the answer of one poll. */
  lemma PollDecides(s: State, a: Action)
    requires Enabled(s, a) && PollOf(s, a).Some?
    ensures var s' := Apply(s, a);
            match PollOf(s, a).value
            case Failed => s'.lastIndex == s.lastIndex && !s'.poller.Emitting?
            case Answer(index, entries) =>
              && s'.lastIndex == WatchIndex.Rebased(s.lastIndex, index)
              && (if index > s.lastIndex then s'.poller == Emitting(entries) else !s'.poller.Emitting?)
  {
  }

  lemma PollKeepsBatches(s: State, t: Trace, a: Action)
    requires BatchesInv(s, t) && Enabled(s, a) && PollOf(s, a).Some?
    ensures BatchesInv(Apply(s, a), Extend(t, s, a))
  {
    OneMoreBatch(s.lastIndex, t.polls, t.begun, PollOf(s, a).value);
    PollDecides(s, a);
  }

  lemma StepKeepsBatches(s: State, t: Trace, a: Action)
    requires BatchesInv(s, t) && Enabled(s, a)
    ensures BatchesInv(Apply(s, a), Extend(t, s, a))
  {
    if PollOf(s, a).Some? {
      PollKeepsBatches(s, t, a);
    } else {
      match a {
        case Work(w) => WorkFrame(s, w);
        case _ =>
      }
      assert Extend(t, s, a).polls == t.polls && Extend(t, s, a).begun == t.begun;
    }
  }

  lemma {:induction false} RunKeepsBatches(s: State, acts: seq<Action>, t: Trace)
    requires BatchesInv(s, t) && Runs(s, acts)
    ensures BatchesInv(Final(s, acts), Observed(s, acts, t))
    decreases |acts|
  {
    if acts != [] {
      StepKeepsBatches(s, t, acts[0]);
      RunKeepsBatches(Apply(s, acts[0]), acts[1..], Extend(t, s, acts[0]));
    }
  }

  /** In every run the poller does what the index machine does with the same polls: it
      holds the same index, and has begun a batch at exactly the polls that are emitted,
      each with the entries of that poll. From rewind to rewind the indices of the batches
      begun strictly increase. */
  lemma RunsFollowTheIndexMachine(tag: string, c: Catalog, acts: seq<Action>)
    requires Runs(Init(tag, c), acts)
    ensures var t := Observed(Init(tag, c), acts, NOTHING_YET);
            && Final(Init(tag, c), acts).lastIndex == WatchIndex.LastIndexAt(t.polls, |t.polls|)
            && |t.begun| == |t.polls|
            && (forall k :: 0 <= k < |t.polls| ==>
                  t.begun[k] == if WatchIndex.Emits(t.polls, k) then Some(t.polls[k].entries) else None)
            && (forall i, j :: 0 <= i < j < |t.polls| && t.begun[i].Some? && t.begun[j].Some?
                               && (forall r :: i < r < j ==> !WatchIndex.Rewinds(t.polls, r)) ==>
                  t.polls[i].index < t.polls[j].index)
  {
    RunKeepsBatches(Init(tag, c), acts, NOTHING_YET);
    var t := Observed(Init(tag, c), acts, NOTHING_YET);
    forall i, j | 0 <= i < j < |t.polls| && t.begun[i].Some? && t.begun[j].Some?
                  && (forall r :: i < r < j ==> !WatchIndex.Rewinds(t.polls, r))
      ensures t.polls[i].Answer? && t.polls[j].Answer? && t.polls[i].index < t.polls[j].index
    {
      WatchIndex.EmittedIndicesIncrease(t.polls, i, j);
    }
  }

  // ------------------------------------------------- events

  /** Events leave the channel in the order they entered it, each leads to one re-resolve,
      and those sent are those of the emitted polls, in order, but for what a cancelled
      poller left out. */
  predicate EventsInv(s: State, t: Trace) {
    && t.received + s.channel == t.sent
    && |t.received| == |s.outcomes| + (if s.writer.Resolving? then 1 else 0)
    && t.sent + Unsent(s) <= Emitted(t.polls)
    && (!s.poller.Stopped? ==> t.sent + Unsent(s) == Emitted(t.polls))
    && (!WatchStarted(s) ==> s.poller.Unborn?)
  }

  lemma EmittedThen(polls: seq<Poll>, p: Poll)
    ensures Emitted(polls + [p]) ==
            Emitted(polls) + (if WatchIndex.Emits(polls + [p], |polls|) then p.entries else [])
  {
    assert (polls + [p])[..|polls|] == polls;
  }

  lemma ChannelIsStill(s: State, t: Trace, a: Action)
    requires Enabled(s, a) && |Apply(s, a).channel| == |s.channel|
    ensures Extend(t, s, a).sent == t.sent && Extend(t, s, a).received == t.received
  {
    assert t.sent + [] == t.sent && t.received + [] == t.received;
  }

  /** What a decision leaves alone, and what it makes the poller send. */
  lemma DecisionSends(s: State)
    requires s.poller.Answered?
    ensures var s' := Apply(s, Poll(Decide));
            && (s'.channel, s'.outcomes, s'.writer) == (s.channel, s.outcomes, s.writer)
            && !s'.poller.Stopped? && !s'.poller.Unborn?
            && Unsent(s') == if s'.poller.Emitting? then s'.poller.rest else []
  {
  }

  lemma DecisionKeepsEvents(s: State, t: Trace)
    requires BatchesInv(s, t) && EventsInv(s, t) && s.poller.Answered?
    ensures EventsInv(Apply(s, Poll(Decide)), Extend(t, s, Poll(Decide)))
  {
    var a := Poll(Decide);
    var p := PollOf(s, a).value;
    PollKeepsBatches(s, t, a);
    EmittedThen(t.polls, p);
    DecisionSends(s);
    ChannelIsStill(s, t, a);
    assert Extend(t, s, a).begun[|t.polls|] == if WatchIndex.Emits(t.polls + [p], |t.polls|) then Some(p.entries) else None;
    assert Unsent(s) == [] && t.sent + [] == t.sent;
  }

  lemma FailureKeepsEvents(s: State, t: Trace)
    requires EventsInv(s, t) && s.poller.Querying?
    ensures EventsInv(Apply(s, Poll(AnswerFails)), Extend(t, s, Poll(AnswerFails)))
  {
    EmittedThen(t.polls, WatchIndex.Failed);
    ChannelIsStill(s, t, Poll(AnswerFails));
  }

  lemma SendKeepsEvents(s: State, t: Trace)
    requires EventsInv(s, t) && PollEnabled(s, Send)
    ensures EventsInv(Apply(s, Poll(Send)), Extend(t, s, Poll(Send)))
  {
    var e := s.poller.rest[0];
    var s', t' := Apply(s, Poll(Send)), Extend(t, s, Poll(Send));
    assert s'.channel[|s.channel|..] == [e];
    assert t'.polls == t.polls && t'.received == t.received && t'.sent == t.sent + [e];
    assert (t.sent + [e]) + s.poller.rest[1..] == t.sent + s.poller.rest;
    assert t.received + (s.channel + [e]) == (t.received + s.channel) + [e];
  }

  lemma ReceiveKeepsEvents(s: State, t: Trace)
    requires EventsInv(s, t) && WorkEnabled(s, Receive)
    ensures EventsInv(Apply(s, Work(Receive)), Extend(t, s, Work(Receive)))
  {
    var t' := Extend(t, s, Work(Receive));
    assert s.channel[..1] == [s.channel[0]];
    assert t'.polls == t.polls && t'.sent == t.sent && t'.received == t.received + [s.channel[0]];
    assert (t.received + [s.channel[0]]) + s.channel[1..] == t.received + s.channel;
  }

  /** The poller or the writer moves no event: what matters of the state stays. */
  lemma QuietPoll(s: State, p: PollStep)
    requires PollEnabled(s, p) && !p.Decide? && !p.AnswerFails? && !p.Send?
    ensures var s' := PollNext(s, p);
            && s'.channel == s.channel && s'.outcomes == s.outcomes && s'.writer == s.writer
            && (s'.poller.Stopped? || Unsent(s') == Unsent(s))
            && !s'.poller.Unborn? && (s.poller.Stopped? ==> s'.poller.Stopped?)
            && Unsent(s') <= Unsent(s)
  {
  }

  lemma QuietWork(s: State, w: WorkStep)
    requires WorkEnabled(s, w) && !w.Receive? && (!WatchStarted(s) ==> s.poller.Unborn?)
    ensures var s' := WorkNext(s, w);
            && s'.channel == s.channel
            && |s'.outcomes| + (if s'.writer.Resolving? then 1 else 0) == |s.outcomes| + (if s.writer.Resolving? then 1 else 0)
            && Unsent(s') == Unsent(s) && (s'.poller.Stopped? <==> s.poller.Stopped?)
            && (!WatchStarted(s') ==> s'.poller.Unborn?)
  {
  }

  /** A step that moves no event and disposes of no poll. */
  lemma OtherStepKeepsEvents(s: State, t: Trace, a: Action)
    requires EventsInv(s, t) && Enabled(s, a) && PollOf(s, a).None? && a != Poll(Send) && a != Work(Receive)
    ensures EventsInv(Apply(s, a), Extend(t, s, a))
  {
    StillChannel(s, a);
    NothingMoves(s, t, a);
  }

  lemma StillChannel(s: State, a: Action)
    requires Enabled(s, a) && PollOf(s, a).None? && a != Poll(Send) && a != Work(Receive)
    requires !WatchStarted(s) ==> s.poller.Unborn?
    ensures var s' := Apply(s, a);
            && s'.channel == s.channel
            && |s'.outcomes| + (if s'.writer.Resolving? then 1 else 0) == |s.outcomes| + (if s.writer.Resolving? then 1 else 0)
            && Unsent(s') <= Unsent(s) && (s'.poller.Stopped? || Unsent(s') == Unsent(s))
            && (s.poller.Stopped? ==> s'.poller.Stopped?)
            && (!WatchStarted(s') ==> s'.poller.Unborn?)
  {
    match a {
      case Work(w) => QuietWork(s, w);
      case Poll(p) => QuietPoll(s, p);
      case _ =>
    }
  }

  lemma NothingMoves(s: State, t: Trace, a: Action)
    requires Enabled(s, a) && PollOf(s, a).None? && |Apply(s, a).channel| == |s.channel|
    ensures var t' := Extend(t, s, a);
            (t'.polls, t'.begun, t'.sent, t'.received) == (t.polls, t.begun, t.sent, t.received)
  {
    ChannelIsStill(s, t, a);
    assert t.polls + [] == t.polls && t.begun + [] == t.begun;
  }

  lemma StepKeepsEvents(s: State, t: Trace, a: Action)
    requires BatchesInv(s, t) && EventsInv(s, t) && Enabled(s, a)
    ensures EventsInv(Apply(s, a), Extend(t, s, a))
  {
    if a == Poll(Decide) {
      DecisionKeepsEvents(s, t);
    } else if a == Poll(AnswerFails) {
      FailureKeepsEvents(s, t);
    } else if a == Poll(Send) {
      SendKeepsEvents(s, t);
    } else if a == Work(Receive) {
      ReceiveKeepsEvents(s, t);
    } else {
      OtherStepKeepsEvents(s, t, a);
    }
  }

  lemma {:induction false} RunKeepsEvents(s: State, acts: seq<Action>, t: Trace)
    requires BatchesInv(s, t) && EventsInv(s, t) && Runs(s, acts)
    ensures EventsInv(Final(s, acts), Observed(s, acts, t))
    decreases |acts|
  {
    if acts != [] {
      StepKeepsBatches(s, t, acts[0]);
      StepKeepsEvents(s, t, acts[0]);
      RunKeepsEvents(Apply(s, acts[0]), acts[1..], Extend(t, s, acts[0]));
    }
  }

  /** In every run events are neither lost, nor doubled, nor reordered: what has been
      received and what is in the channel are, in order, what was sent; the consumer has
      re-resolved once for each event received, but for the one in hand; and what was sent
      is, with what is about to be, all instances of the emitted polls, unless the poller
      was stopped in the middle of them. */
  lemma EventsArriveInOrder(tag: string, c: Catalog, acts: seq<Action>)
    requires Runs(Init(tag, c), acts)
    ensures var s, t := Final(Init(tag, c), acts), Observed(Init(tag, c), acts, NOTHING_YET);
            && t.received + s.channel == t.sent
            && |t.received| == |s.outcomes| + (if s.writer.Resolving? then 1 else 0)
            && t.sent <= Emitted(t.polls)
            && (!s.poller.Stopped? ==> t.sent + (if s.poller.Emitting? then s.poller.rest else []) == Emitted(t.polls))
  {
    RunKeepsEvents(Init(tag, c), acts, NOTHING_YET);
  }

  // ------------------------------------------------- who ends, and when

  /** Poller and consumer end only once the context is cancelled. */
  predicate LiveInv(s: State) {
    && (s.channelClosed <==> s.poller.Stopped?)
    && (s.poller.Stopped? || s.writer.Gone? ==> s.cancelled)
    && (s.writer.Gone? ==> WatchStarted(s))
  }

  lemma StepKeepsLive(s: State, a: Action)
    requires LiveInv(s) && Enabled(s, a) && (!WatchStarted(s) ==> s.poller.Unborn?)
    ensures LiveInv(Apply(s, a)) && (!WatchStarted(Apply(s, a)) ==> Apply(s, a).poller.Unborn?)
  {
    match a {
      case Work(w) => WorkFrame(s, w);
      case Poll(p) => PollFrame(s, p);
      case _ =>
    }
  }

  lemma {:induction false} RunKeepsLive(s: State, acts: seq<Action>)
    requires LiveInv(s) && Runs(s, acts) && (!WatchStarted(s) ==> s.poller.Unborn?)
    ensures LiveInv(Final(s, acts))
    decreases |acts|
  {
    if acts != [] {
      StepKeepsLive(s, acts[0]);
      RunKeepsLive(Apply(s, acts[0]), acts[1..]);
    }
  }

  /** In every run a poller or a consumer that has ended was cancelled: no failure of the
      registry, however long, ends the watch, and one that did not open is cancelled too. */
  lemma OnlyCancellationEnds(tag: string, c: Catalog, acts: seq<Action>)
    requires Runs(Init(tag, c), acts)
    ensures var s := Final(Init(tag, c), acts);
            s.poller.Stopped? || s.writer.Gone? ==> s.cancelled
  {
    RunKeepsLive(Init(tag, c), acts);
  }
}
