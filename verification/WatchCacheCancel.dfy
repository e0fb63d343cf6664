/** After cancellation the poller and the consumer both end, whichever branch of a
    `select` they take, and neither is ever stuck. */
module WatchCacheCancel {
  import opened Types
  import opened Cache
  import opened WatchCache
  import E = WatchCacheEvents

  // ------------------------------------------------- the channel

  /** The channel is never over-full, and closed exactly when the poller has stopped. */
  predicate ChannelInv(s: State) {
    && |s.channel| <= CHANNEL_CAPACITY
    && (s.channelClosed <==> s.poller.Stopped?)
    && (!WatchStarted(s) ==> s.poller.Unborn?)
  }

  lemma StepKeepsChannel(s: State, a: Action)
    requires ChannelInv(s) && Enabled(s, a)
    ensures ChannelInv(Apply(s, a))
    ensures s.channelClosed ==> Apply(s, a).channelClosed && |Apply(s, a).channel| <= |s.channel|
  {
    match a {
      case Work(w) => WorkFrame(s, w);
      case Poll(p) => PollFrame(s, p);
      case _ =>
    }
  }

  lemma {:induction false} RunKeepsChannel(s: State, acts: seq<Action>)
    requires ChannelInv(s) && Runs(s, acts)
    ensures ChannelInv(Final(s, acts))
    ensures s.channelClosed ==>
              && Final(s, acts).channelClosed && |Final(s, acts).channel| <= |s.channel|
              && Sends(acts) == 0
    decreases |acts|
  {
    if acts != [] {
      StepKeepsChannel(s, acts[0]);
      RunKeepsChannel(Apply(s, acts[0]), acts[1..]);
    }
  }

  /** At every moment of every run the channel is not over-full and is closed exactly when
      the poller has stopped; from then on it stays closed, nothing is sent to it, and it
      only drains. */
  lemma ClosedChannelOnlyDrains(tag: string, c: Catalog, before: seq<Action>, acts: seq<Action>)
    requires Runs(Init(tag, c), before) && Runs(Final(Init(tag, c), before), acts)
    ensures var s := Final(Init(tag, c), before);
            var s' := Final(s, acts);
            && ChannelInv(s)
            && (s.channelClosed ==> s'.channelClosed && |s'.channel| <= |s.channel| && Sends(acts) == 0)
  {
    RunKeepsChannel(Init(tag, c), before);
    RunKeepsChannel(Final(Init(tag, c), before), acts);
  }

  // ------------------------------------------------- counting a run

  function Answers(acts: seq<Action>): nat {
    if acts == [] then 0 else Answers(acts[1..]) + (if acts[0] == Poll(Answer) then 1 else 0)
  }

  function Sends(acts: seq<Action>): nat {
    if acts == [] then 0 else Sends(acts[1..]) + (if acts[0] == Poll(Send) then 1 else 0)
  }

  function Receives(acts: seq<Action>): nat {
    if acts == [] then 0 else Receives(acts[1..]) + (if acts[0] == Work(Receive) then 1 else 0)
  }

  /** Steps of the two goroutines, of any kind. */
  function Steps(acts: seq<Action>): nat {
    if acts == [] then 0 else Steps(acts[1..]) + (if acts[0].Poll? || acts[0].Work? then 1 else 0)
  }

  /** How many instances the polls answered during a run return in all. */
  function Polled(s: State, acts: seq<Action>): nat
    requires Runs(s, acts)
    decreases |acts|
  {
    if acts == [] then 0
    else Polled(Apply(s, acts[0]), acts[1..]) + (if acts[0] == Poll(Answer) then |Current(s).instances| else 0)
  }

  // ------------------------------------------------- what is left to do

  function PollerWork(p: Poller): nat {
    match p
    case Unborn => 0
    case Stopped => 0
    case Top => 1
    case Sleeping => 2
    case Querying => 4
    case Answered(c) => 3 + 6 * |c.instances|
    case Emitting(rest) => 2 + 6 * |rest|
  }

  function WriterWork(w: Writer): nat {
    match w
    case Gone => 0
    case Waiting => 1
    case Updating(p) => 1 + WritesLeft(p)
    case Resolving => 5
    case Opening => 3
    case SeedStoring(p) => 3 + WritesLeft(p)
    case Seeding => 7
  }

  /** An upper bound on the steps left, but for the answer of a poll still in flight. */
  function WorkLeft(s: State): nat {
    PollerWork(s.poller) + WriterWork(s.writer) + 5 * |s.channel|
  }

  /** Events of the batch in hand that are still to be sent. */
  function Unsent(p: Poller): nat {
    match p
    case Answered(c) => |c.instances|
    case Emitting(rest) => |rest|
    case _ => 0
  }

  function PollsOwed(p: Poller): nat {
    if p.Querying? then 1 else 0
  }

  lemma PollStepDecreases(s: State, p: PollStep)
    requires s.cancelled && PollEnabled(s, p)
    ensures var s' := PollNext(s, p);
            var size := if p.Answer? then |Current(s).instances| else 0;
            && s'.cancelled
            && WorkLeft(s') + 1 <= WorkLeft(s) + 6 * size
            && PollsOwed(s'.poller) + (if p.Answer? then 1 else 0) <= PollsOwed(s.poller)
            && Unsent(s'.poller) + (if p.Send? then 1 else 0) <= Unsent(s.poller) + size
            && |s'.channel| == |s.channel| + (if p.Send? then 1 else 0)
  {
  }

  lemma WorkStepDecreases(s: State, w: WorkStep)
    requires WorkEnabled(s, w) && ChannelInv(s)
    ensures var s' := WorkNext(s, w);
            && (s.cancelled ==> s'.cancelled)
            && WorkLeft(s') + 1 <= WorkLeft(s)
            && PollsOwed(s'.poller) <= PollsOwed(s.poller)
            && Unsent(s'.poller) <= Unsent(s.poller)
            && |s'.channel| + (if w.Receive? then 1 else 0) == |s.channel|
  {
    WorkFrame(s, w);
  }

  lemma {:induction false} WorkIsUsedUp(s: State, acts: seq<Action>)
    requires s.cancelled && ChannelInv(s) && Runs(s, acts)
    ensures Answers(acts) <= PollsOwed(s.poller)
    ensures Sends(acts) <= Unsent(s.poller) + Polled(s, acts)
    ensures Receives(acts) <= |s.channel| + Sends(acts)
    ensures Steps(acts) <= WorkLeft(s) + 6 * Polled(s, acts)
    decreases |acts|
  {
    if acts != [] {
      var a, s' := acts[0], Apply(s, acts[0]);
      StepKeepsChannel(s, a);
      match a {
        case Poll(p) => PollStepDecreases(s, p);
        case Work(w) => WorkStepDecreases(s, w);
        case _ => assert (s'.poller, s'.writer, s'.channel) == (s.poller, s.writer, s.channel);
      }
      WorkIsUsedUp(s', acts[1..]);
    }
  }

  /** Take any run in which the watch's context has been cancelled, and any continuation:
      at most one more poll is answered, at most the rest of one batch is sent, each
      receive takes a buffered or newly sent event, and all steps of the two goroutines
      together are bounded by what was left to do and that one batch. */
  lemma CancelledRunsAreBounded(tag: string, c: Catalog, before: seq<Action>, acts: seq<Action>)
    requires Runs(Init(tag, c), before) && Final(Init(tag, c), before).cancelled
    requires Runs(Final(Init(tag, c), before), acts)
    ensures var s := Final(Init(tag, c), before);
            && Answers(acts) <= PollsOwed(s.poller) <= 1
            && Sends(acts) <= Unsent(s.poller) + Polled(s, acts)
            && Receives(acts) <= |s.channel| + Sends(acts)
            && Steps(acts) <= WorkLeft(s) + 6 * Polled(s, acts)
  {
    RunKeepsChannel(Init(tag, c), before);
    WorkIsUsedUp(Final(Init(tag, c), before), acts);
  }

  /** The poller does not fall asleep, nor ask again, once it is cancelled. */
  lemma {:induction false} CancelledDoesNotBackOff(s: State, acts: seq<Action>)
    requires s.cancelled && Runs(s, acts)
    ensures Final(s, acts).cancelled
    ensures Final(s, acts).poller.Sleeping? ==> s.poller.Sleeping?
    ensures Final(s, acts).poller.Querying? && WatchStarted(s) ==> s.poller.Querying?
    decreases |acts|
  {
    if acts != [] {
      match acts[0] {
        case Poll(p) => PollFrame(s, p);
        case Work(w) => WorkFrame(s, w);
        case _ =>
      }
      CancelledDoesNotBackOff(Apply(s, acts[0]), acts[1..]);
    }
  }

  // ------------------------------------------------- never stuck

  predicate BothEnded(s: State) {
    (s.poller.Stopped? || s.poller.Unborn?) && s.writer.Gone?
  }

  /** What the goroutines of an opened watch can be waiting for. The poller waits only with
      an event in hand and sixteen in the channel; the consumer only with none in the
      channel, which is open. So the two never wait for each other: before cancellation
      too, one of them can go on. */
  lemma NeverBothWait(tag: string, c: Catalog, acts: seq<Action>)
    requires Runs(Init(tag, c), acts)
    requires var s := Final(Init(tag, c), acts); WatchStarted(s) && !s.poller.Unborn?
    ensures var s := Final(Init(tag, c), acts);
            && (!s.poller.Stopped? ==>
                  (PollerGoesOn(s) <==>
                   !(s.poller.Emitting? && s.poller.rest != [] && |s.channel| == 16 && !s.cancelled)))
            && (!s.writer.Gone? ==>
                  (WriterGoesOn(s) <==> !(s.writer.Waiting? && s.channel == [] && !s.channelClosed && !s.cancelled)))
            && (BothEnded(s) || PollerGoesOn(s) || WriterGoesOn(s))
            && (Enabled(s, Work(ReceiveClosed)) ==> s.channel == [] && s.channelClosed && s.cancelled)
  {
    RunKeepsChannel(Init(tag, c), acts);
    var s := Final(Init(tag, c), acts);
    E.OnlyCancellationEnds(tag, c, acts);
    PollerWaits(s);
    WriterWaits(s);
  }

  ghost predicate PollerGoesOn(s: State) {
    exists p: PollStep :: Enabled(s, Poll(p))
  }

  ghost predicate WriterGoesOn(s: State) {
    exists w: WorkStep :: Enabled(s, Work(w))
  }

  lemma PollerWaits(s: State)
    requires |s.channel| <= 16
    ensures PollerGoesOn(s) <==>
            && !s.poller.Stopped? && !s.poller.Unborn?
            && !(s.poller.Emitting? && s.poller.rest != [] && |s.channel| == 16 && !s.cancelled)
  {
    match s.poller {
      case Top => assert Enabled(s, Poll(CheckCancelled));
      case Querying => assert Enabled(s, Poll(AnswerFails));
      case Answered(_) => assert Enabled(s, Poll(Decide));
      case Sleeping => assert Enabled(s, Poll(WakeUp));
      case Emitting(rest) =>
        assert rest == [] ==> Enabled(s, Poll(EmitDone));
        assert rest != [] && |s.channel| < 16 ==> Enabled(s, Poll(Send));
        assert rest != [] && s.cancelled ==> Enabled(s, Poll(SendCancelled));
      case _ =>
    }
  }

  lemma WriterWaits(s: State)
    ensures WriterGoesOn(s) <==>
            && !s.writer.Gone?
            && !(s.writer.Waiting? && s.channel == [] && !s.channelClosed && !s.cancelled)
  {
    if s.writer.Waiting? {
      assert s.channel != [] ==> Enabled(s, Work(Receive));
      assert s.channel == [] && s.channelClosed ==> Enabled(s, Work(ReceiveClosed));
      assert s.cancelled ==> Enabled(s, Work(ReceiveCancelled));
    } else if !s.writer.Gone? {
      assert Enabled(s, Work(WriterWayOut(s)));
    }
  }

  /** A step the poller can always take after cancellation. */
  function WayOut(s: State): PollStep {
    match s.poller
    case Top => CheckCancelled
    case Querying => AnswerFails
    case Answered(_) => Decide
    case Sleeping => WakeCancelled
    case Emitting(rest) => if rest == [] then EmitDone else SendCancelled
    case _ => CheckCancelled
  }

  /** A step the writer can always take after cancellation. */
  function WriterWayOut(s: State): WorkStep {
    match s.writer
    case Seeding => SeedFails(ErrRegistry("context canceled"))
    case SeedStoring(_) => WriteNext
    case Opening => OpenWatch
    case Waiting => ReceiveCancelled
    case Resolving => ResolveFails(ErrRegistry("context canceled"))
    case Updating(_) => WriteNext
    case Gone => Receive
  }

  /** After cancellation each goroutine that has not ended has a step, even a sender
      facing a full channel; so a run that cannot go on has ended both. */
  lemma CancelledIsNeverStuck(s: State)
    requires s.cancelled
    ensures !s.poller.Stopped? && !s.poller.Unborn? ==> Enabled(s, Poll(WayOut(s)))
    ensures !s.writer.Gone? ==> Enabled(s, Work(WriterWayOut(s)))
    ensures (forall a: Action :: a.Poll? || a.Work? ==> !Enabled(s, a)) <==> BothEnded(s)
  {
    if !BothEnded(s) {
      assert Enabled(s, Poll(WayOut(s))) || Enabled(s, Work(WriterWayOut(s)));
    }
  }
}
