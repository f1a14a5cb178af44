/** Concrete runs in which a block is given up, and what follows at both ends. */
module GiveUpRuns {
  import opened Transfers
  import opened Protocol
  import opened Sender
  import K = Tracker
  import W = ReorderWriter
  import opened System
  import opened SystemControl
  import opened Theorems
  import opened Witnesses

  /** A block of two packets and perhaps a second block of one; one Missing ack a block. */
  function Short(two: bool): Transfer {
    Transfer(if two then [0, 0, 0] else [0, 0], 1, if two then [[0], [0], [0]] else [[0], [0]],
             2, 1, 1, 1, 1, 1, (c, d) => d, d => 0)
  }

  lemma ShortSplit(two: bool)
    ensures Split(Short(two).original, 1) == Short(two).file
  {
    var three: Bytes, pair: Bytes := [0, 0, 0], [0, 0];
    assert three[..1] == [0] && three[1..] == pair;
    assert pair[..1] == [0] && pair[1..] == [0];
    assert Split([0], 1) == [[0]];
    assert Split(pair, 1) == [[0]] + Split([0], 1);
    assert Split(three, 1) == [[0]] + Split(pair, 1);
  }

  lemma ShortValid(two: bool)
    ensures Valid(Short(two))
  {
    ShortSplit(two);
  }

  lemma ShortShape(two: bool)
    ensures TotalBlocks(Short(two)) == if two then 2 else 1
    ensures PacketsInBlock(Short(two), 0) == 2
    ensures BlockOf(Short(two), 0) == 0 && BlockOf(Short(two), 1) == 0 && IndexOf(Short(two), 0) == 0
    ensures ChunkIdOf(Short(two), 0, 0) == 0 && 2 <= TotalChunks(Short(two))
    ensures PacketOf(Short(two), 0) == Data(0, 0, 0, [0])
  {
  }

  /** The first packet of a two-packet block. */
  lemma FirstOfTwo(two: bool)
    ensures var s := Step(Short(two), START, ChunkEvent(ChunkOf(Short(two), 0)), 0);
            && s.slots.Keys == {0} && IsOpen(s.slots, 0) && PendingIds(s.slots) == {} && s.openSlots == 1
            && PacketOf(Short(two), 0) in s.log && s.completed == 0 && s.arrived == {0}
  {
    ShortShape(two);
    var t := Short(two);
    hide BlockOf, IndexOf, PacketsInBlock, TotalBlocks, ChunkIdOf, PacketOf;
    var s1 := OpenBlock(t, START.(arrived := START.arrived + {0}), 0, 0);
    var s2 := CacheAndSend(s1, 0, 0, ChunkOf(t, 0));
    assert Handle(t, START, ChunkEvent(ChunkOf(t, 0)), 0) == s2;
    assert PendingIds(s2.slots) == {};
    assert PacketOf(t, 0) in s2.log;
  }

  /** What the runs below keep true of the sender until it reads the Complete. */
  ghost predicate OneOpen(s: Sender) {
    s.slots.Keys == {0} && IsOpen(s.slots, 0) && PendingIds(s.slots) == {} && s.openSlots == 1
    && s.completed == 0 && s.arrived == {0}
  }

  function Entry(lastActivity: nat, rounds: nat): K.RxEntry {
    K.RxEntry(2, [false, false], 0, lastActivity, false, rounds, 0)
  }

  /** The packet arrives damaged and the worker drops it. */
  lemma ToDamaged(two: bool) returns (s: State)
    ensures Reachable(Short(two), s) && OneOpen(s.sender)
    ensures s == INIT.(sender := s.sender, tracker := K.Tracker(map[0 := Entry(0, 0)], {}))
  {
    var t := Short(two);
    ShortShape(two);
    hide BlockOf, IndexOf, PacketsInBlock, TotalBlocks, ChunkIdOf, Step, Reachable, PacketOf, IsOpen, PendingIds;
    StartReachable(t);
    FirstOfTwo(two);
    ReachStep(t, INIT, ChunkArrives(0, 0));
    var s1 := Next(t, INIT, ChunkArrives(0, 0));
    var d := Data(0, 0, 0, [0]);
    ReachStep(t, s1, Deliver(d, [0], 5));
    var s2 := Next(t, s1, Deliver(d, [0], 5));
    assert seq(2, _ => false) == [false, false];
    var p := Received(0, 0, 0, [0], 5);
    ReachStep(t, s2, WorkerVerify(p));
    s := Next(t, s2, WorkerVerify(p));
  }

  lemma BothMissing()
    ensures K.MissingIds([false, false]) == [0, 1]
  {
    assert K.MissingIds([]) == [];
    assert [false][..0] == [] && K.MissingIds([false]) == [0];
    assert [false, false][..1] == [false];
  }

  /** After a silence of the idle timeout the block is polled and checked. */
  lemma CheckOnce(two: bool, s0: State, at: nat, round: nat) returns (s: State)
    requires Reachable(Short(two), s0) && s0.now == at && s0.manager.Polling? && s0.resolved == 0
    requires s0.tracker == K.Tracker(map[0 := Entry(at, round)], {})
    ensures Reachable(Short(two), s)
    ensures s == s0.(now := at + 1, tracker := K.Tracker(map[0 := Entry(at + 1, round + 1)], {}),
                     manager := Replying(0, K.Snapshot(false, [0, 1], round + 1), []))
  {
    var t := Short(two);
    ShortShape(two);
    hide TotalBlocks, Reachable, PacketsInBlock;
    ReachStep(t, s0, ClockAdvances(1));
    var s1 := Next(t, s0, ClockAdvances(1));
    var s2 := PollOne(t, s1, 0);
    BothMissing();
    assert s2.manager.ready[1..] == [];
    ReachStep(t, s2, Check);
    s := Next(t, s2, Check);
  }

  /** One Missing ack, then the give-up, after exactly the two backoffs. */
  lemma ToGivenUp(two: bool) returns (s: State)
    ensures Reachable(Short(two), s) && OneOpen(s.sender)
    ensures s == INIT.(sender := s.sender, tracker := K.Tracker(map[0 := Entry(2, 2)], {}), now := 2,
                       acks := [Missing(0, [0, 1]), Complete(0)], manager := Removing(0, []), gaveUp := map[0 := 2])
  {
    var t := Short(two);
    hide Reachable, OneOpen;
    var s0 := ToDamaged(two);
    var s1 := CheckOnce(two, s0, 0, 0);
    ReachStep(t, s1, Reply);
    var s2 := Next(t, s1, Reply);
    var s3 := CheckOnce(two, s2, 1, 1);
    ReachStep(t, s3, Reply);
    s := Next(t, s3, Reply);
  }

  ghost predicate DoneWithout(t: Transfer, s: State) {
    AckManagerDone(t, s) && QueuesDrained(s) && 0 in s.gaveUp && s.writer.output != t.original
  }

  lemma ToGivenUpDone() returns (s: State)
    ensures Reachable(Short(false), s)
    ensures s == INIT.(sender := s.sender, tracker := K.Tracker(map[], {0}), now := 2,
                       acks := [Missing(0, [0, 1]), Complete(0)], resolved := 1, gaveUp := map[0 := 2])
  {
    hide Reachable, OneOpen, Short;
    var s0 := ToGivenUp(false);
    ReachStep(Short(false), s0, RemoveDone);
    s := Next(Short(false), s0, RemoveDone);
    assert s0.tracker.blocks - {0} == map[];
  }

  lemma ManagerOut(s: State)
    requires s.manager == Polling && s.resolved == 1
    ensures AckManagerDone(Short(false), s)
  {
    ShortShape(false);
    hide Short, TotalBlocks;
  }

  lemma NothingWritten(s: State)
    requires s.writer == W.START
    ensures s.writer.output != Short(false).original
  {
  }

  lemma ToDoneWithout() returns (s: State)
    ensures Reachable(Short(false), s) && DoneWithout(Short(false), s)
  {
    hide Reachable, AckManagerDone, Short;
    s := ToGivenUpDone();
    ManagerOut(s);
    NothingWritten(s);
  }

  /** Giving up can lose the file: both the ack manager and the queues are done, and the output
      is not the original. */
  lemma GiveUpLosesData()
    ensures exists t, actions :: Valid(t) && DoneWithout(t, EndOf(t, actions))
  {
    hide *;
    ShortValid(false);
    var s := ToDoneWithout();
    var actions := RunTo(Short(false), s);
    assert Valid(Short(false)) && DoneWithout(Short(false), EndOf(Short(false), actions));
  }

  lemma ResolveIt(two: bool, s: Sender)
    requires OneOpen(s)
    ensures var s' := Step(Short(two), s, AckEvent(Complete(0)), 0);
            s'.slots == s.slots[0 := Resolved] && s'.completed == 1 && s'.arrived == s.arrived
  {
    assert PendingIds(OnComplete(s, 0).slots) == {};
  }

  lemma ReadMissing(two: bool, s: Sender)
    requires OneOpen(s)
    ensures OneOpen(Step(Short(two), s, AckEvent(Missing(0, [0, 1])), 0))
  {
    hide Cached;
    assert PendingIds(OnMissing(s, 0, [0, 1], 0).slots) == {};
  }

  /** The sender still runs, and the next chunk to come belongs to a Resolved block. */
  ghost predicate AboutToDrop(t: Transfer, s: State, c: nat) {
    && Running(t, s.sender)
    && c < TotalChunks(t) && c !in s.sender.arrived
    && IsResolved(s.sender.slots, BlockOf(t, c))
  }

  lemma ToDrop() returns (s: State)
    ensures Reachable(Short(true), s) && AboutToDrop(Short(true), s, 1)
  {
    ShortShape(true);
    hide Reachable, Step, TotalBlocks, BlockOf, PacketsInBlock;
    var s0 := ToGivenUp(true);
    ReadMissing(true, s0.sender);
    ReachStep(Short(true), s0, AckArrives(0));
    var s1 := Next(Short(true), s0, AckArrives(0));
    ResolveIt(true, s1.sender);
    ReachStep(Short(true), s1, AckArrives(0));
    s := Next(Short(true), s1, AckArrives(0));
  }

  /** After a give-up the Drop branch is taken. */
  lemma DropHappens()
    ensures exists t, actions, c: nat :: Valid(t) && AboutToDrop(t, EndOf(t, actions), c)
  {
    hide *;
    ShortValid(true);
    var s := ToDrop();
    var actions := RunTo(Short(true), s);
    assert Valid(Short(true)) && AboutToDrop(Short(true), EndOf(Short(true), actions), 1);
  }
}
