/**
 * The flushing-task scenarios: a string buffer with string-length cost, a
 * task with batch limit 3 and a flush interval that never elapses, and
 * what `sentOut` holds after each Run.
 */
module BufferFlushingTaskTest {
  import opened SumoLogicQueue

  /** The test messages are plain ASCII, so each costs its four characters. */
  lemma MessageCosts()
    ensures StringLengthCost("msg1") == 4 && StringLengthCost("msg2") == 4
    ensures StringLengthCost("msg3") == 4 && StringLengthCost("msg4") == 4
  {
    StringLengthCostInBmp("msg1");
    StringLengthCostInBmp("msg2");
    StringLengthCostInBmp("msg3");
    StringLengthCostInBmp("msg4");
  }

  /**
   * A character outside the Basic Multilingual Plane costs two code units, so
   * three of them and "abc" total 9 and, at capacity 8, the first item is evicted.
   */
  lemma SupplementaryCharacterCostsTwo()
    ensures StringLengthCost("\U{1F600}") == 2
    ensures EvictOldest(["\U{1F600}\U{1F600}\U{1F600}", "abc"], StringLengthCost, 8) == ["abc"]
  {
    assert Supplementary("\U{1F600}") == {0};
    assert Supplementary("\U{1F600}\U{1F600}\U{1F600}") == {0, 1, 2};
    StringLengthCostInBmp("abc");
  }

  /** Adding a four-unit message that fits appends it and grows the size by four. */
  method AddFitting(buffer: BufferWithFifoEviction<string>, item: string)
    requires buffer.Valid() && buffer.costAssigner == StringLengthCost
    requires StringLengthCost(item) == 4 && buffer.size + 4 <= buffer.capacity
    modifies buffer
    ensures buffer.Valid()
    ensures buffer.queue == old(buffer.queue) + [item] && buffer.size == old(buffer.size) + 4
  {
    buffer.Add(item);
  }

  /** Two Runs below the limit send nothing; a third item makes one batch of all three, in order. */
  method FlushBySizeTest(now: nat) returns (beforeAny: nat, belowLimit: nat, sent: seq<seq<string>>)
    ensures beforeAny == 0 && belowLimit == 0
    ensures sent == [["msg1", "msg2", "msg3"]]
  {
    MessageCosts();
    var buffer := new BufferWithFifoEviction<string>(1000, StringLengthCost);
    var task := new DummyBufferFlushingTask(buffer, MaxValue, 3, "No-Name", now);

    task.Run(now);
    beforeAny := |task.sentOut|;

    AddFitting(buffer, "msg1");
    AddFitting(buffer, "msg2");
    assert buffer.queue == ["msg1", "msg2"];
    assert !task.NeedsFlushing(now);
    task.Run(now);
    belowLimit := |task.sentOut|;

    AddFitting(buffer, "msg3");
    assert buffer.queue == ["msg1", "msg2", "msg3"];
    assert task.NeedsFlushing(now);
    task.Run(now);
    sent := task.sentOut;
  }

  /** Four items against a limit of three still leave in one batch. */
  method FlushWithNPlusOneElementsTest(now: nat) returns (sent: seq<seq<string>>)
    ensures sent == [["msg1", "msg2", "msg3", "msg4"]]
  {
    MessageCosts();
    var buffer := new BufferWithFifoEviction<string>(1000, StringLengthCost);
    var task := new DummyBufferFlushingTask(buffer, MaxValue, 3, "No-Name", now);
    AddFitting(buffer, "msg1");
    AddFitting(buffer, "msg2");
    AddFitting(buffer, "msg3");
    AddFitting(buffer, "msg4");
    assert buffer.queue == ["msg1", "msg2", "msg3", "msg4"];
    assert task.NeedsFlushing(now);
    task.Run(now);
    sent := task.sentOut;
  }

  /** With capacity 12, "msg1".."msg3" fit exactly and adding "msg4" evicts exactly "msg1". */
  lemma FourthMessageEvictsFirst()
    ensures EvictOldest(["msg1", "msg2", "msg3"], StringLengthCost, 12) == ["msg1", "msg2", "msg3"]
    ensures EvictOldest(["msg1", "msg2", "msg3", "msg4"], StringLengthCost, 12) == ["msg2", "msg3", "msg4"]
  {
    MessageCosts();
  }

  /** Capacity 12 holds "msg1".."msg3" exactly; "msg4" evicts "msg1". */
  method FlushWhenBufferCapacityIsSmallTest(now: nat) returns (full: seq<string>, sent: seq<seq<string>>)
    ensures full == ["msg1", "msg2", "msg3"]
    ensures sent == [["msg2", "msg3", "msg4"]]
  {
    MessageCosts();
    var buffer := new BufferWithFifoEviction<string>(12, StringLengthCost);
    var task := new DummyBufferFlushingTask(buffer, MaxValue, 3, "No-Name", now);
    AddFitting(buffer, "msg1");
    AddFitting(buffer, "msg2");
    AddFitting(buffer, "msg3");
    full := buffer.queue;
    assert full == ["msg1", "msg2", "msg3"];
    assert full + ["msg4"] == ["msg1", "msg2", "msg3", "msg4"];
    FourthMessageEvictsFirst();
    buffer.Add("msg4");
    assert buffer.queue == ["msg2", "msg3", "msg4"];
    assert task.NeedsFlushing(now);
    task.Run(now);
    sent := task.sentOut;
  }
}
