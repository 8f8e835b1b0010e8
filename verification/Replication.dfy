/** Cross-cluster replication of one grain: the sink numbers snapshots and drops
    them when its channel is full, the pump appends them to the log, and the
    consumer applies the newest of each batch to the replica. */
module Replication {
  import opened Text
  import opened Grains

  datatype EntryType = FullState | Delta

  datatype ReplicationEntry = ReplicationEntry(sequence: nat, timestamp: int, entryType: EntryType, payload: Bytes)

  datatype ReplicaEntry = ReplicaEntry(payload: Bytes, sequence: nat, timestamp: int)

  datatype AppendResult = Appended(sequence: nat) | SequenceConflict(expected: nat, actual: nat)

  const POLL_LIMIT: nat := 100

  // --- The log ---

  function LatestSequence(log: seq<ReplicationEntry>): nat {
    if log == [] then 0 else log[|log| - 1].sequence
  }

  /** `append` refuses sequences at or below the last one. */
  predicate Conflicts(log: seq<ReplicationEntry>, e: ReplicationEntry) {
    log != [] && e.sequence <= LatestSequence(log)
  }

  function AfterAppend(log: seq<ReplicationEntry>, e: ReplicationEntry): seq<ReplicationEntry> {
    if Conflicts(log, e) then log else log + [e]
  }

  /** Entries above a sequence. */
  function Unread(log: seq<ReplicationEntry>, after: nat): seq<ReplicationEntry> {
    if log == [] then []
    else Unread(log[..|log| - 1], after) + if LatestSequence(log) > after then [log[|log| - 1]] else []
  }

  function Take<T>(s: seq<T>, n: nat): seq<T> {
    if n < |s| then s[..n] else s
  }

  /** `read_from`. */
  function ReadFrom(log: seq<ReplicationEntry>, after: nat, limit: nat): seq<ReplicationEntry> {
    Take(Unread(log, after), limit)
  }

  /** `truncate` keeps the entries at or above a sequence. */
  function Truncated(log: seq<ReplicationEntry>, before: nat): seq<ReplicationEntry> {
    if before == 0 then log else Unread(log, before - 1)
  }

  // --- The consumer ---

  datatype Consumer = Consumer(cursor: nat, replica: Option<ReplicaEntry>)

  /** One successful poll: the newest entry of the batch is applied; a batch holding
      a delta is skipped. */
  function Poll(c: Consumer, log: seq<ReplicationEntry>): Consumer {
    var entries := ReadFrom(log, c.cursor, POLL_LIMIT);
    if entries == [] then c
    else
      var latest := entries[|entries| - 1];
      if exists i :: 0 <= i < |entries| && entries[i].entryType == Delta then c.(cursor := latest.sequence)
      else Consumer(latest.sequence, Some(ReplicaEntry(latest.payload, latest.sequence, latest.timestamp)))
  }

  function PollTimes(c: Consumer, log: seq<ReplicationEntry>, k: nat): Consumer
    decreases k
  {
    if k == 0 then c else PollTimes(Poll(c, log), log, k - 1)
  }

  // --- The whole chain ---

  /** `saved` lists the states the primary made durable, `sent` the payloads by
      sequence number (from 1) and `origin` where in `saved` each of them came from;
      `unsent` marks a save whose send has not happened. */
  datatype Chain = Chain(
    saved: seq<Bytes>,
    unsent: bool,
    sent: seq<Bytes>,
    origin: seq<nat>,
    nextSequence: nat,
    channel: seq<ReplicationEntry>,
    capacity: nat,
    log: seq<ReplicationEntry>,
    consumer: Consumer)

  function Initial(capacity: nat): Chain {
    Chain([], false, [], [], 1, [], capacity, [], Consumer(0, None))
  }

  /** A write-through primary saves and then sends (or dies in between); the pump,
      truncation and the consumer interleave with it. */
  datatype Step =
    | Save(bytes: Bytes)
    | Send(timestamp: int)
    | DieBeforeSend
    | Pump(appendOk: bool)
    | Truncate(before: nat)
    | PollStep(readOk: bool)

  predicate Enabled(c: Chain, st: Step) {
    match st
    case Save(_) => !c.unsent
    case Send(_) => c.unsent
    case DieBeforeSend => c.unsent
    case Pump(_) => c.channel != []
    case _ => true
  }

  function Do(c: Chain, st: Step): Chain
    requires Enabled(c, st)
  {
    match st
    case Save(bytes) => c.(saved := c.saved + [bytes], unsent := true)
    case Send(ts) =>
      if c.saved == [] then c
      else
        var payload := c.saved[|c.saved| - 1];
        var entry := ReplicationEntry(c.nextSequence, ts, FullState, payload);
        c.(unsent := false, sent := c.sent + [payload], origin := c.origin + [|c.saved| - 1],
           nextSequence := c.nextSequence + 1,
           channel := if |c.channel| < c.capacity then c.channel + [entry] else c.channel)
    case DieBeforeSend => c.(unsent := false)
    case Pump(appendOk) =>
      c.(channel := c.channel[1..], log := if appendOk then AfterAppend(c.log, c.channel[0]) else c.log)
    case Truncate(before) => c.(log := Truncated(c.log, before))
    case PollStep(readOk) => if readOk then c.(consumer := Poll(c.consumer, c.log)) else c
  }

  predicate ValidRun(capacity: nat, run: seq<Step>)
    decreases run, 0
  {
    run == [] || (ValidRun(capacity, run[..|run| - 1])
                  && Enabled(Final(capacity, run[..|run| - 1]), run[|run| - 1]))
  }

  function Final(capacity: nat, run: seq<Step>): Chain
    requires ValidRun(capacity, run)
    decreases run, 1
  {
    if run == [] then Initial(capacity) else Do(Final(capacity, run[..|run| - 1]), run[|run| - 1])
  }

  // --- The invariant ---

  /** The entry carries the payload sent under its sequence number. */
  predicate Genuine(sent: seq<Bytes>, e: ReplicationEntry) {
    1 <= e.sequence <= |sent| && e.payload == sent[e.sequence - 1] && e.entryType == FullState
  }

  ghost predicate Ascending(es: seq<ReplicationEntry>) {
    forall i, j :: 0 <= i < j < |es| ==> es[i].sequence < es[j].sequence
  }

  /** Sent payloads are durable states, in the order they became durable. */
  ghost predicate SendsAreDurable(c: Chain) {
    && c.nextSequence == |c.sent| + 1
    && |c.origin| == |c.sent|
    && (c.unsent ==> c.saved != [])
    && (forall i :: 0 <= i < |c.sent| ==>
          c.origin[i] < |c.saved| - (if c.unsent then 1 else 0) && c.saved[c.origin[i]] == c.sent[i])
    && (forall i, j :: 0 <= i < j < |c.origin| ==> c.origin[i] < c.origin[j])
  }

  ghost predicate ReplicaGenuine(c: Chain) {
    && c.consumer.cursor <= |c.sent|
    && (c.consumer.replica.Some? <==> c.consumer.cursor > 0)
    && (c.consumer.replica.Some? ==>
          && c.consumer.replica.value.sequence == c.consumer.cursor
          && c.consumer.replica.value.payload == c.sent[c.consumer.cursor - 1])
  }

  ghost predicate Sound(c: Chain) {
    && SendsAreDurable(c)
    && ReplicaGenuine(c)
    && (forall e :: e in c.log + c.channel ==> Genuine(c.sent, e))
    && Ascending(c.log + c.channel)
  }

  /** How many entries of an ascending log have been read. */
  function ReadCount(log: seq<ReplicationEntry>, after: nat): (i: nat)
    ensures i <= |log|
  {
    if log == [] then 0
    else if LatestSequence(log) > after then ReadCount(log[..|log| - 1], after)
    else |log|
  }

  lemma {:induction false} ReadCountDivides(log: seq<ReplicationEntry>, after: nat)
    requires Ascending(log)
    ensures var i := ReadCount(log, after);
            && (forall j :: 0 <= j < i ==> log[j].sequence <= after)
            && (forall j :: i <= j < |log| ==> log[j].sequence > after)
  {
    if log != [] && LatestSequence(log) > after {
      var init := log[..|log| - 1];
      ReadCountDivides(init, after);
      assert forall j :: 0 <= j < |init| ==> init[j] == log[j];
    }
  }

  lemma ReadUpTo(log: seq<ReplicationEntry>, k: nat)
    requires Ascending(log) && k < |log|
    ensures ReadCount(log, log[k].sequence) == k + 1
  {
    var i := ReadCount(log, log[k].sequence);
    ReadCountDivides(log, log[k].sequence);
    assert i > k;
    assert k + 1 < |log| ==> log[k].sequence < log[k + 1].sequence;
  }

  lemma {:induction false} AllRead(log: seq<ReplicationEntry>, after: nat)
    ensures (forall j :: 0 <= j < |log| ==> log[j].sequence <= after) ==> Unread(log, after) == []
  {
    if log != [] {
      AllRead(log[..|log| - 1], after);
    }
  }

  /** On an ascending log the unread entries are a suffix. */
  lemma {:induction false} UnreadIsSuffix(log: seq<ReplicationEntry>, after: nat) returns (i: nat)
    requires Ascending(log)
    ensures i == ReadCount(log, after) && Unread(log, after) == log[i..]
    ensures forall j :: 0 <= j < i ==> log[j].sequence <= after
    ensures forall j :: i <= j < |log| ==> log[j].sequence > after
  {
    i := ReadCount(log, after);
    ReadCountDivides(log, after);
    if i == |log| {
      AllRead(log, after);
    } else {
      var init := log[..|log| - 1];
      var _ := UnreadIsSuffix(init, after);
      assert log[i..] == init[i..] + [log[|log| - 1]];
    }
  }

  lemma PollKeepsGenuine(c: Chain)
    requires Sound(c)
    ensures Sound(c.(consumer := Poll(c.consumer, c.log)))
    ensures c.consumer.cursor <= Poll(c.consumer, c.log).cursor
  {
    LogAscends(c);
    var i := UnreadIsSuffix(c.log, c.consumer.cursor);
    var entries := ReadFrom(c.log, c.consumer.cursor, POLL_LIMIT);
    forall k | 0 <= k < |entries|
      ensures Genuine(c.sent, entries[k])
    {
      assert entries[k] == c.log[i + k] && c.log[i + k] in c.log + c.channel;
    }
  }

  lemma LogAscends(c: Chain)
    requires Ascending(c.log + c.channel)
    ensures Ascending(c.log)
  {
    forall i, j | 0 <= i < j < |c.log|
      ensures c.log[i].sequence < c.log[j].sequence
    {
      assert (c.log + c.channel)[i] == c.log[i] && (c.log + c.channel)[j] == c.log[j];
    }
  }

  /** Any subsequence taken from the front of the pipe keeps it sound. */
  lemma PipeSuffixSound(all: seq<ReplicationEntry>, i: nat, sent: seq<Bytes>)
    requires i <= |all| && Ascending(all) && forall e :: e in all ==> Genuine(sent, e)
    ensures Ascending(all[i..]) && forall e :: e in all[i..] ==> Genuine(sent, e)
  {
  }

  lemma SendKeepsSound(c: Chain, ts: int)
    requires Sound(c) && c.unsent
    ensures Sound(Do(c, Send(ts)))
  {
    var c' := Do(c, Send(ts));
    var all, all' := c.log + c.channel, c'.log + c'.channel;
    forall e | e in all
      ensures Genuine(c'.sent, e)
    {
      assert Genuine(c.sent, e);
    }
    if c'.channel != c.channel {
      var e := ReplicationEntry(c.nextSequence, ts, FullState, c.saved[|c.saved| - 1]);
      assert all' == all + [e];
      forall i | 0 <= i < |all|
        ensures all[i].sequence < e.sequence
      {
        assert all[i] in all;
      }
    } else {
      assert all' == all;
    }
  }

  /** The pump never meets a sequence conflict: what is in the channel is above what
      is in the log. */
  lemma PumpKeepsSound(c: Chain, appendOk: bool)
    requires Sound(c) && c.channel != []
    ensures Sound(Do(c, Pump(appendOk)))
    ensures !Conflicts(c.log, c.channel[0])
  {
    var c', all := Do(c, Pump(appendOk)), c.log + c.channel;
    if c.log != [] {
      assert all[|c.log| - 1] == c.log[|c.log| - 1] && all[|c.log|] == c.channel[0];
    }
    if appendOk {
      assert c'.log + c'.channel == all;
    } else {
      var all' := c'.log + c'.channel;
      forall i, j | 0 <= i < j < |all'|
        ensures all'[i].sequence < all'[j].sequence
      {
        var i', j' := if i < |c.log| then i else i + 1, if j < |c.log| then j else j + 1;
        assert all'[i] == all[i'] && all'[j] == all[j'];
      }
    }
  }

  lemma TruncateKeepsSound(c: Chain, before: nat)
    requires Sound(c)
    ensures Sound(Do(c, Truncate(before)))
  {
    if before > 0 {
      LogAscends(c);
      var i := UnreadIsSuffix(c.log, before - 1);
      var all := c.log + c.channel;
      assert c.log[i..] + c.channel == all[i..];
      PipeSuffixSound(all, i, c.sent);
    }
  }

  lemma StepKeepsSound(c: Chain, st: Step)
    requires Sound(c) && Enabled(c, st)
    ensures Sound(Do(c, st))
    ensures c.consumer.cursor <= Do(c, st).consumer.cursor
    ensures c.sent <= Do(c, st).sent && c.origin <= Do(c, st).origin && c.saved <= Do(c, st).saved
  {
    match st
    case Save(bytes) =>
    case Send(ts) => SendKeepsSound(c, ts);
    case DieBeforeSend =>
    case Pump(appendOk) => PumpKeepsSound(c, appendOk);
    case Truncate(before) => TruncateKeepsSound(c, before);
    case PollStep(readOk) => PollKeepsGenuine(c);
  }

  lemma {:induction false} RunsStaySound(capacity: nat, run: seq<Step>)
    requires ValidRun(capacity, run)
    ensures Sound(Final(capacity, run))
  {
    if run != [] {
      RunsStaySound(capacity, run[..|run| - 1]);
      StepKeepsSound(Final(capacity, run[..|run| - 1]), run[|run| - 1]);
    }
  }

  lemma ValidPrefix(capacity: nat, run: seq<Step>, i: nat)
    requires ValidRun(capacity, run) && i <= |run|
    ensures ValidRun(capacity, run[..i])
    decreases |run| - i
  {
    if i == |run| {
      assert run[..i] == run;
    } else {
      ValidPrefix(capacity, run, i + 1);
      assert run[..i + 1][..i] == run[..i];
    }
  }

  /** In every run the replica's sequence never decreases. */
  lemma {:induction false} ReplicaNeverGoesBack(capacity: nat, run: seq<Step>, i: nat)
    requires ValidRun(capacity, run) && i <= |run|
    ensures ValidRun(capacity, run[..i])
    ensures var earlier, later := Final(capacity, run[..i]), Final(capacity, run);
            && earlier.consumer.cursor <= later.consumer.cursor
            && earlier.origin <= later.origin
            && earlier.saved <= later.saved
    decreases |run| - i
  {
    ValidPrefix(capacity, run, i);
    if i == |run| {
      assert run[..i] == run;
    } else {
      ReplicaNeverGoesBack(capacity, run, i + 1);
      assert run[..i + 1][..i] == run[..i];
      RunsStaySound(capacity, run[..i]);
      StepKeepsSound(Final(capacity, run[..i]), run[i]);
    }
  }

  /** In every run the replica shows the payload sent under its sequence, which is a
      state the primary made durable — never one ahead of it. */
  lemma ReplicaShowsDurableState(capacity: nat, run: seq<Step>)
    requires ValidRun(capacity, run)
    ensures var c := Final(capacity, run);
            c.consumer.replica.Some? ==>
              var r := c.consumer.replica.value;
              && 1 <= r.sequence <= |c.sent| && r.payload == c.sent[r.sequence - 1]
              && |c.origin| == |c.sent| && c.origin[r.sequence - 1] < |c.saved|
              && r.payload == c.saved[c.origin[r.sequence - 1]]
  {
    RunsStaySound(capacity, run);
  }

  /** The durable states a replica shows succeed each other in the order the primary
      saved them. */
  lemma ReplicaFollowsSaveOrder(capacity: nat, run: seq<Step>, i: nat)
    requires ValidRun(capacity, run) && i <= |run| && ValidRun(capacity, run[..i])
    requires Final(capacity, run[..i]).consumer.replica.Some?
    ensures var earlier, later := Final(capacity, run[..i]).consumer, Final(capacity, run).consumer;
            && later.replica.Some?
            && 1 <= earlier.replica.value.sequence <= later.replica.value.sequence <= |Final(capacity, run).origin|
            && Final(capacity, run).origin[earlier.replica.value.sequence - 1]
               <= Final(capacity, run).origin[later.replica.value.sequence - 1]
  {
    RunsStaySound(capacity, run);
    RunsStaySound(capacity, run[..i]);
    ReplicaNeverGoesBack(capacity, run, i);
  }

  // --- Catching up ---

  /** A read returns the next entries after the cursor. */
  lemma ReadIsSlice(log: seq<ReplicationEntry>, after: nat, i: nat, n: nat)
    requires Ascending(log) && i == ReadCount(log, after)
    requires n == if |log| - i <= POLL_LIMIT then |log| - i else POLL_LIMIT
    ensures ReadFrom(log, after, POLL_LIMIT) == log[i..i + n]
  {
    var _ := UnreadIsSuffix(log, after);
    assert Unread(log, after)[..n] == log[i..i + n];
  }

  lemma PollMovesToLastRead(c: Consumer, log: seq<ReplicationEntry>)
    ensures var entries := ReadFrom(log, c.cursor, POLL_LIMIT);
            Poll(c, log).cursor == if entries == [] then c.cursor else entries[|entries| - 1].sequence
  {
  }

  /** One poll consumes the first `POLL_LIMIT` unread entries. */
  lemma PollConsumes(c: Consumer, log: seq<ReplicationEntry>)
    requires Ascending(log)
    ensures var unread := Unread(log, c.cursor);
            Unread(log, Poll(c, log).cursor)
            == if |unread| <= POLL_LIMIT then [] else unread[POLL_LIMIT..]
  {
    var i := UnreadIsSuffix(log, c.cursor);
    if i < |log| {
      var n := if |log| - i <= POLL_LIMIT then |log| - i else POLL_LIMIT;
      ReadIsSlice(log, c.cursor, i, n);
      PollMovesToLastRead(c, log);
      ReadUpTo(log, i + n - 1);
      var j := UnreadIsSuffix(log, Poll(c, log).cursor);
      assert log[j..] == log[i..][n..];
    }
  }

  function CeilDiv(n: nat, d: nat): nat
    requires d > 0
  {
    (n + d - 1) / d
  }

  lemma {:induction false} PollsConsumeAll(c: Consumer, log: seq<ReplicationEntry>, k: nat)
    requires Ascending(log) && |Unread(log, c.cursor)| <= k * POLL_LIMIT
    ensures Unread(log, PollTimes(c, log, k).cursor) == []
    decreases k
  {
    if k > 0 {
      PollConsumes(c, log);
      PollsConsumeAll(Poll(c, log), log, k - 1);
    }
  }

  lemma PollStaysWithin(c: Consumer, log: seq<ReplicationEntry>)
    requires Ascending(log) && c.cursor <= LatestSequence(log)
    ensures c.cursor <= Poll(c, log).cursor <= LatestSequence(log)
  {
    var i := UnreadIsSuffix(log, c.cursor);
    var entries := ReadFrom(log, c.cursor, POLL_LIMIT);
    if entries != [] {
      var last := i + |entries| - 1;
      assert entries[|entries| - 1] == log[last];
      assert last < |log| - 1 ==> log[last].sequence < log[|log| - 1].sequence;
    }
  }

  /** Polling never passes the end of the log. */
  lemma {:induction false} PollsStayWithin(c: Consumer, log: seq<ReplicationEntry>, k: nat)
    requires Ascending(log) && c.cursor <= LatestSequence(log)
    ensures c.cursor <= PollTimes(c, log, k).cursor <= LatestSequence(log)
    decreases k
  {
    if k > 0 {
      PollStaysWithin(c, log);
      PollsStayWithin(Poll(c, log), log, k - 1);
    }
  }

  /** Truncating keeps the newest entry exactly when it cuts at or below it. */
  lemma TruncationKeepsNewestIff(c: Chain, before: nat)
    requires Sound(c) && c.log != []
    ensures (Truncated(c.log, before) != [] && LatestSequence(Truncated(c.log, before)) == LatestSequence(c.log))
            <==> before <= LatestSequence(c.log)
  {
    if before > 0 {
      LogAscends(c);
      var i := UnreadIsSuffix(c.log, before - 1);
      assert before <= LatestSequence(c.log) ==> c.log[i..] != [] && c.log[i..][|c.log[i..]| - 1] == c.log[|c.log| - 1];
    }
  }

  predicate KeepsNewest(c: Chain, st: Step) {
    st.Truncate? && c.log != [] ==> st.before <= LatestSequence(c.log)
  }

  /** Every truncation of the run kept the newest entry. */
  predicate AlwaysKeepsNewest(capacity: nat, run: seq<Step>)
    requires ValidRun(capacity, run)
  {
    run == [] || (AlwaysKeepsNewest(capacity, run[..|run| - 1])
                  && KeepsNewest(Final(capacity, run[..|run| - 1]), run[|run| - 1]))
  }

  /** Then the cursor never gets past the log. */
  lemma {:induction false} CursorWithinLog(capacity: nat, run: seq<Step>)
    requires ValidRun(capacity, run) && AlwaysKeepsNewest(capacity, run)
    ensures Final(capacity, run).consumer.cursor <= LatestSequence(Final(capacity, run).log)
  {
    if run != [] {
      var init, st := run[..|run| - 1], run[|run| - 1];
      CursorWithinLog(capacity, init);
      RunsStaySound(capacity, init);
      var c := Final(capacity, init);
      LogAscends(c);
      match st
      case Pump(_) => PumpKeepsSound(c, true);
      case Truncate(before) =>
        if c.log != [] {
          TruncationKeepsNewestIff(c, before);
        }
      case PollStep(_) => PollsStayWithin(c.consumer, c.log, 1);
      case _ =>
    }
  }

  lemma {:induction false} PollsKeepSound(c: Chain, k: nat)
    requires Sound(c)
    ensures Sound(c.(consumer := PollTimes(c.consumer, c.log, k)))
    decreases k
  {
    if k > 0 {
      PollKeepsGenuine(c);
      PollsKeepSound(c.(consumer := Poll(c.consumer, c.log)), k - 1);
    }
  }

  lemma PollsReachEnd(c: Chain, polls: nat)
    requires Sound(c) && c.consumer.cursor <= LatestSequence(c.log)
    requires polls == CeilDiv(|Unread(c.log, c.consumer.cursor)|, POLL_LIMIT)
    ensures PollTimes(c.consumer, c.log, polls).cursor == LatestSequence(c.log)
  {
    LogAscends(c);
    PollsConsumeAll(c.consumer, c.log, polls);
    PollsStayWithin(c.consumer, c.log, polls);
    var i := UnreadIsSuffix(c.log, PollTimes(c.consumer, c.log, polls).cursor);
  }

  /** The replica is at the newest entry and shows its payload. */
  predicate ShowsNewest(consumer: Consumer, log: seq<ReplicationEntry>) {
    && consumer.cursor == LatestSequence(log)
    && (log != [] ==>
          && consumer.replica.Some?
          && consumer.replica.value.sequence == log[|log| - 1].sequence
          && consumer.replica.value.payload == log[|log| - 1].payload)
  }

  lemma AtEndShowsNewest(c: Chain)
    requires Sound(c) && c.consumer.cursor == LatestSequence(c.log)
    ensures ShowsNewest(c.consumer, c.log)
  {
    if c.log != [] {
      assert c.log[|c.log| - 1] in c.log + c.channel;
    }
  }

  /** In every run whose truncations kept the newest entry, ceil(n / 100) successful
      polls over n unread entries bring the replica to the newest one. */
  lemma CatchesUp(capacity: nat, run: seq<Step>)
    requires ValidRun(capacity, run) && AlwaysKeepsNewest(capacity, run)
    ensures var c := Final(capacity, run);
            var polls := CeilDiv(|Unread(c.log, c.consumer.cursor)|, POLL_LIMIT);
            ShowsNewest(PollTimes(c.consumer, c.log, polls), c.log)
  {
    RunsStaySound(capacity, run);
    CursorWithinLog(capacity, run);
    var c := Final(capacity, run);
    var polls := CeilDiv(|Unread(c.log, c.consumer.cursor)|, POLL_LIMIT);
    PollsReachEnd(c, polls);
    PollsKeepSound(c, polls);
    AtEndShowsNewest(c.(consumer := PollTimes(c.consumer, c.log, polls)));
  }

  // --- From the primary to the replica ---

  /** The log after pumping `es`; `appendOk` tells which appends the backend accepts. */
  function AppendedAll(log: seq<ReplicationEntry>, es: seq<ReplicationEntry>,
                       appendOk: nat -> bool): seq<ReplicationEntry>
  {
    if es == [] then log
    else
      var log' := AppendedAll(log, es[..|es| - 1], appendOk);
      if appendOk(|es| - 1) then AfterAppend(log', es[|es| - 1]) else log'
  }

  lemma {:induction false} PumpedPrefix(c: Chain, n: nat)
    requires Sound(c) && n <= |c.channel|
    ensures AppendedAll(c.log, c.channel[..n], (i: nat) => true) == c.log + c.channel[..n]
    decreases n
  {
    if n == 0 {
      assert c.channel[..0] == [] && c.log + [] == c.log;
    } else {
      PumpedPrefix(c, n - 1);
      assert c.channel[..n][..n - 1] == c.channel[..n - 1];
      PipeOrder(c, n - 1);
      assert c.log + c.channel[..n] == (c.log + c.channel[..n - 1]) + [c.channel[n - 1]];
    }
  }

  /** What is queued lies above everything before it in the pipe. */
  lemma PipeOrder(c: Chain, n: nat)
    requires Sound(c) && n < |c.channel|
    ensures !Conflicts(c.log + c.channel[..n], c.channel[n])
  {
    var all, before := c.log + c.channel, c.log + c.channel[..n];
    if before != [] {
      var last := |before| - 1;
      assert before[last] == all[last] && all[|before|] == c.channel[n];
    }
  }

  /** Where every append is accepted, the pump moves the whole channel to the end of the
      log, entry by entry. */
  lemma PumpMovesChannel(c: Chain)
    requires Sound(c)
    ensures AppendedAll(c.log, c.channel, (i: nat) => true) == c.log + c.channel
  {
    PumpedPrefix(c, |c.channel|);
    assert c.channel[..|c.channel|] == c.channel;
  }

  /** The chain once the pump has emptied the channel. */
  function Pumped(c: Chain): Chain {
    c.(channel := [], log := AppendedAll(c.log, c.channel, (i: nat) => true))
  }

  /** Pumping it all is a run of the pump's own steps. */
  lemma {:induction false} PumpSteps(c: Chain, n: nat)
    requires Sound(c) && n == |c.channel|
    ensures Sound(Pumped(c))
    ensures n > 0 ==> Enabled(c, Pump(true)) && Pumped(Do(c, Pump(true))) == Pumped(c)
    ensures n == 0 ==> Pumped(c) == c
    decreases n
  {
    PumpMovesChannel(c);
    if n == 0 {
      assert c.log + c.channel == c.log;
    } else {
      PumpKeepsSound(c, true);
      var c1 := Do(c, Pump(true));
      assert c1.log == c.log + [c.channel[0]];
      PumpMovesChannel(c1);
      assert c1.log + c1.channel == c.log + c.channel;
      PumpSteps(c1, n - 1);
    }
  }

  /** The pump's steps, one for each append and whether the backend accepts it. */
  function PumpEach(c: Chain, oks: seq<bool>): Chain
    requires |oks| <= |c.channel|
    ensures |PumpEach(c, oks).channel| == |c.channel| - |oks|
  {
    if oks == [] then c else Do(PumpEach(c, oks[..|oks| - 1]), Pump(oks[|oks| - 1]))
  }

  /** Together they take the entries out of the channel and append the accepted ones in
      order; an entry whose append failed is in neither. */
  lemma {:induction false} PumpEachAppends(c: Chain, oks: seq<bool>, appendOk: nat -> bool)
    requires |oks| <= |c.channel| && forall i: nat :: i < |oks| ==> appendOk(i) == oks[i]
    ensures PumpEach(c, oks)
            == c.(channel := c.channel[|oks|..], log := AppendedAll(c.log, c.channel[..|oks|], appendOk))
  {
    if oks == [] {
      assert c.channel[0..] == c.channel && c.channel[..0] == [];
    } else {
      var n := |oks| - 1;
      PumpEachAppends(c, oks[..n], appendOk);
      assert c.channel[..n + 1][..n] == c.channel[..n];
      assert c.channel[n..][0] == c.channel[n] && c.channel[n..][1..] == c.channel[n + 1..];
    }
  }

  /** The replica once everything was pumped and polled. */
  function Settled(c: Chain): Consumer {
    var d := Pumped(c);
    PollTimes(d.consumer, d.log, CeilDiv(|Unread(d.log, d.consumer.cursor)|, POLL_LIMIT))
  }

  lemma CursorStaysWithin(c: Chain)
    requires Sound(c) && c.consumer.cursor <= LatestSequence(c.log)
    ensures c.consumer.cursor <= LatestSequence(c.log + c.channel)
  {
    var all := c.log + c.channel;
    if c.channel != [] && c.log != [] {
      assert all[|c.log| - 1] == c.log[|c.log| - 1] && all[|all| - 1] == c.channel[|c.channel| - 1];
    }
  }

  /** In every run whose truncations kept the newest entry, pumping the channel and then
      polling ceil(n / 100) times over n unread entries shows the last payload in the
      pipe. */
  lemma SettlesAtLastQueued(capacity: nat, run: seq<Step>)
    requires ValidRun(capacity, run) && AlwaysKeepsNewest(capacity, run)
    ensures var c := Final(capacity, run);
            ShowsNewest(Settled(c), c.log + c.channel)
  {
    var c := Final(capacity, run);
    RunsStaySound(capacity, run);
    CursorWithinLog(capacity, run);
    CursorStaysWithin(c);
    PumpMovesChannel(c);
    PumpSteps(c, |c.channel|);
    SettledShowsNewest(Pumped(c));
  }

  lemma SettledShowsNewest(d: Chain)
    requires Sound(d) && d.consumer.cursor <= LatestSequence(d.log)
    ensures var polls := CeilDiv(|Unread(d.log, d.consumer.cursor)|, POLL_LIMIT);
            ShowsNewest(PollTimes(d.consumer, d.log, polls), d.log)
  {
    var polls := CeilDiv(|Unread(d.log, d.consumer.cursor)|, POLL_LIMIT);
    PollsReachEnd(d, polls);
    PollsKeepSound(d, polls);
    AtEndShowsNewest(d.(consumer := PollTimes(d.consumer, d.log, polls)));
  }

  lemma Extend(capacity: nat, run: seq<Step>, st: Step)
    requires ValidRun(capacity, run) && Enabled(Final(capacity, run), st)
    ensures ValidRun(capacity, run + [st]) && Final(capacity, run + [st]) == Do(Final(capacity, run), st)
    ensures AlwaysKeepsNewest(capacity, run) && !st.Truncate? ==> AlwaysKeepsNewest(capacity, run + [st])
  {
    assert (run + [st])[..|run|] == run;
  }

  /** What a save and its send put into the channel. */
  lemma SaveAndSend(c: Chain, bytes: Bytes, ts: int)
    requires Sound(c) && !c.unsent
    ensures var d := Do(Do(c, Save(bytes)), Send(ts));
            var entry := ReplicationEntry(|c.sent| + 1, ts, FullState, bytes);
            && d.log == c.log && d.consumer == c.consumer
            && d.channel == if |c.channel| < c.capacity then c.channel + [entry] else c.channel
  {
  }

  /** One more save and its send, after any such run: once settled, the replica shows the
      new state if the channel had room for it, and otherwise what it would have shown
      without. */
  lemma SavedStateArrivesIffRoom(capacity: nat, run: seq<Step>, bytes: Bytes, ts: int) returns (run': seq<Step>)
    requires ValidRun(capacity, run) && AlwaysKeepsNewest(capacity, run) && !Final(capacity, run).unsent
    ensures run' == run + [Save(bytes)] + [Send(ts)] && ValidRun(capacity, run')
    ensures var c, shown := Final(capacity, run), Settled(Final(capacity, run')).replica;
            if |c.channel| < capacity then
              shown.Some? && shown.value.payload == bytes && shown.value.sequence == |c.sent| + 1
            else shown == Settled(c).replica
  {
    var c := Final(capacity, run);
    RunsStaySound(capacity, run);
    CapacityIsFixed(capacity, run);
    Extend(capacity, run, Save(bytes));
    Extend(capacity, run + [Save(bytes)], Send(ts));
    run' := run + [Save(bytes)] + [Send(ts)];
    SaveAndSend(c, bytes, ts);
    var d := Final(capacity, run');
    if |c.channel| < capacity {
      SettlesAtLastQueued(capacity, run');
      var all := d.log + d.channel;
      assert all[|all| - 1] == d.channel[|d.channel| - 1];
    } else {
      SettledDependsOn(c, d);
    }
  }

  lemma SettledDependsOn(c: Chain, d: Chain)
    requires d.log == c.log && d.channel == c.channel && d.consumer == c.consumer
    ensures Settled(d) == Settled(c)
  {
  }

  lemma {:induction false} CapacityIsFixed(capacity: nat, run: seq<Step>)
    requires ValidRun(capacity, run)
    ensures Final(capacity, run).capacity == capacity
  {
    if run != [] {
      CapacityIsFixed(capacity, run[..|run| - 1]);
    }
  }

  // --- Truncation and deltas ---

  /** Truncation drops exactly the entries below the cut, and keeps the others in order. */
  lemma {:induction false} TruncatedExactly(log: seq<ReplicationEntry>, before: nat, e: ReplicationEntry)
    ensures e in Truncated(log, before) <==> e in log && e.sequence >= before
    ensures |Truncated(log, before)| <= |log|
  {
    if log != [] {
      var init := log[..|log| - 1];
      TruncatedExactly(init, before, e);
      assert log == init + [log[|log| - 1]];
    }
  }

  /** A poll whose batch holds a delta moves past the whole batch and applies none of it. */
  predicate HoldsDelta(entries: seq<ReplicationEntry>) {
    exists i :: 0 <= i < |entries| && entries[i].entryType == Delta
  }

  lemma {:induction false} PollsOnlyMoveOn(c: Consumer, log: seq<ReplicationEntry>, k: nat)
    requires Ascending(log)
    ensures var c' := PollTimes(c, log, k);
            && c.cursor <= c'.cursor
            && (c'.replica != c.replica ==> c'.replica.Some? && c'.replica.value.sequence > c.cursor)
    decreases k
  {
    if k > 0 {
      PollMovesOn(c, log);
      PollsOnlyMoveOn(Poll(c, log), log, k - 1);
    }
  }

  lemma PollMovesOn(c: Consumer, log: seq<ReplicationEntry>)
    requires Ascending(log)
    ensures var c' := Poll(c, log);
            && c.cursor <= c'.cursor
            && (c'.replica != c.replica ==> c'.replica.Some? && c'.replica.value.sequence > c.cursor)
  {
    var i := UnreadIsSuffix(log, c.cursor);
    var entries := ReadFrom(log, c.cursor, POLL_LIMIT);
    assert entries != [] ==> entries[|entries| - 1] == log[i + |entries| - 1];
  }

  /** So a full state that is read together with a delta is never shown: however often the
      log is polled, the replica shows what it showed before or something newer than the
      whole batch. */
  lemma DeltaHidesItsBatch(c: Consumer, log: seq<ReplicationEntry>, k: nat)
    requires Ascending(log) && HoldsDelta(ReadFrom(log, c.cursor, POLL_LIMIT))
    ensures var entries, shown := ReadFrom(log, c.cursor, POLL_LIMIT), PollTimes(c, log, k).replica;
            shown == c.replica
            || (shown.Some? && shown.value.sequence > entries[|entries| - 1].sequence)
  {
    if k > 0 {
      PollsOnlyMoveOn(Poll(c, log), log, k - 1);
    }
  }

  // --- The mutable pieces ---

  class InMemoryReplicationLog {
    var entries: map<string, seq<ReplicationEntry>>

    constructor ()
      ensures entries == map[]
    {
      entries := map[];
    }

    function Of(key: string): seq<ReplicationEntry>
      reads this
    {
      if key in entries then entries[key] else []
    }

    method Append(key: string, entry: ReplicationEntry) returns (r: AppendResult)
      modifies this
      ensures Of(key) == AfterAppend(old(Of(key)), entry)
      ensures r == if Conflicts(old(Of(key)), entry)
                   then SequenceConflict(LatestSequence(old(Of(key))) + 1, entry.sequence)
                   else Appended(entry.sequence)
      ensures forall k :: k != key ==> Of(k) == old(Of(k))
    {
      var log := Of(key);
      if log != [] {
        var last := log[|log| - 1];
        if entry.sequence <= last.sequence {
          return SequenceConflict(last.sequence + 1, entry.sequence);
        }
      }
      entries := entries[key := log + [entry]];
      return Appended(entry.sequence);
    }

    /** The filter stops once `limit` entries are found. */
    method Read(key: string, after: nat, limit: nat) returns (result: seq<ReplicationEntry>)
      ensures result == ReadFrom(Of(key), after, limit)
    {
      var log := Of(key);
      result := [];
      var i := 0;
      while i < |log| && |result| < limit
        invariant 0 <= i <= |log| && |result| <= limit
        invariant result == Unread(log[..i], after)
      {
        assert log[..i + 1][..i] == log[..i];
        if log[i].sequence > after {
          result := result + [log[i]];
        }
        i := i + 1;
      }
      UnreadPrefix(log, after, i);
      assert i == |log| ==> log[..i] == log;
      assert result == Unread(log, after)[..|result|];
    }

    method TruncateBefore(key: string, before: nat) returns (deleted: nat)
      modifies this
      ensures Of(key) == Truncated(old(Of(key)), before)
      ensures deleted == |old(Of(key))| - |Of(key)|
      ensures forall k :: k != key ==> Of(k) == old(Of(k))
    {
      if key !in entries {
        return 0;
      }
      var log, kept := entries[key], [];
      for i := 0 to |log|
        invariant kept == Truncated(log[..i], before) && |kept| <= i
      {
        assert log[..i + 1][..i] == log[..i];
        if log[i].sequence >= before {
          kept := kept + [log[i]];
        }
      }
      assert log[..|log|] == log;
      entries := entries[key := kept];
      deleted := |log| - |kept|;
    }
  }

  lemma {:induction false} UnreadPrefix(log: seq<ReplicationEntry>, after: nat, i: nat)
    requires i <= |log|
    ensures Unread(log[..i], after) <= Unread(log, after)
    decreases |log| - i
  {
    if i == |log| {
      assert log[..i] == log;
    } else {
      assert log[..i + 1][..i] == log[..i];
      UnreadPrefix(log, after, i + 1);
    }
  }

  /** One grain's consumer against a log and a replica store. */
  class ReplicationConsumer {
    const key: string
    const log: InMemoryReplicationLog
    var lastSequence: nat
    var replicas: map<string, ReplicaEntry>

    constructor (key: string, log: InMemoryReplicationLog)
      ensures this.key == key && this.log == log && View() == Consumer(0, None)
    {
      this.key, this.log, lastSequence, replicas := key, log, 0, map[];
    }

    function View(): Consumer
      reads this
    {
      Consumer(lastSequence, if key in replicas then Some(replicas[key]) else None)
    }

    /** One turn of the polling loop; a failed read changes nothing. */
    method PollOnce(readOk: bool)
      modifies this
      ensures View() == if readOk then Poll(old(View()), log.Of(key)) else old(View())
    {
      if !readOk {
        return;
      }
      var entries := log.Read(key, lastSequence, POLL_LIMIT);
      if entries == [] {
        return;
      }
      var latest := entries[|entries| - 1];
      var i := 0;
      while i < |entries| && entries[i].entryType != Delta
        invariant 0 <= i <= |entries|
        invariant forall j :: 0 <= j < i ==> entries[j].entryType != Delta
      {
        i := i + 1;
      }
      if i < |entries| {
        lastSequence := latest.sequence;
        return;
      }
      replicas := replicas[key := ReplicaEntry(latest.payload, latest.sequence, latest.timestamp)];
      lastSequence := latest.sequence;
    }
  }

  /** The primary's end: numbering and a bounded channel. */
  class ReplicationSink {
    const capacity: nat
    var nextSequence: nat
    var channel: seq<ReplicationEntry>

    constructor (capacity: nat, startSequence: nat)
      ensures this.capacity == capacity && nextSequence == startSequence && channel == []
    {
      this.capacity, nextSequence, channel := capacity, startSequence, [];
    }

    /** `send`: the number is spent even when the entry is dropped. */
    method SendSnapshot(payload: Bytes, timestamp: int) returns (dropped: bool)
      modifies this
      ensures nextSequence == old(nextSequence) + 1
      ensures dropped <==> |old(channel)| >= capacity
      ensures channel == if dropped then old(channel)
                         else old(channel) + [ReplicationEntry(old(nextSequence), timestamp, FullState, payload)]
    {
      var sequence := nextSequence;
      nextSequence := nextSequence + 1;
      dropped := |channel| >= capacity;
      if !dropped {
        channel := channel + [ReplicationEntry(sequence, timestamp, FullState, payload)];
      }
    }

    /** The pump: drain what is queued into the log, in order.  `appendOk` tells which
        appends the log's backend accepts; the others are lost. */
    method PumpAll(key: string, log: InMemoryReplicationLog, appendOk: nat -> bool)
      modifies this, log
      ensures channel == [] && nextSequence == old(nextSequence)
      ensures log.Of(key) == AppendedAll(old(log.Of(key)), old(channel), appendOk)
      ensures forall k :: k != key ==> log.Of(k) == old(log.Of(k))
    {
      ghost var queued := channel;
      var n := 0;
      while channel != []
        invariant n <= |queued| && channel == queued[n..] && nextSequence == old(nextSequence)
        invariant log.Of(key) == AppendedAll(old(log.Of(key)), queued[..n], appendOk)
        invariant forall k :: k != key ==> log.Of(k) == old(log.Of(k))
        decreases |channel|
      {
        assert queued[..n + 1][..n] == queued[..n];
        var entry := channel[0];
        channel := channel[1..];
        if appendOk(n) {
          var r := log.Append(key, entry);
        }
        n := n + 1;
      }
      assert queued[..n] == queued;
    }
  }
}
