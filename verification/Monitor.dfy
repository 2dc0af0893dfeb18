/** examples/packet_monitor_ftxui.cpp:17-128: the monitor's model and its subscriber loop. */
module Monitor {
  import opened Sequences
  import opened Words
  import opened Json
  import opened WireForms

  datatype PacketRow = PacketRow(
    timeStr: string,
    topic: string,
    id: UInt16,
    name: string,
    dir: string,
    size: UInt32,
    localSeq: nat,
    remoteMsgId: UInt64,
    gap: bool)

  // ---------------------------------------------------------------------------------------------
  // Reading the metadata: `meta.value(k, default)`, where None stands for the exception

  function ValueOr<T>(meta: Value, k: Key, default: T, convert: Value -> Option<T>): Option<T> {
    if !meta.JObject? then None
    else if k !in meta.members then Some(default)
    else convert(meta.members[k])
  }

  function IdOf(meta: Value): Option<UInt16> {
    ValueOr(meta, PacketId, 0, AsUInt16)
  }

  function NameOf(meta: Value): Option<string> {
    ValueOr(meta, PacketName, "", AsString)
  }

  function DirOf(meta: Value): Option<string> {
    ValueOr(meta, DirectionKey, "", AsString)
  }

  function SizeOf(meta: Value): Option<UInt32> {
    ValueOr(meta, Size, 0, AsUInt32)
  }

  function RemoteIdOf(meta: Value): Option<UInt64> {
    ValueOr(meta, MessageId, 0, AsUInt64)
  }

  /** A member that is missing reads as its default; only an object can be read, and only with the right types. */
  lemma MetadataReads(meta: Value)
    ensures !meta.JObject? ==>
      IdOf(meta) == None && NameOf(meta) == None && DirOf(meta) == None && SizeOf(meta) == None && RemoteIdOf(meta) == None
    ensures meta.JObject? ==>
      && (PacketId !in meta.members ==> IdOf(meta) == Some(0))
      && (PacketName !in meta.members ==> NameOf(meta) == Some(""))
      && (DirectionKey !in meta.members ==> DirOf(meta) == Some(""))
      && (Size !in meta.members ==> SizeOf(meta) == Some(0))
      && (MessageId !in meta.members ==> RemoteIdOf(meta) == Some(0))
    ensures meta.JObject? ==>
      && (PacketId in meta.members ==> IdOf(meta) == AsUInt16(meta.members[PacketId]))
      && (PacketName in meta.members ==> NameOf(meta) == AsString(meta.members[PacketName]))
      && (DirectionKey in meta.members ==> DirOf(meta) == AsString(meta.members[DirectionKey]))
      && (Size in meta.members ==> SizeOf(meta) == AsUInt32(meta.members[Size]))
      && (MessageId in meta.members ==> RemoteIdOf(meta) == AsUInt64(meta.members[MessageId]))
  {
  }

  /** A message whose metadata is JSON, and when it arrived. */
  datatype Arrival = Arrival(topic: string, meta: Value, nowMs: int, timeStr: string)

  /** Everything that is read before the row gets its local number. */
  predicate Numbered(a: Arrival) {
    IdOf(a.meta).Some? && NameOf(a.meta).Some? && DirOf(a.meta).Some? && SizeOf(a.meta).Some?
  }

  predicate WellFormed(a: Arrival) {
    Numbered(a) && RemoteIdOf(a.meta).Some?
  }

  type Message = a: Arrival | WellFormed(a)
    witness Arrival("", JObject(map[]), 0, "")

  function RemoteId(a: Message): UInt64 {
    RemoteIdOf(a.meta).value
  }

  // ---------------------------------------------------------------------------------------------
  // What the model should show after the messages `log`, stated on the whole history; the batches also
  // count a message that turns out to be ill-formed

  /** The latest message id that is not zero. */
  function LastRemote(log: seq<Message>): UInt64 {
    if log == [] then 0
    else if RemoteId(Last(log)) != 0 then RemoteId(Last(log))
    else LastRemote(Front(log))
  }

  /** `prev + 1` is computed in 64 bits. */
  predicate IsGap(prev: UInt64, id: UInt64) {
    prev != 0 && id != 0 && id != (prev + 1) % TWO_64
  }

  /** The row of the last message of `log`. */
  function RowOf(log: seq<Message>): PacketRow
    requires log != []
  {
    var a := Last(log);
    PacketRow(a.timeStr, a.topic, IdOf(a.meta).value, NameOf(a.meta).value, DirOf(a.meta).value,
              SizeOf(a.meta).value, |log|, RemoteId(a), IsGap(LastRemote(Front(log)), RemoteId(a)))
  }

  function Min(x: nat, y: nat): nat {
    if x <= y then x else y
  }

  /** The last `maxRows` messages, newest first. */
  function NewestFirst(log: seq<Message>, maxRows: nat): seq<PacketRow> {
    seq(Min(|log|, maxRows), i requires 0 <= i < Min(|log|, maxRows) => RowOf(log[..|log| - i]))
  }

  /** The first arrival of the batch under way, or the last arrival when a batch has just been completed. */
  function BatchStart(log: seq<Arrival>): int {
    if log == [] then 0
    else if |log| % 10 == 0 then Last(log).nowMs
    else log[|log| - |log| % 10].nowMs
  }

  /** Milliseconds from the first to the last message of batch number `b`. */
  function BatchElapsed(log: seq<Arrival>, b: nat): int
    requires 10 * (b + 1) <= |log|
  {
    log[10 * b + 9].nowMs - log[10 * b].nowMs
  }

  /** The rate of the latest of the first `b` batches that took any time. */
  function RateAfter(log: seq<Arrival>, b: nat): real
    requires 10 * b <= |log|
  {
    if b == 0 then 0.0
    else if BatchElapsed(log, b - 1) > 0 then 10000.0 / BatchElapsed(log, b - 1) as real
    else RateAfter(log, b - 1)
  }

  /** The three variables of the batch accounting, as summaries of the history. */
  predicate Batches(log: seq<Arrival>, count: nat, startMs: int, rate: real) {
    count == |log| % 10 && startMs == BatchStart(log) && rate == RateAfter(log, |log| / 10)
  }

  lemma BatchOfLongerLog(log: seq<Arrival>, a: Arrival, count: nat, startMs: int, rate: real)
    requires Batches(log, count, startMs, rate)
    ensures count < 10
    ensures count < 9 ==> Batches(log + [a], count + 1, if count == 0 then a.nowMs else startMs, rate)
    ensures count == 9 ==>
      var elapsed := a.nowMs - startMs;
      Batches(log + [a], 0, a.nowMs, if elapsed > 0 then 10000.0 / elapsed as real else rate)
  {
    var b := |log| / 10;
    NextInBatch(|log|);
    RateOfPrefix(log, log + [a], b);
    if count == 9 {
      assert BatchElapsed(log + [a], b) == a.nowMs - log[10 * b].nowMs;
    }
  }

  /** What the three variables are after `n` messages, in terms of batches of ten. */
  lemma BatchFacts(log: seq<Arrival>, count: nat, startMs: int, rate: real, b: nat, n: nat)
    requires Batches(log, count, startMs, rate) && |log| == n && 10 * b <= n < 10 * b + 10
    ensures count == n - 10 * b
    ensures n > 10 * b ==> startMs == log[10 * b].nowMs
    ensures n == 10 * b && n > 0 ==> startMs == log[n - 1].nowMs
    ensures n < 10 ==> rate == 0.0
    ensures b > 0 ==>
      var elapsed := log[10 * b - 1].nowMs - log[10 * b - 10].nowMs;
      elapsed > 0 ==> rate == 10000.0 / elapsed as real
  {
  }

  /** A batch that took no time leaves the rate as it was. */
  lemma RateStays(log: seq<Arrival>, longer: seq<Arrival>, count: nat, startMs: int, rate: real,
                  count': nat, startMs': int, rate': real, b: nat)
    requires Batches(log, count, startMs, rate) && Batches(longer, count', startMs', rate') && log <= longer
    requires |log| == 10 * b && 10 * b <= |longer| < 10 * b + 20
    requires |longer| >= 10 * b + 10 ==> longer[10 * b + 9].nowMs <= longer[10 * b].nowMs
    ensures rate' == rate
  {
    RateOfPrefix(log, longer, b);
  }

  lemma {:induction false} RateOfPrefix(log: seq<Arrival>, longer: seq<Arrival>, b: nat)
    requires log <= longer && 10 * b <= |log|
    ensures RateAfter(longer, b) == RateAfter(log, b)
    decreases b
  {
    if b > 0 {
      RateOfPrefix(log, longer, b - 1);
    }
  }

  lemma NewestFirstSnoc(log: seq<Message>, a: Message, maxRows: nat)
    ensures var rows := [RowOf(log + [a])] + NewestFirst(log, maxRows);
            NewestFirst(log + [a], maxRows) == if |rows| > maxRows then Front(rows) else rows
  {
    var longer := log + [a];
    var rows := [RowOf(longer)] + NewestFirst(log, maxRows);
    forall i | 0 <= i < Min(|longer|, maxRows) ensures NewestFirst(longer, maxRows)[i] == rows[i] {
      assert longer[..|longer| - i] == if i == 0 then longer else log[..|log| - (i - 1)];
    }
  }

  lemma {:induction false} LastRemoteIsLatest(log: seq<Message>) returns (k: int)
    ensures -1 <= k < |log| && (forall i :: k < i < |log| ==> RemoteId(log[i]) == 0)
    ensures LastRemote(log) == (if k >= 0 then RemoteId(log[k]) else 0) && (k >= 0 ==> RemoteId(log[k]) != 0)
    decreases |log|
  {
    k := |log| - 1;
    if log != [] && RemoteId(Last(log)) == 0 {
      k := LastRemoteIsLatest(Front(log));
    }
  }

  /**
    The rule for every history, with ids in any order: the row of message `n` is flagged exactly when its
    id is not zero and does not follow the latest id before it that is not zero, in 64 bits.
   */
  lemma FlagRule(log: seq<Message>, n: nat)
    requires n < |log|
    ensures Flagged(log, n) <==>
      RemoteId(log[n]) != 0
      && exists k :: 0 <= k < n && RemoteId(log[k]) != 0 && (forall i :: k < i < n ==> RemoteId(log[i]) == 0)
                     && RemoteId(log[n]) != (RemoteId(log[k]) + 1) % 0x1_0000_0000_0000_0000
  {
    var upTo, before := log[..n + 1], log[..n];
    assert Front(upTo) == before && Last(upTo) == log[n];
    var k := LastRemoteIsLatest(before);
    forall i | 0 <= i < n ensures before[i] == log[i] {
    }
    if k >= 0 {
      assert RemoteId(log[k]) != 0 && forall i :: k < i < n ==> RemoteId(log[i]) == 0;
    }
  }

  /** Is the row of message number `k` flagged? */
  predicate Flagged(log: seq<Message>, k: nat)
    requires k < |log|
  {
    RowOf(log[..k + 1]).gap
  }

  /** Over positive, increasing ids, a row is flagged exactly when its id does not follow the one before it. */
  lemma FlaggedIffSkips(log: seq<Message>, k: nat)
    requires k < |log|
    requires forall i :: 0 <= i < |log| ==> RemoteId(log[i]) > 0
    requires k > 0 ==> RemoteId(log[k - 1]) < RemoteId(log[k])
    ensures Flagged(log, k) <==> k > 0 && RemoteId(log[k]) != RemoteId(log[k - 1]) + 1
  {
    var upTo, before := log[..k + 1], log[..k];
    assert Front(upTo) == before && Last(upTo) == log[k];
    if k > 0 {
      assert Last(before) == log[k - 1];
    }
  }

  /** Rows are numbered n, n-1, ... */
  lemma RowsAreNumbered(log: seq<Message>, maxRows: nat, i: nat)
    requires i < |NewestFirst(log, maxRows)|
    ensures |NewestFirst(log, maxRows)| == if |log| <= maxRows then |log| else maxRows
    ensures NewestFirst(log, maxRows)[i].localSeq == |log| - i
    ensures NewestFirst(log, maxRows)[i].remoteMsgId == RemoteId(log[|log| - 1 - i])
    ensures NewestFirst(log, maxRows)[i].gap <==> Flagged(log, |log| - 1 - i)
  {
    var shorter := log[..|log| - i];
    assert NewestFirst(log, maxRows)[i] == RowOf(shorter) && Last(shorter) == log[|log| - 1 - i];
  }

  /** Each row shows what its own message says. */
  lemma RowsShowTheirMessages(log: seq<Message>, maxRows: nat, i: nat)
    requires i < |NewestFirst(log, maxRows)|
    ensures var row, a := NewestFirst(log, maxRows)[i], log[|log| - 1 - i];
            && row.timeStr == a.timeStr && row.topic == a.topic && IdOf(a.meta) == Some(row.id)
            && NameOf(a.meta) == Some(row.name) && DirOf(a.meta) == Some(row.dir) && SizeOf(a.meta) == Some(row.size)
  {
    var shorter := log[..|log| - i];
    assert NewestFirst(log, maxRows)[i] == RowOf(shorter) && Last(shorter) == log[|log| - 1 - i];
  }

  /** There is a row for each of the newest messages, with its flag. */
  lemma RowShowsFlag(log: seq<Message>, maxRows: nat, i: nat)
    requires i < |log| && i < maxRows
    ensures i < |NewestFirst(log, maxRows)|
    ensures NewestFirst(log, maxRows)[i].gap <==> Flagged(log, |log| - 1 - i)
  {
    RowsAreNumbered(log, maxRows, i);
  }

  // ---------------------------------------------------------------------------------------------
  // The model and the loop

  datatype Outcome = Skipped | Recorded | Crashed

  /** What `recv` does in one turn of the loop; `Stopped` is the UI clearing `running`. */
  datatype Input = TimedOut | Failed | Received(mp: seq<Frame>, nowMs: int, timeStr: string) | Stopped

  /** How the loop ends: it returns, or an exception of `recv` or of reading a message ends it. */
  datatype Ending = Returned | RecvThrew | IllFormed(arrival: Arrival)

  /** A frame that is not a dumped document does not parse. */
  function Parse(f: Frame): Option<Value> {
    if f.Document? then Some(f.json) else None
  }

  function FrameText(f: Frame): string {
    if f.Text? then f.text else ""
  }

  function ArrivalOf(mp: seq<Frame>, nowMs: int, timeStr: string): Option<Arrival> {
    if |mp| < 2 then None
    else
      var meta :- Parse(mp[1]);
      Some(Arrival(FrameText(mp[0]), meta, nowMs, timeStr))
  }

  /** The message of an input, if it has one that parses. */
  function Readable(input: Input): Option<Arrival> {
    if input.Received? then ArrivalOf(input.mp, input.nowMs, input.timeStr) else None
  }

  function RecordedFrom(input: Input): seq<Message> {
    var a := Readable(input);
    if a.Some? && WellFormed(a.value) then [a.value] else []
  }

  function EndingOn(input: Input): Ending {
    var a := Readable(input);
    if input.Failed? then RecvThrew else if a.Some? && !WellFormed(a.value) then IllFormed(a.value) else Returned
  }

  /** The messages recorded from the inputs, up to a stop or an exception. */
  function Accepted(inputs: seq<Input>): seq<Message> {
    if inputs == [] || inputs[0].Stopped? then []
    else if EndingOn(inputs[0]) != Returned then []
    else RecordedFrom(inputs[0]) + Accepted(inputs[1..])
  }

  /** The first exception before a stop, if there is one. */
  function EndingOf(inputs: seq<Input>): Ending {
    if inputs == [] || inputs[0].Stopped? then Returned
    else if EndingOn(inputs[0]) != Returned then EndingOn(inputs[0])
    else EndingOf(inputs[1..])
  }

  /** The fields of the model when its loop begins. */
  datatype Beginning = Beginning(log: seq<Message>, isConnected: bool, lastPacketMs: int)

  /** An exception ends the loop exactly when an input before any stop is a receive that throws, or is ill-formed. */
  lemma {:induction false} EndsByExceptionIff(inputs: seq<Input>)
    ensures EndingOf(inputs) != Returned <==>
      exists i :: 0 <= i < |inputs| && (forall j :: 0 <= j <= i ==> !inputs[j].Stopped?)
                  && (inputs[i].Failed? || (Readable(inputs[i]).Some? && !WellFormed(Readable(inputs[i]).value)))
    decreases |inputs|
  {
    if inputs != [] && !inputs[0].Stopped? && EndingOn(inputs[0]) == Returned {
      var rest := inputs[1..];
      EndsByExceptionIff(rest);
      if EndingOf(rest) != Returned {
        var i :| 0 <= i < |rest| && (forall j :: 0 <= j <= i ==> !rest[j].Stopped?)
                 && (rest[i].Failed? || (Readable(rest[i]).Some? && !WellFormed(Readable(rest[i]).value)));
        assert rest[i] == inputs[i + 1];
        assert forall j :: 0 < j <= i + 1 ==> inputs[j] == rest[j - 1];
      }
      if i :| 0 <= i < |inputs| && (forall j :: 0 <= j <= i ==> !inputs[j].Stopped?)
              && (inputs[i].Failed? || (Readable(inputs[i]).Some? && !WellFormed(Readable(inputs[i]).value))) {
        assert i > 0 && rest[i - 1] == inputs[i];
        assert forall j :: 0 <= j <= i - 1 ==> rest[j] == inputs[j + 1];
      }
    }
  }

  /** Which message an input has: at least two frames, the second a document. */
  lemma ReadableIff(input: Input)
    ensures Readable(input).Some? <==> input.Received? && |input.mp| >= 2 && input.mp[1].Document?
    ensures Readable(input).Some? ==>
      var a := Readable(input).value;
      a.meta == input.mp[1].json && a.nowMs == input.nowMs && a.timeStr == input.timeStr
      && (input.mp[0].Text? ==> a.topic == input.mp[0].text)
  {
  }

  /** Without a stop or an exception, all inputs with a message are recorded. */
  lemma {:induction false} AcceptedWithoutEnd(inputs: seq<Input>, rest: seq<Input>)
    requires forall i :: 0 <= i < |inputs| ==> !inputs[i].Stopped? && EndingOn(inputs[i]) == Returned
    ensures Accepted(inputs + rest) == Accepted(inputs) + Accepted(rest) && EndingOf(inputs + rest) == EndingOf(rest)
    decreases |inputs|
  {
    if inputs == [] {
      assert inputs + rest == rest && [] + Accepted(rest) == Accepted(rest);
    } else {
      assert (inputs + rest)[1..] == inputs[1..] + rest;
      AcceptedWithoutEnd(inputs[1..], rest);
      Regroup(RecordedFrom(inputs[0]), Accepted(inputs[1..]), Accepted(rest),
              RecordedFrom(inputs[0]) + (Accepted(inputs[1..]) + Accepted(rest)));
    }
  }

  /** Nothing after a stop is looked at. */
  lemma {:induction false} StopEndsTheLoop(inputs: seq<Input>, rest: seq<Input>)
    ensures Accepted(inputs + [Stopped] + rest) == Accepted(inputs)
    ensures EndingOf(inputs + [Stopped] + rest) == EndingOf(inputs)
    decreases |inputs|
  {
    var all := inputs + [Stopped] + rest;
    if inputs == [] {
      assert all[0] == Stopped;
    } else {
      assert all[1..] == inputs[1..] + [Stopped] + rest;
      StopEndsTheLoop(inputs[1..], rest);
    }
  }

  class MonitorModel {
    const maxRows: nat
    var rows: seq<PacketRow>
    var isConnected: bool
    var totalPackets: nat
    var lastPacketMs: int
    var localSeqCounter: nat
    var lastRemoteMsgId: UInt64
    var batchCount: nat
    var batchStartMs: int
    var lastBatchRate: real
    ghost var log: seq<Message>

    /** Every field is the summary of the history that it is meant to be. */
    ghost predicate Valid()
      reads this
    {
      ValidAfter(Returned)
    }

    /** The same at the end of the thread: an ill-formed message is counted, perhaps numbered, and not shown. */
    ghost predicate ValidAfter(e: Ending)
      reads this
    {
      && rows == NewestFirst(log, maxRows)
      && totalPackets == |log|
      && lastRemoteMsgId == LastRemote(log)
      && localSeqCounter == |log| + (if e.IllFormed? && Numbered(e.arrival) then 1 else 0)
      && Batches(if e.IllFormed? then log + [e.arrival] else log, batchCount, batchStartMs, lastBatchRate)
    }

    constructor (maxRows: nat)
      ensures Valid() && log == [] && this.maxRows == maxRows && !isConnected && lastPacketMs == 0
    {
      this.maxRows := maxRows;
      rows, isConnected, totalPackets, lastPacketMs := [], false, 0, 0;
      localSeqCounter, lastRemoteMsgId, batchCount, batchStartMs, lastBatchRate := 0, 0, 0, 0, 0.0;
      log := [];
    }

    /** One message, from `recv` to the update of the counters. */
    method HandleMessage(mp: seq<Frame>, nowMs: int, timeStr: string) returns (outcome: Outcome)
      requires Valid()
      modifies this
      ensures outcome == (match ArrivalOf(mp, nowMs, timeStr)
                          case None => Skipped
                          case Some(a) => if WellFormed(a) then Recorded else Crashed)
      ensures outcome == Skipped ==>
        Valid() && log == old(log) && isConnected == old(isConnected) && lastPacketMs == old(lastPacketMs)
      ensures outcome == Recorded ==> Valid() && log == old(log) + [ArrivalOf(mp, nowMs, timeStr).value]
      ensures outcome == Crashed ==> ValidAfter(IllFormed(ArrivalOf(mp, nowMs, timeStr).value)) && log == old(log)
      ensures outcome != Skipped ==> isConnected && lastPacketMs == nowMs
    {
      if |mp| < 2 { return Skipped; }
      var topic := FrameText(mp[0]);
      var meta := Parse(mp[1]);
      if meta.None? { return Skipped; }
      ghost var a := Arrival(topic, meta.value, nowMs, timeStr);
      isConnected := true;
      lastPacketMs := nowMs;
      CountInBatch(nowMs, a);
      outcome := AddRow(topic, meta.value, timeStr, a);
    }

    /** The rate over ten packets: from the arrival of the first to the arrival of the tenth. */
    method CountInBatch(nowMs: int, ghost a: Arrival)
      requires Batches(log, batchCount, batchStartMs, lastBatchRate) && a.nowMs == nowMs
      modifies this`batchCount, this`batchStartMs, this`lastBatchRate
      ensures Batches(log + [a], batchCount, batchStartMs, lastBatchRate)
      ensures batchCount == (|log| + 1) % 10
      ensures |log| % 10 == 9 && nowMs > log[|log| - 9].nowMs ==>
        lastBatchRate == 10000.0 / (nowMs - log[|log| - 9].nowMs) as real
    {
      BatchOfLongerLog(log, a, batchCount, batchStartMs, lastBatchRate);
      var cnt := batchCount + 1;
      batchCount := cnt;
      if cnt == 1 {
        batchStartMs := nowMs;
      } else if cnt >= 10 {
        var startMs := batchStartMs;
        var elapsed := nowMs - startMs;
        if elapsed > 0 {
          lastBatchRate := 10.0 * 1000.0 / elapsed as real;
        }
        batchCount := 0;
        batchStartMs := nowMs;
      }
    }

    method AddRow(topic: string, meta: Value, timeStr: string, ghost a: Arrival) returns (outcome: Outcome)
      requires a.topic == topic && a.meta == meta && a.timeStr == timeStr
      requires rows == NewestFirst(log, maxRows) && totalPackets == localSeqCounter == |log|
      requires lastRemoteMsgId == LastRemote(log)
      modifies this`rows, this`totalPackets, this`localSeqCounter, this`lastRemoteMsgId, this`log
      ensures outcome == if WellFormed(a) then Recorded else Crashed
      ensures outcome == Recorded ==>
        && log == old(log) + [a] && rows == NewestFirst(log, maxRows)
        && totalPackets == localSeqCounter == |log| && lastRemoteMsgId == LastRemote(log)
      ensures outcome == Crashed ==>
        && log == old(log) && rows == old(rows) && totalPackets == old(totalPackets)
        && lastRemoteMsgId == old(lastRemoteMsgId)
        && localSeqCounter == |log| + (if Numbered(a) then 1 else 0)
    {
      var row := ReadRow(topic, meta, timeStr, a);
      if row.None? { return Crashed; }
      NewestFirstSnoc(log, a, maxRows);
      PushRow(row.value);
      totalPackets := totalPackets + 1;
      log := log + [a];
      outcome := Recorded;
    }

    /** The fields of the row in the order in which they are read: the counter moves before the message id is. */
    method ReadRow(topic: string, meta: Value, timeStr: string, ghost a: Arrival) returns (row: Option<PacketRow>)
      requires a.topic == topic && a.meta == meta && a.timeStr == timeStr
      requires localSeqCounter == |log| && lastRemoteMsgId == LastRemote(log)
      modifies this`localSeqCounter, this`lastRemoteMsgId
      ensures row.Some? <==> WellFormed(a)
      ensures row.Some? ==>
        && row.value == RowOf(log + [a])
        && localSeqCounter == |log| + 1 && lastRemoteMsgId == LastRemote(log + [a])
      ensures row.None? ==>
        && localSeqCounter == |log| + (if Numbered(a) then 1 else 0)
        && lastRemoteMsgId == old(lastRemoteMsgId)
    {
      row := None;
      var id, name, dir, size := IdOf(meta), NameOf(meta), DirOf(meta), SizeOf(meta);
      if id.None? || name.None? || dir.None? || size.None? { return; }
      localSeqCounter := localSeqCounter + 1;
      var localSeq := localSeqCounter;
      var remote := RemoteIdOf(meta);
      if remote.None? { return; }
      var prev, gap := lastRemoteMsgId, false;
      if prev != 0 && remote.value != 0 && remote.value != (prev + 1) % TWO_64 {
        gap := true;
      }
      if remote.value != 0 {
        lastRemoteMsgId := remote.value;
      }
      assert Front(log + [a]) == log;
      row := Some(PacketRow(timeStr, topic, id.value, name.value, dir.value, size.value, localSeq, remote.value, gap));
    }

    /** The newest row goes to the front; when there are too many, the oldest goes. */
    method PushRow(row: PacketRow)
      modifies this`rows
      ensures var all := [row] + old(rows);
              rows == if |all| > maxRows then Front(all) else all
    {
      rows := [row] + rows;
      if |rows| > maxRows {
        rows := rows[..|rows| - 1];
      }
    }

    /** What the loop has done since its beginning, with this recorded and this for its last turn's ending. */
    ghost predicate Since(b: Beginning, recorded: seq<Message>, e: Ending)
      reads this
    {
      && log == b.log + recorded
      && lastPacketMs == LastTime(b.lastPacketMs, recorded, e)
      && (e == Returned ==> isConnected == (b.isConnected || |recorded| > 0))
    }

    /** One turn of the loop. */
    method TakeInput(input: Input, ghost b: Beginning, ghost recorded: seq<Message>) returns (crashed: bool)
      requires Valid() && Since(b, recorded, Returned) && !input.Stopped?
      modifies this
      ensures crashed <==> EndingOn(input) != Returned
      ensures ValidAfter(EndingOn(input)) && Since(b, recorded + RecordedFrom(input), EndingOn(input))
    {
      LastTimeTwice(b.lastPacketMs, recorded, RecordedFrom(input), EndingOn(input));
      Regroup(b.log, recorded, RecordedFrom(input), b.log + (recorded + RecordedFrom(input)));
      crashed := input.Failed?;
      if input.Received? {
        var outcome := HandleMessage(input.mp, input.nowMs, input.timeStr);
        crashed := outcome == Crashed;
      }
    }

    /**
      The loop; it ends when it is stopped, when it runs out of inputs, or by an exception. All fields are
      summaries of the messages recorded, and after an exception of the message that caused it.
     */
    method SubscriberThread(inputs: seq<Input>) returns (crashed: bool)
      requires Valid()
      modifies this
      ensures crashed <==> EndingOf(inputs) != Returned
      ensures log == old(log) + Accepted(inputs) && ValidAfter(EndingOf(inputs))
      ensures isConnected == (!crashed && (old(isConnected) || |Accepted(inputs)| > 0))
      ensures lastPacketMs == LastTime(old(lastPacketMs), Accepted(inputs), EndingOf(inputs))
    {
      ghost var b := Beginning(log, isConnected, lastPacketMs);
      crashed := SubscriberLoop(inputs, b);
      if crashed {
        isConnected := false;
      }
    }

    /** What the thread tries: it ends by an exception when `crashed` is true. */
    method SubscriberLoop(inputs: seq<Input>, ghost b: Beginning) returns (crashed: bool)
      requires Valid() && b == Beginning(log, isConnected, lastPacketMs)
      modifies this
      ensures crashed <==> EndingOf(inputs) != Returned
      ensures ValidAfter(EndingOf(inputs)) && Since(b, Accepted(inputs), EndingOf(inputs))
    {
      crashed := false;
      var i := 0;
      ghost var recorded: seq<Message> := [];
      FirstInput(inputs);
      while i < |inputs| && !inputs[i].Stopped?
        invariant Valid() && Since(b, recorded, Returned) && Progress(inputs, i, recorded)
      {
        NextInput(inputs, i, recorded);
        crashed := TakeInput(inputs[i], b, recorded);
        recorded := recorded + RecordedFrom(inputs[i]);
        if crashed { return; }
        i := i + 1;
      }
      NoMoreInputs(inputs, i, recorded);
    }

    /** The batch variables of a model in order, by message numbers. */
    lemma BatchesOfTen(b: nat)
      requires Valid() && 10 * b <= |log| < 10 * b + 10
      ensures batchCount == |log| % 10 == |log| - 10 * b
      ensures |log| > 10 * b ==> batchStartMs == log[10 * b].nowMs
      ensures |log| == 10 * b && b > 0 ==> batchStartMs == log[|log| - 1].nowMs
      ensures b == 0 ==> lastBatchRate == 0.0
      ensures b > 0 ==>
        var elapsed := log[10 * b - 1].nowMs - log[10 * b - 10].nowMs;
        elapsed > 0 ==> lastBatchRate == 10000.0 / elapsed as real
    {
      BatchFacts(log, batchCount, batchStartMs, lastBatchRate, b, |log|);
    }
  }

  lemma LastTimeTwice(before: int, first: seq<Message>, second: seq<Message>, e: Ending)
    ensures LastTime(LastTime(before, first, Returned), second, e) == LastTime(before, first + second, e)
  {
  }

  /** With the inputs before number `i` behind it, the loop has recorded this and will end as the whole will. */
  predicate Progress(inputs: seq<Input>, i: nat, recorded: seq<Message>) {
    && i <= |inputs|
    && recorded + Accepted(inputs[i..]) == Accepted(inputs)
    && EndingOf(inputs[i..]) == EndingOf(inputs)
  }

  lemma FirstInput(inputs: seq<Input>)
    ensures Progress(inputs, 0, [])
  {
    assert inputs[0..] == inputs && [] + Accepted(inputs) == Accepted(inputs);
  }

  lemma AcceptedStep(inputs: seq<Input>, i: nat)
    requires i < |inputs| && !inputs[i].Stopped?
    ensures Accepted(inputs[i..]) == RecordedFrom(inputs[i])
      + if EndingOn(inputs[i]) == Returned then Accepted(inputs[i + 1..]) else []
    ensures EndingOf(inputs[i..]) ==
      if EndingOn(inputs[i]) == Returned then EndingOf(inputs[i + 1..]) else EndingOn(inputs[i])
  {
    assert inputs[i..][1..] == inputs[i + 1..];
  }

  lemma NextInput(inputs: seq<Input>, i: nat, recorded: seq<Message>)
    requires Progress(inputs, i, recorded) && i < |inputs| && !inputs[i].Stopped?
    ensures var longer := recorded + RecordedFrom(inputs[i]);
      if EndingOn(inputs[i]) == Returned then Progress(inputs, i + 1, longer)
      else longer == Accepted(inputs) && EndingOf(inputs) == EndingOn(inputs[i])
  {
    AcceptedStep(inputs, i);
    var rest := if EndingOn(inputs[i]) == Returned then Accepted(inputs[i + 1..]) else [];
    Regroup(recorded, RecordedFrom(inputs[i]), rest, Accepted(inputs));
  }

  lemma Regroup<T>(a: seq<T>, b: seq<T>, c: seq<T>, whole: seq<T>)
    requires a + (b + c) == whole
    ensures (a + b) + c == whole && (c == [] ==> a + b == whole)
  {
  }

  lemma NoMoreInputs(inputs: seq<Input>, i: nat, recorded: seq<Message>)
    requires Progress(inputs, i, recorded) && (i == |inputs| || inputs[i].Stopped?)
    ensures recorded == Accepted(inputs) && EndingOf(inputs) == Returned
  {
    assert recorded + [] == recorded;
  }

  /** The arrival time of the last message looked at. */
  function LastTime(before: int, recorded: seq<Message>, e: Ending): int {
    if e.IllFormed? then e.arrival.nowMs else if |recorded| == 0 then before else Last(recorded).nowMs
  }

  /** How the place in the batch moves with one more message. */
  lemma NextInBatch(n: nat)
    ensures (n + 1) % 10 == if n % 10 == 9 then 0 else n % 10 + 1
    ensures (n + 1) / 10 == if n % 10 == 9 then n / 10 + 1 else n / 10
  {
  }
}
