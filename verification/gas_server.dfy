/**
 * The server side of the gas-sensor demo (app/main.py): one batch of synthetic
 * readings per tick, a retention store pruned to the last three hours, the
 * per-reading messages pushed to the subscriber, and the two window queries.
 *
 * Instants are integers counting microseconds, the resolution of Python's
 * datetime values. The random draws are an input: `samples[k]` is the k-th
 * draw of a batch, the one made for sensor id k + 1.
 */
module GasServer {

  const Second: int := 1_000_000
  const Minute: int := 60 * Second
  const Hour: int := 60 * Minute

  /** Readings older than this, relative to the tick's clock, are deleted. */
  const RetentionWindow: int := 3 * Hour
  const LastMinuteWindow: int := Minute
  const LastThirtyMinutesWindow: int := 30 * Minute

  /** The gases of every checkpoint, in the order the generator visits them. */
  const Gases: seq<string> := ["co2", "so2", "hf"]

  /** One entry of the static configuration table: display name and mean concentration per gas. */
  datatype Checkpoint = Checkpoint(location: string, co2: real, so2: real, hf: real)

  /** The configured table, in the order its entries are enumerated. */
  const Means: seq<Checkpoint> := [
    Checkpoint("Gas Capture Mechanism Input", 0.12, 0.005, 0.0002),
    Checkpoint("Scrubber Input", 0.11, 0.0035, 0.00015),
    Checkpoint("Final Emission", 0.08, 0.00007, 0.000005)
  ]

  /** The configured mean of gas number g (an index into Gases) at a checkpoint. */
  function Mean(cp: Checkpoint, g: nat): real
    requires g < |Gases|
  {
    if g == 0 then cp.co2 else if g == 1 then cp.so2 else cp.hf
  }

  /** A row of table gas_data (its database id is not modelled). */
  datatype Reading = Reading(sensorId: int, checkpointName: string, gasType: string, timestamp: int, value: real)

  /** The JSON object sent to the subscriber for one reading; the ISO-8601 text of the timestamp is modelled by the instant it denotes. */
  datatype Message = Message(sensorId: int, checkpoint: string, gas: string, value: real, timestamp: int)

  /** `max(sample, 0.0)`: concentrations are never negative. */
  function Clamp(sample: real): (v: real)
    ensures v >= 0.0 && v >= sample
    ensures v == sample || v == 0.0
  {
    if 0.0 > sample then 0.0 else sample
  }

  /** The message sent for a reading: same id, value and instant, checkpoint_name and gas_type renamed. */
  function ToMessage(r: Reading): (m: Message)
    ensures m.sensorId == r.sensorId && m.value == r.value && m.timestamp == r.timestamp
    ensures m.checkpoint == r.checkpointName && m.gas == r.gasType
  {
    Message(r.sensorId, r.checkpointName, r.gasType, r.value, r.timestamp)
  }

  // ---------------------------------------------------------------------------
  // Generation

  /** The three readings of checkpoint number c of a batch. */
  function CheckpointBatch(cp: Checkpoint, c: nat, samples: seq<real>, timestamp: int): seq<Reading>
    requires 3 * c + 3 <= |samples|
  {
    seq(3, g requires 0 <= g < 3 =>
      Reading(3 * c + g + 1, cp.location, Gases[g], timestamp, Clamp(samples[3 * c + g])))
  }

  /** The batch for a table of checkpoints, built checkpoint by checkpoint. */
  function Batch(means: seq<Checkpoint>, samples: seq<real>, timestamp: int): (b: seq<Reading>)
    requires 3 * |means| <= |samples|
    ensures |b| == 3 * |means|
    decreases |means|
  {
    if means == [] then []
    else
      var c := |means| - 1;
      Batch(means[..c], samples, timestamp) + CheckpointBatch(means[c], c, samples, timestamp)
  }

  /** Closed form of the k-th reading of a batch: id k + 1, checkpoint k / 3, gas k % 3. */
  function ReadingAt(means: seq<Checkpoint>, samples: seq<real>, timestamp: int, k: nat): Reading
    requires k < 3 * |means| <= |samples|
  {
    Reading(k + 1, means[k / 3].location, Gases[k % 3], timestamp, Clamp(samples[k]))
  }

  /** The batch has one reading per (checkpoint, gas) pair, each given by the closed form. */
  lemma {:induction false} BatchLayout(means: seq<Checkpoint>, samples: seq<real>, timestamp: int)
    requires 3 * |means| <= |samples|
    ensures forall k :: 0 <= k < 3 * |means| ==>
      Batch(means, samples, timestamp)[k] == ReadingAt(means, samples, timestamp, k)
    decreases |means|
  {
    if means != [] {
      var c := |means| - 1;
      var front := means[..c];
      BatchLayout(front, samples, timestamp);
      var b := Batch(means, samples, timestamp);
      assert b == Batch(front, samples, timestamp) + CheckpointBatch(means[c], c, samples, timestamp);
      forall k | 0 <= k < 3 * |means|
        ensures b[k] == ReadingAt(means, samples, timestamp, k)
      {
        if k < 3 * c {
          assert k / 3 < c;
          assert front[k / 3] == means[k / 3];
        } else {
          var g := k - 3 * c;
          assert k / 3 == c && k % 3 == g;
        }
      }
    }
  }

  /** With zero noise every draw is its mean, and the non-negative means come through unchanged. */
  lemma ZeroNoiseYieldsMeans(means: seq<Checkpoint>, samples: seq<real>, timestamp: int)
    requires |samples| == 3 * |means|
    requires forall k :: 0 <= k < |samples| ==> samples[k] == Mean(means[k / 3], k % 3)
    requires forall k :: 0 <= k < |samples| ==> samples[k] >= 0.0
    ensures |Batch(means, samples, timestamp)| == |samples|
    ensures forall k :: 0 <= k < |samples| ==>
      Batch(means, samples, timestamp)[k].value == Mean(means[k / 3], k % 3)
  {
    BatchLayout(means, samples, timestamp);
  }

  /** The configured table gives nine readings: ids 1..9, three per location in table order. */
  lemma ConfiguredTableBatch(samples: seq<real>, timestamp: int)
    requires |samples| == 3 * |Means|
    ensures |Batch(Means, samples, timestamp)| == 9
    ensures forall k :: 0 <= k < 9 ==>
      && Batch(Means, samples, timestamp)[k].sensorId == k + 1
      && Batch(Means, samples, timestamp)[k].checkpointName ==
           (if k < 3 then "Gas Capture Mechanism Input" else if k < 6 then "Scrubber Input" else "Final Emission")
  {
    BatchLayout(Means, samples, timestamp);
  }

  /**
   * generate_gas_data: a nested loop over checkpoints and gases that appends
   * one reading per pair, with ids counting up from 1 and one shared timestamp.
   */
  method GenerateGasData(means: seq<Checkpoint>, samples: seq<real>, timestamp: int) returns (dataList: seq<Reading>)
    requires |samples| == 3 * |means|
    ensures dataList == Batch(means, samples, timestamp)
    ensures |dataList| == 3 * |means|
    ensures forall k :: 0 <= k < |dataList| ==>
      && dataList[k].sensorId == k + 1
      && dataList[k].checkpointName == means[k / 3].location
      && dataList[k].gasType == Gases[k % 3]
      && dataList[k].timestamp == timestamp
      && dataList[k].value == Clamp(samples[k]) >= 0.0
  {
    dataList := [];
    var sensorIdCounter := 1;
    var c := 0;
    while c < |means|
      invariant 0 <= c <= |means|
      invariant dataList == Batch(means[..c], samples, timestamp)
      invariant |dataList| == 3 * c
      invariant sensorIdCounter == |dataList| + 1
    {
      var location := means[c].location;
      var g := 0;
      while g < |Gases|
        invariant 0 <= g <= |Gases|
        invariant dataList == Batch(means[..c], samples, timestamp) + CheckpointBatch(means[c], c, samples, timestamp)[..g]
        invariant sensorIdCounter == 3 * c + g + 1
      {
        var sample := Clamp(samples[sensorIdCounter - 1]);
        dataList := dataList + [Reading(sensorIdCounter, location, Gases[g], timestamp, sample)];
        sensorIdCounter := sensorIdCounter + 1;
        g := g + 1;
      }
      assert means[..c + 1][..c] == means[..c];
      c := c + 1;
    }
    assert means[..c] == means;
    BatchLayout(means, samples, timestamp);
  }

  // ---------------------------------------------------------------------------
  // Retention and window queries

  /** The readings with timestamp at or after `cutoff`, in store order. */
  function Since(rows: seq<Reading>, cutoff: int): (kept: seq<Reading>)
    ensures |kept| <= |rows|
    ensures forall r :: r in kept <==> r in rows && r.timestamp >= cutoff
  {
    if rows == [] then []
    else if rows[0].timestamp >= cutoff then [rows[0]] + Since(rows[1..], cutoff)
    else Since(rows[1..], cutoff)
  }

  /** Filtering distributes over concatenation, so it keeps the relative order of rows. */
  lemma {:induction false} SinceAppend(a: seq<Reading>, b: seq<Reading>, cutoff: int)
    ensures Since(a + b, cutoff) == Since(a, cutoff) + Since(b, cutoff)
  {
    if a == [] {
      assert a + b == b;
    } else {
      assert (a + b)[1..] == a[1..] + b;
      SinceAppend(a[1..], b, cutoff);
    }
  }

  /** Rows that are all recent enough are kept unchanged and in order. */
  lemma {:induction false} SinceKeepsRecent(rows: seq<Reading>, cutoff: int)
    requires forall i :: 0 <= i < |rows| ==> rows[i].timestamp >= cutoff
    ensures Since(rows, cutoff) == rows
  {
    if rows != [] {
      SinceKeepsRecent(rows[1..], cutoff);
    }
  }

  /** A narrower window applied to a wider window's result gives the narrower window's result. */
  lemma {:induction false} SinceNested(rows: seq<Reading>, wide: int, narrow: int)
    requires wide <= narrow
    ensures Since(Since(rows, wide), narrow) == Since(rows, narrow)
  {
    if rows != [] {
      SinceNested(rows[1..], wide, narrow);
    }
  }

  /** A batch stamped no earlier than the cutoff survives a second prune with that cutoff, as does the pruned rest. */
  lemma PruneIsStableAfterTick(rows: seq<Reading>, means: seq<Checkpoint>, samples: seq<real>, timestamp: int, cutoff: int)
    requires 3 * |means| <= |samples|
    requires timestamp >= cutoff
    ensures Since(Since(rows, cutoff) + Batch(means, samples, timestamp), cutoff)
         == Since(rows, cutoff) + Batch(means, samples, timestamp)
  {
    var batch := Batch(means, samples, timestamp);
    SinceAppend(Since(rows, cutoff), batch, cutoff);
    SinceNested(rows, cutoff, cutoff);
    BatchLayout(means, samples, timestamp);
    SinceKeepsRecent(batch, cutoff);
  }

  /** The messages sent for a prefix of a batch, one per reading, in batch order. */
  function Messages(rs: seq<Reading>): (ms: seq<Message>)
    ensures |ms| == |rs|
    ensures forall i :: 0 <= i < |rs| ==> ms[i] == ToMessage(rs[i])
  {
    seq(|rs|, i requires 0 <= i < |rs| => ToMessage(rs[i]))
  }

  /**
   * The loop of a websocket pass: each reading is added to the session and its
   * message sent, in batch order. The subscriber takes `accepted` messages;
   * `completed` says whether every send went through, i.e. whether the session
   * reaches its commit. `pending` is what the session holds when the loop ends,
   * including the reading whose send raised.
   */
  method SendBatch(data: seq<Reading>, accepted: nat) returns (pending: seq<Reading>, sent: seq<Message>, completed: bool)
    ensures completed <==> accepted >= |data|
    ensures pending == data[..if completed then |data| else accepted + 1]
    ensures sent == Messages(data[..if completed then |data| else accepted])
  {
    pending := [];
    sent := [];
    completed := true;
    var i := 0;
    while i < |data|
      invariant 0 <= i <= |data| && i <= accepted
      invariant pending == data[..i]
      invariant |sent| == i && forall j :: 0 <= j < i ==> sent[j] == ToMessage(data[j])
    {
      var entry := data[i];
      pending := pending + [entry];
      if i == accepted {
        // the send raises: nothing added in this session is committed
        completed := false;
        break;
      }
      sent := sent + [ToMessage(entry)];
      i := i + 1;
    }
    assert sent == Messages(data[..i]);
  }

  /** Table gas_data: the rows the database holds after the last commit. */
  class GasStore {
    var rows: seq<Reading>

    /** Every stored concentration is non-negative. */
    ghost predicate Valid()
      reads this
    {
      forall r :: r in rows ==> r.value >= 0.0
    }

    /** Opening the database file: the table keeps whatever rows the file already holds. */
    constructor (existing: seq<Reading>)
      requires forall r :: r in existing ==> r.value >= 0.0
      ensures Valid() && rows == existing
    {
      rows := existing;
    }

    /** The delete of every row older than the cutoff, committed at once. */
    method Prune(cutoff: int)
      requires Valid()
      modifies this
      ensures Valid()
      ensures rows == Since(old(rows), cutoff)
    {
      rows := Since(rows, cutoff);
    }

    /**
     * One pass of the websocket loop for one subscriber: generate a batch
     * stamped `generatedAt`, prune with the cutoff taken from the clock
     * reading `now`, then add each reading to the session and send its
     * message. The subscriber takes `accepted` messages; if the batch is
     * longer, the next send raises, the session closes without its final
     * commit and the added readings are rolled back, while the prune stays
     * committed.
     */
    method Tick(means: seq<Checkpoint>, samples: seq<real>, generatedAt: int, now: int, accepted: nat)
      returns (sent: seq<Message>, committed: bool)
      requires Valid()
      requires |samples| == 3 * |means|
      modifies this
      ensures Valid()
      ensures committed <==> accepted >= 3 * |means|
      ensures committed ==> rows == Since(old(rows), now - RetentionWindow) + Batch(means, samples, generatedAt)
      ensures !committed ==> rows == Since(old(rows), now - RetentionWindow)
      ensures sent == Messages(Batch(means, samples, generatedAt)[..if committed then 3 * |means| else accepted])
    {
      var data := GenerateGasData(means, samples, generatedAt);
      var threeHoursAgo := now - RetentionWindow;
      Prune(threeHoursAgo);
      var pending;
      pending, sent, committed := SendBatch(data, accepted);
      if committed {
        rows := rows + pending;
      }
    }

    /** get_last_minute_data: the stored readings of the last minute. */
    function LastMinute(now: int): (r: seq<Reading>)
      reads this
      ensures forall x :: x in r <==> x in rows && x.timestamp >= now - LastMinuteWindow
    {
      Since(rows, now - LastMinuteWindow)
    }

    /** get_last_30_minutes_data: the stored readings of the last thirty minutes. */
    function LastThirtyMinutes(now: int): (r: seq<Reading>)
      reads this
      ensures forall x :: x in r <==> x in rows && x.timestamp >= now - LastThirtyMinutesWindow
    {
      Since(rows, now - LastThirtyMinutesWindow)
    }
  }

  /** For one instant, the last-minute result is the last-30-minutes result narrowed to the last minute, so a subset of it. */
  lemma LastMinuteWithinLastThirtyMinutes(store: GasStore, now: int)
    ensures Since(store.LastThirtyMinutes(now), now - LastMinuteWindow) == store.LastMinute(now)
    ensures forall x :: x in store.LastMinute(now) ==> x in store.LastThirtyMinutes(now)
  {
    SinceNested(store.rows, now - LastThirtyMinutesWindow, now - LastMinuteWindow);
  }
}
