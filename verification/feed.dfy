/**
 * The link between the two programs: the dashboard's on_message callback
 * (monitor.py) turns each JSON object the server sends into a data message,
 * and a whole batch sent in one tick ends up, in order, at the end of the
 * dashboard's rolling buffer.
 */
module Feed {
  import opened Wrappers
  import GasServer
  import Monitor

  /**
   * on_message for one object of the live feed: its keys become the payload,
   * and `datetime` is the instant parsed from `timestamp`.
   */
  function OnMessage(m: GasServer.Message): (q: Monitor.QueueMessage)
    ensures q.DataMsg? && Monitor.WellFormed(q)
    ensures Monitor.Normalise(q.payload)
         == Some(Monitor.Row(m.sensorId, m.checkpoint, m.gas, m.value, m.timestamp, m.timestamp))
  {
    Monitor.DataMsg(Monitor.DataPayload(
      Some(m.sensorId), Some(m.checkpoint), Some(m.gas), None, None,
      Some(m.value), Some(m.timestamp), Some(m.timestamp), None))
  }

  /** The queue messages for a sequence of feed objects, in arrival order. */
  function Received(ms: seq<GasServer.Message>): (q: seq<Monitor.QueueMessage>)
    ensures |q| == |ms|
    ensures forall i :: 0 <= i < |ms| ==> q[i] == OnMessage(ms[i])
  {
    seq(|ms|, i requires 0 <= i < |ms| => OnMessage(ms[i]))
  }

  /** The dashboard row a server reading becomes. */
  function Arrived(r: GasServer.Reading): Monitor.Row
  {
    Monitor.Row(r.sensorId, r.checkpointName, r.gasType, r.value, r.timestamp, r.timestamp)
  }

  /** The rows of a batch as they arrive, in batch order. */
  function ArrivedAll(rs: seq<GasServer.Reading>): (rows: seq<Monitor.Row>)
    ensures |rows| == |rs|
    ensures forall i :: 0 <= i < |rs| ==> rows[i] == Arrived(rs[i])
  {
    seq(|rs|, i requires 0 <= i < |rs| => Arrived(rs[i]))
  }

  /** The rows the dashboard extracts from a batch's messages are the batch's readings, renamed, in order. */
  lemma {:induction false} RowsOfBatch(rs: seq<GasServer.Reading>)
    ensures Monitor.Rows(Received(GasServer.Messages(rs))) == ArrivedAll(rs)
    decreases |rs|
  {
    if rs != [] {
      var q := Received(GasServer.Messages(rs));
      assert q[1..] == Received(GasServer.Messages(rs[1..]));
      RowsOfBatch(rs[1..]);
      assert ArrivedAll(rs) == [Arrived(rs[0])] + ArrivedAll(rs[1..]);
    }
  }

  /**
   * The messages of one tick, drained by the dashboard, raise nothing, leave
   * the connection status alone, and append the readings to the buffer in
   * generation order, keeping the last MaxRows rows.
   */
  lemma BatchReachesBuffer(v: Monitor.View, batch: seq<GasServer.Reading>)
    requires |v.data| <= Monitor.MaxRows
    ensures !Monitor.Drain(v, Received(GasServer.Messages(batch))).failed
    ensures Monitor.Drain(v, Received(GasServer.Messages(batch))).view.status == v.status
    ensures Monitor.Drain(v, Received(GasServer.Messages(batch))).view.data
         == Monitor.Tail(v.data + ArrivedAll(batch))
  {
    var q := Received(GasServer.Messages(batch));
    assert forall i :: 0 <= i < |q| ==> Monitor.WellFormed(q[i]);
    Monitor.DrainWithoutStatusKeepsStatus(v, q);
    Monitor.DrainBuffer(v, q);
    RowsOfBatch(batch);
  }
}
