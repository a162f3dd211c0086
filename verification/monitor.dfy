/**
 * The dashboard's ingest side (monitor.py): the FIFO of tagged messages that
 * the websocket callbacks fill, the drain that applies them to the session
 * state (connection status, status banner, rolling data buffer), the status
 * classifier behind the banner, and the latest-value view.
 *
 * A data payload is a JSON object; which keys it has matters, so each field
 * is an Option. Instants (the `timestamp` text and the parsed `datetime`) are
 * modelled by integers.
 */
module Monitor {
  import opened Wrappers

  /** The rolling buffer keeps at most this many rows. */
  const MaxRows: nat := 100

  /** The kind of placeholder update_status renders. */
  datatype Level = Success | Failure | Warning | Info

  /** What the status placeholder shows. */
  datatype Banner = Banner(level: Level, text: string)

  /** Python's str.startswith. */
  predicate StartsWith(s: string, prefix: string)
  {
    |prefix| <= |s| && s[..|prefix|] == prefix
  }

  /**
   * update_status: the four-way classification of the connection status,
   * its branches tried in the order "Connected", starts with "Error", "Closed".
   */
  function UpdateStatus(status: string): (b: Banner)
    ensures b.level == Success <==> status == "Connected"
    ensures b.level == Failure <==> status != "Connected" && StartsWith(status, "Error")
    ensures b.level == Warning <==> status == "Closed"
    ensures b.level == Info <==> status != "Connected" && status != "Closed" && !StartsWith(status, "Error")
    ensures b.level == Success ==> b.text == "WebSocket connection established"
    ensures b.level == Warning ==> b.text == "WebSocket connection closed"
    ensures b.level == Failure || b.level == Info ==> b.text == status
  {
    assert !StartsWith("Connected", "Error") by { assert "Connected"[0] != "Error"[0]; }
    assert !StartsWith("Closed", "Error") by { assert "Closed"[0] != "Error"[0]; }
    if status == "Connected" then Banner(Success, "WebSocket connection established")
    else if StartsWith(status, "Error") then Banner(Failure, status)
    else if status == "Closed" then Banner(Warning, "WebSocket connection closed")
    else Banner(Info, status)
  }

  /** A row of the session's data frame. */
  datatype Row = Row(sensorId: int, checkpoint: string, gas: string, value: real, timestamp: int, datetime: int)

  /**
   * The payload of a data message. The live feed sends sensor_id, checkpoint,
   * gas, value, timestamp and datetime; a stored row uses checkpoint_name,
   * gas_type and carries its database id.
   */
  datatype DataPayload = DataPayload(
    sensorId: Option<int>,
    checkpoint: Option<string>,
    gas: Option<string>,
    checkpointName: Option<string>,
    gasType: Option<string>,
    value: Option<real>,
    timestamp: Option<int>,
    datetime: Option<int>,
    id: Option<int>)

  /** A message of the queue, tagged by its "type" key. */
  datatype QueueMessage =
    | StatusMsg(text: string)
    | ErrorMsg(text: string)
    | DataMsg(payload: DataPayload)
    | OtherMsg(kind: string)

  /**
   * The row built from a data payload. A payload without `gas` is read in the
   * stored-row shape, whose `datetime` column is filled from `id`; any other
   * payload is read in the feed shape. None stands for the KeyError raised
   * when a key the chosen shape reads is missing.
   */
  function Normalise(d: DataPayload): (r: Option<Row>)
    ensures d.gas.None? ==>
      (r.Some? <==> d.sensorId.Some? && d.checkpointName.Some? && d.gasType.Some?
                    && d.value.Some? && d.timestamp.Some? && d.id.Some?)
    ensures d.gas.Some? ==>
      (r.Some? <==> d.sensorId.Some? && d.checkpoint.Some?
                    && d.value.Some? && d.timestamp.Some? && d.datetime.Some?)
    ensures r.Some? ==> Some(r.value.sensorId) == d.sensorId && Some(r.value.value) == d.value
                        && Some(r.value.timestamp) == d.timestamp
    ensures r.Some? && d.gas.None? ==>
      Some(r.value.checkpoint) == d.checkpointName && Some(r.value.gas) == d.gasType && Some(r.value.datetime) == d.id
    ensures r.Some? && d.gas.Some? ==>
      Some(r.value.checkpoint) == d.checkpoint && Some(r.value.gas) == d.gas && Some(r.value.datetime) == d.datetime
  {
    if d.gas.None? then
      if d.sensorId.Some? && d.checkpointName.Some? && d.gasType.Some? && d.value.Some? && d.timestamp.Some? && d.id.Some?
      then Some(Row(d.sensorId.value, d.checkpointName.value, d.gasType.value, d.value.value, d.timestamp.value, d.id.value))
      else None
    else
      if d.sensorId.Some? && d.checkpoint.Some? && d.value.Some? && d.timestamp.Some? && d.datetime.Some?
      then Some(Row(d.sensorId.value, d.checkpoint.value, d.gas.value, d.value.value, d.timestamp.value, d.datetime.value))
      else None
  }

  /** The last MaxRows rows of a sequence, or all of it when it is shorter. */
  function Tail(s: seq<Row>): (t: seq<Row>)
    ensures |t| == if |s| <= MaxRows then |s| else MaxRows
    ensures t == s[|s| - |t|..]
    ensures |s| <= MaxRows ==> t == s
  {
    if |s| > MaxRows then s[|s| - MaxRows..] else s
  }

  /** The buffer after a row arrives: the row appended, then the oldest rows dropped beyond MaxRows. */
  function Retain(buffer: seq<Row>, row: Row): (r: seq<Row>)
    ensures |r| == if |buffer| + 1 < MaxRows then |buffer| + 1 else MaxRows
    ensures r == (buffer + [row])[|buffer| + 1 - |r|..]
    ensures r[|r| - 1] == row
  {
    Tail(buffer + [row])
  }

  /** Trimming a prefix first and then the whole again is the same as trimming once. */
  lemma TailOfTail(x: seq<Row>, y: seq<Row>)
    ensures Tail(Tail(x) + y) == Tail(x + y)
  {
    if |x| > MaxRows {
      var t := x[|x| - MaxRows..];
      if y == [] {
        assert t + y == t && x + y == x;
      } else {
        var n := |x + y| - MaxRows;
        assert Tail(t + y) == (t + y)[|y|..];
        assert Tail(x + y) == (x + y)[n..];
        forall j | 0 <= j < MaxRows
          ensures Tail(t + y)[j] == Tail(x + y)[j]
        {
          if j < MaxRows - |y| {
            assert Tail(t + y)[j] == t[|y| + j] == x[n + j];
          }
        }
      }
    }
  }

  /** One row then more rows, trimmed along the way, equals all of them trimmed once. */
  lemma TailAfterRow(buffer: seq<Row>, row: Row, more: seq<Row>)
    ensures Tail(Tail(buffer + [row]) + more) == Tail(buffer + ([row] + more))
  {
    TailOfTail(buffer + [row], more);
    assert buffer + [row] + more == buffer + ([row] + more);
  }

  /** The session state process_queue works on. */
  datatype View = View(status: string, banner: Banner, data: seq<Row>)

  /**
   * One message of the drain. None: the data payload lacked a key, so the
   * exception leaves process_queue and nothing changes.
   */
  function Step(v: View, m: QueueMessage): (r: Option<View>)
    ensures r.None? <==> m.DataMsg? && Normalise(m.payload).None?
    ensures m.StatusMsg? ==> r == Some(View(m.text, UpdateStatus(m.text), v.data))
    ensures m.ErrorMsg? ==> r == Some(View("Error: " + m.text, UpdateStatus("Error: " + m.text), v.data))
    ensures m.DataMsg? && r.Some? ==>
      r.value.status == v.status && r.value.banner == v.banner && r.value.data == Retain(v.data, Normalise(m.payload).value)
    ensures m.OtherMsg? ==> r == Some(v)
  {
    match m
    case StatusMsg(text) => Some(v.(status := text, banner := UpdateStatus(text)))
    case ErrorMsg(text) =>
      var s := "Error: " + text;
      Some(v.(status := s, banner := UpdateStatus(s)))
    case DataMsg(payload) =>
      (match Normalise(payload)
       case None => None
       case Some(row) => Some(v.(data := Retain(v.data, row))))
    case OtherMsg(_) => Some(v)
  }

  /** The state after a drain, the messages still queued, and whether the drain was cut short by an exception. */
  datatype Outcome = Outcome(view: View, rest: seq<QueueMessage>, failed: bool)

  /** A well-formed message: anything but a data message whose payload lacks a key its shape reads. */
  predicate WellFormed(m: QueueMessage)
  {
    !m.DataMsg? || Normalise(m.payload).Some?
  }

  /**
   * process_queue over a queue snapshot: messages are taken from the front
   * until the queue is empty or one of them raises.
   */
  function Drain(v: View, q: seq<QueueMessage>): (o: Outcome)
    ensures !o.failed ==> o.rest == []
    ensures !o.failed ==> forall i :: 0 <= i < |q| ==> WellFormed(q[i])
    ensures o.failed ==> |o.rest| < |q| && o.rest == q[|q| - |o.rest|..] && !WellFormed(q[|q| - |o.rest| - 1])
    ensures o.failed ==> forall i :: 0 <= i < |q| - |o.rest| - 1 ==> WellFormed(q[i])
    decreases |q|
  {
    if q == [] then Outcome(v, [], false)
    else
      match Step(v, q[0])
      case None => Outcome(v, q[1..], true)
      case Some(v') => Drain(v', q[1..])
  }

  /** Draining a concatenation drains the first part, then (unless it raised) the second: FIFO order. */
  lemma {:induction false} DrainConcat(v: View, q1: seq<QueueMessage>, q2: seq<QueueMessage>)
    ensures Drain(v, q1 + q2) ==
      (var o := Drain(v, q1); if o.failed then Outcome(o.view, o.rest + q2, true) else Drain(o.view, q2))
    decreases |q1|
  {
    if q1 == [] {
      assert q1 + q2 == q2;
    } else {
      assert (q1 + q2)[0] == q1[0];
      assert (q1 + q2)[1..] == q1[1..] + q2;
      match Step(v, q1[0])
      case None =>
      case Some(v') => DrainConcat(v', q1[1..], q2);
    }
  }

  /** A drain never leaves more than MaxRows rows in a buffer that started within the bound. */
  lemma {:induction false} DrainKeepsBound(v: View, q: seq<QueueMessage>)
    requires |v.data| <= MaxRows
    ensures |Drain(v, q).view.data| <= MaxRows
    decreases |q|
  {
    if q != [] {
      match Step(v, q[0])
      case None =>
      case Some(v') => DrainKeepsBound(v', q[1..]);
    }
  }

  /** The rows the data messages of a queue carry, in arrival order. */
  function Rows(q: seq<QueueMessage>): (rs: seq<Row>)
    ensures |rs| <= |q|
  {
    if q == [] then []
    else
      var tail := Rows(q[1..]);
      if q[0].DataMsg? && Normalise(q[0].payload).Some? then [Normalise(q[0].payload).value] + tail else tail
  }

  /** After a drain that did not raise, the buffer is the last MaxRows of the old buffer followed by the new rows, in arrival order. */
  lemma {:induction false} DrainBuffer(v: View, q: seq<QueueMessage>)
    requires |v.data| <= MaxRows
    requires !Drain(v, q).failed
    ensures Drain(v, q).view.data == Tail(v.data + Rows(q))
    decreases |q|
  {
    if q == [] {
      assert v.data + [] == v.data;
    } else {
      var m := q[0];
      assert WellFormed(m);
      var v' := Step(v, m).value;
      assert Drain(v, q) == Drain(v', q[1..]);
      DrainBuffer(v', q[1..]);
      if m.DataMsg? {
        var row := Normalise(m.payload).value;
        assert Rows(q) == [row] + Rows(q[1..]);
        assert v'.data == Tail(v.data + [row]);
        TailAfterRow(v.data, row, Rows(q[1..]));
      } else {
        assert Rows(q) == Rows(q[1..]);
        assert v'.data == v.data;
      }
    }
  }

  /** A drain of status, error and other messages only leaves the buffer as it was and does not raise. */
  lemma {:induction false} DrainWithoutDataKeepsBuffer(v: View, q: seq<QueueMessage>)
    requires forall i :: 0 <= i < |q| ==> !q[i].DataMsg?
    ensures Drain(v, q) == Outcome(Drain(v, q).view, [], false)
    ensures Drain(v, q).view.data == v.data
    decreases |q|
  {
    if q != [] {
      DrainWithoutDataKeepsBuffer(Step(v, q[0]).value, q[1..]);
    }
  }

  /** A drain of data and other messages only leaves the connection status and its banner as they were. */
  lemma {:induction false} DrainWithoutStatusKeepsStatus(v: View, q: seq<QueueMessage>)
    requires forall i :: 0 <= i < |q| ==> !q[i].StatusMsg? && !q[i].ErrorMsg?
    ensures Drain(v, q).view.status == v.status
    ensures Drain(v, q).view.banner == v.banner
    decreases |q|
  {
    if q != [] {
      match Step(v, q[0])
      case None =>
      case Some(v') => DrainWithoutStatusKeepsStatus(v', q[1..]);
    }
  }

  /** If the banner shows the current status before a drain, it still does afterwards. */
  lemma {:induction false} DrainKeepsBannerInSync(v: View, q: seq<QueueMessage>)
    requires v.banner == UpdateStatus(v.status)
    ensures Drain(v, q).view.banner == UpdateStatus(Drain(v, q).view.status)
    decreases |q|
  {
    if q != [] {
      match Step(v, q[0])
      case None =>
      case Some(v') => DrainKeepsBannerInSync(v', q[1..]);
    }
  }

  /** An error message always ends in a failure banner carrying the error text. */
  lemma ErrorMessageShowsFailure(v: View, text: string)
    ensures Step(v, ErrorMsg(text)).value.banner == Banner(Failure, "Error: " + text)
  {
    var s := "Error: " + text;
    assert s[0] == 'E' && s[..|"Error"|] == "Error";
    assert s != "Connected";
  }

  /** The (gas, checkpoint) pair the latest-value view groups by. */
  function Key(r: Row): (string, string)
  {
    (r.gas, r.checkpoint)
  }

  /**
   * The latest-value view: the rows sorted by datetime, keeping the last row
   * of each (gas, checkpoint) pair. Rows with equal datetime are taken in
   * arrival order.
   */
  function Latest(rows: seq<Row>): (m: map<(string, string), Row>)
    ensures m.Keys == set r | r in rows :: Key(r)
    ensures forall k :: k in m ==> m[k] in rows && Key(m[k]) == k
    ensures forall r :: r in rows ==> Key(r) in m && r.datetime <= m[Key(r)].datetime
    decreases |rows|
  {
    if rows == [] then map[]
    else
      var front := rows[..|rows| - 1];
      var r := rows[|rows| - 1];
      assert rows == front + [r];
      var prev := Latest(front);
      if Key(r) in prev && prev[Key(r)].datetime > r.datetime then prev else prev[Key(r) := r]
  }

  /** The dashboard's session state and the queue its websocket thread feeds. */
  class Dashboard {
    var status: string
    var banner: Banner
    var data: seq<Row>
    var queue: seq<QueueMessage>

    /** The buffer never holds more than MaxRows rows. */
    ghost predicate Valid()
      reads this
    {
      |data| <= MaxRows
    }

    function Current(): View
      reads this
    {
      View(status, banner, data)
    }

    /** The first run: empty data frame, status "Initializing...", and the banner drawn for it. */
    constructor ()
      ensures Valid()
      ensures status == "Initializing..." && banner == UpdateStatus("Initializing...")
      ensures data == [] && queue == []
    {
      status := "Initializing...";
      banner := UpdateStatus("Initializing...");
      data := [];
      queue := [];
    }

    /** Starting the websocket thread sets the status without redrawing the banner. */
    method StartFeed()
      modifies this`status
      ensures status == "Connecting..."
    {
      status := "Connecting...";
    }

    /** data_queue.put from a callback. */
    method Put(m: QueueMessage)
      modifies this`queue
      ensures queue == old(queue) + [m]
    {
      queue := queue + [m];
    }

    /** process_queue: take messages from the front of the queue and apply each until it is empty or one raises. */
    method ProcessQueue() returns (failed: bool)
      requires Valid()
      modifies this
      ensures Valid()
      ensures Outcome(Current(), queue, failed) == Drain(old(Current()), old(queue))
    {
      failed := false;
      while queue != []
        invariant Valid()
        invariant Drain(Current(), queue) == Drain(old(Current()), old(queue))
        decreases |queue|
      {
        var message := queue[0];
        queue := queue[1..];
        match message
        case StatusMsg(text) =>
          status := text;
          banner := UpdateStatus(status);
        case ErrorMsg(text) =>
          status := "Error: " + text;
          banner := UpdateStatus(status);
        case DataMsg(payload) =>
          var newData := Normalise(payload);
          if newData.None? {
            // the KeyError leaves the loop through the outer handler
            failed := true;
            return;
          }
          data := data + [newData.value];
          if |data| > MaxRows {
            data := data[|data| - MaxRows..];
          }
        case OtherMsg(_) =>
      }
    }
  }
}
