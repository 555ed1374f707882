/**
 A BLE GATT peripheral with one UART-style service (a TX characteristic that is
 read and notified, an RX characteristic that centrals write).  The peripheral
 tracks the set of open connection handles, re-advertises whenever a central
 disconnects, forwards writes on RX to a single registered callback and
 broadcasts outgoing data to every connected central.

 The radio stack is not modelled: every call the peripheral makes into it is
 appended to `stackLog`, and every firing of the write callback to
 `callbackLog`.  What the stack returns (the characteristic handles at service
 registration, the bytes of a written value) comes in as parameters.
 */
module Peripheral {

  type Bytes = seq<bv8>
  /** Handle the stack issues for one central's link. */
  type ConnHandle = int
  /** Handle the stack issues for a characteristic value in the GATT table. */
  type AttrHandle = int

  /** Event codes delivered to the interrupt handler. */
  const IRQ_CENTRAL_CONNECT: int := 1
  const IRQ_CENTRAL_DISCONNECT: int := 2
  const IRQ_GATTS_WRITE: int := 3

  /** Advertising interval used when none is given, in microseconds. */
  const ADV_INTERVAL_US: int := 500000

  /** The data tuple that comes with an event, by shape. */
  datatype IrqData =
    | ConnectionData(connHandle: ConnHandle, addrType: int, addr: Bytes)  // (conn_handle, addr_type, addr)
    | WriteData(connHandle: ConnHandle, valueHandle: AttrHandle)          // (conn_handle, attr_handle)
    | OtherData                                                           // any other value

  /** One call of the interrupt handler. */
  datatype Interrupt = Interrupt(event: int, data: IrqData)

  /** A call the peripheral makes into the radio stack. */
  datatype StackCall =
    | Active(on: bool)
    | SetIrq
    | GattsRegisterServices
    | GapAdvertise(intervalUs: int, advData: Bytes)
    | GattsNotify(conn: ConnHandle, attr: AttrHandle, data: Bytes)
    | GattsRead(attr: AttrHandle)

  /** An opaque reference to a user-supplied write callback. */
  datatype Callback = Callback(id: int)

  /** The write callback `cb` called with `value`. */
  datatype Firing = Fired(cb: Callback, value: Bytes)

  datatype Option<T> = None | Some(value: T)

  /** How a call of the interrupt handler ended. */
  datatype Outcome =
    | Handled
    | KeyError(missing: ConnHandle)   // disconnect of a handle that is not in the set
    | UnpackError                      // the data tuple does not have the event's shape

  /* ---------- The connection set as a function of the event history ---------- */

  predicate IsConnect(e: Interrupt, c: ConnHandle) {
    e.event == IRQ_CENTRAL_CONNECT && e.data.ConnectionData? && e.data.connHandle == c
  }

  predicate IsDisconnect(e: Interrupt, c: ConnHandle) {
    e.event == IRQ_CENTRAL_DISCONNECT && e.data.ConnectionData? && e.data.connHandle == c
  }

  /** The handles open after the interrupts `h`, in order: a connect adds its
      handle, a disconnect removes it, nothing else touches the set. */
  function OpenHandles(h: seq<Interrupt>): set<ConnHandle>
    decreases |h|
  {
    if h == [] then {}
    else
      var prev := OpenHandles(h[..|h| - 1]);
      var e := h[|h| - 1];
      match e.data
      case ConnectionData(c, _, _) =>
        if IsConnect(e, c) then prev + {c}
        else if IsDisconnect(e, c) then prev - {c}
        else prev
      case _ => prev
  }

  /** Number of disconnects in `h` that closed a handle open at that point. */
  function ClosedCount(h: seq<Interrupt>): nat
    decreases |h|
  {
    if h == [] then 0
    else
      var prev := h[..|h| - 1];
      var e := h[|h| - 1];
      ClosedCount(prev)
        + match e.data
          case ConnectionData(c, _, _) => if IsDisconnect(e, c) && c in OpenHandles(prev) then 1 else 0
          case _ => 0
  }

  /** One more interrupt updates the open set and the closed count as that interrupt alone says. */
  lemma HistorySnoc(h: seq<Interrupt>, e: Interrupt)
    ensures OpenHandles(h + [e]) ==
      if e.event == IRQ_CENTRAL_CONNECT && e.data.ConnectionData? then OpenHandles(h) + {e.data.connHandle}
      else if e.event == IRQ_CENTRAL_DISCONNECT && e.data.ConnectionData? then OpenHandles(h) - {e.data.connHandle}
      else OpenHandles(h)
    ensures ClosedCount(h + [e]) ==
      ClosedCount(h) + if e.event == IRQ_CENTRAL_DISCONNECT && e.data.ConnectionData? && e.data.connHandle in OpenHandles(h)
                       then 1 else 0
  {
    assert (h + [e])[..|h|] == h;
  }

  /** `c` was connected by the interrupt at index `i` and not disconnected since. */
  predicate OpenedAt(h: seq<Interrupt>, i: int, c: ConnHandle)
    requires 0 <= i < |h|
  {
    IsConnect(h[i], c) && forall j | i < j < |h| :: !IsDisconnect(h[j], c)
  }

  /** A handle is open exactly when some connect for it has no later disconnect. */
  lemma {:induction false} OpenHandlesIff(h: seq<Interrupt>, c: ConnHandle)
    ensures c in OpenHandles(h) <==> exists i | 0 <= i < |h| :: OpenedAt(h, i, c)
    decreases |h|
  {
    if h != [] {
      var prev := h[..|h| - 1];
      var e := h[|h| - 1];
      OpenHandlesIff(prev, c);
      if c in OpenHandles(h) {
        if IsConnect(e, c) {
          assert OpenedAt(h, |h| - 1, c);
        } else {
          assert !IsDisconnect(e, c);
          var i :| 0 <= i < |prev| && OpenedAt(prev, i, c);
          assert OpenedAt(h, i, c);
        }
      } else {
        forall i | 0 <= i < |h| ensures !OpenedAt(h, i, c) {
          if i < |h| - 1 && !IsDisconnect(e, c) {
            assert OpenedAt(h, i, c) ==> OpenedAt(prev, i, c);
          }
        }
      }
    }
  }

  /* ---------- Counting calls in the stack log ---------- */

  function AdvertiseCount(log: seq<StackCall>): nat
    decreases |log|
  {
    if log == [] then 0
    else AdvertiseCount(log[..|log| - 1]) + if log[|log| - 1].GapAdvertise? then 1 else 0
  }

  lemma {:induction false} NoAdvertiseCount(log: seq<StackCall>)
    requires forall i | 0 <= i < |log| :: !log[i].GapAdvertise?
    ensures AdvertiseCount(log) == 0
    decreases |log|
  {
    if log != [] {
      NoAdvertiseCount(log[..|log| - 1]);
    }
  }

  /* HistorySnoc above, AdvertiseCountSnoc below and SendStep state one-step
     facts that Irq and Send use; keeping them out of those methods keeps each
     method's proof small. */

  lemma AdvertiseCountSnoc(log: seq<StackCall>, x: StackCall)
    ensures AdvertiseCount(log + [x]) == AdvertiseCount(log) + if x.GapAdvertise? then 1 else 0
  {
    assert (log + [x])[..|log|] == log;
  }

  /** The connection handles that some Notify in `log` was addressed to. */
  function NotifiedHandles(log: seq<StackCall>): set<ConnHandle>
    decreases |log|
  {
    if log == [] then {}
    else
      var last := log[|log| - 1];
      NotifiedHandles(log[..|log| - 1]) + if last.GattsNotify? then {last.conn} else {}
  }

  /** Number of Notify calls in `log` addressed to `c`. */
  function NotifyCount(log: seq<StackCall>, c: ConnHandle): nat
    decreases |log|
  {
    if log == [] then 0
    else
      var last := log[|log| - 1];
      NotifyCount(log[..|log| - 1], c) + if last.GattsNotify? && last.conn == c then 1 else 0
  }

  /** `calls` is a broadcast of `data` on characteristic `attr` to the handles
      `conns`: nothing but notifies of that data on that characteristic, to
      exactly the handles in `conns`, one call per handle. */
  predicate Broadcast(calls: seq<StackCall>, conns: set<ConnHandle>, attr: AttrHandle, data: Bytes) {
    (forall i | 0 <= i < |calls| :: calls[i].GattsNotify? && calls[i].attr == attr && calls[i].data == data)
    && NotifiedHandles(calls) == conns
    && |calls| == |conns|
  }

  lemma {:induction false} NotifyCountPositive(log: seq<StackCall>, c: ConnHandle)
    ensures NotifyCount(log, c) > 0 <==> c in NotifiedHandles(log)
    decreases |log|
  {
    if log != [] {
      NotifyCountPositive(log[..|log| - 1], c);
    }
  }

  lemma {:induction false} NotifiedHandlesBound(log: seq<StackCall>)
    ensures |NotifiedHandles(log)| <= |log|
    decreases |log|
  {
    if log != [] {
      NotifiedHandlesBound(log[..|log| - 1]);
    }
  }

  /** When as many handles were notified as there are calls, no handle was notified twice. */
  lemma {:induction false} DistinctWhenTight(log: seq<StackCall>, c: ConnHandle)
    requires |NotifiedHandles(log)| == |log|
    ensures NotifyCount(log, c) <= 1
    decreases |log|
  {
    if log != [] {
      var prev := log[..|log| - 1];
      var last := log[|log| - 1];
      NotifiedHandlesBound(prev);
      if last.GattsNotify? {
        assert last.conn !in NotifiedHandles(prev);
      }
      assert |NotifiedHandles(prev)| == |prev|;
      DistinctWhenTight(prev, c);
      if last.GattsNotify? && last.conn == c {
        NotifyCountPositive(prev, c);
      }
    }
  }

  /** One iteration of the loop in `Send`: appending the notify for a handle
      `c` not yet served keeps the log a broadcast to the handles served so far
      and adds no advertise. */
  lemma SendStep(log0: seq<StackCall>, sent: seq<StackCall>, done: set<ConnHandle>, rest: set<ConnHandle>,
                 attr: AttrHandle, data: Bytes, c: ConnHandle)
    requires Broadcast(sent, done, attr, data) && done !! rest && c in rest
    requires AdvertiseCount(log0 + sent) == AdvertiseCount(log0)
    ensures (log0 + sent) + [GattsNotify(c, attr, data)] == log0 + (sent + [GattsNotify(c, attr, data)])
    ensures Broadcast(sent + [GattsNotify(c, attr, data)], done + {c}, attr, data)
    ensures AdvertiseCount((log0 + sent) + [GattsNotify(c, attr, data)]) == AdvertiseCount(log0)
    ensures (done + {c}) + (rest - {c}) == done + rest && (done + {c}) !! (rest - {c})
  {
    assert (sent + [GattsNotify(c, attr, data)])[..|sent|] == sent;
    AdvertiseCountSnoc(log0 + sent, GattsNotify(c, attr, data));
  }

  /** A broadcast notifies every handle in the set exactly once and no other handle. */
  lemma BroadcastOncePerConnection(calls: seq<StackCall>, conns: set<ConnHandle>, attr: AttrHandle, data: Bytes, c: ConnHandle)
    requires Broadcast(calls, conns, attr, data)
    ensures NotifyCount(calls, c) == if c in conns then 1 else 0
  {
    NotifyCountPositive(calls, c);
    DistinctWhenTight(calls, c);
  }

  /** Some element of a non-empty set; which one is left open. */
  method Pick<T>(s: set<T>) returns (x: T)
    requires s != {}
    ensures x in s
  {
    x :| x in s;
  }

  /* ---------- The peripheral ---------- */

  class SimplePeripheral {
    /** Characteristic handles returned by service registration; fixed for the object's life. */
    const handleTx: AttrHandle
    const handleRx: AttrHandle
    /** Advertising payload, built once at construction. */
    const payload: Bytes

    var connections: set<ConnHandle>
    var writeCallback: Option<Callback>

    /** Calls made into the radio stack, oldest first. */
    var stackLog: seq<StackCall>
    /** Firings of the write callback, oldest first. */
    var callbackLog: seq<Firing>

    /** Every interrupt delivered so far. */
    ghost var history: seq<Interrupt>

    /** The connection set is what the interrupts so far opened and did not close,
        and the stack has been told to advertise once at start and once after
        every disconnect that closed a link. */
    ghost predicate Valid()
      reads this
    {
      connections == OpenHandles(history)
      && AdvertiseCount(stackLog) == 1 + ClosedCount(history)
    }

    /** Activate the radio, install the handler, register the service (which
        yields `tx` and `rx`) and start advertising `advPayload`. */
    constructor (tx: AttrHandle, rx: AttrHandle, advPayload: Bytes)
      ensures Valid()
      ensures handleTx == tx && handleRx == rx && payload == advPayload
      ensures connections == {} && writeCallback == None
      ensures stackLog == [Active(true), SetIrq, GattsRegisterServices, GapAdvertise(ADV_INTERVAL_US, advPayload)]
      ensures callbackLog == [] && history == []
    {
      handleTx, handleRx, payload := tx, rx, advPayload;
      stackLog := [Active(true), SetIrq, GattsRegisterServices];
      connections := {};
      writeCallback := None;
      callbackLog := [];
      history := [];
      new;
      NoAdvertiseCount(stackLog);
      Advertise(ADV_INTERVAL_US);
      assert stackLog[..3] == [Active(true), SetIrq, GattsRegisterServices];
    }

    /** Ask the stack to advertise the stored payload.  Internal to the class:
        only the constructor and the disconnect branch of `Irq` call it.  A call
        from anywhere else would add an advertise that `Valid()` does not
        account for, and the other methods could no longer be called. */
    method Advertise(intervalUs: int)
      modifies this`stackLog
      ensures stackLog == old(stackLog) + [GapAdvertise(intervalUs, payload)]
    {
      stackLog := stackLog + [GapAdvertise(intervalUs, payload)];
    }

    /** The interrupt handler.  `readValue` is what the stack returns when
        asked for the written value of a characteristic. */
    method Irq(event: int, data: IrqData, readValue: Bytes) returns (outcome: Outcome)
      requires Valid()
      modifies this`connections, this`stackLog, this`callbackLog, this`history
      ensures Valid()
      ensures history == old(history) + [Interrupt(event, data)]
      // connect: the handle joins the set, nothing else happens
      ensures event == IRQ_CENTRAL_CONNECT && data.ConnectionData? ==>
        outcome == Handled && connections == old(connections) + {data.connHandle}
        && stackLog == old(stackLog) && callbackLog == old(callbackLog)
      // disconnect of an open handle: it leaves the set and advertising restarts
      ensures event == IRQ_CENTRAL_DISCONNECT && data.ConnectionData? && data.connHandle in old(connections) ==>
        outcome == Handled && connections == old(connections) - {data.connHandle}
        && stackLog == old(stackLog) + [GapAdvertise(ADV_INTERVAL_US, payload)]
        && callbackLog == old(callbackLog)
      // disconnect of an unknown handle: the removal fails before anything changes
      ensures event == IRQ_CENTRAL_DISCONNECT && data.ConnectionData? && data.connHandle !in old(connections) ==>
        outcome == KeyError(data.connHandle) && connections == old(connections)
        && stackLog == old(stackLog) && callbackLog == old(callbackLog)
      // write: the value is always read; the callback fires only for RX with a callback set
      ensures event == IRQ_GATTS_WRITE && data.WriteData? ==>
        outcome == Handled && connections == old(connections)
        && stackLog == old(stackLog) + [GattsRead(data.valueHandle)]
        && callbackLog == old(callbackLog)
             + if data.valueHandle == handleRx && writeCallback.Some?
               then [Fired(writeCallback.value, readValue)] else []
      // a data tuple of the wrong shape fails to unpack before anything changes
      ensures (event == IRQ_CENTRAL_CONNECT || event == IRQ_CENTRAL_DISCONNECT) && !data.ConnectionData? ==>
        outcome == UnpackError
      ensures event == IRQ_GATTS_WRITE && !data.WriteData? ==> outcome == UnpackError
      ensures outcome == UnpackError ==>
        connections == old(connections) && stackLog == old(stackLog) && callbackLog == old(callbackLog)
      // any other event is ignored
      ensures event !in {IRQ_CENTRAL_CONNECT, IRQ_CENTRAL_DISCONNECT, IRQ_GATTS_WRITE} ==>
        outcome == Handled && connections == old(connections)
        && stackLog == old(stackLog) && callbackLog == old(callbackLog)
    {
      HistorySnoc(history, Interrupt(event, data));
      history := history + [Interrupt(event, data)];
      outcome := Handled;
      if event == IRQ_CENTRAL_CONNECT {
        if !data.ConnectionData? {
          outcome := UnpackError;
          return;
        }
        connections := connections + {data.connHandle};
      } else if event == IRQ_CENTRAL_DISCONNECT {
        if !data.ConnectionData? {
          outcome := UnpackError;
          return;
        }
        if data.connHandle !in connections {
          outcome := KeyError(data.connHandle);
          return;
        }
        connections := connections - {data.connHandle};
        AdvertiseCountSnoc(stackLog, GapAdvertise(ADV_INTERVAL_US, payload));
        Advertise(ADV_INTERVAL_US);
      } else if event == IRQ_GATTS_WRITE {
        if !data.WriteData? {
          outcome := UnpackError;
          return;
        }
        AdvertiseCountSnoc(stackLog, GattsRead(data.valueHandle));
        stackLog := stackLog + [GattsRead(data.valueHandle)];
        if data.valueHandle == handleRx && writeCallback.Some? {
          callbackLog := callbackLog + [Fired(writeCallback.value, readValue)];
        }
      }
    }

    /** Notify `data` on TX to every open connection, drawing handles one at a
        time from a shrinking copy of the set. */
    method Send(data: Bytes)
      requires Valid()
      modifies this`stackLog
      ensures Valid()
      ensures |old(stackLog)| <= |stackLog| && stackLog[..|old(stackLog)|] == old(stackLog)
      ensures Broadcast(stackLog[|old(stackLog)|..], connections, handleTx, data)
    {
      var rest := connections;
      ghost var done: set<ConnHandle> := {};
      ghost var sent: seq<StackCall> := [];
      while rest != {}
        invariant done + rest == connections && done !! rest
        invariant stackLog == old(stackLog) + sent
        invariant Broadcast(sent, done, handleTx, data)
        invariant AdvertiseCount(stackLog) == AdvertiseCount(old(stackLog))
        decreases |rest|
      {
        var c := Pick(rest);
        var call := GattsNotify(c, handleTx, data);
        SendStep(old(stackLog), sent, done, rest, handleTx, data, c);
        stackLog := stackLog + [call];
        sent := sent + [call];
        done := done + {c};
        rest := rest - {c};
      }
      assert done == connections;
      assert stackLog[|old(stackLog)|..] == sent;
    }

    /** Some central is connected. */
    function IsConnected(): (r: bool)
      reads this
      ensures r <==> connections != {}
    {
      |connections| > 0
    }

    /** Replace the write callback; `None` clears it. */
    method OnWrite(cb: Option<Callback>)
      requires Valid()
      modifies this`writeCallback
      ensures Valid()
      ensures writeCallback == cb
    {
      writeCallback := cb;
    }
  }
}
