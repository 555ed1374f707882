/**
 Client code that drives a peripheral through short event sequences and
 states what the stack and the write callback observe, using only the
 contracts of `Peripheral.SimplePeripheral`.
 */
module Scenarios {
  import opened Peripheral

  /** A central connects on handle 1, then `data` is sent: exactly one notify,
      to handle 1 on TX, carrying `data`. */
  method ConnectThenSend(tx: AttrHandle, rx: AttrHandle, adv: Bytes, data: Bytes)
    returns (notifies: seq<StackCall>)
    ensures notifies == [GattsNotify(1, tx, data)]
  {
    var p := new SimplePeripheral(tx, rx, adv);
    var _ := p.Irq(IRQ_CENTRAL_CONNECT, ConnectionData(1, 0, []), []);
    assert p.connections == {1};
    var before := p.stackLog;
    p.Send(data);
    notifies := p.stackLog[|before|..];
    assert Broadcast(notifies, {1}, tx, data);
    assert |notifies| == 1;
    assert notifies[..0] == [];
    assert NotifiedHandles(notifies) == {notifies[0].conn};
    assert notifies[0] == GattsNotify(1, tx, data);
  }

  /** Handles 1 and 2 connect and 1 disconnects: only 2 stays open, the
      stack was asked to advertise exactly once more, and a central is still
      connected. */
  method ConnectConnectDisconnect(tx: AttrHandle, rx: AttrHandle, adv: Bytes)
    returns (conns: set<ConnHandle>, afterStart: seq<StackCall>, connected: bool)
    ensures conns == {2}
    ensures afterStart == [GapAdvertise(ADV_INTERVAL_US, adv)]
    ensures connected
  {
    var p := new SimplePeripheral(tx, rx, adv);
    var start := p.stackLog;
    var _ := p.Irq(IRQ_CENTRAL_CONNECT, ConnectionData(1, 0, []), []);
    var _ := p.Irq(IRQ_CENTRAL_CONNECT, ConnectionData(2, 0, []), []);
    var o := p.Irq(IRQ_CENTRAL_DISCONNECT, ConnectionData(1, 0, []), []);
    assert o == Handled;
    conns := p.connections;
    afterStart := p.stackLog[|start|..];
    connected := p.IsConnected();
  }

  /** A disconnect for a handle that never connected fails with a key error
      and the stack is not asked to advertise again. */
  method DisconnectUnknown(tx: AttrHandle, rx: AttrHandle, adv: Bytes)
    returns (outcome: Outcome, advertises: nat, connected: bool)
    ensures outcome == KeyError(7)
    ensures advertises == 1
    ensures !connected
  {
    var p := new SimplePeripheral(tx, rx, adv);
    outcome := p.Irq(IRQ_CENTRAL_DISCONNECT, ConnectionData(7, 0, []), []);
    advertises := AdvertiseCount(p.stackLog);
    connected := p.IsConnected();
  }

  /** A write on RX before any callback is registered fires nothing; after
      registering `cb`, a write on RX fires it once with the value read and a
      write on TX fires nothing.  Every write reads its value from the stack. */
  method WritesReachCallback(tx: AttrHandle, rx: AttrHandle, adv: Bytes, cb: Callback, v: Bytes, w: Bytes)
    returns (fired: seq<Firing>, stackReads: seq<StackCall>)
    requires tx != rx
    ensures fired == [Fired(cb, v)]
    ensures stackReads == [GattsRead(rx), GattsRead(rx), GattsRead(tx)]
  {
    var p := new SimplePeripheral(tx, rx, adv);
    var start := p.stackLog;
    var _ := p.Irq(IRQ_GATTS_WRITE, WriteData(1, rx), w);
    assert p.callbackLog == [] && p.stackLog == start + [GattsRead(rx)];
    p.OnWrite(Some(cb));
    var _ := p.Irq(IRQ_GATTS_WRITE, WriteData(1, rx), v);
    assert p.callbackLog == [Fired(cb, v)] && p.stackLog == start + [GattsRead(rx), GattsRead(rx)];
    var _ := p.Irq(IRQ_GATTS_WRITE, WriteData(1, tx), w);
    fired := p.callbackLog;
    stackReads := p.stackLog[|start|..];
  }
}
