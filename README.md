# BLE simple peripheral — a Dafny model

This project models `BLESimplePeripheral` from `main.py`, the MicroPython class that turns a
board into a BLE UART-style GATT peripheral. The class registers one service with a TX
characteristic (read and notify) and an RX characteristic (write and write-without-response).
It keeps the set of connection handles of the centrals that are connected, and it starts advertising again
whenever one of them disconnects. Writes on RX go to a single registered callback, and
`send` notifies every connected central on TX.

The model is the class `Peripheral.SimplePeripheral` (file `peripheral.dfy`):

- `connections: set<ConnHandle>` is the source's `self._connections`.
- `writeCallback: Option<Callback>` is the callback slot. `None` is the source's `None`. A
  `Callback` is an opaque token standing for a Python callable.
- `handleTx`, `handleRx` and `payload` are `const` fields. They are fixed at construction.
- The radio stack is not modelled. Every call the peripheral makes into it is appended to
  `stackLog`: `Active`, `SetIrq`, `GattsRegisterServices`, `GapAdvertise`, `GattsNotify` and
  `GattsRead`.
- Every firing of the write callback is appended to `callbackLog`.
- What the stack hands back comes in as parameters. The two characteristic handles from
  service registration are constructor parameters. So is the advertising payload. The bytes
  `gatts_read` returns are a parameter of `Irq`.
- The interrupt handler dispatches on the integer event codes 1, 2 and 3, as the source does.
  The data tuple is an `IrqData` value: a connection triple, a write pair, or anything else.
- The source's exceptions are `Outcome` values, and no `requires` excludes them:
  - `set.remove` on a handle that is not in the set raises `KeyError`. The model returns
    `KeyError(handle)`, and nothing has changed at that point.
  - Unpacking a data tuple of the wrong shape raises `ValueError` (or `TypeError` for a value
    that is not iterable). The model returns `UnpackError` for both, again with nothing changed.
- A ghost `history` records every interrupt delivered. The object invariant `Valid()` says two
  things:
  - the connection set equals `OpenHandles(history)`, the handles that were connected and not
    disconnected since;
  - the stack has been told to advertise once at start, plus once for every disconnect that
    closed a link. This is the "always advertising" rule.

`scenarios.dfy` drives a peripheral through short event sequences. It uses only the class's
contracts.

`_irq` calls `gatts_read` for every write event, before it checks the handle or the callback
(main.py:70). So the model logs a `GattsRead` for writes to any handle, not only to RX.

## Model

| member | source | states |
|---|---|---|
| `Peripheral.SimplePeripheral.constructor` | main.py:46-54 | After construction: no connections and no write callback. The TX/RX handles are the ones registration returned. The stack saw exactly activate, IRQ install, service registration and one advertise of the payload at 500000 us. The object invariant holds. |
| `Peripheral.SimplePeripheral.Advertise` | main.py:81-83 | Appends exactly one advertise call, carrying the stored payload and the given interval, to the stack log. Nothing else changes. |
| `Peripheral.SimplePeripheral.Irq` | main.py:56-72 | Connect adds the handle and changes nothing else; a repeated connect leaves the set as it was. Disconnect of an open handle removes it and issues exactly one advertise. Disconnect of an unknown handle is a KeyError with no change. A write always reads the value handle. It fires the callback exactly once with the value read iff the handle is RX and a callback is set, and otherwise not at all; the set is unchanged. Any other event code changes nothing. A data tuple of the wrong shape is an unpack error with no change. The invariant is kept. |
| `Peripheral.SimplePeripheral.Send` | main.py:74-76 | The calls appended to the stack log form a broadcast. They are notifies on TX carrying `data`, to exactly the open handles, one call per handle, in no fixed order. There are none when the set is empty. The connection set, the callback and the invariant are unchanged. |
| `Peripheral.SimplePeripheral.IsConnected` | main.py:78-79 | True iff the connection set is non-empty. It reads state only. |
| `Peripheral.SimplePeripheral.OnWrite` | main.py:85-86 | The callback slot becomes the given callback, so the last registration wins. Connections and both logs are unchanged. |
| `Peripheral.OpenHandlesIff` | main.py:58-65 | A handle is in the connection set iff some connect event for it has no later disconnect event for it. So the set never holds a handle that was never connected, and it holds every handle still connected. |
| `Peripheral.BroadcastOncePerConnection` | main.py:74-76 | In a broadcast, every connected handle is notified exactly once and no other handle is notified. |
| `Scenarios.ConnectThenSend` | main.py:56-76 | Construct, connect handle 1, send `data`: exactly one notify, to handle 1 on TX with `data`. |
| `Scenarios.ConnectConnectDisconnect` | main.py:56-79 | Connect 1, connect 2, disconnect 1: the set is {2}, exactly one advertise follows the one at start, and the peripheral reports connected. |
| `Scenarios.DisconnectUnknown` | main.py:62-67 | A disconnect for a handle that never connected fails with KeyError. No further advertise is issued, and the peripheral stays unconnected. |
| `Scenarios.WritesReachCallback` | main.py:68-72 | A write to RX with no callback fires nothing. After `OnWrite(cb)`, a write to RX fires `cb` once with the value read, and a write to TX fires nothing. All three writes read their value handle from the stack. |

## Left out

- The radio stack itself is not modelled. It is represented only by the calls in the stack log,
  and nothing is modelled of what those calls do: `active`, `irq`, `gatts_register_services`,
  `gap_advertise` and `gatts_notify`. Neither is what `gatts_read` returns.
- Failures raised by the stack are not modelled: registration, advertise or notify raising. In
  particular, `send` aborting part-way through is not captured.
- `advertising_payload` from `ble_advertising` is not part of this model. The payload is a
  constructor parameter, so the device name (`"mpy-uart"` by default) does not appear.
- The service, characteristic and flag constants at main.py:25-42 are configuration data. They
  include the reuse of the service UUID for both characteristics.
- The write callback is an opaque token. Its own effects when it fires are not modelled; firings
  are only recorded in the callback log.
- Python truthiness of the callback: any registered callable is treated as set. Registering a
  falsy object that is not `None` is not modelled.
- Concurrency between the interrupt handler and the main loop is not modelled. Calls are
  sequential, as the platform is relied on to serialise them.
- `print` logging throughout is not modelled.
- `demo()` (main.py:90-155) is not modelled. It is a hardware loop of LED writes, sleeps and
  button polls whose only logic is a 1/0 toggle.
- `button.py` is not modelled. It only reads a GPIO pin and prints.
- Button-triggered sends are not modelled as working. `demo()` passes a callback to
  `isPressed`, which takes none (button.py:9), so that call would raise a TypeError.
- Dispatch inspects only the shape of the data tuple: a 3-tuple for connect and disconnect, a
  2-tuple for writes. The types of its elements are not checked.
