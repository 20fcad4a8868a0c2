# Simple Volume Knob — verified model

This project models the two parts of the volume-knob firmware that carry
state and rules: the quadrature decoder that turns the encoder's two pins
into left and right detents, and the Bluetooth Low Energy session policy
with its HID reporting. The firmware talks to a `trouble_host` BLE engine;
here that engine is abstracted away.

- `quadrature.dfy` (module `Quadrature`) models `knob_controller` and the
  pattern constants from `src/main.rs`. The two `u8` history registers are
  the `bv8` fields of the class `Decoder`, so shifting out of the top bit
  wraps as it does in the source. `Step` is one loop iteration: shift both
  registers, mask each to three bits, then compare with the gray-code
  patterns. The pure part is `Classify`, and `Decode` is the event reported
  on each edge of a sequence of edges. From the third edge on, a Left is
  reported exactly after the two channels rest at one level and channel 1
  then channel 2 change, and a Right exactly when channel 2 moves first.
  Before the third edge the start-up values still sit in the three-bit
  window. So pins reading (1,0) at start-up and one edge to (1,1) already
  give a Left (`LeftFromStartupSkew`).
- `bluetooth.dfy` (module `Bluetooth`) models `KeyPressed::as_report`,
  `KeyPressed::send`, `custom_task`, `handle_gatt_event`,
  `gatt_events_task` and the advertise-and-serve loop of `run_bluetooth`
  from `src/bluetooth.rs`. A connection is a `Connection` object.
  - What the engine will answer is held in two fields: the queue of
    connection events that `next()` returns, and the outcome of each
    `notify`.
  - What the firmware does is recorded in the other fields: the
    notifications issued, the GATT replies sent, the pass-key confirmations
    made, and the bondable flag.
  - Answers the engine gives while one event is being handled travel with
    that event: the security level of the link, whether the accept or
    reject reply could be built, and whether `pass_key_confirm` succeeded.
  - The single bond slot `bond_info` is a `BondSlot` object, shared by all
    sessions.
- `wrappers.dfy` (module `Wrappers`) holds the `Option` datatype.

Each imperative routine is a method proved against a specification
function: `Decoder.Run` against `Decode`, `KeyPressed.Send` against
`SendOutcome`, `CustomTask` against `CustomRun`, `HandleGattEvent` against
`GattResponse`, `GattEventsTask` against `RunEvents`, and `RunBluetooth`
against `ServeFrom`. The lemmas state the properties of those functions.

## Model

| member | source | states |
|---|---|---|
| Quadrature.Bit | src/main.rs:98 | `is_high() as u8` is 0 or 1, and it is 1 exactly when the pin is high |
| Quadrature.Shift | src/main.rs:97-100 | after the update, bit 0 of the register is the current level and bits 1-7 are the old bits 0-6; the old top bit is dropped, as in `u8` |
| Quadrature.Pattern | src/main.rs:102-103 | the masked pattern is at most 7 and agrees with the register on its three low bits |
| Quadrature.Classify | src/main.rs:105-113 | Left exactly when the patterns match `LEFT_P1/P2` or their inverses; Right exactly when they match the `RIGHT_*` pair or its inverses, so testing Left first never hides a Right |
| Quadrature.Advance | src/main.rs:97-100 | one edge shifts each register left by one and puts the channel's new level in bit 0; bits 1-7 are the old bits 0-6 |
| Quadrature.Detect | src/main.rs:102-113 | the event is Left exactly when the masked patterns match a Left pair and Right exactly when they match a Right pair; either way the two patterns differ in exactly their middle bit |
| Quadrature.Decode | src/main.rs:94-113 | the decoder reports exactly one event per edge |
| Quadrature.DecodeAt | src/main.rs:94-113 | the event on edge `i` is what the registers give after the first `i + 1` edges |
| Quadrature.Decoder.constructor | src/main.rs:91-92 | each register starts as its pin's level at start-up, as 0 or 1 |
| Quadrature.Decoder.Step | src/main.rs:96-113 | on an edge of either channel both registers advance together by one shift, and the event is the classification of the two new masked patterns |
| Quadrature.Decoder.Run | src/main.rs:94-115 | running the loop over a sequence of edges leaves the registers in the state that sequence determines and reports `Decode` of it |
| Quadrature.LeftRightExclusive | src/main.rs:105-112 | no pair of masked patterns is both a Left and a Right match |
| Quadrature.InverseConstants | src/main.rs:26-33 | each `*_INV` constant is the 3-bit complement of its base pattern |
| Quadrature.ComplementSymmetry | src/main.rs:105-112 | complementing both masked patterns keeps the detected direction |
| Quadrature.SwapSymmetry | src/main.rs:105-112 | swapping the two channels' patterns swaps Left and Right and keeps "nothing" |
| Quadrature.PatternOfThreeShifts | src/main.rs:97-103 | after three updates a register's masked pattern is exactly the three levels read, oldest in bit 2 |
| Quadrature.AlignedWindows | src/main.rs:96-103 | after at least three edges, both patterns hold the last three levels of their own channel, taken on the same edges |
| Quadrature.DetectForgetsStart | src/main.rs:91-113 | from the third edge on, the reported event does not depend on the start-up values of the registers |
| Quadrature.LeftDetent | src/main.rs:105-108 | from two channels resting at the same level, channel 1 moving first and then channel 2 gives nothing, then Left |
| Quadrature.RightDetent | src/main.rs:109-112 | channel 2 moving first and then channel 1 gives nothing, then Right |
| Quadrature.BounceIsIgnored | src/main.rs:105-113 | channel 1 moving and bouncing back before channel 2 moves gives nothing on either edge |
| Quadrature.MirroredBounceIsIgnored | src/main.rs:105-113 | the same for a bounce of channel 2 |
| Quadrature.LeftOnlyOnDetent | src/main.rs:97-108 | after three or more edges, Left is reported exactly when the last three edges read (a,a), (!a,a), (!a,!a) for some level a: both channels at rest, channel 1 changes, then channel 2 follows |
| Quadrature.RightOnlyOnDetent | src/main.rs:97-112 | after three or more edges, Right is reported exactly when the last three edges read (a,a), (a,!a), (!a,!a): channel 2 changes first, then channel 1 follows |
| Quadrature.DecodedOnlyOnDetent | src/main.rs:94-113 | from the third edge of a run on, edge `i` is reported as Left or Right exactly when edges `i - 2` to `i` form that detent |
| Quadrature.LeftFromStartupSkew | src/main.rs:91-108 | with channel 1 high and channel 2 low at start-up, a first edge that brings channel 2 high is reported as Left, because the start-up values fill the window |
| Quadrature.LeftDetentFromRest | src/main.rs:91-113 | with both pins idle high, the levels (0,1) then (0,0) make the task report nothing and then Left |
| Quadrature.RightDetentFromRest | src/main.rs:91-113 | with both pins idle high, the levels (1,0) then (0,0) make the task report nothing and then Right |
| Bluetooth.Connection.constructor | src/bluetooth.rs:128-129 | a newly accepted connection has the engine's answers queued, has sent and confirmed nothing, and is not yet bondable |
| Bluetooth.Connection.Next | src/bluetooth.rs:194 | `conn.next()` yields the first pending event and consumes it; `None` means no further event comes |
| Bluetooth.Connection.Notify | src/bluetooth.rs:72 | a notify records the report and succeeds exactly when the engine delivers it |
| Bluetooth.Connection.ConfirmPassKey | src/bluetooth.rs:202 | each `pass_key_confirm` call is recorded once |
| Bluetooth.Connection.SendReply | src/bluetooth.rs:269 | `reply.send()` appends the reply to those sent on the link |
| Bluetooth.Connection.SetBondable | src/bluetooth.rs:130 | `set_bondable` sets the connection's bondable flag |
| Bluetooth.KeyPressed.AsReport | src/bluetooth.rs:55-63 | the report is the input report ID followed by 1 for VolUp, 2 for VolDown, 4 for Mute and 0 for None (each in both directions); every key but None sets exactly one bit |
| Bluetooth.SendOutcome | src/bluetooth.rs:70-76 | `send` first notifies the key's report; it notifies the release report exactly when that first notify succeeds; it succeeds exactly when both succeed; it consumes one outcome per notify made |
| Bluetooth.KeyPressed.Send | src/bluetooth.rs:65-77 | the method makes the notifies `SendOutcome` describes and returns its verdict |
| Bluetooth.Toggled | src/bluetooth.rs:278-282 | the key is VolUp exactly when the toggle is set, and VolDown exactly when it is not |
| Bluetooth.CustomRun | src/bluetooth.rs:275-290 | the notifier always ends with a failed send, and its first notification is the report of the key `toggle` selects |
| Bluetooth.CustomTask | src/bluetooth.rs:275-290 | the loop issues exactly the notifications of `CustomRun` from toggle `true` and consumes exactly its outcomes |
| Bluetooth.CustomRunStep | src/bluetooth.rs:278-287 | after a successful send, the loop continues from the flipped toggle; after a failed one it stops |
| Bluetooth.CustomRunStops | src/bluetooth.rs:283-286 | the notifier makes one notify per outcome up to and including the first failure, and none after it |
| Bluetooth.CustomRunHead | src/bluetooth.rs:278-283 | the first notification is the key's report and the second, if made, is its release |
| Bluetooth.CustomRunAlternates | src/bluetooth.rs:276-289 | the notifications alternate key and release, and the keys alternate between the two volume keys |
| Bluetooth.CustomTaskKeys | src/bluetooth.rs:276-289 | press `k` is VolUp exactly when `k` is even, and each press is followed by the release report if one is sent |
| Bluetooth.AuthGate | src/bluetooth.rs:235-261 | Read and Write are rejected exactly when the link is not authenticated, always with Insufficient Authentication; other requests are accepted |
| Bluetooth.GattResponse | src/bluetooth.rs:234-273 | a failed security-level query on a Read or Write returns that error and sends no reply; otherwise the result is Ok and exactly one reply for the request is sent when it can be built; it is a Reject exactly when the request is a Read or Write on an unauthenticated link |
| Bluetooth.HandleGattEvent | src/bluetooth.rs:229-273 | the method sends the replies `GattResponse` describes and returns its outcome |
| Bluetooth.BondSlot.constructor | src/bluetooth.rs:100 | the bond slot starts empty |
| Bluetooth.Ends | src/bluetooth.rs:195-222 | an event ends the task exactly when it is a disconnection, a pass-key confirmation whose `pass_key_confirm` fails, or a GATT request whose handling returns an error |
| Bluetooth.EndOutcome | src/bluetooth.rs:195-226 | the task returns Ok exactly when it ends on a disconnection; a failed confirmation returns that error, and a failed GATT request returns `handle_gatt_event`'s error |
| Bluetooth.StateAfter | src/bluetooth.rs:195-222 | handling one event changes the bond slot only on `PairingComplete`, which replaces it by the event's bond; it sends the replies of a GATT request; it adds one confirmation for a `PassKeyConfirm` |
| Bluetooth.HandleEvent | src/bluetooth.rs:195-222 | one pass of the loop body leaves the slot, replies and confirmations that `StateAfter` describes, and reports an outcome exactly when the event ends the task, namely `EndOutcome` |
| Bluetooth.RunEvents | src/bluetooth.rs:193-226 | the task consumes a prefix of the events and leaves the rest unread |
| Bluetooth.GattEventsTask | src/bluetooth.rs:188-227 | the loop consumes the events, writes the bond slot, sends the replies and makes the confirmations that `RunEvents` describes, and returns its status |
| Bluetooth.RunEventsStep | src/bluetooth.rs:193-224 | an event that ends the task is its last; any other event is handled and the loop goes on with the rest |
| Bluetooth.RunEventsEnd | src/bluetooth.rs:193-226 | the task stops at the first disconnection, failed confirmation or failed security-level query and reads nothing after it; it returns Ok exactly when that event is a disconnection; it is still waiting only when no such event came |
| Bluetooth.RunEventsReplies | src/bluetooth.rs:193-224 | the replies sent are those `handle_gatt_event` decides for each consumed GATT request, in order |
| Bluetooth.RunEventsConfirmations | src/bluetooth.rs:199-203 | `pass_key_confirm` is called once per consumed `PassKeyConfirm`, the failing call that ends the task included |
| Bluetooth.RunEventsBondKept | src/bluetooth.rs:193-224 | with no `PairingComplete` among the consumed events, the bond slot is unchanged |
| Bluetooth.RunEventsBondLast | src/bluetooth.rs:208-217 | the bond slot ends as the `bond` of the last consumed `PairingComplete`, replaced wholesale even when that is `None` |
| Bluetooth.Session | src/bluetooth.rs:129-135 | one session is bondable exactly when it starts with the bond slot empty, and its first notification is the VolUp report |
| Bluetooth.SessionBond | src/bluetooth.rs:129-135 | the slot a session leaves is the one its event task leaves; `SessionBondOrigin` states where that slot comes from |
| Bluetooth.SessionBondOrigin | src/bluetooth.rs:208-217 | a session leaves the slot it entered with when it consumes no `PairingComplete`; otherwise the slot holds the slot it entered with or the bond of one of its `PairingComplete` events |
| Bluetooth.Serve | src/bluetooth.rs:129-135 | one accepted connection is marked bondable from the bond slot, then runs the event task and the notifier; the slot is left as the event task leaves it |
| Bluetooth.ServeFrom | src/bluetooth.rs:126-143 | one trace per accepted connection |
| Bluetooth.RunBluetooth | src/bluetooth.rs:126-143 | the serve loop, starting from an empty bond slot, produces the traces `ServeFrom` describes |
| Bluetooth.ServeFromAt | src/bluetooth.rs:127-135 | each session runs from the bond left by the sessions before it, and is bondable exactly when that slot is empty |
| Bluetooth.SessionKeepsNoBond | src/bluetooth.rs:208-217 | a session entered with an empty slot leaves it empty when no pairing in it reports a bond |
| Bluetooth.NoBondStaysEmpty | src/bluetooth.rs:127-135 | with no pairing ever reporting a bond, the slot is still empty after any number of sessions |
| Bluetooth.NoBondKeepsBondable | src/bluetooth.rs:130 | with no pairing ever reporting a bond, every session is bondable |
| Bluetooth.PairedSessionStoresBond | src/bluetooth.rs:127-135 | a session whose last consumed pairing reports a bond leaves that bond in the slot, so the next session is not bondable |

## Left out

- Hardware bring-up: the radio firmware blobs, PIO/SPI/DMA setup, interrupt binding and the radio driver task. These are I/O and foreign drivers.
- The debouncer and the GPIO edge waits and level reads. Each edge is an abstract `Sample` of the two levels read after it, and the debounce delay is not modelled.
- `defmt` logging, including the "Rot left"/"Rot right" messages. The decoder's event is returned as a `Rotation` instead.
- Quadrature.Decoder.Run: models a finite sequence of edges; the source task loops forever.
- The BLE engine: stack construction, its runner task, advertising, advertising-data encoding, accepting a connection and binding the attribute server. Each accepted connection is given as a `SessionInput`.
- An advertising or runner error panics the device. The model has no panic path.
- `set_bondable(...).unwrap()` panics if the engine refuses the flag (src/bluetooth.rs:130). The model has no panic path, and the flag is always set.
- The GATT service and characteristic declarations. They are declarative and have nothing to prove.
- The `hid` module is not part of this model. `HID_REPORT_INPUT_ID` is left as an unspecified byte.
- The 50 ms pause inside `send` and the 2 s pause between presses.
- `handle_gatt_event` compares the request handle with the battery-level characteristic's handle. This only logs, so the model ignores the handle.
- Bluetooth.Serve: the source runs the event task and the notifier concurrently and stops the session when either ends. The model runs them one after the other, each over its own engine answers. An exhausted event queue means the event task was still waiting when the notifier ended the session. An exhausted outcome list means the link is gone, so the notify fails. Where cancellation falls between the two tasks is not modelled. So in the model every session makes at least one notify and ends on a failed one, whereas in the source a queued `Disconnected` can end the session before any notify, and a disconnect during the 2 s pause can end it after a successful one.
- Bluetooth.RunBluetooth: models a finite number of accepted connections; the source loops forever.
- Bluetooth.RunEvents: the reason carried by `Disconnected` and the details of the other events are kept, but the model does not use them.
- `main` calls `run_bluetooth` with one argument, while the function takes a controller and a random-number generator. The `knob_controller` spawn after that call is never reached, because `run_bluetooth` does not return. The model treats the decoder and the BLE session as two independent parts and does not model the wiring.
