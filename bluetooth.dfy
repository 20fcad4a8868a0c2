/**
 * BLE session policy and HID reporting of the volume knob.
 *
 * The host engine is abstracted away. A connection is seen through what the
 * engine tells the firmware (the events `next()` surfaces, in order, and the
 * result of each `notify`) and through what the firmware does to it (the
 * notifications it issues, the replies it sends, the pass-key confirmations
 * and the bondable flag). Answers the engine gives while one event is being
 * handled (the security level of the link, whether a reply could be built,
 * whether a pass-key confirmation was taken) travel with that event.
 */
module Bluetooth {
  import opened Wrappers

  type Byte = bv8

  /** Report ID of the HID input report. It is defined outside this model and left unspecified. */
  const HID_REPORT_INPUT_ID: Byte

  /** ATT error code "Insufficient Authentication" (Bluetooth Core Specification, Vol 3, Part F, section 3.4.1.1). */
  const INSUFFICIENT_AUTHENTICATION: Byte := 0x05

  /** A two-byte HID input report: the report ID, then one bit per consumer key. */
  type InputReport = r: seq<Byte> | |r| == 2 witness [0, 0]

  /** Exactly one bit of `b` is set. */
  predicate OneBitSet(b: Byte) {
    b != 0 && b & (b - 1) == 0
  }

  // ---------------------------------------------------------------------
  // The link as the host engine exposes it

  /** A GATT attribute handle. */
  type Handle = nat

  /** A GATT request surfaced by the host engine. */
  datatype GattEvent =
    | Read(handle: Handle)
    | Write(handle: Handle, data: seq<Byte>)
    | OtherRequest(handle: Handle)
  {
    /** Reads and writes pass through the authentication gate; other requests do not. */
    predicate Guarded() {
      Read? || Write?
    }
  }

  /** The reply sent to a GATT request. */
  datatype Reply = Accept(request: GattEvent) | Reject(request: GattEvent, code: Byte)

  /** Long-term-key material tied to one peer identity. */
  datatype BondInformation = BondInformation(peer: seq<Byte>, longTermKey: seq<Byte>)

  /**
   * A connection event. `PassKeyConfirm.confirmAccepted` is the result of the
   * firmware's `pass_key_confirm` call; `Gatt.securityLevel` is the answer of
   * the security-level query made while handling the request (`None` when the
   * query fails, otherwise whether the link is authenticated); `Gatt.replyBuilt`
   * says whether building the accept or reject reply succeeds.
   */
  datatype ConnectionEvent =
    | Disconnected(reason: Byte)
    | PassKeyDisplay(passKey: nat)
    | PassKeyConfirm(passKey: nat, confirmAccepted: bool)
    | PassKeyInput
    | PairingComplete(authenticated: bool, bond: Option<BondInformation>)
    | PairingFailed(error: nat)
    | Gatt(event: GattEvent, securityLevel: Option<bool>, replyBuilt: bool)
    | OtherEvent

  /** The host-engine errors the event task can return. */
  datatype Error = SecurityLevelUnavailable | PassKeyConfirmFailed

  /** `Result<(), Error>`. */
  datatype Outcome = Ok | Err(error: Error)

  /** A notify outcome is delivered when there is one and it is a success. */
  predicate Delivered(outcomes: seq<bool>) {
    outcomes != [] && outcomes[0]
  }

  /** The notify outcomes left after one notify. */
  function Consume(outcomes: seq<bool>): seq<bool> {
    if outcomes == [] then [] else outcomes[1..]
  }

  /**
   * One connection. `pending` and `notifyOutcomes` are what the host engine
   * will answer; the other fields record what the firmware did. An exhausted
   * `notifyOutcomes` means the link is gone, so every further notify fails.
   */
  class Connection {
    var pending: seq<ConnectionEvent>
    var notifyOutcomes: seq<bool>
    var notifications: seq<InputReport>
    var replies: seq<Reply>
    var confirmations: nat
    var bondable: bool

    constructor (events: seq<ConnectionEvent>, outcomes: seq<bool>)
      ensures pending == events && notifyOutcomes == outcomes
      ensures notifications == [] && replies == [] && confirmations == 0 && !bondable
    {
      pending, notifyOutcomes := events, outcomes;
      notifications, replies, confirmations, bondable := [], [], 0, false;
    }

    /** `conn.next()`: the next event, or `None` when no further event arrives. */
    method Next() returns (e: Option<ConnectionEvent>)
      modifies this`pending
      ensures old(pending) == [] ==> e == Option.None && pending == []
      ensures old(pending) != [] ==> e == Some(old(pending)[0]) && pending == old(pending)[1..]
    {
      if pending == [] {
        e := Option.None;
      } else {
        e := Some(pending[0]);
        pending := pending[1..];
      }
    }

    /** `notify` on the HID input-report characteristic. */
    method Notify(report: InputReport) returns (ok: bool)
      modifies this`notifyOutcomes, this`notifications
      ensures notifications == old(notifications) + [report]
      ensures ok == Delivered(old(notifyOutcomes))
      ensures notifyOutcomes == Consume(old(notifyOutcomes))
    {
      notifications := notifications + [report];
      ok := Delivered(notifyOutcomes);
      notifyOutcomes := Consume(notifyOutcomes);
    }

    /** `pass_key_confirm`. */
    method ConfirmPassKey()
      modifies this`confirmations
      ensures confirmations == old(confirmations) + 1
    {
      confirmations := confirmations + 1;
    }

    /** `reply.send()`. */
    method SendReply(reply: Reply)
      modifies this`replies
      ensures replies == old(replies) + [reply]
    {
      replies := replies + [reply];
    }

    /** `set_bondable`. */
    method SetBondable(flag: bool)
      modifies this`bondable
      ensures bondable == flag
    {
      bondable := flag;
    }
  }

  // ---------------------------------------------------------------------
  // HID reports and the press-then-release send

  /** The notifies made by one or more sends, whether the last one succeeded, and the outcomes left. */
  datatype NotifyRun = NotifyRun(sent: seq<InputReport>, ok: bool, rest: seq<bool>)

  datatype KeyPressed = VolUp | VolDown | Mute | None {

    /** `as_report`: the report ID, then one bit per key and no bit for `None`. */
    function AsReport(): (r: InputReport)
      ensures r[0] == HID_REPORT_INPUT_ID
      ensures r[1] == 1 <==> this == VolUp
      ensures r[1] == 2 <==> this == VolDown
      ensures r[1] == 4 <==> this == Mute
      ensures r[1] == 0 <==> this == KeyPressed.None
      ensures this != KeyPressed.None <==> OneBitSet(r[1])
    {
      var value: Byte := match this
        case VolUp => 1     // 0b0000_0001
        case VolDown => 2   // 0b0000_0010
        case Mute => 4      // 0b0000_0100
        case None => 0;
      [HID_REPORT_INPUT_ID, value]
    }

    /** `send`: the key's report, then the release report, stopping at the first failure. */
    method Send(conn: Connection) returns (ok: bool)
      modifies conn`notifyOutcomes, conn`notifications
      ensures var run := SendOutcome(this, old(conn.notifyOutcomes));
        ok == run.ok
        && conn.notifications == old(conn.notifications) + run.sent
        && conn.notifyOutcomes == run.rest
    {
      ok := conn.Notify(AsReport());
      if !ok {
        return;
      }
      // The 50 ms pause between press and release is not modelled.
      ok := conn.Notify(KeyPressed.None.AsReport());
    }
  }

  /** What `send` does given the outcomes of the notifies it makes. */
  function SendOutcome(key: KeyPressed, outcomes: seq<bool>): (run: NotifyRun)
    ensures 1 <= |run.sent| <= 2 && run.sent[0] == key.AsReport()
    ensures |run.sent| == 2 <==> |outcomes| >= 1 && outcomes[0]
    ensures |run.sent| == 2 ==> run.sent[1] == KeyPressed.None.AsReport()
    ensures run.ok <==> |outcomes| >= 2 && outcomes[0] && outcomes[1]
    ensures run.rest == if |outcomes| <= |run.sent| then [] else outcomes[|run.sent|..]
  {
    if !Delivered(outcomes) then
      NotifyRun([key.AsReport()], false, Consume(outcomes))
    else
      var rest := Consume(outcomes);
      NotifyRun([key.AsReport(), KeyPressed.None.AsReport()], Delivered(rest), Consume(rest))
  }

  // ---------------------------------------------------------------------
  // The notifier task

  /** The key the notifier sends while its toggle is `toggle`. */
  function Toggled(toggle: bool): (k: KeyPressed)
    ensures k == VolUp <==> toggle
    ensures k == VolDown <==> !toggle
  {
    if toggle then VolUp else VolDown
  }

  /** What `custom_task` does, from toggle `toggle`, given the notify outcomes. */
  function CustomRun(toggle: bool, outcomes: seq<bool>): (run: NotifyRun)
    ensures !run.ok
    ensures |run.sent| >= 1 && run.sent[0] == Toggled(toggle).AsReport()
    decreases |outcomes|
  {
    var first := SendOutcome(Toggled(toggle), outcomes);
    if first.ok then
      var more := CustomRun(!toggle, first.rest);
      NotifyRun(first.sent + more.sent, false, more.rest)
    else
      first
  }

  lemma Associative<T>(a: seq<T>, b: seq<T>, c: seq<T>)
    ensures a + (b + c) == (a + b) + c
  {
  }

  lemma EmptyPrefix<T>(s: seq<T>)
    ensures [] + s == s
  {
  }

  /** One press of the notifier: the rest of the run continues from the flipped toggle when the send succeeds. */
  lemma CustomRunStep(toggle: bool, outcomes: seq<bool>)
    ensures var first := SendOutcome(Toggled(toggle), outcomes); var run := CustomRun(toggle, outcomes);
      if first.ok then
        run.sent == first.sent + CustomRun(!toggle, first.rest).sent && run.rest == CustomRun(!toggle, first.rest).rest
      else run == first
  {
  }

  /** `custom_task`: alternate VolUp and VolDown presses until a send fails. */
  method CustomTask(conn: Connection)
    modifies conn`notifyOutcomes, conn`notifications
    ensures var run := CustomRun(true, old(conn.notifyOutcomes));
      conn.notifications == old(conn.notifications) + run.sent && conn.notifyOutcomes == run.rest
  {
    ghost var goal := CustomRun(true, conn.notifyOutcomes);
    ghost var done: seq<InputReport> := [];
    var toggle := true;
    while true
      invariant conn.notifications == old(conn.notifications) + done
      invariant done + CustomRun(toggle, conn.notifyOutcomes).sent == goal.sent
      invariant CustomRun(toggle, conn.notifyOutcomes).rest == goal.rest
      decreases |conn.notifyOutcomes|
    {
      ghost var outcomes := conn.notifyOutcomes;
      ghost var first := SendOutcome(Toggled(toggle), outcomes);
      ghost var more := CustomRun(!toggle, first.rest).sent;
      CustomRunStep(toggle, outcomes);
      var key := if toggle then KeyPressed.VolUp else KeyPressed.VolDown;
      assert key == Toggled(toggle);
      var ok := key.Send(conn);
      assert ok == first.ok && conn.notifyOutcomes == first.rest;
      Associative(old(conn.notifications), done, first.sent);
      Associative(done, first.sent, more);
      done := done + first.sent;
      if !ok {
        break;
      }
      toggle := !toggle;
      // The two-second pause between presses is not modelled.
    }
  }

  /** Index of the first failed notify outcome; `|outcomes|` when the link goes away before one fails. */
  function FirstFailure(outcomes: seq<bool>): (k: nat)
    ensures k <= |outcomes|
    ensures forall i :: 0 <= i < k ==> outcomes[i]
    ensures k < |outcomes| ==> !outcomes[k]
  {
    if outcomes == [] || !outcomes[0] then 0 else 1 + FirstFailure(outcomes[1..])
  }

  /**
   * The `i`-th notification of a notifier that starts with toggle `toggle`:
   * its key, its release, then the same with the other key.
   */
  function NthNotification(toggle: bool, i: nat): InputReport
    decreases i
  {
    if i == 0 then Toggled(toggle).AsReport()
    else if i == 1 then KeyPressed.None.AsReport()
    else NthNotification(!toggle, i - 2)
  }

  /**
   * The notifier makes exactly one notify per outcome up to and including the
   * first failure and none after it.
   */
  lemma {:induction false} CustomRunStops(toggle: bool, outcomes: seq<bool>)
    ensures |CustomRun(toggle, outcomes).sent| == FirstFailure(outcomes) + 1
    ensures CustomRun(toggle, outcomes).rest
         == if FirstFailure(outcomes) < |outcomes| then outcomes[FirstFailure(outcomes) + 1..] else []
    decreases |outcomes|
  {
    var first := SendOutcome(Toggled(toggle), outcomes);
    CustomRunStep(toggle, outcomes);
    if first.ok {
      assert first.rest == outcomes[2..];
      CustomRunStops(!toggle, outcomes[2..]);
      assert outcomes[1..][1..] == outcomes[2..];
      assert FirstFailure(outcomes) == 2 + FirstFailure(outcomes[2..]);
      var k := FirstFailure(outcomes[2..]);
      if k < |outcomes[2..]| {
        assert outcomes[2..][k + 1..] == outcomes[k + 3..];
      }
    } else if |first.sent| == 2 {
      assert FirstFailure(outcomes) == 1 + FirstFailure(outcomes[1..]);
      if |outcomes| == 2 {
        assert outcomes[2..] == [];
      }
    } else if |outcomes| == 1 {
      assert outcomes[1..] == [];
    }
  }

  /** The first two notifications of a run: the key, then its release if the key's notify succeeded. */
  lemma CustomRunHead(toggle: bool, outcomes: seq<bool>, i: nat)
    requires i < 2 && i < |CustomRun(toggle, outcomes).sent|
    ensures CustomRun(toggle, outcomes).sent[i] == NthNotification(toggle, i)
  {
    var first := SendOutcome(Toggled(toggle), outcomes);
    CustomRunStep(toggle, outcomes);
    assert CustomRun(toggle, outcomes).sent[i] == first.sent[i];
  }

  /** The notifications alternate key and release, and the keys alternate between the two volume keys. */
  lemma {:induction false} CustomRunAlternates(toggle: bool, outcomes: seq<bool>, i: nat)
    requires i < |CustomRun(toggle, outcomes).sent|
    ensures CustomRun(toggle, outcomes).sent[i] == NthNotification(toggle, i)
    decreases |outcomes|
  {
    if i < 2 {
      CustomRunHead(toggle, outcomes, i);
    } else {
      var first := SendOutcome(Toggled(toggle), outcomes);
      var more := CustomRun(!toggle, first.rest).sent;
      CustomRunStep(toggle, outcomes);
      assert CustomRun(toggle, outcomes).sent == first.sent + more && |first.sent| == 2;
      assert CustomRun(toggle, outcomes).sent[i] == more[i - 2];
      CustomRunAlternates(!toggle, first.rest, i - 2);
      assert NthNotification(toggle, i) == NthNotification(!toggle, i - 2);
    }
  }

  /** Notifier keys as numbered presses: press `k` is VolUp exactly when `k` is even. */
  lemma CustomTaskKeys(outcomes: seq<bool>, k: nat)
    requires 2 * k < |CustomRun(true, outcomes).sent|
    ensures CustomRun(true, outcomes).sent[2 * k]
         == (if k % 2 == 0 then KeyPressed.VolUp else KeyPressed.VolDown).AsReport()
    ensures 2 * k + 1 < |CustomRun(true, outcomes).sent|
         ==> CustomRun(true, outcomes).sent[2 * k + 1] == KeyPressed.None.AsReport()
  {
    var sent := CustomRun(true, outcomes).sent;
    NthPress(true, k);
    assert Toggled(true == (k % 2 == 0)) == if k % 2 == 0 then KeyPressed.VolUp else KeyPressed.VolDown;
    CustomRunAlternates(true, outcomes, 2 * k);
    if 2 * k + 1 < |sent| {
      CustomRunAlternates(true, outcomes, 2 * k + 1);
    }
  }

  /** Press `k` of a notifier that starts with VolUp, and the release after it. */
  lemma {:induction false} NthPress(toggle: bool, k: nat)
    ensures NthNotification(toggle, 2 * k) == Toggled(toggle == (k % 2 == 0)).AsReport()
    ensures NthNotification(toggle, 2 * k + 1) == KeyPressed.None.AsReport()
    decreases k
  {
    if k > 0 {
      NthPress(!toggle, k - 1);
      assert 2 * k - 2 == 2 * (k - 1) && 2 * k + 1 - 2 == 2 * (k - 1) + 1;
    }
  }

  // ---------------------------------------------------------------------
  // GATT requests and the authentication gate

  /** The gate: the ATT error a request is rejected with, or `None` when it is accepted. */
  function AuthGate(event: GattEvent, authenticated: bool): (verdict: Option<Byte>)
    ensures verdict.Some? <==> event.Guarded() && !authenticated
    ensures verdict.Some? ==> verdict.value == INSUFFICIENT_AUTHENTICATION
  {
    match event
    case Read(_) => if authenticated then Option.None else Some(INSUFFICIENT_AUTHENTICATION)
    case Write(_, _) => if authenticated then Option.None else Some(INSUFFICIENT_AUTHENTICATION)
    case OtherRequest(_) => Option.None
  }

  /** The reply `handle_gatt_event` sends, if any, and what it returns. */
  datatype Handled = Handled(reply: Option<Reply>, outcome: Outcome)

  /** The replies in an optional reply. */
  function Sent(reply: Option<Reply>): seq<Reply> {
    if reply.Some? then [reply.value] else []
  }

  /** What `handle_gatt_event` does with a request, given the engine's answers. */
  function GattResponse(event: GattEvent, securityLevel: Option<bool>, replyBuilt: bool): (h: Handled)
    ensures h.outcome.Err? <==> event.Guarded() && securityLevel.None?
    ensures h.outcome.Err? ==> h.outcome.error == SecurityLevelUnavailable && h.reply.None?
    ensures h.outcome.Ok? ==> (h.reply.Some? <==> replyBuilt)
    ensures h.reply.Some? ==> h.reply.value.request == event
    ensures h.reply.Some? ==> (h.reply.value.Reject? <==> event.Guarded() && securityLevel == Some(false))
    ensures h.reply.Some? && h.reply.value.Reject? ==> h.reply.value.code == INSUFFICIENT_AUTHENTICATION
  {
    if event.Guarded() && securityLevel.None? then
      Handled(Option.None, Err(SecurityLevelUnavailable))
    else
      var verdict := if event.Guarded() then AuthGate(event, securityLevel.value) else Option.None;
      var reply := if verdict.Some? then Reject(event, verdict.value) else Accept(event);
      Handled(if replyBuilt then Some(reply) else Option.None, Ok)
  }

  /** `handle_gatt_event`. */
  method HandleGattEvent(conn: Connection, event: GattEvent, securityLevel: Option<bool>, replyBuilt: bool)
    returns (outcome: Outcome)
    modifies conn`replies
    ensures var h := GattResponse(event, securityLevel, replyBuilt);
      outcome == h.outcome && conn.replies == old(conn.replies) + Sent(h.reply)
  {
    // Comparing the handle with the battery-level characteristic's only logs.
    var result: Option<Byte>;
    match event {
      case Read(_) =>
        if securityLevel.None? {
          return Err(SecurityLevelUnavailable);
        }
        result := if securityLevel.value then Option.None else Some(INSUFFICIENT_AUTHENTICATION);
      case Write(_, _) =>
        if securityLevel.None? {
          return Err(SecurityLevelUnavailable);
        }
        result := if securityLevel.value then Option.None else Some(INSUFFICIENT_AUTHENTICATION);
      case OtherRequest(_) =>
        result := Option.None;
    }
    if replyBuilt {
      var reply := if result.Some? then Reject(event, result.value) else Accept(event);
      conn.SendReply(reply);
    }
    // A reply that cannot be built is logged and dropped.
    outcome := Ok;
  }

  // ---------------------------------------------------------------------
  // The per-connection event task

  /** The bond slot shared by all sessions (`bond_info`). */
  class BondSlot {
    var bond: Option<BondInformation>

    constructor ()
      ensures bond == Option.None
    {
      bond := Option.None;
    }
  }

  /** Where `gatt_events_task` is: still waiting for an event, or returned. */
  datatype TaskStatus = Waiting | Finished(outcome: Outcome)

  /** What the event task has changed so far: the bond slot, the replies sent, the confirmations made. */
  datatype TaskState = TaskState(bond: Option<BondInformation>, replies: seq<Reply>, confirmations: nat)

  /** The task's state when it stops, the events it did not consume, and its status. */
  datatype TaskRun = TaskRun(state: TaskState, rest: seq<ConnectionEvent>, status: TaskStatus)

  /** The events that make `gatt_events_task` return. */
  predicate Ends(e: ConnectionEvent)
    ensures Ends(e) <==> e.Disconnected? || (e.PassKeyConfirm? && !e.confirmAccepted)
                         || (e.Gatt? && GattResponse(e.event, e.securityLevel, e.replyBuilt).outcome.Err?)
  {
    match e
    case Disconnected(_) => true
    case PassKeyConfirm(_, accepted) => !accepted
    case Gatt(event, level, _) => event.Guarded() && level.None?
    case _ => false
  }

  /** What the task returns after an event that ends it. */
  function EndOutcome(e: ConnectionEvent): (o: Outcome)
    ensures o == Ok <==> e.Disconnected?
    ensures e.PassKeyConfirm? ==> o == Err(PassKeyConfirmFailed)
    ensures Ends(e) && e.Gatt? ==> o == GattResponse(e.event, e.securityLevel, e.replyBuilt).outcome
  {
    if e.Disconnected? then Ok
    else if e.PassKeyConfirm? then Err(PassKeyConfirmFailed)
    else Err(SecurityLevelUnavailable)
  }

  /** The task state after handling one event. */
  function StateAfter(st: TaskState, e: ConnectionEvent): (next: TaskState)
    ensures next.bond == if e.PairingComplete? then e.bond else st.bond
    ensures next.replies == st.replies + ReplyTo(e)
    ensures next.confirmations == st.confirmations + if e.PassKeyConfirm? then 1 else 0
  {
    match e
    case PassKeyConfirm(_, _) => st.(confirmations := st.confirmations + 1)
    case PairingComplete(_, bond) => st.(bond := bond)
    case Gatt(event, level, built) =>
      st.(replies := st.replies + Sent(GattResponse(event, level, built).reply))
    case _ => st
  }

  /** What `gatt_events_task` does with a sequence of events. */
  function RunEvents(st: TaskState, events: seq<ConnectionEvent>): (run: TaskRun)
    ensures |run.rest| <= |events| && run.rest == events[|events| - |run.rest|..]
    decreases |events|
  {
    if events == [] then TaskRun(st, [], Waiting)
    else if Ends(events[0]) then TaskRun(StateAfter(st, events[0]), events[1..], Finished(EndOutcome(events[0])))
    else RunEvents(StateAfter(st, events[0]), events[1..])
  }

  /** `gatt_events_task`: handle events until a disconnection or an error. */
  method GattEventsTask(conn: Connection, bondInfo: BondSlot) returns (status: TaskStatus)
    modifies conn`pending, conn`replies, conn`confirmations, bondInfo
    ensures var run := RunEvents(TaskState(old(bondInfo.bond), old(conn.replies), old(conn.confirmations)),
                                 old(conn.pending));
      status == run.status && conn.pending == run.rest && bondInfo.bond == run.state.bond
      && conn.replies == run.state.replies && conn.confirmations == run.state.confirmations
  {
    ghost var goal := RunEvents(TaskState(bondInfo.bond, conn.replies, conn.confirmations), conn.pending);
    while true
      invariant RunEvents(TaskState(bondInfo.bond, conn.replies, conn.confirmations), conn.pending) == goal
      decreases |conn.pending|
    {
      ghost var st := TaskState(bondInfo.bond, conn.replies, conn.confirmations);
      ghost var events := conn.pending;
      var next := conn.Next();
      if next.None? {
        return Waiting;
      }
      RunEventsStep(st, events);
      var end := HandleEvent(conn, bondInfo, next.value);
      if end.Some? {
        return Finished(end.value);
      }
    }
  }

  /**
   * The body of the event loop for one event: the state it leaves is
   * `StateAfter`, and it reports an outcome exactly when the event ends the task.
   */
  method HandleEvent(conn: Connection, bondInfo: BondSlot, e: ConnectionEvent) returns (end: Option<Outcome>)
    modifies conn`replies, conn`confirmations, bondInfo
    ensures TaskState(bondInfo.bond, conn.replies, conn.confirmations)
         == StateAfter(TaskState(old(bondInfo.bond), old(conn.replies), old(conn.confirmations)), e)
    ensures end.Some? <==> Ends(e)
    ensures end.Some? ==> end.value == EndOutcome(e)
  {
    end := Option.None;
    match e {
      case Disconnected(_) =>
        end := Some(Ok);
      case PassKeyDisplay(_) =>
      case PassKeyConfirm(_, accepted) =>
        conn.ConfirmPassKey();
        if !accepted {
          end := Some(Err(PassKeyConfirmFailed));
        }
      case PassKeyInput =>
      case PairingComplete(_, bond) =>
        bondInfo.bond := bond;
      case PairingFailed(_) =>
      case Gatt(event, level, built) =>
        var outcome := HandleGattEvent(conn, event, level, built);
        if outcome.Err? {
          end := Some(outcome);
        }
      case OtherEvent =>
    }
  }

  lemma RunEventsStep(st: TaskState, events: seq<ConnectionEvent>)
    requires events != []
    ensures Ends(events[0]) ==>
      RunEvents(st, events) == TaskRun(StateAfter(st, events[0]), events[1..], Finished(EndOutcome(events[0])))
    ensures !Ends(events[0]) ==> RunEvents(st, events) == RunEvents(StateAfter(st, events[0]), events[1..])
  {
  }

  /** Index of the first event that ends the task, `|events|` if none does. */
  function FirstEnd(events: seq<ConnectionEvent>): (k: nat)
    ensures k <= |events|
    ensures forall i :: 0 <= i < k ==> !Ends(events[i])
    ensures k < |events| ==> Ends(events[k])
  {
    if events == [] || Ends(events[0]) then 0 else 1 + FirstEnd(events[1..])
  }

  /** The events the task consumes: all of them up to and including the first that ends it. */
  function Processed(events: seq<ConnectionEvent>): (p: seq<ConnectionEvent>)
    ensures |p| <= |events| && p == events[..|p|]
  {
    var k := FirstEnd(events);
    if k < |events| then events[..k + 1] else events
  }

  lemma ProcessedCons(events: seq<ConnectionEvent>)
    requires events != [] && !Ends(events[0])
    ensures Processed(events) == [events[0]] + Processed(events[1..])
  {
    var rest := events[1..];
    var k := FirstEnd(rest);
    if k < |rest| {
      assert events[..k + 2] == [events[0]] + rest[..k + 1];
    } else {
      assert events == [events[0]] + rest;
    }
  }

  /**
   * The task stops at the first event that ends it and consumes nothing after
   * it; it returns `Ok` exactly when that event is a disconnection, and it is
   * still waiting only when no event ended it.
   */
  lemma {:induction false} RunEventsEnd(st: TaskState, events: seq<ConnectionEvent>)
    ensures var k := FirstEnd(events); var run := RunEvents(st, events);
      (k == |events| ==> run.status == Waiting && run.rest == [])
      && (k < |events| ==> run.status == Finished(EndOutcome(events[k])) && run.rest == events[k + 1..])
    ensures RunEvents(st, events).status == Finished(Ok)
        <==> FirstEnd(events) < |events| && events[FirstEnd(events)].Disconnected?
    decreases |events|
  {
    if events != [] && !Ends(events[0]) {
      RunEventsEnd(StateAfter(st, events[0]), events[1..]);
    }
  }

  /** The replies the task sends for a consumed event. */
  function ReplyTo(e: ConnectionEvent): seq<Reply> {
    if e.Gatt? then Sent(GattResponse(e.event, e.securityLevel, e.replyBuilt).reply) else []
  }

  function RepliesTo(events: seq<ConnectionEvent>): seq<Reply> {
    if events == [] then [] else ReplyTo(events[0]) + RepliesTo(events[1..])
  }

  function ConfirmationsIn(events: seq<ConnectionEvent>): nat {
    if events == [] then 0
    else (if events[0].PassKeyConfirm? then 1 else 0) + ConfirmationsIn(events[1..])
  }

  /** The task replies to the consumed requests, in order, as `handle_gatt_event` decides for each. */
  lemma {:induction false} RunEventsReplies(st: TaskState, events: seq<ConnectionEvent>)
    ensures RunEvents(st, events).state.replies == st.replies + RepliesTo(Processed(events))
    decreases |events|
  {
    if events == [] {
      assert RepliesTo(Processed(events)) == [];
      assert st.replies + [] == st.replies;
    } else {
      var e := events[0];
      var replies := RunEvents(st, events).state.replies;
      assert StateAfter(st, e).replies == st.replies + ReplyTo(e);
      RunEventsStep(st, events);
      if Ends(e) {
        assert replies == st.replies + ReplyTo(e);
        assert Processed(events) == [e];
        assert RepliesTo([e]) == ReplyTo(e) + [];
        assert ReplyTo(e) + [] == ReplyTo(e);
      } else {
        var later := RepliesTo(Processed(events[1..]));
        ProcessedCons(events);
        RunEventsReplies(StateAfter(st, e), events[1..]);
        assert replies == (st.replies + ReplyTo(e)) + later;
        assert RepliesTo(Processed(events)) == ReplyTo(e) + later;
        Associative(st.replies, ReplyTo(e), later);
      }
    }
  }

  /**
   * The task calls `pass_key_confirm` once per consumed `PassKeyConfirm`,
   * the failing call that ends the task included.
   */
  lemma {:induction false} RunEventsConfirmations(st: TaskState, events: seq<ConnectionEvent>)
    ensures RunEvents(st, events).state.confirmations == st.confirmations + ConfirmationsIn(Processed(events))
    decreases |events|
  {
    if events == [] {
    } else if Ends(events[0]) {
      assert Processed(events) == [events[0]];
    } else {
      var e := events[0];
      ProcessedCons(events);
      RunEventsConfirmations(StateAfter(st, e), events[1..]);
    }
  }

  /** No event of `p` from index `j` on is a `PairingComplete`. */
  predicate NoPairingFrom(p: seq<ConnectionEvent>, j: nat) {
    forall i :: j <= i < |p| ==> !p[i].PairingComplete?
  }

  /** The bond slot is left alone when no consumed event is a `PairingComplete`. */
  lemma {:induction false} RunEventsBondKept(st: TaskState, events: seq<ConnectionEvent>)
    requires NoPairingFrom(Processed(events), 0)
    ensures RunEvents(st, events).state.bond == st.bond
    decreases |events|
  {
    if events != [] && !Ends(events[0]) {
      var p := Processed(events);
      var q := Processed(events[1..]);
      ProcessedCons(events);
      assert p[0] == events[0];
      assert NoPairingFrom(q, 0) by {
        forall i | 0 <= i < |q| ensures !q[i].PairingComplete? {
          assert q[i] == p[i + 1];
        }
      }
      RunEventsBondKept(StateAfter(st, events[0]), events[1..]);
    }
  }

  /** The bond slot ends up as the bond of the last consumed `PairingComplete`, absent or not. */
  lemma {:induction false} RunEventsBondLast(st: TaskState, events: seq<ConnectionEvent>, j: nat)
    requires j < |Processed(events)| && Processed(events)[j].PairingComplete?
    requires NoPairingFrom(Processed(events), j + 1)
    ensures RunEvents(st, events).state.bond == Processed(events)[j].bond
    decreases |events|
  {
    var p := Processed(events);
    assert p[0] == events[0];
    assert FirstEnd(events) > 0;
    var q := Processed(events[1..]);
    ProcessedCons(events);
    if j == 0 {
      assert NoPairingFrom(q, 0) by {
        forall i | 0 <= i < |q| ensures !q[i].PairingComplete? {
          assert q[i] == p[i + 1];
        }
      }
      RunEventsBondKept(StateAfter(st, events[0]), events[1..]);
    } else {
      assert q[j - 1] == p[j];
      assert NoPairingFrom(q, j) by {
        forall i | j <= i < |q| ensures !q[i].PairingComplete? {
          assert q[i] == p[i + 1];
        }
      }
      RunEventsBondLast(StateAfter(st, events[0]), events[1..], j - 1);
    }
  }

  /** A sequence with a `PairingComplete` has a last one. */
  lemma {:induction false} LastPairing(p: seq<ConnectionEvent>) returns (j: nat)
    requires !NoPairingFrom(p, 0)
    ensures j < |p| && p[j].PairingComplete? && NoPairingFrom(p, j + 1)
    decreases |p|
  {
    if p[|p| - 1].PairingComplete? {
      j := |p| - 1;
    } else {
      var init := p[..|p| - 1];
      assert !NoPairingFrom(init, 0) by {
        var i :| 0 <= i < |p| && p[i].PairingComplete?;
        assert init[i] == p[i];
      }
      j := LastPairing(init);
      assert init[j] == p[j];
      forall i | j + 1 <= i < |p| ensures !p[i].PairingComplete? {
        if i < |p| - 1 {
          assert init[i] == p[i];
        }
      }
    }
  }

  // ---------------------------------------------------------------------
  // The session loop

  /** What the engine answers during one session. */
  datatype SessionInput = SessionInput(events: seq<ConnectionEvent>, notifyOutcomes: seq<bool>)

  /** What the firmware does during one session. */
  datatype SessionTrace = SessionTrace(
    bondable: bool,
    eventTask: TaskStatus,
    replies: seq<Reply>,
    confirmations: nat,
    notifications: seq<InputReport>)

  /** The bond slot after one session entered with `bond`. */
  function SessionBond(bond: Option<BondInformation>, input: SessionInput): Option<BondInformation> {
    RunEvents(TaskState(bond, [], 0), input.events).state.bond
  }

  /** Where the slot left by a session comes from: the slot it was entered with, or a pairing of that session. */
  lemma SessionBondOrigin(bond: Option<BondInformation>, input: SessionInput)
    ensures var b := SessionBond(bond, input);
      (NoPairingFrom(Processed(input.events), 0) ==> b == bond)
      && (b == bond || exists j :: 0 <= j < |input.events| && input.events[j].PairingComplete? && b == input.events[j].bond)
  {
    var st := TaskState(bond, [], 0);
    var p := Processed(input.events);
    if NoPairingFrom(p, 0) {
      RunEventsBondKept(st, input.events);
    } else {
      var j := LastPairing(p);
      RunEventsBondLast(st, input.events, j);
      assert p[j] == input.events[j];
    }
  }

  /** The bond slot after the first `n` of `sessions`, entered with `bond`. */
  function BondAfter(bond: Option<BondInformation>, sessions: seq<SessionInput>, n: nat): Option<BondInformation>
    requires n <= |sessions|
    decreases n
  {
    if n == 0 then bond else BondAfter(SessionBond(bond, sessions[0]), sessions[1..], n - 1)
  }

  /** One session on a fresh connection, entered with bond slot `bond`. */
  function Session(bond: Option<BondInformation>, input: SessionInput): (t: SessionTrace)
    ensures t.bondable <==> bond.None?
    ensures |t.notifications| >= 1 && t.notifications[0] == KeyPressed.VolUp.AsReport()
  {
    var run := RunEvents(TaskState(bond, [], 0), input.events);
    SessionTrace(bond.None?, run.status, run.state.replies, run.state.confirmations,
                 CustomRun(true, input.notifyOutcomes).sent)
  }

  /**
   * One accepted connection: mark it bondable exactly when no bond is stored,
   * then run the event task and the notifier.
   */
  method Serve(input: SessionInput, bondInfo: BondSlot) returns (trace: SessionTrace)
    modifies bondInfo
    ensures trace == Session(old(bondInfo.bond), input)
    ensures bondInfo.bond == SessionBond(old(bondInfo.bond), input)
  {
    var conn := new Connection(input.events, input.notifyOutcomes);
    conn.SetBondable(bondInfo.bond.None?);
    var status := GattEventsTask(conn, bondInfo);
    CustomTask(conn);
    EmptyPrefix(CustomRun(true, input.notifyOutcomes).sent);
    trace := SessionTrace(conn.bondable, status, conn.replies, conn.confirmations, conn.notifications);
  }

  /** The traces of a sequence of sessions entered with `bond`, the slot carrying over from one to the next. */
  function ServeFrom(bond: Option<BondInformation>, sessions: seq<SessionInput>): (traces: seq<SessionTrace>)
    ensures |traces| == |sessions|
    decreases |sessions|
  {
    if sessions == [] then []
    else [Session(bond, sessions[0])] + ServeFrom(SessionBond(bond, sessions[0]), sessions[1..])
  }

  /** The first trace of a non-empty run, followed by the traces from the slot it leaves. */
  lemma ServeFromUnfold(bond: Option<BondInformation>, sessions: seq<SessionInput>)
    requires sessions != []
    ensures ServeFrom(bond, sessions)
         == [Session(bond, sessions[0])] + ServeFrom(SessionBond(bond, sessions[0]), sessions[1..])
  {
  }

  /**
   * The advertise-and-serve loop of `run_bluetooth`, over a finite number of
   * accepted connections. The bond slot starts empty.
   */
  method RunBluetooth(sessions: seq<SessionInput>) returns (traces: seq<SessionTrace>)
    ensures traces == ServeFrom(Option.None, sessions)
  {
    var bondInfo := new BondSlot();
    traces := [];
    for i := 0 to |sessions|
      invariant traces + ServeFrom(bondInfo.bond, sessions[i..]) == ServeFrom(Option.None, sessions)
    {
      // `advertise` yields the connection; an advertising error halts the device.
      ghost var before := bondInfo.bond;
      var trace := Serve(sessions[i], bondInfo);
      assert sessions[i..][1..] == sessions[i + 1..];
      ServeFromUnfold(before, sessions[i..]);
      traces := traces + [trace];
    }
  }

  /** Session `i` is entered with the bond left by the sessions before it, and is bondable exactly when that slot is empty. */
  lemma {:induction false} ServeFromAt(bond: Option<BondInformation>, sessions: seq<SessionInput>, i: nat)
    requires i < |sessions|
    ensures ServeFrom(bond, sessions)[i] == Session(BondAfter(bond, sessions, i), sessions[i])
    ensures ServeFrom(bond, sessions)[i].bondable == BondAfter(bond, sessions, i).None?
    decreases i
  {
    if i > 0 {
      var next := SessionBond(bond, sessions[0]);
      assert ServeFrom(bond, sessions)[i] == ServeFrom(next, sessions[1..])[i - 1];
      ServeFromAt(next, sessions[1..], i - 1);
    }
  }

  /** No consumed or unconsumed event of the session reports a stored bond. */
  predicate StoresNoBond(input: SessionInput) {
    forall j :: 0 <= j < |input.events| ==>
      !(input.events[j].PairingComplete? && input.events[j].bond.Some?)
  }

  /** A session entered with the slot empty leaves it empty when none of its events stored a bond. */
  lemma SessionKeepsNoBond(input: SessionInput)
    requires StoresNoBond(input)
    ensures SessionBond(Option.None, input) == Option.None
  {
    SessionBondOrigin(Option.None, input);
  }

  /** With no bond ever reported by a pairing, the slot stays empty after any number of sessions. */
  lemma {:induction false} NoBondStaysEmpty(sessions: seq<SessionInput>, n: nat)
    requires forall i :: 0 <= i < |sessions| ==> StoresNoBond(sessions[i])
    requires n <= |sessions|
    ensures BondAfter(Option.None, sessions, n) == Option.None
    decreases n
  {
    if n > 0 {
      SessionKeepsNoBond(sessions[0]);
      NoBondStaysEmpty(sessions[1..], n - 1);
    }
  }

  /** With no bond ever reported by a pairing, every session is bondable. */
  lemma NoBondKeepsBondable(sessions: seq<SessionInput>, i: nat)
    requires forall k :: 0 <= k < |sessions| ==> StoresNoBond(sessions[k])
    requires i < |sessions|
    ensures ServeFrom(Option.None, sessions)[i].bondable
  {
    ServeFromAt(Option.None, sessions, i);
    NoBondStaysEmpty(sessions, i);
  }

  /** A session whose last completed pairing stored a bond leaves that bond, so the session after it is not bondable. */
  lemma PairedSessionStoresBond(bond: Option<BondInformation>, s: SessionInput, next: SessionInput, j: nat)
    requires j < |Processed(s.events)| && Processed(s.events)[j].PairingComplete?
    requires Processed(s.events)[j].bond.Some? && NoPairingFrom(Processed(s.events), j + 1)
    ensures SessionBond(bond, s) == Processed(s.events)[j].bond
    ensures !ServeFrom(bond, [s, next])[1].bondable
  {
    RunEventsBondLast(TaskState(bond, [], 0), s.events, j);
    assert [s, next][1..] == [next];
  }
}
