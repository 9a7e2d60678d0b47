/** The terminal interface's reducers (crates/tui/src/state.rs) as functions of the
    state, and what holds over every run of events, outcomes and key presses. */
module TuiReducers {
  import opened Prelude

  const NOTIFICATION_CAP: nat := 200
  const LOG_CAP: nat := 1000

  datatype Tab = Devices | Transfers | Notifications | Logs | Help

  datatype DeviceEntry = DeviceEntry(id: string, name: string, kind: string, paired: bool, state: string)
  datatype PluginRow = PluginRow(name: string, title: string, enabled: bool)
  datatype TransferEntry = TransferEntry(name: string, done: nat, total: nat)
  datatype NotifRow = NotifRow(id: string, app: string, title: string, body: string)

  datatype Event =
    | DeviceFound(id: string, name: string)
    | DeviceLost(id: string)
    | DeviceStateChanged(id: string, state: string)
    | TransferAdded(id: string, fileName: string, total: nat)
    | TransferProgress(id: string, done: nat, total: nat)
    | TransferFinished(id: string)
    | NotificationReceived(row: NotifRow)
    | LogRecord(level: string, msg: string)
    | OtherEvent

  datatype Outcome =
    | FreshDevices(entries: seq<DeviceEntry>)
    | FreshNotifications(rows: seq<NotifRow>)
    | FreshPlugins(device: string, plugins: seq<PluginRow>)
    | Flash

  datatype Code =
    Char(ch: char) | TabKey | BackTab | Down | Up | Home | End | Enter | Esc | Backspace | OtherKey

  datatype Key = Key(press: bool, ctrl: bool, code: Code)

  datatype Action =
    | Quit
    | Pair(device: string)
    | Unpair(device: string)
    | LoadPlugins(device: string)
    | TogglePlugin(device: string, plugin: string, enabled: bool)
    | ReplyToNotification(notification: string, text: string)

  datatype Detail = Detail(open: bool, device: Option<string>, plugins: seq<PluginRow>)
  datatype Reply = Reply(open: bool, draft: string, target: Option<string>)
  datatype Cursors = Cursors(device: nat, plugin: nat, transfer: nat, notification: nat)

  datatype Ui = Ui(
    tab: Tab, helpOverlay: bool, cursors: Cursors,
    devices: seq<DeviceEntry>, detail: Detail, transfers: map<string, TransferEntry>,
    notifications: seq<NotifRow>, reply: Reply, logs: seq<string>)

  /** The state after a key press, and the action it asks for. */
  datatype Pressed = Pressed(ui: Ui, action: Option<Action>)

  // ---- pieces ---------------------------------------------------------------------

  /** The tabs in display order. */
  function TabAt(i: nat): Tab {
    if i == 0 then Devices else if i == 1 then Transfers else if i == 2 then Notifications else if i == 3 then Logs else Help
  }

  function Index(t: Tab): (i: nat)
    ensures i < 5 && TabAt(i) == t
  {
    match t case Devices => 0 case Transfers => 1 case Notifications => 2 case Logs => 3 case Help => 4
  }

  function NextTab(t: Tab): Tab {
    TabAt(if Index(t) == 4 then 0 else Index(t) + 1)
  }

  function PreviousTab(t: Tab): Tab {
    TabAt(if Index(t) == 0 then 4 else Index(t) - 1)
  }

  lemma TabsCycle(t: Tab)
    ensures PreviousTab(NextTab(t)) == t && NextTab(PreviousTab(t)) == t
    ensures NextTab(NextTab(NextTab(NextTab(NextTab(t))))) == t
  {
  }

  function ClampAt(cursor: nat, len: nat): nat {
    if len == 0 then 0 else if cursor <= len - 1 then cursor else len - 1
  }

  function Stepped(cursor: nat, down: bool, len: nat): nat {
    if len == 0 then 0
    else if down then (if cursor < len - 1 then cursor + 1 else len - 1)
    else if cursor == 0 then 0 else cursor - 1
  }

  function Last<T>(n: nat, s: seq<T>): (t: seq<T>)
    ensures |t| <= n
  {
    if |s| > n then s[|s| - n..] else s
  }

  /** A capped buffer forgets nothing the cap would have kept. */
  lemma LastLast<T>(n: nat, s: seq<T>, x: T)
    ensures Last(n, Last(n, s) + [x]) == Last(n, s + [x])
  {
    if |s| > n {
      assert (s + [x])[|s| + 1 - n..] == (s[|s| - n..] + [x])[1..];
    }
  }

  function Padded(level: string): string
    decreases 5 - |level|
  {
    if |level| >= 5 then level else Padded(level + " ")
  }

  function LogLine(level: string, msg: string): string {
    "[" + Padded(level) + "] " + msg
  }

  /** The first device with that id, or the length. */
  function FindDevice(devices: seq<DeviceEntry>, id: string, from: nat): (i: nat)
    requires from <= |devices|
    ensures from <= i <= |devices|
    ensures i < |devices| ==> devices[i].id == id
    ensures forall k :: from <= k < i ==> devices[k].id != id
    decreases |devices| - from
  {
    if from == |devices| || devices[from].id == id then from else FindDevice(devices, id, from + 1)
  }

  function Upsert(devices: seq<DeviceEntry>, entry: DeviceEntry): seq<DeviceEntry> {
    var i := FindDevice(devices, entry.id, 0);
    if i < |devices| then devices[i := entry] else devices + [entry]
  }

  function Without(devices: seq<DeviceEntry>, id: string): (kept: seq<DeviceEntry>)
    ensures forall d :: d in kept <==> d in devices && d.id != id
  {
    if devices == [] then []
    else
      var n := |devices| - 1;
      assert devices == devices[..n] + [devices[n]];
      Without(devices[..n], id) + if devices[n].id == id then [] else [devices[n]]
  }

  function WithState(devices: seq<DeviceEntry>, id: string, state: string): seq<DeviceEntry> {
    var i := FindDevice(devices, id, 0);
    if i < |devices| then devices[i := devices[i].(state := state, paired := state == "paired")] else devices
  }

  /** Unicode White_Space. */
  predicate White(c: char) {
    var n := c as int;
    || 9 <= n <= 13 || n == 0x20 || n == 0x85 || n == 0xA0 || n == 0x1680 || 0x2000 <= n <= 0x200A
    || n == 0x2028 || n == 0x2029 || n == 0x202F || n == 0x205F || n == 0x3000
  }

  function Trim(s: string): (t: string)
    ensures t != "" ==> !White(t[0]) && !White(t[|t| - 1])
    ensures t == "" <==> forall i :: 0 <= i < |s| ==> White(s[i])
  {
    if s == "" then ""
    else if White(s[0]) then Trim(s[1..])
    else if White(s[|s| - 1]) then Trim(s[..|s| - 1])
    else s
  }

  // ---- the reducers ------------------------------------------------------------------

  function Clamped(u: Ui): Ui {
    u.(cursors := Cursors(
      ClampAt(u.cursors.device, |u.devices|), ClampAt(u.cursors.plugin, |u.detail.plugins|),
      ClampAt(u.cursors.transfer, |u.transfers|), ClampAt(u.cursors.notification, |u.notifications|)))
  }

  const CLOSED: Detail := Detail(false, None, [])
  const NO_REPLY: Reply := Reply(false, "", None)

  function DetailClosed(u: Ui): Ui {
    u.(detail := CLOSED, cursors := u.cursors.(plugin := 0))
  }

  function EventDevices(devices: seq<DeviceEntry>, e: Event): seq<DeviceEntry> {
    match e
    case DeviceFound(id, name) => Upsert(devices, DeviceEntry(id, name, "unknown", false, "found"))
    case DeviceLost(id) => Without(devices, id)
    case DeviceStateChanged(id, state) => WithState(devices, id, state)
    case _ => devices
  }

  function EventTransfers(transfers: map<string, TransferEntry>, e: Event): map<string, TransferEntry> {
    match e
    case TransferAdded(id, fileName, total) => transfers[id := TransferEntry(fileName, 0, total)]
    case TransferProgress(id, done, total) =>
      transfers[id := TransferEntry(if id in transfers then transfers[id].name else "", done, total)]
    case TransferFinished(id) =>
      if id in transfers && transfers[id].total > 0 then transfers[id := transfers[id].(done := transfers[id].total)]
      else transfers
    case _ => transfers
  }

  function EventNotifications(rows: seq<NotifRow>, e: Event): seq<NotifRow> {
    if e.NotificationReceived? then Last(NOTIFICATION_CAP, rows + [e.row]) else rows
  }

  function EventLogs(logs: seq<string>, e: Event): seq<string> {
    if e.LogRecord? then Last(LOG_CAP, logs + [LogLine(e.level, e.msg)]) else logs
  }

  function Absorbed(u: Ui, e: Event): Ui {
    var v := u.(devices := EventDevices(u.devices, e), transfers := EventTransfers(u.transfers, e),
                notifications := EventNotifications(u.notifications, e), logs := EventLogs(u.logs, e));
    if e.DeviceLost? && u.detail.device == Some(e.id) then DetailClosed(v) else v
  }

  function OnEvent(u: Ui, e: Event): Ui {
    Clamped(Absorbed(u, e))
  }

  function OnOutcome(u: Ui, o: Outcome): Ui {
    Clamped(
      match o
      case FreshDevices(entries) => u.(devices := entries)
      case FreshNotifications(rows) => u.(notifications := Last(NOTIFICATION_CAP, rows))
      case FreshPlugins(device, plugins) =>
        if u.detail.device == Some(device) then u.(detail := u.detail.(plugins := plugins)) else u
      case Flash => u)
  }

  function SelectedDevice(u: Ui): Option<string> {
    if u.cursors.device < |u.devices| then Some(u.devices[u.cursors.device].id) else None
  }

  function SelectedNotification(u: Ui): Option<string> {
    if u.cursors.notification < |u.notifications| then Some(u.notifications[u.cursors.notification].id) else None
  }

  /** The open detail panel takes the focus from the device table. */
  function FocusedLen(u: Ui): nat {
    match u.tab
    case Devices => if u.detail.open then |u.detail.plugins| else |u.devices|
    case Transfers => |u.transfers|
    case Notifications => |u.notifications|
    case Logs => 0
    case Help => 0
  }

  function FocusedCursor(u: Ui): nat {
    match u.tab
    case Devices => if u.detail.open then u.cursors.plugin else u.cursors.device
    case Transfers => u.cursors.transfer
    case Notifications => u.cursors.notification
    case Logs => 0
    case Help => 0
  }

  function FocusedAt(u: Ui, cursor: nat): Cursors {
    match u.tab
    case Devices => if u.detail.open then u.cursors.(plugin := cursor) else u.cursors.(device := cursor)
    case Transfers => u.cursors.(transfer := cursor)
    case Notifications => u.cursors.(notification := cursor)
    case Logs => u.cursors
    case Help => u.cursors
  }

  function Moved(u: Ui, down: bool): Ui {
    if FocusedLen(u) == 0 then u else u.(cursors := FocusedAt(u, Stepped(FocusedCursor(u), down, FocusedLen(u))))
  }

  function Jumped(u: Ui, last: bool): Ui {
    if FocusedLen(u) == 0 then u else u.(cursors := FocusedAt(u, if last then FocusedLen(u) - 1 else 0))
  }

  function DetailToggled(u: Ui): Pressed {
    if u.tab != Devices then Pressed(u, None)
    else if u.detail.open then Pressed(DetailClosed(u), None)
    else match SelectedDevice(u)
      case Some(id) => Pressed(DetailClosed(u).(detail := Detail(true, Some(id), [])), Some(LoadPlugins(id)))
      case None => Pressed(u, None)
  }

  function ReplyOpened(u: Ui): Ui {
    if u.tab == Notifications && SelectedNotification(u).Some? then
      u.(reply := Reply(true, "", SelectedNotification(u)))
    else u
  }

  function Edited(draft: string, code: Code): string {
    match code
    case Char(ch) => draft + [ch]
    case Backspace => if draft == "" then "" else draft[..|draft| - 1]
    case _ => draft
  }

  function Submitted(r: Reply): Option<Action> {
    var text := Trim(r.draft);
    if r.target.Some? && text != "" then Some(ReplyToNotification(r.target.value, text)) else None
  }

  function OnReplyKey(u: Ui, code: Code): Pressed {
    match code
    case Enter => Pressed(u.(reply := NO_REPLY), Submitted(u.reply))
    case Esc => Pressed(u.(reply := NO_REPLY), None)
    case _ => Pressed(u.(reply := u.reply.(draft := Edited(u.reply.draft, code))), None)
  }

  function Toggle(u: Ui): Option<Action> {
    if u.tab == Devices && u.detail.open && u.cursors.plugin < |u.detail.plugins| && u.detail.device.Some? then
      var row := u.detail.plugins[u.cursors.plugin];
      Some(TogglePlugin(u.detail.device.value, row.name, !row.enabled))
    else None
  }

  function OnChar(u: Ui, ch: char): Pressed {
    if ch == 'q' then Pressed(u, Some(Quit))
    else if ch == '?' then Pressed(u.(helpOverlay := !u.helpOverlay), None)
    else if ch == 'j' then Pressed(Moved(u, true), None)
    else if ch == 'k' then Pressed(Moved(u, false), None)
    else if ch == 'g' then Pressed(Jumped(u, false), None)
    else if ch == 'G' then Pressed(Jumped(u, true), None)
    else if ch == 'p' then
      Pressed(u, if u.tab == Devices && SelectedDevice(u).Some? then Some(Pair(SelectedDevice(u).value)) else None)
    else if ch == 'u' then
      Pressed(u, if u.tab == Devices && SelectedDevice(u).Some? then Some(Unpair(SelectedDevice(u).value)) else None)
    else if ch == 'r' then Pressed(ReplyOpened(u), None)
    else if ch == ' ' then Pressed(u, Toggle(u))
    else Pressed(u, None)
  }

  function OnNamedKey(u: Ui, code: Code): Pressed {
    match code
    case TabKey => Pressed(Clamped(u.(tab := NextTab(u.tab))), None)
    case BackTab => Pressed(Clamped(u.(tab := PreviousTab(u.tab))), None)
    case Down => Pressed(Moved(u, true), None)
    case Up => Pressed(Moved(u, false), None)
    case Home => Pressed(Jumped(u, false), None)
    case End => Pressed(Jumped(u, true), None)
    case Enter => DetailToggled(u)
    case Esc =>
      Pressed(if u.helpOverlay then u.(helpOverlay := false) else if u.detail.open then DetailClosed(u) else u, None)
    case _ => Pressed(u, None)
  }

  function OnKey(u: Ui, key: Key): Pressed {
    if !key.press then Pressed(u, None)
    else if key.ctrl then Pressed(u, if key.code == Char('c') then Some(Quit) else None)
    else if u.reply.open then OnReplyKey(u, key.code)
    else if key.code.Char? then OnChar(u, key.code.ch)
    else OnNamedKey(u, key.code)
  }

  // ---- runs -------------------------------------------------------------------------------

  datatype Input = Pushed(event: Event) | Answered(outcome: Outcome) | Typed(key: Key)

  function Fresh(): Ui {
    Ui(Devices, false, Cursors(0, 0, 0, 0), [], CLOSED, map[], [], NO_REPLY, [])
  }

  function Next(u: Ui, input: Input): Pressed {
    match input
    case Pushed(e) => Pressed(OnEvent(u, e), None)
    case Answered(o) => Pressed(OnOutcome(u, o), None)
    case Typed(key) => OnKey(u, key)
  }

  function Run(inputs: seq<Input>): Ui {
    if inputs == [] then Fresh() else Next(Run(inputs[..|inputs| - 1]), inputs[|inputs| - 1]).ui
  }

  predicate InRange(cursor: nat, len: nat) {
    cursor < len || cursor == 0
  }

  predicate CursorsOk(u: Ui) {
    && InRange(u.cursors.device, |u.devices|) && InRange(u.cursors.plugin, |u.detail.plugins|)
    && InRange(u.cursors.transfer, |u.transfers|) && InRange(u.cursors.notification, |u.notifications|)
  }

  predicate DetailOk(d: Detail) {
    (d.open <==> d.device.Some?) && (!d.open ==> d == CLOSED)
  }

  predicate ReplyOk(r: Reply) {
    (r.open <==> r.target.Some?) && (!r.open ==> r == NO_REPLY)
  }

  predicate Inv(u: Ui) {
    CursorsOk(u) && DetailOk(u.detail) && ReplyOk(u.reply) && |u.notifications| <= NOTIFICATION_CAP && |u.logs| <= LOG_CAP
  }

  /** What a key press keeps: the invariant, and the contents of both buffers. */
  predicate Kept(u: Ui, v: Ui) {
    (Inv(u) ==> Inv(v)) && v.logs == u.logs && v.notifications == u.notifications
  }

  lemma MovedKeeps(u: Ui, down: bool)
    ensures Kept(u, Moved(u, down))
  {
  }

  lemma JumpedKeeps(u: Ui, last: bool)
    ensures Kept(u, Jumped(u, last))
  {
  }

  lemma CharKeeps(u: Ui, ch: char)
    ensures Kept(u, OnChar(u, ch).ui)
  {
    if ch == 'j' || ch == 'k' {
      MovedKeeps(u, ch == 'j');
    } else if ch == 'g' || ch == 'G' {
      JumpedKeeps(u, ch == 'G');
    }
  }

  lemma ReplyKeyKeeps(u: Ui, code: Code)
    requires u.reply.open
    ensures Kept(u, OnReplyKey(u, code).ui)
  {
  }

  lemma NamedKeyKeeps(u: Ui, code: Code)
    ensures Kept(u, OnNamedKey(u, code).ui)
  {
    if code.Down? || code.Up? {
      MovedKeeps(u, code.Down?);
    } else if code.Home? || code.End? {
      JumpedKeeps(u, code.End?);
    }
  }

  lemma KeyKeeps(u: Ui, key: Key)
    ensures Kept(u, OnKey(u, key).ui)
  {
    if key.press && !key.ctrl {
      if u.reply.open {
        ReplyKeyKeeps(u, key.code);
      } else if key.code.Char? {
        CharKeeps(u, key.code.ch);
      } else {
        NamedKeyKeeps(u, key.code);
      }
    }
  }

  lemma EventKeeps(u: Ui, e: Event)
    requires Inv(u)
    ensures Inv(OnEvent(u, e))
  {
  }

  lemma OutcomeKeeps(u: Ui, o: Outcome)
    requires Inv(u)
    ensures Inv(OnOutcome(u, o))
  {
  }

  /** In every reachable state each cursor is in its list, or zero on an empty one,
      and the flags of the detail panel and the reply modal match their targets. */
  lemma {:induction false} RunKeeps(inputs: seq<Input>)
    ensures Inv(Run(inputs))
  {
    if inputs != [] {
      var u, input := Run(inputs[..|inputs| - 1]), inputs[|inputs| - 1];
      RunKeeps(inputs[..|inputs| - 1]);
      match input {
        case Pushed(e) => EventKeeps(u, e);
        case Answered(o) => OutcomeKeeps(u, o);
        case Typed(key) => KeyKeeps(u, key);
      }
    }
  }

  // ---- the buffers -----------------------------------------------------------------------

  /** Every log line ever pushed. */
  function AllLines(inputs: seq<Input>): seq<string> {
    if inputs == [] then []
    else
      var input := inputs[|inputs| - 1];
      AllLines(inputs[..|inputs| - 1])
      + if input.Pushed? && input.event.LogRecord? then [LogLine(input.event.level, input.event.msg)] else []
  }

  /** The latest snapshot, if any, and every arrival since. */
  function Feed(inputs: seq<Input>): seq<NotifRow> {
    if inputs == [] then []
    else
      var input, before := inputs[|inputs| - 1], Feed(inputs[..|inputs| - 1]);
      if input.Answered? && input.outcome.FreshNotifications? then input.outcome.rows
      else if input.Pushed? && input.event.NotificationReceived? then before + [input.event.row]
      else before
  }

  lemma {:induction false} LogsAreTheLast(inputs: seq<Input>)
    ensures Run(inputs).logs == Last(1000, AllLines(inputs))
  {
    if inputs != [] {
      var before, input := inputs[..|inputs| - 1], inputs[|inputs| - 1];
      LogsAreTheLast(before);
      match input {
        case Pushed(e) =>
          if e.LogRecord? {
            LastLast(LOG_CAP, AllLines(before), LogLine(e.level, e.msg));
          } else {
            assert AllLines(before) + [] == AllLines(before);
          }
        case Answered(_) => assert AllLines(before) + [] == AllLines(before);
        case Typed(key) =>
          KeyKeeps(Run(before), key);
          assert AllLines(before) + [] == AllLines(before);
      }
    }
  }

  lemma {:induction false} NotificationsAreTheLast(inputs: seq<Input>)
    ensures Run(inputs).notifications == Last(200, Feed(inputs))
  {
    if inputs != [] {
      var before, input := inputs[..|inputs| - 1], inputs[|inputs| - 1];
      NotificationsAreTheLast(before);
      match input {
        case Pushed(e) =>
          if e.NotificationReceived? {
            LastLast(NOTIFICATION_CAP, Feed(before), e.row);
          }
        case Answered(_) =>
        case Typed(key) => KeyKeeps(Run(before), key);
      }
    }
  }

  // ---- the reply modal -------------------------------------------------------------------

  predicate PlainPress(input: Input) {
    input.Typed? && input.key.press && !input.key.ctrl
  }

  /** What the keys from the i-th input on have typed. */
  function TypedSince(inputs: seq<Input>, i: nat): string
    requires i <= |inputs|
    decreases |inputs|
  {
    if i == |inputs| then ""
    else
      var n := |inputs| - 1;
      var draft := TypedSince(inputs[..n], i);
      if PlainPress(inputs[n]) then Edited(draft, inputs[n].key.code) else draft
  }

  /** The i-th input opens the modal on the notification then under the cursor. */
  predicate Opens(inputs: seq<Input>, i: nat, id: string) {
    && i < |inputs| && PlainPress(inputs[i]) && inputs[i].key.code == Char('r')
    && var u := Run(inputs[..i]);
       !u.reply.open && u.tab == Notifications && SelectedNotification(u) == Some(id)
  }

  /** An open modal still has the target and the text it was given. */
  predicate Since(inputs: seq<Input>, i: nat) {
    var u := Run(inputs);
    && u.reply.target.Some? && Opens(inputs, i, u.reply.target.value)
    && u.reply.draft == TypedSince(inputs, i + 1)
  }

  lemma OpensEarlier(inputs: seq<Input>, n: nat, i: nat, id: string)
    requires n <= |inputs| && Opens(inputs[..n], i, id)
    ensures Opens(inputs, i, id)
  {
    assert inputs[..n][..i] == inputs[..i];
  }

  /** The modal after one input: only plain key presses touch it. */
  function ReplyAfter(u: Ui, input: Input): Reply {
    if !PlainPress(input) then u.reply
    else if u.reply.open then
      if input.key.code.Enter? || input.key.code.Esc? then NO_REPLY
      else u.reply.(draft := Edited(u.reply.draft, input.key.code))
    else if input.key.code == Char('r') && u.tab == Notifications && SelectedNotification(u).Some? then
      Reply(true, "", SelectedNotification(u))
    else u.reply
  }

  lemma CharReply(u: Ui, ch: char)
    ensures OnChar(u, ch).ui.reply == if ch == 'r' then ReplyOpened(u).reply else u.reply
  {
  }

  lemma NamedKeyReply(u: Ui, code: Code)
    ensures OnNamedKey(u, code).ui.reply == u.reply
  {
  }

  lemma ReplyStep(u: Ui, input: Input)
    ensures Next(u, input).ui.reply == ReplyAfter(u, input)
  {
    if PlainPress(input) && !u.reply.open {
      if input.key.code.Char? {
        CharReply(u, input.key.code.ch);
      } else {
        NamedKeyReply(u, input.key.code);
      }
    }
  }

  lemma {:induction false} OpenSince(inputs: seq<Input>) returns (i: nat)
    requires Run(inputs).reply.open
    ensures i < |inputs| && Since(inputs, i)
  {
    var n := |inputs| - 1;
    var u := Run(inputs[..n]);
    RunKeeps(inputs[..n]);
    ReplyStep(u, inputs[n]);
    if u.reply.open {
      i := OpenSince(inputs[..n]);
      OpensEarlier(inputs, n, i, u.reply.target.value);
    } else {
      i := n;
    }
  }

  /** A reply goes to the notification selected when its modal opened, with the
      trimmed text typed since, whatever arrived in between. */
  lemma ReplyReachesItsNotification(inputs: seq<Input>, input: Input) returns (i: nat)
    requires Next(Run(inputs), input).action.Some? && Next(Run(inputs), input).action.value.ReplyToNotification?
    ensures var reply := Next(Run(inputs), input).action.value;
      && i < |inputs| && Opens(inputs, i, reply.notification)
      && reply.text == Trim(TypedSince(inputs, i + 1)) && reply.text != ""
  {
    i := OpenSince(inputs);
  }
}
