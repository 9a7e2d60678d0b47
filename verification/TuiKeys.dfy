/** What the terminal interface does with each key and each event, stated by effect: the
    actions asked for, the cursor that moves, and what happens to the lists. */
module TuiKeys {
  import opened Prelude
  import opened TuiReducers

  // ---- which key asks for what ------------------------------------------------------------

  predicate Plain(key: Key, code: Code) {
    key.press && !key.ctrl && key.code == code
  }

  /** A key reaches the lists: pressed plainly, with no reply being written. */
  predicate Commands(u: Ui, key: Key, code: Code) {
    Plain(key, code) && !u.reply.open
  }

  predicate OnDevice(u: Ui) {
    u.tab == Devices && u.cursors.device < |u.devices|
  }

  lemma QuitKeys(u: Ui, key: Key)
    ensures OnKey(u, key).action == Some(Quit) <==>
      (key.press && key.ctrl && key.code == Char('c')) || Commands(u, key, Char('q'))
  {
  }

  /** 'p' and 'u', and nothing else, pair and unpair, and only the device under the cursor. */
  lemma PairKeys(u: Ui, key: Key, id: string)
    ensures OnKey(u, key).action == Some(Pair(id)) <==>
      Commands(u, key, Char('p')) && OnDevice(u) && id == u.devices[u.cursors.device].id
    ensures OnKey(u, key).action == Some(Unpair(id)) <==>
      Commands(u, key, Char('u')) && OnDevice(u) && id == u.devices[u.cursors.device].id
  {
  }

  /** Enter on a device opens its panel, empty until its plugins arrive; Enter again, or
      Esc without the help overlay, closes it. */
  lemma PanelKeys(u: Ui, key: Key, id: string)
    ensures OnKey(u, key).action == Some(LoadPlugins(id)) <==>
      Commands(u, key, Enter) && OnDevice(u) && !u.detail.open && id == u.devices[u.cursors.device].id
    ensures OnKey(u, key).action == Some(LoadPlugins(id)) ==> OnKey(u, key).ui.detail == Detail(true, Some(id), [])
    ensures u.detail.open && ((Commands(u, key, Enter) && u.tab == Devices) || (Commands(u, key, Esc) && !u.helpOverlay)) ==>
      OnKey(u, key).ui.detail == CLOSED
  {
  }

  /** The space bar asks for the opposite of the plugin under the cursor, on the device
      whose panel is open. */
  lemma ToggleKey(u: Ui, key: Key)
    ensures var a := OnKey(u, key).action;
      (a.Some? && a.value.TogglePlugin?) <==>
        && Commands(u, key, Char(' ')) && u.tab == Devices && u.detail.open && u.detail.device.Some?
        && u.cursors.plugin < |u.detail.plugins|
    ensures var a := OnKey(u, key).action;
      a.Some? && a.value.TogglePlugin? ==>
        var row := u.detail.plugins[u.cursors.plugin];
        a.value == TogglePlugin(u.detail.device.value, row.name, !row.enabled)
  {
  }

  /** While a reply is written no key but its own does anything. */
  lemma ModalTakesAll(u: Ui, key: Key)
    requires u.reply.open
    ensures OnKey(u, key).ui == u.(reply := OnKey(u, key).ui.reply)
    ensures OnKey(u, key).action.Some? ==> OnKey(u, key).action.value.ReplyToNotification? || (key.ctrl && OnKey(u, key).action.value.Quit?)
    ensures Plain(key, Esc) || Plain(key, Enter) ==> OnKey(u, key).ui.reply == NO_REPLY
    ensures Plain(key, Enter) && u.reply.target.Some? ==>
      OnKey(u, key).action ==
        (if Trim(u.reply.draft) == "" then None else Some(ReplyToNotification(u.reply.target.value, Trim(u.reply.draft))))
  {
  }

  /** A character goes to the end of the draft, Backspace takes it off again, and on an
      empty draft does nothing. */
  lemma EditingKeys(u: Ui, key: Key, back: Key, ch: char)
    requires u.reply.open && Plain(key, Char(ch)) && Plain(back, Backspace)
    ensures OnKey(u, key) == Pressed(u.(reply := u.reply.(draft := u.reply.draft + [ch])), None)
    ensures OnKey(OnKey(u, key).ui, back) == Pressed(u, None)
    ensures u.reply.draft == "" ==> OnKey(u, back) == Pressed(u, None)
  {
    assert (u.reply.draft + [ch])[..|u.reply.draft|] == u.reply.draft;
  }

  /** 'r' on the notifications tab opens the modal on the notification under the cursor. */
  lemma ReplyKey(u: Ui, key: Key)
    requires Commands(u, key, Char('r'))
    ensures OnKey(u, key) == Pressed(
      if u.tab == Notifications && u.cursors.notification < |u.notifications|
      then u.(reply := Reply(true, "", Some(u.notifications[u.cursors.notification].id))) else u, None)
  {
  }

  // ---- which cursor moves where ---------------------------------------------------------------

  datatype Focus = OnDevices | OnPlugins | OnTransfers | OnNotifications | Nowhere

  /** An open panel takes the focus from the device list. */
  function FocusOf(u: Ui): Focus {
    match u.tab
    case Devices => if u.detail.open then OnPlugins else OnDevices
    case Transfers => OnTransfers
    case Notifications => OnNotifications
    case _ => Nowhere
  }

  function CursorOf(u: Ui, f: Focus): nat {
    match f
    case OnDevices => u.cursors.device
    case OnPlugins => u.cursors.plugin
    case OnTransfers => u.cursors.transfer
    case OnNotifications => u.cursors.notification
    case Nowhere => 0
  }

  function LenOf(u: Ui, f: Focus): nat {
    match f
    case OnDevices => |u.devices|
    case OnPlugins => |u.detail.plugins|
    case OnTransfers => |u.transfers|
    case OnNotifications => |u.notifications|
    case Nowhere => 0
  }

  /** One row down or up, stopping at the ends; the other cursors stay. */
  lemma MovesOneRow(u: Ui, down: bool, f: Focus)
    requires CursorsOk(u)
    ensures var v := Moved(u, down); var c, len := CursorOf(u, f), LenOf(u, f);
      && v == u.(cursors := v.cursors)
      && CursorOf(v, f) ==
           if f != FocusOf(u) || len == 0 then c
           else if down then (if c + 1 < len then c + 1 else len - 1)
           else if c == 0 then 0 else c - 1
  {
  }

  lemma JumpsToTheEnd(u: Ui, last: bool, f: Focus)
    ensures var v := Jumped(u, last); var c, len := CursorOf(u, f), LenOf(u, f);
      && v == u.(cursors := v.cursors)
      && CursorOf(v, f) == if f != FocusOf(u) || len == 0 then c else if last then len - 1 else 0
  {
  }

  lemma ArrowKeys(u: Ui, key: Key)
    requires !u.reply.open && key.press && !key.ctrl
    ensures key.code == Down || key.code == Char('j') ==> OnKey(u, key) == Pressed(Moved(u, true), None)
    ensures key.code == Up || key.code == Char('k') ==> OnKey(u, key) == Pressed(Moved(u, false), None)
    ensures key.code == Home || key.code == Char('g') ==> OnKey(u, key) == Pressed(Jumped(u, false), None)
    ensures key.code == End || key.code == Char('G') ==> OnKey(u, key) == Pressed(Jumped(u, true), None)
  {
  }

  /** Tab and its reverse change the tab and nothing else; one undoes the other. */
  lemma TabKeys(u: Ui, key: Key, back: Key)
    requires Inv(u) && !u.reply.open && Plain(key, TabKey) && Plain(back, BackTab)
    ensures OnKey(u, key).ui == u.(tab := NextTab(u.tab))
    ensures OnKey(OnKey(u, key).ui, back).ui == u
  {
    TabsCycle(u.tab);
  }

  /** The help overlay: '?' flips it, and Esc closes it before anything else. */
  lemma HelpKeys(u: Ui, key: Key)
    requires !u.reply.open && key.press && !key.ctrl
    ensures key.code == Char('?') ==> OnKey(u, key) == Pressed(u.(helpOverlay := !u.helpOverlay), None)
    ensures key.code == Esc && u.helpOverlay ==> OnKey(u, key) == Pressed(u.(helpOverlay := false), None)
    ensures key.code == Esc && !u.helpOverlay && !u.detail.open ==> OnKey(u, key) == Pressed(u, None)
  {
  }

  /** A cursor that is still in its list stays; one that is not goes to the last row. */
  lemma ClampsExactly(u: Ui, f: Focus)
    ensures var v := Clamped(u); var c, len := CursorOf(u, f), LenOf(u, f);
      && v == u.(cursors := v.cursors)
      && CursorOf(v, f) == if f == Nowhere || c < len then c else if len == 0 then 0 else len - 1
  {
  }

  // ---- what events do to the lists ---------------------------------------------------------------

  /** A device found again is replaced where it stands, a new one goes to the end. */
  lemma FoundDevice(devices: seq<DeviceEntry>, id: string, name: string, i: nat)
    ensures var after := EventDevices(devices, DeviceFound(id, name)); var entry := DeviceEntry(id, name, "unknown", false, "found");
      && ((exists k :: 0 <= k < |devices| && devices[k].id == id) ==> |after| == |devices|)
      && ((forall k :: 0 <= k < |devices| ==> devices[k].id != id) ==> after == devices + [entry])
      && entry in after
      && (i < |devices| && devices[i].id != id ==> after[i] == devices[i])
  {
    var k := FindDevice(devices, id, 0);
    var after := EventDevices(devices, DeviceFound(id, name));
    assert after[k] == DeviceEntry(id, name, "unknown", false, "found");
  }

  /** Removing keeps the order of the rest. */
  lemma WithoutAppend(a: seq<DeviceEntry>, d: DeviceEntry, id: string)
    ensures Without([], id) == []
    ensures Without(a + [d], id) == Without(a, id) + if d.id == id then [] else [d]
  {
    assert (a + [d])[..|a|] == a;
  }

  /** A lost device goes, and its panel with it. */
  lemma LostDevice(u: Ui, id: string)
    ensures var v := OnEvent(u, DeviceLost(id));
      && (forall d :: d in v.devices <==> d in u.devices && d.id != id)
      && v.detail == if u.detail.device == Some(id) then CLOSED else u.detail
  {
  }

  /** A state change reaches the first device of that id, which is paired exactly while
      its state says so. */
  lemma ChangedDevice(devices: seq<DeviceEntry>, id: string, state: string, i: nat)
    requires i < |devices|
    ensures var after := EventDevices(devices, DeviceStateChanged(id, state));
      && |after| == |devices|
      && (devices[i].id == id && (forall k :: 0 <= k < i ==> devices[k].id != id) ==>
            after[i] == DeviceEntry(id, devices[i].name, devices[i].kind, state == "paired", state))
      && (devices[i].id != id ==> after[i] == devices[i])
  {
    var k := FindDevice(devices, id, 0);
  }

  /** A transfer is listed from its first event on, with the counters last reported, and
      full once it finished with a known size; the others stay. */
  lemma TransferRows(transfers: map<string, TransferEntry>, id: string, name: string, done: nat, total: nat, other: string)
    ensures EventTransfers(transfers, TransferAdded(id, name, total)) == transfers[id := TransferEntry(name, 0, total)]
    ensures var after := EventTransfers(transfers, TransferProgress(id, done, total));
      && id in after && after[id].done == done && after[id].total == total
      && after[id].name == (if id in transfers then transfers[id].name else "")
      && (other != id ==> (other in after <==> other in transfers) && (other in transfers ==> after[other] == transfers[other]))
    ensures var after := EventTransfers(transfers, TransferFinished(id));
      && after.Keys == transfers.Keys && (other in transfers && other != id ==> after[other] == transfers[other])
      && (id in transfers ==> after[id] == transfers[id].(done := if transfers[id].total > 0 then transfers[id].total else transfers[id].done))
  {
  }

  /** Plugins are shown for the open panel's device alone; lists that arrive replace. */
  lemma Snapshots(u: Ui, device: string, plugins: seq<PluginRow>, entries: seq<DeviceEntry>)
    ensures OnOutcome(u, FreshPlugins(device, plugins)).detail ==
      if u.detail.device == Some(device) then u.detail.(plugins := plugins) else u.detail
    ensures OnOutcome(u, FreshDevices(entries)).devices == entries
    ensures OnOutcome(u, Flash).devices == u.devices && OnOutcome(u, Flash).detail == u.detail
  {
  }

  lemma {:induction false} PaddedShape(level: string)
    ensures |Padded(level)| == (if |level| < 5 then 5 else |level|) && level <= Padded(level)
    ensures forall i :: |level| <= i < |Padded(level)| ==> Padded(level)[i] == ' '
    decreases 5 - |level|
  {
    if |level| < 5 {
      PaddedShape(level + " ");
    }
  }

  /** A log line is the level, padded to five, in brackets, and the message. */
  lemma LogLineShape(level: string, msg: string)
    ensures |level| == 5 ==> LogLine(level, msg) == "[" + level + "] " + msg
    ensures LogLine("warn", msg) == "[warn ] " + msg && LogLine("info", msg) == "[info ] " + msg
  {
    assert "warn" + " " == "warn " && Padded("warn ") == "warn ";
    assert "info" + " " == "info " && Padded("info ") == "info ";
  }
}
