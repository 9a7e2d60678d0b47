/** The terminal interface's state object (crates/tui/src/state.rs), its fields
    updated in place by the reducers. */
module TuiState {
  import opened Prelude
  import opened TuiReducers

  /** Drops from the front until at most `cap` are left. */
  method Cap<T>(cap: nat, s: seq<T>) returns (t: seq<T>)
    ensures t == Last(cap, s)
  {
    t := s;
    ghost var dropped := 0;
    while |t| > cap
      invariant dropped <= |s| && t == s[dropped..] && (dropped > 0 ==> |t| >= cap)
    {
      dropped := dropped + 1;
      t := t[1..];
    }
  }

  method Find(devices: seq<DeviceEntry>, id: string) returns (i: nat)
    ensures i == FindDevice(devices, id, 0)
  {
    i := 0;
    while i < |devices| && devices[i].id != id
      invariant i <= |devices| && FindDevice(devices, id, 0) == FindDevice(devices, id, i)
    {
      i := i + 1;
    }
  }

  method Retain(devices: seq<DeviceEntry>, id: string) returns (kept: seq<DeviceEntry>)
    ensures kept == Without(devices, id)
  {
    kept := [];
    for i := 0 to |devices|
      invariant kept == Without(devices[..i], id)
    {
      assert devices[..i + 1][..i] == devices[..i];
      if devices[i].id != id {
        kept := kept + [devices[i]];
      }
    }
    assert devices[..|devices|] == devices;
  }

  class State {
    var tab: Tab
    var helpOverlay: bool
    var devices: seq<DeviceEntry>
    var deviceCursor: nat
    var detailOpen: bool
    var detailDevice: Option<string>
    var plugins: seq<PluginRow>
    var pluginCursor: nat
    var transfers: map<string, TransferEntry>
    var transferCursor: nat
    var notifications: seq<NotifRow>
    var notificationCursor: nat
    var replyOpen: bool
    var replyDraft: string
    var replyTarget: Option<string>
    var logs: seq<string>

    ghost function View(): Ui
      reads this
    {
      Ui(tab, helpOverlay, Cursors(deviceCursor, pluginCursor, transferCursor, notificationCursor),
         devices, Detail(detailOpen, detailDevice, plugins), transfers,
         notifications, Reply(replyOpen, replyDraft, replyTarget), logs)
    }

    constructor ()
      ensures View() == Fresh()
    {
      tab, helpOverlay := Devices, false;
      devices, deviceCursor := [], 0;
      detailOpen, detailDevice, plugins, pluginCursor := false, None, [], 0;
      transfers, transferCursor := map[], 0;
      notifications, notificationCursor := [], 0;
      replyOpen, replyDraft, replyTarget := false, "", None;
      logs := [];
    }

    method ClampCursors()
      modifies this`deviceCursor, this`pluginCursor, this`transferCursor, this`notificationCursor
      ensures View() == Clamped(old(View()))
    {
      deviceCursor, pluginCursor := ClampAt(deviceCursor, |devices|), ClampAt(pluginCursor, |plugins|);
      transferCursor, notificationCursor := ClampAt(transferCursor, |transfers|), ClampAt(notificationCursor, |notifications|);
    }

    method CloseDetail()
      modifies this`detailOpen, this`detailDevice, this`plugins, this`pluginCursor
      ensures View() == DetailClosed(old(View()))
    {
      detailOpen, detailDevice, plugins, pluginCursor := false, None, [], 0;
    }

    method ChangeDevices(e: Event)
      modifies this`devices
      ensures devices == EventDevices(old(devices), e)
    {
      match e {
        case DeviceFound(id, name) =>
          var entry := DeviceEntry(id, name, "unknown", false, "found");
          var i := Find(devices, id);
          devices := if i < |devices| then devices[i := entry] else devices + [entry];
        case DeviceLost(id) => devices := Retain(devices, id);
        case DeviceStateChanged(id, state) =>
          var i := Find(devices, id);
          if i < |devices| {
            devices := devices[i := devices[i].(state := state, paired := state == "paired")];
          }
        case _ =>
      }
    }

    method ChangeTransfers(e: Event)
      modifies this`transfers
      ensures transfers == EventTransfers(old(transfers), e)
    {
      match e {
        case TransferAdded(id, fileName, total) => transfers := transfers[id := TransferEntry(fileName, 0, total)];
        case TransferProgress(id, done, total) =>
          if id in transfers {
            transfers := transfers[id := transfers[id].(done := done, total := total)];
          } else {
            transfers := transfers[id := TransferEntry("", done, total)];
          }
        case TransferFinished(id) =>
          if id in transfers && transfers[id].total > 0 {
            transfers := transfers[id := transfers[id].(done := transfers[id].total)];
          }
        case _ =>
      }
    }

    method ChangeBuffers(e: Event)
      modifies this`notifications, this`logs
      ensures notifications == EventNotifications(old(notifications), e) && logs == EventLogs(old(logs), e)
    {
      if e.NotificationReceived? {
        notifications := Cap(NOTIFICATION_CAP, notifications + [e.row]);
      } else if e.LogRecord? {
        logs := Cap(LOG_CAP, logs + [LogLine(e.level, e.msg)]);
      }
    }

    method Absorb(e: Event)
      modifies this
      ensures View() == Absorbed(old(View()), e)
    {
      ChangeDevices(e);
      ChangeTransfers(e);
      ChangeBuffers(e);
      if e.DeviceLost? && detailDevice == Some(e.id) {
        CloseDetail();
      }
    }

    method ApplyEvent(e: Event)
      modifies this
      ensures View() == OnEvent(old(View()), e)
    {
      Absorb(e);
      ClampCursors();
    }

    method ApplyOutcome(o: Outcome)
      modifies this
      ensures View() == OnOutcome(old(View()), o)
    {
      match o {
        case Flash =>
        case FreshDevices(entries) => devices := entries;
        case FreshNotifications(rows) => notifications := Cap(NOTIFICATION_CAP, rows);
        case FreshPlugins(device, rows) =>
          if detailDevice == Some(device) {
            plugins := rows;
          }
      }
      ClampCursors();
    }

    method FocusLength() returns (len: nat)
      ensures len == FocusedLen(View())
    {
      match tab {
        case Devices => len := if detailOpen then |plugins| else |devices|;
        case Transfers => len := |transfers|;
        case Notifications => len := |notifications|;
        case Logs => len := 0;
        case Help => len := 0;
      }
    }

    method MoveCursor(down: bool)
      modifies this`deviceCursor, this`pluginCursor, this`transferCursor, this`notificationCursor
      ensures View() == Moved(old(View()), down)
    {
      var len := FocusLength();
      if len == 0 {
        return;
      }
      match tab {
        case Devices =>
          if detailOpen {
            pluginCursor := Stepped(pluginCursor, down, len);
          } else {
            deviceCursor := Stepped(deviceCursor, down, len);
          }
        case Transfers => transferCursor := Stepped(transferCursor, down, len);
        case Notifications => notificationCursor := Stepped(notificationCursor, down, len);
        case _ =>
      }
    }

    method JumpCursor(last: bool)
      modifies this`deviceCursor, this`pluginCursor, this`transferCursor, this`notificationCursor
      ensures View() == Jumped(old(View()), last)
    {
      var len := FocusLength();
      if len == 0 {
        return;
      }
      var to := if last then len - 1 else 0;
      match tab {
        case Devices =>
          if detailOpen {
            pluginCursor := to;
          } else {
            deviceCursor := to;
          }
        case Transfers => transferCursor := to;
        case Notifications => notificationCursor := to;
        case _ =>
      }
    }

    method ToggleDetail() returns (action: Option<Action>)
      modifies this`detailOpen, this`detailDevice, this`plugins, this`pluginCursor
      ensures Pressed(View(), action) == DetailToggled(old(View()))
    {
      action := None;
      if tab != Devices {
        return;
      }
      if detailOpen {
        CloseDetail();
      } else if deviceCursor < |devices| {
        var id := devices[deviceCursor].id;
        detailOpen, detailDevice, pluginCursor, plugins := true, Some(id), 0, [];
        action := Some(LoadPlugins(id));
      }
    }

    method OpenReply()
      modifies this`replyOpen, this`replyTarget, this`replyDraft
      ensures View() == ReplyOpened(old(View()))
    {
      if tab == Notifications && notificationCursor < |notifications| {
        replyOpen, replyTarget, replyDraft := true, Some(notifications[notificationCursor].id), "";
      }
    }

    method HandleReplyKey(code: Code) returns (action: Option<Action>)
      modifies this`replyOpen, this`replyTarget, this`replyDraft
      ensures Pressed(View(), action) == OnReplyKey(old(View()), code)
    {
      action := None;
      match code {
        case Enter =>
          var target, text := replyTarget, Trim(replyDraft);
          replyOpen, replyTarget, replyDraft := false, None, "";
          if target.Some? && text != "" {
            action := Some(ReplyToNotification(target.value, text));
          }
        case Esc => replyOpen, replyTarget, replyDraft := false, None, "";
        case Backspace =>
          if replyDraft != "" {
            replyDraft := replyDraft[..|replyDraft| - 1];
          }
        case Char(ch) => replyDraft := replyDraft + [ch];
        case _ =>
      }
    }

    method HandleChar(ch: char) returns (action: Option<Action>)
      modifies this
      ensures Pressed(View(), action) == OnChar(old(View()), ch)
    {
      action := None;
      if ch == 'q' {
        action := Some(Quit);
      } else if ch == '?' {
        helpOverlay := !helpOverlay;
      } else if ch == 'j' || ch == 'k' {
        MoveCursor(ch == 'j');
      } else if ch == 'g' || ch == 'G' {
        JumpCursor(ch == 'G');
      } else if (ch == 'p' || ch == 'u') && tab == Devices && deviceCursor < |devices| {
        var id := devices[deviceCursor].id;
        action := Some(if ch == 'p' then Pair(id) else Unpair(id));
      } else if ch == 'r' {
        OpenReply();
      } else if ch == ' ' && tab == Devices && detailOpen && pluginCursor < |plugins| && detailDevice.Some? {
        var row := plugins[pluginCursor];
        action := Some(TogglePlugin(detailDevice.value, row.name, !row.enabled));
      }
    }

    method HandleNamedKey(code: Code) returns (action: Option<Action>)
      modifies this
      ensures Pressed(View(), action) == OnNamedKey(old(View()), code)
    {
      action := None;
      match code {
        case TabKey =>
          tab := NextTab(tab);
          ClampCursors();
        case BackTab =>
          tab := PreviousTab(tab);
          ClampCursors();
        case Down => MoveCursor(true);
        case Up => MoveCursor(false);
        case Home => JumpCursor(false);
        case End => JumpCursor(true);
        case Enter => action := ToggleDetail();
        case Esc =>
          if helpOverlay {
            helpOverlay := false;
          } else if detailOpen {
            CloseDetail();
          }
        case _ =>
      }
    }

    method HandleKey(key: Key) returns (action: Option<Action>)
      modifies this
      ensures Pressed(View(), action) == OnKey(old(View()), key)
    {
      if !key.press {
        action := None;
      } else if key.ctrl {
        action := if key.code == Char('c') then Some(Quit) else None;
      } else if replyOpen {
        action := HandleReplyKey(key.code);
      } else if key.code.Char? {
        action := HandleChar(key.code.ch);
      } else {
        action := HandleNamedKey(key.code);
      }
    }
  }

  /** A whole session, one input after another. */
  method Session(inputs: seq<Input>) returns (state: State)
    ensures state.View() == Run(inputs)
    ensures Inv(state.View())
    ensures state.logs == Last(1000, AllLines(inputs))
    ensures state.notifications == Last(200, Feed(inputs))
  {
    state := new State();
    for i := 0 to |inputs|
      invariant state.View() == Run(inputs[..i])
    {
      assert inputs[..i + 1][..i] == inputs[..i];
      match inputs[i] {
        case Pushed(e) => state.ApplyEvent(e);
        case Answered(o) => state.ApplyOutcome(o);
        case Typed(key) => var _ := state.HandleKey(key);
      }
    }
    assert inputs[..|inputs|] == inputs;
    RunKeeps(inputs);
    LogsAreTheLast(inputs);
    NotificationsAreTheLast(inputs);
  }
}
