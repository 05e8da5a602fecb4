/** The host side of the bridge: `registerIpcMainHandle`, the
    `errorHandledListener` wrapper it puts around every listener, and
    `ipcMainSend`. Electron's `ipcMain` handler table, the `electron-log`
    sink and the windows' outgoing messages are the fields of `IpcBridge`. */
module IpcMain {
  import opened IpcTypes
  import opened SenderValidation

  /** What one run of a wrapped handler does: the response handed to the
      transport, the entries it appends to the log and the listener calls it
      makes. */
  datatype Step<V, E> = Step(response: Response<V>, logged: seq<Thrown<E>>, calls: seq<Call<V>>)

  /** One request through `errorHandledListener`: validate the sender, then
      call the listener and return what it returns; anything thrown on the
      way is logged and turns into `undefined`. */
  function ErrorHandled<V, E>(listener: Listener<V, E>, devServerUrl: Option<UrlText>, event: Event, args: seq<V>)
    : (s: Step<V, E>)
    // Containment: the response is `undefined` exactly when one error was logged,
    // and a request never logs more than one.
    ensures |s.logged| <= 1 && (s.response.Undefined? <==> |s.logged| == 1)
    // The listener runs, once and with the request's own event and arguments,
    // exactly when the sender is valid.
    ensures ValidateIpcSender(event, devServerUrl).Pass? <==> s.calls == [Call(event, args)]
    ensures ValidateIpcSender(event, devServerUrl).Fail? <==> s.calls == []
    // A rejected sender: the validation error is what gets logged.
    ensures ValidateIpcSender(event, devServerUrl).Fail? ==>
              s.logged == [Validation(ValidateIpcSender(event, devServerUrl).error)]
    // A trust-rule rejection logs the error that names the rejected sender's URL.
    ensures event.senderFrameUrl.Parsed? && (devServerUrl.None? || devServerUrl.value.Parsed?) &&
            ValidateIpcSender(event, devServerUrl).Fail? ==>
              s.logged == [Validation(ForbiddenSender(RejectionMessage(event.senderFrameUrl.url)))]
    // A valid sender: the listener's value is passed through unchanged,
    // and its synchronous throw is what gets logged.
    ensures ValidateIpcSender(event, devServerUrl).Pass? ==>
              match listener(event, args)
              case Returned(v) => s.response == Value(v) && s.logged == []
              case Threw(e) => s.logged == [ListenerError(e)]
  {
    match ValidateIpcSender(event, devServerUrl)
    case Fail(err) => Step(Undefined, [Validation(err)], [])
    case Pass =>
      var call := [Call(event, args)];
      match listener(event, args)
      case Returned(v) => Step(Value(v), [], call)
      case Threw(e) => Step(Undefined, [ListenerError(e)], call)
  }

  /** The channel names of a list of `[channel, listener]` entries. */
  function ChannelsOf<V, E>(entries: seq<(string, Listener<V, E>)>): set<string> {
    set i | 0 <= i < |entries| :: entries[i].0
  }

  /** `Object.entries` of an object never repeats a key. */
  predicate DistinctChannels<V, E>(entries: seq<(string, Listener<V, E>)>) {
    forall i, j :: 0 <= i < j < |entries| ==> entries[i].0 != entries[j].0
  }

  /** The handlers `registerIpcMainHandle` installs for `entries`, one
      `ipcMain.handle` after the other. */
  function HandlerTable<V, E>(entries: seq<(string, Listener<V, E>)>): (t: map<string, Handler<V, E>>)
    ensures t.Keys == ChannelsOf(entries)
  {
    if entries == [] then map[]
    else
      var (channel, listener) := entries[|entries| - 1];
      HandlerTable(entries[..|entries| - 1])[channel := ErrorHandledListener(listener)]
  }

  /** Every entry's channel ends up with the wrapper around that entry's
      own listener. */
  lemma {:induction false} HandlerTableWrapsEach<V, E>(entries: seq<(string, Listener<V, E>)>, i: nat)
    requires DistinctChannels(entries)
    requires i < |entries|
    ensures entries[i].0 in HandlerTable(entries)
    ensures HandlerTable(entries)[entries[i].0] == ErrorHandledListener(entries[i].1)
  {
    var n := |entries| - 1;
    if i < n {
      var prefix := entries[..n];
      assert prefix[i] == entries[i];
      HandlerTableWrapsEach(prefix, i);
      assert entries[i].0 != entries[n].0;
    }
  }

  /** A request on a registered channel from a valid sender reaches that
      channel's own listener once, and its value comes back unchanged. */
  lemma RegisteredChannelServesItsListener<V, E>(
    entries: seq<(string, Listener<V, E>)>, i: nat, devServerUrl: Option<UrlText>, event: Event, args: seq<V>)
    requires DistinctChannels(entries)
    requires i < |entries|
    requires ValidateIpcSender(event, devServerUrl).Pass?
    requires entries[i].1(event, args).Returned?
    ensures entries[i].0 in HandlerTable(entries)
    ensures var s := ErrorHandled(HandlerTable(entries)[entries[i].0].listener, devServerUrl, event, args);
            s.calls == [Call(event, args)] && s.response == Value(entries[i].1(event, args).value) && s.logged == []
  {
    HandlerTableWrapsEach(entries, i);
  }

  /** One more `ipcMain.handle` call extends the table by the next entry. */
  lemma HandlerTableStep<V, E>(base: map<string, Handler<V, E>>, entries: seq<(string, Listener<V, E>)>, k: nat)
    requires k < |entries|
    ensures base + HandlerTable(entries[..k + 1])
            == (base + HandlerTable(entries[..k]))[entries[k].0 := ErrorHandledListener(entries[k].1)]
  {
    assert entries[..k + 1][..k] == entries[..k];
  }

  /** Registering `entries` over an existing table `base`: exactly the
      entries' channels are added or replaced, each by the wrapper around its
      own listener, and every other channel keeps its handler. */
  lemma RegistrationOverwritesOnlyItsChannels<V, E>(base: map<string, Handler<V, E>>, entries: seq<(string, Listener<V, E>)>)
    requires DistinctChannels(entries)
    ensures (base + HandlerTable(entries)).Keys == base.Keys + ChannelsOf(entries)
    ensures forall i :: 0 <= i < |entries| ==>
              (base + HandlerTable(entries))[entries[i].0] == ErrorHandledListener(entries[i].1)
    ensures forall c :: c in base && c !in ChannelsOf(entries) ==> (base + HandlerTable(entries))[c] == base[c]
  {
    forall i | 0 <= i < |entries|
      ensures (base + HandlerTable(entries))[entries[i].0] == ErrorHandledListener(entries[i].1)
    {
      HandlerTableWrapsEach(entries, i);
    }
  }

  /** The state `ipc.ts` acts on: Electron's handler table, the error log
      and every message sent to a window, in order. */
  class IpcBridge<V, E> {
    /** Channel name to the handler `ipcMain.handle` was given for it. */
    var handlers: map<string, Handler<V, E>>
    /** Errors passed to `log.error`, oldest first. */
    var log: seq<Thrown<E>>
    /** Messages passed to `webContents.send`, oldest first. */
    var outbox: seq<Sent<V>>
    /** Calls the wrappers made to user listeners, oldest first. */
    ghost var calls: seq<Call<V>>

    constructor ()
      ensures handlers == map[] && log == [] && outbox == [] && calls == []
    {
      handlers := map[];
      log := [];
      outbox := [];
      calls := [];
    }

    /** `registerIpcMainHandle(listeners)`, with `listeners` given as its
        `Object.entries`: one `ipcMain.handle(channel, errorHandledListener)`
        per entry, in order. */
    method RegisterIpcMainHandle(listeners: seq<(string, Listener<V, E>)>)
      requires DistinctChannels(listeners)
      modifies this`handlers
      ensures handlers == old(handlers) + HandlerTable(listeners)
      ensures handlers.Keys == old(handlers).Keys + ChannelsOf(listeners)
      ensures forall i :: 0 <= i < |listeners| ==> handlers[listeners[i].0] == ErrorHandledListener(listeners[i].1)
      ensures forall c :: c in old(handlers) && c !in ChannelsOf(listeners) ==> handlers[c] == old(handlers)[c]
    {
      var k := 0;
      while k < |listeners|
        invariant k <= |listeners|
        invariant handlers == old(handlers) + HandlerTable(listeners[..k])
      {
        var (channel, listener) := listeners[k];
        HandlerTableStep(old(handlers), listeners, k);
        handlers := handlers[channel := ErrorHandledListener(listener)];
        k := k + 1;
      }
      assert listeners[..k] == listeners;
      RegistrationOverwritesOnlyItsChannels(old(handlers), listeners);
    }

    /** The transport delivering one request on `channel` to the handler
        registered for it: the body of `errorHandledListener`, with the
        environment's dev-server URL read as `devServerUrl`. */
    method HandleRequest(channel: string, event: Event, args: seq<V>, devServerUrl: Option<UrlText>)
      returns (r: Response<V>)
      requires channel in handlers
      modifies this`log, this`calls
      ensures var s := ErrorHandled(handlers[channel].listener, devServerUrl, event, args);
              r == s.response && log == old(log) + s.logged && calls == old(calls) + s.calls
    {
      var listener := handlers[channel].listener;
      var validation := ValidateIpcSender(event, devServerUrl);
      match validation {
        case Fail(err) =>
          log := log + [Validation(err)];
          r := Undefined;
        case Pass =>
          calls := calls + [Call(event, args)];
          match listener(event, args) {
            case Returned(v) =>
              r := Value(v);
            case Threw(e) =>
              log := log + [ListenerError(e)];
              r := Undefined;
          }
      }
    }

    /** `ipcMainSend[channel](win, ...args)`: the proxy hands out a function
        bound to `channel`, and calling it sends `args` to `win` on that
        channel. */
    method IpcMainSend(channel: string, win: Window, args: seq<V>)
      modifies this`outbox
      ensures outbox == old(outbox) + [Sent(win, channel, args)]
    {
      outbox := outbox + [Sent(win, channel, args)];
    }
  }
}
