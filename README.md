# Host side of the Electron IPC bridge

This project models `src/backend/electron/ipc.ts`, the host (main-process) side of the messaging bridge between the privileged Electron main process and the untrusted renderer windows. Three rules live in that file. The model states them in Dafny and proves properties about them.

- **Sender validation** (`validateIpcSender`). Every incoming request is checked against a trust rule with two modes.
  - Development mode means a dev-server URL is configured in `VITE_DEV_SERVER_URL`. In this mode only the dev server's origin is trusted.
  - Otherwise only the packaged-app scheme `app:` is trusted.
  - A rejected sender raises an error whose message ends with the sender's URL.
  - If either URL does not parse, `new URL` throws instead. The sender URL is parsed first.
- **Error containment** (`errorHandledListener`). Every registered listener is wrapped. The wrapper validates the sender and then calls the listener, handing back its value unchanged. Anything thrown synchronously is appended to the log and becomes `undefined`.
- **Registration and notification**.
  - `registerIpcMainHandle` installs one wrapped handler per entry of the listener object.
  - `ipcMainSend[channel](win, ...args)` performs exactly one `webContents.send(channel, ...args)` to `win`.

Modules:

- `IpcTypes` (`ipc_types.dfy`) holds the data: URLs as their `origin`, `protocol` and `href` fields, parse results, request events, windows, thrown errors, listener reactions, responses and sent messages.
- `SenderValidation` (`sender_validation.dfy`) holds the pure trust rule.
- `IpcMain` (`ipc_main.dfy`) holds the following:
  - the pure specification of the wrapper (`ErrorHandled`) and of the handler table (`HandlerTable`), with lemmas about both;
  - the class `IpcBridge`. Its fields are Electron's handler table (`handlers`), the `electron-log` sink (`log`), the sequence of sent messages (`outbox`), and a ghost trace of the listener calls the wrappers make (`calls`). Its methods update these fields in place, as the source does.

The listener result type `V` and the listener error type `E` are type parameters. A listener is a total function from the event and the argument list to `Returned(v)` or `Threw(e)`.

## Model

| member | source | states |
|---|---|---|
| `SenderValidation.ValidateIpcSender` | src/backend/electron/ipc.ts:62-76 | An unparsable sender URL fails first with that URL's parse error. A configured dev-server URL that does not parse fails with its parse error. In development mode, a request passes if and only if the sender origin equals the dev-server origin, whatever the scheme. In production mode, a request passes if and only if the sender scheme is `app:`. Only parsed URLs can pass. A trust-rule rejection (both URLs parsed) is always the untrusted-sender error whose message is the fixed prefix followed by the sender's URL. Every untrusted-sender error ends with the sender's URL. |
| `SenderValidation.RejectUnless` | src/backend/electron/ipc.ts:71-75 | It returns normally if and only if `isValid` holds. Otherwise it throws the untrusted-sender error, whose message is the fixed prefix followed by the sender URL. |
| `SenderValidation.RejectionMessage` | src/backend/electron/ipc.ts:72-74 | The message is the fixed prefix followed by the sender's `toString()`. Its length is the sum of the two lengths, and it ends with the sender URL. |
| `SenderValidation.TrustRuleExamples` | src/backend/electron/ipc.ts:65-70 | Dev server `http://localhost:5173`: its own origin is accepted; `http://localhost:9999` is rejected; an `app:` sender is rejected. No dev server: an `app:` sender is accepted; an `https:` sender is rejected with the prefixed message. |
| `IpcMain.ErrorHandled` | src/backend/electron/ipc.ts:39-46 | The listener is called if and only if the sender is valid. It is called exactly once, with the request's own event and arguments. A rejected request logs exactly the validation error and returns `undefined`. From a valid sender, a returned value passes through unchanged and nothing is logged. A synchronous throw is logged. A trust-rule rejection (both URLs parsed) logs the untrusted-sender error naming the rejected sender's URL. The response is `undefined` exactly when one error was logged, and at most one error is ever logged per request. |
| `IpcMain.HandlerTable` | src/backend/electron/ipc.ts:38-48 | The channels registered for a list of entries are exactly the entries' channel names. |
| `IpcMain.HandlerTableWrapsEach` | src/backend/electron/ipc.ts:38-48 | When channel names are distinct, each entry's channel is registered with the wrapper around that entry's own listener. |
| `IpcMain.HandlerTableStep` | src/backend/electron/ipc.ts:47 | Each `ipcMain.handle` call in the loop extends the table by that entry's channel and wrapped listener. |
| `IpcMain.RegistrationOverwritesOnlyItsChannels` | src/backend/electron/ipc.ts:38-48 | Registering over an existing table adds or replaces exactly the entries' channels, each with the wrapper around its own listener. Every other channel keeps its old handler. |
| `IpcMain.RegisteredChannelServesItsListener` | src/backend/electron/ipc.ts:38-47 | After registration, a valid request on an entry's channel calls that entry's listener once, with the same event and arguments. The listener's returned value comes back unchanged and nothing is logged. |
| `IpcMain.IpcBridge.RegisterIpcMainHandle` | src/backend/electron/ipc.ts:32-49 | Only the handler table changes. The new table is the old table plus one wrapped handler per entry, so exactly the entries' channels are added. Each gets the wrapper of its own listener, and every other channel is unchanged. |
| `IpcMain.IpcBridge.HandleRequest` | src/backend/electron/ipc.ts:39-46 | A request on a registered channel changes only the log and the call trace (the wrapper's own effects; listeners are pure functions, see Left out). It returns the wrapper's response, appends exactly the wrapper's logged errors and records exactly the wrapper's listener calls, as `ErrorHandled` specifies. |
| `IpcMain.IpcBridge.IpcMainSend` | src/backend/electron/ipc.ts:51-59 | It appends exactly one message to the outbox, carrying the window, the channel name and the arguments in order. Nothing else changes and nothing is returned. |

## Left out

- Electron's transport is represented by fields of `IpcBridge`: `ipcMain.handle` is a map update and `webContents.send` is an append to `outbox`. Electron's own behaviour cannot be seen from this file. This includes throwing when a channel is registered twice, failing on a destroyed window, and a `senderFrame` that is gone.
- `IpcMain.IpcBridge.RegisterIpcMainHandle` and `IpcMain.RegistrationOverwritesOnlyItsChannels`: a channel that is already registered is overwritten in the model, while Electron's `ipcMain.handle` would throw. That behaviour belongs to Electron, which is not part of this model.
- URL parsing (`new URL`) is the WHATWG URL parser, an external library. A URL is given with its `origin`, `protocol` and `href` already computed, and a string that does not parse is given as `Unparsable(text)`.
- The environment variable `VITE_DEV_SERVER_URL` is ambient process state. It is passed to each request as `devServerUrl`: `None` when it is unset, otherwise its parse result.
- `electron-log` is an external sink and is represented only as the sequence `log` of errors handed to it.
- `IpcMain.IpcBridge.HandleRequest`: listeners are modelled as pure, deterministic functions of the event and the arguments. A real listener is arbitrary host code that may itself call `ipcMainSend`, call `log.error` or register handlers, and those effects are not modelled. The frame of `HandleRequest` (only the log and the call trace change) and "exactly the wrapper's logged errors" describe the wrapper's own effects only.
- Asynchronous semantics are not modelled. A listener's returned value is opaque, even when it is a promise. The wrapper passes such a promise through without awaiting it, so a later rejection is outside the wrapper's `try` and is not logged. The model does not follow the promise past the return.
- A listener that itself returns `undefined` looks the same to the renderer as a contained failure. The model keeps them apart (`Value(v)` versus `Undefined`), and it is the log that tells them apart in both the model and the source.
- The TypeScript mapped types `IpcRendererInvoke`, `IpcMainHandle`, `IpcMainSend` and `IpcRendererOn`, and the channel tables in `@/type/ipc`, are compile-time typing only. `@/type/ipc` is not part of this model. At run time the `ipcMainSend` proxy forwards any property name, so `IpcMainSend` accepts any channel string.
- The renderer side (`IpcRendererInvoke`, `IpcRendererOn`) has no implementation in this file.
