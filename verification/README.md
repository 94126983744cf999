# Bluetooth HID keyboard emulator — session core in Dafny

This project models the protocol core of `btk_server.py`, a Bluetooth keyboard emulator built on BlueZ.
The emulator registers an `org.bluez.Profile1` object, listens for a host on the two L2CAP channels of the HID profile, and exposes the D-Bus method `send_keys`.
That method frames a key event as a HIDP DATA message and writes it on the interrupt channel.

Four pieces are modelled as immutable state and pure functions:

- **Report framing** (`HidReport`). `Encode` builds the ten-octet frame that `send_keys` writes. The frame is the HIDP header `0xA1` (transaction type DATA, parameter Input, as in section 3.1.1 of the Bluetooth HID Profile 1.1.1), then report ID `0x01`, then the 8-byte boot keyboard report of Appendix B.1 of the USB HID Class Definition 1.11. `Decode` is a strict reader of exactly this layout: it accepts only ten-octet frames with this header and report ID and a zero reserved octet. The two are proved mutually inverse.
- **Profile descriptor holder** (`Profile`). This is the `fd` field of the profile object, initially -1. `NewConnection` stores the descriptor BlueZ hands over. `RequestDisconnection` closes it only when it is greater than zero and then resets it to -1. Every close is recorded in a `closed` log. Over any sequence of BlueZ calls, no descriptor is closed more often than it was handed over, and none `<= 0` is ever closed.
- **Device session** (`Session`). This covers the four socket slots of `BTKbDevice` and the `listen` sequence that fills them. Sockets are abstract tokens, and each socket call becomes an entry in an ordered log. The sequence is: open and set address reuse on both server sockets, bind to PSM 17 and PSM 19, listen with backlog 1, accept control, then accept interrupt. The section also covers the `PropertiesChanged` filter that re-runs `listen` and `send_string`, which writes only on the interrupt client socket.
- **Service method** (`KeyboardService`). `send_keys` is modelled with its two failure modes: a key list that is not six long, and an interrupt slot that was never filled.

The adapter address is a parameter of `Listen`, because `btk_server.py` reads it over D-Bus. A blocking `accept` is modelled as a step that yields a fresh token. `Listen` is the run in which the host connects both channels; `BeginListen` and `AcceptControl` are the states the device blocks in before that.

Behaviour of `btk_server.py` the model keeps:

- The frame written is 10 octets: HIDP header, report ID and the 8-byte report.
- `RequestDisconnection` closes only a descriptor `> 0`, so descriptor 0 is never closed.
- The descriptor received in `NewConnection` is unrelated to the session sockets. Those come only from `listen`/`accept`. A second `NewConnection` overwrites a held descriptor without closing it (`Profile.NewConnectionDropsHeld`).
- On disconnect nothing is closed explicitly. `listen` overwrites the four slots with new sockets, and until the new accepts return, the old client sockets stay in their slots.
- `send_keys` with no interrupt socket raises on `None.send`. This is modelled as the `NotConnected` error. Because the service constructor calls `listen` before serving requests, this path is not reachable in the running program.
- Every `Connected = false` notification runs `listen` again. There is no check for an already idle session.

## Model

| member | source | states |
|---|---|---|
| HidReport.Encode | btkeyboard/server/btk_server.py:321-322 | for six key codes the frame is 10 octets: a header octet whose high nibble is DATA and low nibble Input, report ID 1, the modifier, a zero reserved octet, then the six key codes in their original order |
| HidReport.DecodeEncode | btkeyboard/server/btk_server.py:322 | `Decode` recovers exactly the modifier and the key codes from every frame sent |
| HidReport.EncodeDecode | btkeyboard/server/btk_server.py:322 | every frame `Decode` accepts is the encoding of the report it decodes to |
| HidReport.EncodeInjective | btkeyboard/server/btk_server.py:322 | two different key events never produce the same frame |
| KeyboardService.SendKeys | btkeyboard/server/btk_server.py:318-334 | a key list not of length six fails with the length and writes nothing. Without an interrupt socket the call fails and writes nothing. Otherwise exactly one frame is appended, on the interrupt client socket, never on the control socket. `Decode` reads that frame back as the modifier and keys, and nothing else about the device changes |
| KeyboardService.FirstKeyPress | btkeyboard/server/btk_server.py:318-334 | right after the first listen, typing 'a' succeeds and writes the frame A1 01 00 00 04 00 00 00 00 00 on the interrupt client socket |
| KeyboardService.DisconnectMovesInterrupt | btkeyboard/server/btk_server.py:160-168 | on any connected device, a Connected=false notification re-runs listen and gives a different interrupt socket, and the next valid key press succeeds on that new socket |
| KeyboardService.TypicalSession | btkeyboard/server/btk_server.py:160-168 | from a fresh device: listen, type 'a' (frame A1 01 00 00 04 00 00 00 00 00 on the interrupt channel), then a Connected=false notification re-runs listen, and the next key press goes to the new interrupt socket, not the old one |
| Profile.Initial | btkeyboard/server/btk_server.py:23 | a fresh profile holds no closable descriptor and has closed nothing |
| Profile.NewConnection | btkeyboard/server/btk_server.py:33-41 | the held descriptor becomes the transferred one; the property map changes nothing and nothing is closed |
| Profile.RequestDisconnection | btkeyboard/server/btk_server.py:45-50 | a held descriptor > 0 is closed exactly once and reset to -1; with a descriptor <= 0 (including 0) nothing is closed and the state is unchanged |
| Profile.RequestDisconnectionIdempotent | btkeyboard/server/btk_server.py:48-50 | two disconnect requests in a row have the effect of one and close at most one descriptor |
| Profile.ConnectThenDisconnect | btkeyboard/server/btk_server.py:33-50 | the descriptor a connection hands over is exactly the one the next disconnect closes, when it is positive; a non-positive one is kept and never closed |
| Profile.NewConnectionDropsHeld | btkeyboard/server/btk_server.py:34 | a descriptor still held when a new one arrives is no longer held and was not closed |
| Profile.RunKeepsAccounted | btkeyboard/server/btk_server.py:33-50 | every call keeps the accounting invariant: closed plus held descriptors are a sub-multiset of those handed over, and all closed ones are positive |
| Profile.CloseAtMostOncePerHandover | btkeyboard/server/btk_server.py:45-50 | over any sequence of BlueZ calls from a fresh profile, each descriptor is closed at most as many times as it was handed over, and no descriptor <= 0 is ever closed |
| Session.Init | btkeyboard/server/btk_server.py:121-125 | a new device for adapter index `hci` has all four socket slots empty and has made no socket call |
| Session.BeginListen | btkeyboard/server/btk_server.py:270-284 | both server slots are set to sockets never used before, the client slots and adapter index are untouched, earlier socket calls are kept as a prefix, and the device invariant is kept |
| Session.AcceptControl | btkeyboard/server/btk_server.py:286 | accepting on the control server fills the control client slot with a socket never used before and logs that accept; no other slot and not the adapter index changes, and the device invariant is kept |
| Session.AcceptInterrupt | btkeyboard/server/btk_server.py:289 | accepting on the interrupt server fills the interrupt client slot with a socket never used before and logs that accept; no other slot and not the adapter index changes, and the device invariant is kept |
| Session.Listen | btkeyboard/server/btk_server.py:265-290 | listen returns with all four slots set to four distinct sockets never used before, keeps the earlier log as a prefix, and preserves the device invariant |
| Session.ListenProtocol | btkeyboard/server/btk_server.py:271-290 | the calls listen appends are the same on every run: bind control to PSM 17, bind interrupt to PSM 19, listen with backlog 1 on both, accept control, then accept interrupt |
| Session.OnDisconnect | btkeyboard/server/btk_server.py:166-168 | the disconnect handler leaves both client slots set to sockets different from the previous ones, and different server sockets too |
| Session.PropertiesChanged | btkeyboard/server/btk_server.py:160-164 | the device changes if and only if the change set has a Connected entry whose value is false, and then it is the re-listened device |
| Session.PropertiesChangedIgnoresOthers | btkeyboard/server/btk_server.py:160-164 | change sets that agree on the Connected entry have the same effect, whatever their other entries, interface, invalidated list or path |
| Session.SendString | btkeyboard/server/btk_server.py:293-295 | the message is appended as one write on the interrupt client socket, never the control socket. It fails without writing if that slot is empty. The device invariant is kept |

## Left out

- D-Bus plumbing is not modelled: the system bus connection, `RegisterProfile` with its option set, the `InterfacesAdded` subscription and its no-op handler, and the service object registration (lines 126-146, 222-249, 301-315). These are calls into BlueZ and dbus-python.
- The adapter property getters and setters (`address`, `powered`, `alias`, `discoverable`, `discoverabletimeout`) are left out. They are single remote calls. Two of the getters name attributes that do not exist (`adapter_props`, `ADAPTER_INTERFACE`) and would raise. The adapter address enters `Listen` as a parameter.
- The `arg0='org.bluez.Device1'` match rule of the `PropertiesChanged` subscription (lines 142-146) is left out: D-Bus drops notifications for other interfaces before the handler runs, so `Session.PropertiesChanged` receives only device-interface change sets and ignores its interface argument.
- Reading the SDP record file and exiting when it is missing is left out. This is file I/O with opaque content.
- `Release` and `Cancel` are left out. `Release` prints and then calls `mainloop.quit()`, but the name `mainloop` is never bound (line 15 imports `dbus.mainloop.qt`, which binds only `dbus`), so it raises `NameError` and the event loop keeps running. `Cancel` exists only on the unregistered `BTKbBluezProfile` and only prints; the registered `HumanInterfaceDeviceProfile` has no `Cancel`. Neither touches the descriptor state.
- Root check, signal setup and the Qt main loop are left out, and so is all printing, including the formatting of `Version`/`Features` properties.
- Socket errors are left out. A failed `bind` (address in use) or a failed `accept` raises `OSError` out of `listen`. The model treats every kernel call as succeeding, because the kernel's answer is not visible to this code.
- Closing of dropped sockets is left out. The old sockets that `listen` overwrites are released by Python's garbage collector, not by the program, so no close is logged for them.
- Session.SendString: the byte count returned by `socket.send` is ignored by `send_string`. The model records the whole message as written in one call, because a SOCK_SEQPACKET send is all-or-nothing.
- KeyboardService.SendKeys: under `python -O` the length `assert` is removed. The model follows the normal interpreter, where the assertion fails before any write.
- `BTKbBluezProfile` is left out. It is a second, unregistered copy of the profile class (lines 56-91) whose descriptor logic is identical to `HumanInterfaceDeviceProfile`, so one model covers both.
