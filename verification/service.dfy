/** The `org.yaptb.btkbservice` D-Bus method `send_keys`: validate the key
    list, frame it as a HIDP keyboard report and hand it to the device's
    interrupt channel. */
module KeyboardService {
  import opened Common
  import opened HidReport
  import opened Session

  /** `send_keys(modifier, keys)`. A key list of any length other than six
      fails before anything is written; otherwise exactly one frame, which
      `Decode` reads back as `(modifier, keys)`, goes out on the interrupt
      client socket and nothing else about the device changes. */
  function SendKeys(d: Device, modifier: byte, keys: seq<byte>): (r: (Device, Outcome))
    ensures |keys| != KEY_SLOTS ==> r == (d, Fail(InvalidReportLength(|keys|)))
    ensures |keys| == KEY_SLOTS && d.cinterrupt.None? ==> r == (d, Fail(NotConnected))
    ensures r.1.Ok? <==> |keys| == KEY_SLOTS && d.cinterrupt.Some?
    ensures r.1.Ok? ==>
      && r.0 == d.(ops := r.0.ops)
      && |r.0.ops| == |d.ops| + 1 && r.0.ops[..|d.ops|] == d.ops
      && Last(r.0.ops).Send? && Last(r.0.ops).sock == d.cinterrupt.value
      && Decode(Last(r.0.ops).data) == Some(KeyboardReport(modifier, keys))
    ensures Valid(d) ==> Valid(r.0)
    ensures Valid(d) && r.1.Ok? && d.ccontrol.Some? ==> Last(r.0.ops).sock != d.ccontrol.value
  {
    if |keys| != KEY_SLOTS then (d, Fail(InvalidReportLength(|keys|)))
    else
      var r := SendString(d, Encode(modifier, keys));
      assert r.1.Ok? ==> r.0.ops[..|d.ops|] == d.ops && Decode(Last(r.0.ops).data) == Some(KeyboardReport(modifier, keys)) by {
        if r.1.Ok? {
          assert r.0.ops == d.ops + [Send(d.cinterrupt.value, Encode(modifier, keys))];
          DecodeEncode(modifier, keys);
        }
      }
      r
  }

  /** Typing `a` (usage 0x04) right after the first `listen` writes the
      frame `A1 01 00 00 04 00 00 00 00 00` on the interrupt channel. */
  lemma FirstKeyPress(address: string)
    ensures
      var d1 := Listen(Init(0), address);
      var r := SendKeys(d1, 0x00, [0x04, 0, 0, 0, 0, 0]);
      && r.1 == Ok && Valid(r.0)
      && Last(r.0.ops) == Send(d1.cinterrupt.value, [0xA1, 0x01, 0x00, 0x00, 0x04, 0x00, 0x00, 0x00, 0x00, 0x00])
  {
    var frame := Encode(0x00, [0x04, 0, 0, 0, 0, 0]);
    assert frame == [0xA1, 0x01, 0x00, 0x00, 0x04, 0x00, 0x00, 0x00, 0x00, 0x00];
  }

  /** A `Connected = false` notification on a connected device re-runs
      `listen`, and the next key press goes to the new interrupt channel,
      not the one the host dropped. */
  lemma DisconnectMovesInterrupt(d: Device, address: string, path: string, modifier: byte, keys: seq<byte>)
    requires Valid(d) && d.cinterrupt.Some?
    requires |keys| == KEY_SLOTS
    ensures
      var d3 := PropertiesChanged(d, address, "org.bluez.Device1", map["Connected" := VBool(false)], [], path);
      var r := SendKeys(d3, modifier, keys);
      && d3 == Listen(d, address)
      && d3.cinterrupt != d.cinterrupt
      && r.1 == Ok && Last(r.0.ops).sock == d3.cinterrupt.value
  {
    assert DisconnectSignalled(map["Connected" := VBool(false)]);
  }

  /** The typical session: the device starts with empty slots, `listen`
      returns with both channels, typing `a` writes its frame on the
      interrupt channel, a disconnect notification re-runs `listen`, and the
      next key press goes to the new interrupt channel. */
  lemma TypicalSession(address: string, path: string)
    ensures
      var d1 := Listen(Init(0), address);
      var d2 := SendKeys(d1, 0x00, [0x04, 0, 0, 0, 0, 0]).0;
      var d3 := PropertiesChanged(d2, address, "org.bluez.Device1", map["Connected" := VBool(false)], [], path);
      var r4 := SendKeys(d3, 0x00, [0, 0, 0, 0, 0, 0]);
      && Last(d2.ops) == Send(d1.cinterrupt.value, [0xA1, 0x01, 0x00, 0x00, 0x04, 0x00, 0x00, 0x00, 0x00, 0x00])
      && d3 == Listen(d2, address)
      && d3.cinterrupt != d1.cinterrupt
      && r4.1 == Ok && Last(r4.0.ops).sock == d3.cinterrupt.value
  {
    FirstKeyPress(address);
    var d1 := Listen(Init(0), address);
    var d2 := SendKeys(d1, 0x00, [0x04, 0, 0, 0, 0, 0]).0;
    DisconnectMovesInterrupt(d2, address, path, 0x00, [0, 0, 0, 0, 0, 0]);
  }
}
