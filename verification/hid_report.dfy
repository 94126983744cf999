/** Framing of one keyboard event as a Bluetooth HIDP DATA message.

    The frame is the HIDP transaction header (section 3.1.1 of the Bluetooth
    HID Profile 1.1.1: transaction type in the high nibble, parameter in the
    low nibble), the report ID, and the 8-byte boot keyboard input report of
    Appendix B.1 of the USB Device Class Definition for HID 1.11 (modifier
    bits, one reserved octet, six key-code slots). */
module HidReport {
  import opened Common

  /** HIDP transaction type DATA. */
  const HIDP_DATA: byte := 0xA
  /** HIDP DATA parameter: report type Input. */
  const HIDP_INPUT: byte := 0x1
  /** The report ID the emulator's service record declares for the keyboard. */
  const KEYBOARD_REPORT_ID: byte := 0x01
  /** Key-code slots in a boot keyboard report. */
  const KEY_SLOTS: nat := 6
  /** Header + report ID + modifier + reserved + six key codes. */
  const FRAME_LENGTH: nat := 10

  /** The HIDP header octet for a transaction type and its parameter. */
  function Header(transaction: byte, parameter: byte): (h: byte)
    requires transaction < 16 && parameter < 16
    ensures h / 16 == transaction && h % 16 == parameter
  {
    (transaction as int * 16 + parameter as int) as byte
  }

  /** A key event as a report carries it: modifier bits and the pressed keys. */
  datatype KeyboardReport = KeyboardReport(modifier: byte, keys: seq<byte>)

  predicate WellFormed(r: KeyboardReport)
  {
    |r.keys| == KEY_SLOTS
  }

  /** The bytes the service writes for one key event: the literal prefix
      `A1 01`, then the modifier, the reserved zero and the six key codes. */
  function Encode(modifier: byte, keys: seq<byte>): (frame: seq<byte>)
    requires |keys| == KEY_SLOTS
    ensures |frame| == FRAME_LENGTH
    ensures frame[0] == Header(HIDP_DATA, HIDP_INPUT)
    ensures frame[1] == KEYBOARD_REPORT_ID
    ensures frame[2] == modifier && frame[3] == 0
    ensures frame[4..] == keys
  {
    [0xA1, 0x01] + [modifier, 0x00] + keys[0..6]
  }

  /** A strict reader of exactly this frame layout: it accepts a ten-octet
      DATA/Input message for the keyboard report ID whose reserved octet is
      zero, and nothing else. (A real HID host is more lenient: it ignores
      the reserved octet.) */
  function Decode(frame: seq<byte>): (r: Option<KeyboardReport>)
    ensures r.Some? ==> WellFormed(r.value)
  {
    if |frame| == FRAME_LENGTH
       && frame[0] / 16 == HIDP_DATA && frame[0] % 16 == HIDP_INPUT
       && frame[1] == KEYBOARD_REPORT_ID && frame[3] == 0
    then Some(KeyboardReport(frame[2], frame[4..]))
    else None
  }

  /** `Decode` recovers exactly the modifier and key codes, in their order. */
  lemma DecodeEncode(modifier: byte, keys: seq<byte>)
    requires |keys| == KEY_SLOTS
    ensures Decode(Encode(modifier, keys)) == Some(KeyboardReport(modifier, keys))
  {
  }

  /** Every frame `Decode` accepts is one the service could have sent. */
  lemma EncodeDecode(frame: seq<byte>)
    requires Decode(frame).Some?
    ensures Encode(Decode(frame).value.modifier, Decode(frame).value.keys) == frame
  {
    var r := Decode(frame).value;
    var e := Encode(r.modifier, r.keys);
    assert e[0] == frame[0] by {
      assert frame[0] as int == frame[0] as int / 16 * 16 + frame[0] as int % 16;
    }
    assert forall i | 0 <= i < FRAME_LENGTH :: e[i] == frame[i] by {
      forall i | 4 <= i < FRAME_LENGTH
        ensures e[i] == frame[i]
      {
        assert e[i] == e[4..][i - 4];
        assert frame[i] == frame[4..][i - 4];
      }
    }
  }

  /** Distinct key events never share a frame. */
  lemma EncodeInjective(m1: byte, k1: seq<byte>, m2: byte, k2: seq<byte>)
    requires |k1| == KEY_SLOTS && |k2| == KEY_SLOTS
    requires Encode(m1, k1) == Encode(m2, k2)
    ensures m1 == m2 && k1 == k2
  {
    DecodeEncode(m1, k1);
    DecodeEncode(m2, k2);
  }
}
