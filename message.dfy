/** The two-byte uplink payload: a 2-bit event, a 2-bit status and a 12-bit battery
    reading, packed big-endian. Decode is the receiver's side of the same layout. */
module Message {
  import opened TrapState

  /** The three fields a payload carries, as the codes sent on the wire. */
  datatype Fields = Fields(event: bv8, status: bv8, battery: bv16)

  /** Byte 0 holds the event in bits 7-6, the status in bits 5-4 and bits 11-8 of the
      battery reading in bits 3-0; byte 1 holds bits 7-0 of the battery reading. */
  function Encode(event: bv8, status: bv8, battery: bv16): (m: seq<bv8>)
    ensures |m| == 2
  {
    [ ((event & 0x03) << 6) | ((status & 0x03) << 4) | ((battery & 0x0F00) >> 8) as bv8,
      (battery & 0x00FF) as bv8 ]
  }

  function Decode(m: seq<bv8>): (f: Fields)
    requires |m| == 2
    ensures f.event < 4 && f.status < 4 && f.battery < 4096
  {
    Fields(m[0] >> 6, (m[0] >> 4) & 0x03, (((m[0] & 0x0F) as bv16) << 8) | m[1] as bv16)
  }

  /** What survives encoding: the low two bits of the event and of the status and the
      low twelve bits of the battery reading; higher bits are dropped without notice. */
  lemma DecodeEncode(event: bv8, status: bv8, battery: bv16)
    ensures Decode(Encode(event, status, battery)) == Fields(event & 0x03, status & 0x03, battery & 0x0FFF)
  {
  }

  /** Decoding inverts encoding on every in-range field triple. */
  lemma RoundTrip(event: bv8, status: bv8, battery: bv16)
    requires event < 4 && status < 4 && battery < 4096
    ensures Decode(Encode(event, status, battery)) == Fields(event, status, battery)
  {
    DecodeEncode(event, status, battery);
  }

  /** Every two-byte payload is the encoding of the fields it decodes to. */
  lemma EncodeDecode(m: seq<bv8>)
    requires |m| == 2
    ensures Encode(Decode(m).event, Decode(m).status, Decode(m).battery) == m
  {
    var f := Decode(m);
    var e := Encode(f.event, f.status, f.battery);
    assert e[0] == m[0];
    assert e[1] == m[1];
  }

  lemma EncodeExamples()
    ensures Encode(0, 1, 0xABC) == [0x1A, 0xBC]
    ensures Encode(2, 2, 4095) == [0xAF, 0xFF]
    ensures Encode(3, 1, 0x1ABC) == Encode(3, 1, 0x0ABC)
  {
  }

  /** The wire code of an event: its enumerator value. */
  function EventCode(e: Event): (c: bv8)
    ensures c < 4 && c as int == EventOrdinal(e)
  {
    EventOrdinal(e) as bv8
  }

  /** The wire code of a status: its enumerator value. */
  function StatusCode(s: Status): (c: bv8)
    ensures c < 3 && c as int == StatusOrdinal(s)
  {
    StatusOrdinal(s) as bv8
  }

  /** A receiver recovers the event, the status and the 12-bit battery reading from
      the payload fill_message writes. */
  lemma PayloadRecoversFields(event: Event, status: Status, battery: bv16)
    ensures var f := Decode(Encode(EventCode(event), StatusCode(status), battery));
      && EventOfOrdinal(f.event as int) == event
      && StatusOfOrdinal(f.status as int) == status
      && f.battery == battery & 0x0FFF
  {
    DecodeEncode(EventCode(event), StatusCode(status), battery);
    OrdinalsRoundTrip(status, event);
  }

  /** fill_message: writes the payload into the first two cells of the caller's buffer
      and no other cell. */
  method FillMessage(event: Event, status: Status, battery: bv16, message: array<bv8>)
    requires message.Length >= 2
    modifies message
    ensures message[..2] == Encode(EventCode(event), StatusCode(status), battery)
    ensures message[2..] == old(message[2..])
  {
    message[0] := ((EventCode(event) & 0x03) << 6) | ((StatusCode(status) & 0x03) << 4)
                  | ((battery & 0x0F00) >> 8) as bv8;
    message[1] := (battery & 0x00FF) as bv8;
  }
}
