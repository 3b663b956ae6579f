/** The pure helpers of `Controller`: the device id built from the MAC
    address, and the error text taken from a failed response. */
module ControllerHelpers {
  import opened Wire

  // ---------------------------------------------------------------------
  // Device id: upper-case hexadecimal, two digits per byte, no separator.
  // ---------------------------------------------------------------------

  predicate IsUpperHex(c: char) {
    ('0' <= c <= '9') || ('A' <= c <= 'F')
  }

  /** The digit `%X` prints for a value below 16. */
  function HexDigit(d: int): (c: char)
    requires 0 <= d < 16
    ensures IsUpperHex(c)
  {
    if d < 10 then (48 + d) as char else (55 + d) as char
  }

  /** The value of an upper-case hexadecimal digit. */
  function DigitValue(c: char): (d: int)
    requires IsUpperHex(c)
    ensures 0 <= d < 16
    ensures HexDigit(d) == c
    ensures forall e :: 0 <= e < 16 && HexDigit(e) == c ==> e == d
  {
    if c <= '9' then c as int - 48 else c as int - 55
  }

  /** `String.format("%02X", b)`: the byte's unsigned value in two digits. */
  function ByteHex(b: JByte): (r: string)
    ensures |r| == 2 && IsUpperHex(r[0]) && IsUpperHex(r[1])
    ensures 16 * DigitValue(r[0]) + DigitValue(r[1]) == Unsigned(b)
  {
    var u := Unsigned(b);
    [HexDigit(u / 16), HexDigit(u % 16)]
  }

  /** The device id of a hardware address. */
  function HexEncode(mac: seq<JByte>): (r: string)
    ensures |r| == 2 * |mac|
  {
    if mac == [] then "" else ByteHex(mac[0]) + HexEncode(mac[1..])
  }

  /** Reads a device id back: pairs of upper-case hex digits, in order. */
  function HexDecode(s: string): Option<seq<JByte>> {
    if |s| == 0 then Some([])
    else if |s| == 1 || !IsUpperHex(s[0]) || !IsUpperHex(s[1]) then None
    else match HexDecode(s[2..])
      case None => None
      case Some(rest) => Some([Signed(16 * DigitValue(s[0]) + DigitValue(s[1]))] + rest)
  }

  lemma {:induction false} HexEncodeShape(mac: seq<JByte>)
    ensures |HexEncode(mac)| == 2 * |mac|
    ensures forall i :: 0 <= i < |HexEncode(mac)| ==> IsUpperHex(HexEncode(mac)[i])
  {
    if mac != [] {
      HexEncodeShape(mac[1..]);
      var h, t := ByteHex(mac[0]), HexEncode(mac[1..]);
      assert HexEncode(mac) == h + t;
      forall i | 0 <= i < |h + t| ensures IsUpperHex((h + t)[i]) {
        if i >= 2 { assert (h + t)[i] == t[i - 2]; }
      }
    }
  }

  /** The two digits at positions 2i and 2i+1 are the digits of byte i. */
  lemma {:induction false} HexEncodePair(mac: seq<JByte>, i: nat)
    requires i < |mac|
    ensures |HexEncode(mac)| == 2 * |mac|
    ensures HexEncode(mac)[2 * i .. 2 * i + 2] == ByteHex(mac[i])
  {
    HexEncodeShape(mac);
    HexEncodeShape(mac[1..]);
    if i > 0 {
      HexEncodePair(mac[1..], i - 1);
      assert HexEncode(mac)[2 * i .. 2 * i + 2] == HexEncode(mac[1..])[2 * (i - 1) .. 2 * (i - 1) + 2];
    }
  }

  lemma ByteHexRoundTrip(b: JByte)
    ensures Signed(16 * DigitValue(ByteHex(b)[0]) + DigitValue(ByteHex(b)[1])) == b
  {
  }

  /** Decoding the device id gives back the hardware address. */
  lemma {:induction false} HexRoundTrip(mac: seq<JByte>)
    ensures HexDecode(HexEncode(mac)) == Some(mac)
  {
    if mac != [] {
      HexRoundTrip(mac[1..]);
      var s := HexEncode(mac);
      assert s[2..] == HexEncode(mac[1..]);
      ByteHexRoundTrip(mac[0]);
      assert [mac[0]] + mac[1..] == mac;
    }
  }

  /** Two hardware addresses with the same device id are equal. */
  lemma HexEncodeInjective(a: seq<JByte>, b: seq<JByte>)
    requires HexEncode(a) == HexEncode(b)
    ensures a == b
  {
    HexRoundTrip(a);
    HexRoundTrip(b);
  }

  lemma {:induction false} HexEncodeAppend(mac: seq<JByte>, b: JByte)
    ensures HexEncode(mac + [b]) == HexEncode(mac) + ByteHex(b)
  {
    if mac != [] {
      assert (mac + [b])[1..] == mac[1..] + [b];
      HexEncodeAppend(mac[1..], b);
    } else {
      assert (mac + [b])[1..] == [];
    }
  }

  /** The loop of `getDeviceId` over the hardware address, appending the
      two digits of each byte to a string builder. */
  method GetDeviceId(mac: seq<JByte>) returns (id: string)
    ensures id == HexEncode(mac)
    ensures |id| == 2 * |mac|
  {
    id := "";
    for i := 0 to |mac|
      invariant id == HexEncode(mac[..i])
    {
      HexEncodeAppend(mac[..i], mac[i]);
      assert mac[..i + 1] == mac[..i] + [mac[i]];
      id := id + ByteHex(mac[i]);
    }
    assert mac[..|mac|] == mac;
    HexEncodeShape(mac);
  }

  // ---------------------------------------------------------------------
  // Error text of a failed response.
  // ---------------------------------------------------------------------

  /** `getErrorMessageFromResponse`: the `message` member of the body when
      the body is a JSON object holding one that reads as a string; the raw
      body in every other case (the exceptions are swallowed). `parsed` is
      what the parser makes of `body`. */
  function ErrorMessage(body: string, parsed: Parsed): (r: string)
    ensures parsed.Obj? && StringField(parsed.fields, "message").Text? ==>
              r == StringField(parsed.fields, "message").s
    ensures r != body ==> parsed.Obj? && StringField(parsed.fields, "message") == Text(r)
  {
    match parsed
    case NotObject => body
    case Obj(fields) =>
      match StringField(fields, "message")
      case Text(m) => m
      case _ => body
  }

  /** The body the server sends with a rejection, `{"message": m}`. */
  function ErrorBody(m: string): Parsed {
    Obj(map["message" := Primitive(m)])
  }

  /** A server rejection's message is what the client reports. */
  lemma ErrorMessageOfErrorBody(body: string, m: string)
    ensures ErrorMessage(body, ErrorBody(m)) == m
  {
  }

  /** The extracted text is the message member exactly when one is readable,
      and the body unchanged otherwise. */
  lemma ErrorMessageCases(body: string, parsed: Parsed)
    ensures parsed.Obj? && StringField(parsed.fields, "message").Text? ==>
              ErrorMessage(body, parsed) == StringField(parsed.fields, "message").s
    ensures parsed.NotObject? ==> ErrorMessage(body, parsed) == body
    ensures parsed.Obj? && "message" !in parsed.fields ==> ErrorMessage(body, parsed) == body
    ensures parsed.Obj? && StringField(parsed.fields, "message").Unreadable? ==> ErrorMessage(body, parsed) == body
  {
  }
}
