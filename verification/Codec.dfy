/** A line format for log entries: a decimal sequence number, a colon, and the body with its
    newlines escaped. It shows that what the log needs of its serializer can be had. */
module Codec {
  import opened State

  type Byte = b: int | 0 <= b < 256

  const NEWLINE: Byte := 10
  const COLON: Byte := 58
  const BACKSLASH: Byte := 92
  const LOWER_N: Byte := 110

  /** `body` is everything but the sequence number, any bytes at all. */
  datatype Entry = Entry(seqNo: nat, body: seq<Byte>)

  function Digits(n: nat): (s: seq<Byte>)
    ensures s != []
    ensures forall i :: 0 <= i < |s| ==> 48 <= s[i] < 58
  {
    if n < 10 then [48 + n] else Digits(n / 10) + [48 + n % 10]
  }

  function Number(s: seq<Byte>): Option<nat> {
    if s == [] || !(48 <= s[|s| - 1] < 58) then None
    else if |s| == 1 then Some(s[0] - 48)
    else
      var high := Number(s[..|s| - 1]);
      if high.None? then None else Some(10 * high.value + s[|s| - 1] - 48)
  }

  function Escape(body: seq<Byte>): seq<Byte> {
    if body == [] then []
    else
      (if body[0] == NEWLINE then [BACKSLASH, LOWER_N]
       else if body[0] == BACKSLASH then [BACKSLASH, BACKSLASH]
       else [body[0]]) + Escape(body[1..])
  }

  function Unescape(text: seq<Byte>): Option<seq<Byte>> {
    if text == [] then Some([])
    else if text[0] != BACKSLASH then Prepend(text[0], Unescape(text[1..]))
    else if |text| >= 2 && text[1] == LOWER_N then Prepend(NEWLINE, Unescape(text[2..]))
    else if |text| >= 2 && text[1] == BACKSLASH then Prepend(BACKSLASH, Unescape(text[2..]))
    else None
  }

  function Prepend(b: Byte, rest: Option<seq<Byte>>): Option<seq<Byte>> {
    if rest.None? then None else Some([b] + rest.value)
  }

  function Encode(e: Entry): seq<Byte> {
    Digits(e.seqNo) + [COLON] + Escape(e.body)
  }

  /** The length of the part before the first colon. */
  function Head(line: seq<Byte>): (n: nat)
    ensures n <= |line|
    ensures forall i :: 0 <= i < n ==> line[i] != COLON
    ensures n < |line| ==> line[n] == COLON
  {
    if line == [] || line[0] == COLON then 0
    else
      1 + Head(line[1..])
  }

  function Decode(line: seq<Byte>): Option<Entry> {
    var n := Head(line);
    if n == |line| then None
    else
      var number, body := Number(line[..n]), Unescape(line[n + 1..]);
      if number.None? || body.None? then None else Some(Entry(number.value, body.value))
  }

  lemma {:induction false} NumberOfDigits(n: nat)
    ensures Number(Digits(n)) == Some(n)
  {
    var s := Digits(n);
    if n >= 10 {
      NumberOfDigits(n / 10);
      assert s[..|s| - 1] == Digits(n / 10);
    }
  }

  lemma {:induction false} EscapeRoundTrip(body: seq<Byte>)
    ensures Unescape(Escape(body)) == Some(body)
    ensures NEWLINE !in Escape(body)
  {
    if body != [] {
      EscapeRoundTrip(body[1..]);
      var text, rest := Escape(body), Escape(body[1..]);
      if body[0] == NEWLINE || body[0] == BACKSLASH {
        assert text[2..] == rest;
      } else {
        assert text[1..] == rest;
      }
      assert body == [body[0]] + body[1..];
    }
  }

  /** An encoded entry is one line, and it decodes to itself. */
  lemma EncodeRoundTrip(e: Entry)
    ensures Decode(Encode(e)) == Some(e)
    ensures NEWLINE !in Encode(e)
    ensures 48 <= Encode(e)[0] < 58
  {
    var line, digits := Encode(e), Digits(e.seqNo);
    NumberOfDigits(e.seqNo);
    EscapeRoundTrip(e.body);
    var n := Head(line);
    assert line[|digits|] == COLON;
    assert n == |digits|;
    assert line[..n] == digits && line[n + 1..] == Escape(e.body);
  }
}
