/**
  The documents and requests of the mail service (models/mail.go), and the
  ObjectID conversions the store keys depend on.
*/
module Models {
  import opened Wrappers

  /** `Mail.Type` and `ThreadMail.Type`: 0 for a received copy, 1 for a sent one. */
  const Received: int := 0
  const Sent: int := 1

  /** A mail document: one copy per owner (`userID`). */
  datatype Mail = Mail(
    id: string,
    from: string,
    to: seq<string>,
    cc: seq<string>,
    bcc: seq<string>,
    subject: string,
    content: string,
    mailType: int,
    replyTo: string,
    threadID: string,
    userID: string,
    createdAt: int)

  /** A request to send a mail. */
  datatype MailRequest = MailRequest(
    from: string,
    to: seq<string>,
    cc: seq<string>,
    bcc: seq<string>,
    subject: string,
    content: string,
    replyTo: string)

  datatype ListMailsRequest = ListMailsRequest(userID: string, limit: int, offset: int)

  datatype SearchMailsRequest = SearchMailsRequest(userID: string, searchTerm: string, limit: int)

  /** A mail reference stored inside a thread document. */
  datatype ThreadMail = ThreadMail(
    from: string,
    msgID: string,
    subject: string,
    content: string,
    cc: seq<string>,
    to: seq<string>,
    bcc: seq<string>,
    mailType: int)

  /** A thread document: one per (owner, thread id). */
  datatype Thread = Thread(threadID: string, mails: seq<ThreadMail>, totalMails: int, userID: string)

  predicate IsHexDigit(c: char) {
    ('0' <= c <= '9') || ('a' <= c <= 'f') || ('A' <= c <= 'F')
  }

  predicate IsLowerHexDigit(c: char) {
    ('0' <= c <= '9') || ('a' <= c <= 'f')
  }

  function LowerHexDigit(c: char): (d: char)
    requires IsHexDigit(c)
    ensures IsLowerHexDigit(d)
  {
    if 'A' <= c <= 'F' then (c as int + 32) as char else c
  }

  /** An ObjectID, written as its `Hex()` form: 24 lower-case hex digits. */
  predicate IsObjectID(s: string) {
    |s| == 24 && forall i :: 0 <= i < |s| ==> IsLowerHexDigit(s[i])
  }

  /** The zero ObjectID that `ObjectIDFromHex` returns beside its error. */
  const NilObjectID: string := "000000000000000000000000"

  // ---------------------------------------------------------------------
  // ObjectIDFromHex and its errors

  newtype byte = b: int | 0 <= b < 0x100

  /** The UTF-8 encoding of one character, as Go's `[]byte(s)` writes it:
      one byte below U+0080, otherwise a lead byte and continuation bytes,
      all of them at least 0x80. */
  function Utf8Char(c: char): (bs: seq<byte>)
    ensures 1 <= |bs| <= 4
    ensures |bs| == 1 <==> c as int < 0x80
    ensures |bs| == 1 ==> bs[0] as int == c as int
    ensures |bs| > 1 ==> forall i :: 0 <= i < |bs| ==> bs[i] >= 0x80
  {
    var n := c as int;
    if n < 0x80 then [n as byte]
    else if n < 0x800 then [(0xC0 + n / 0x40) as byte, (0x80 + n % 0x40) as byte]
    else if n < 0x1_0000 then
      [(0xE0 + n / 0x1000) as byte, (0x80 + n / 0x40 % 0x40) as byte, (0x80 + n % 0x40) as byte]
    else
      [(0xF0 + n / 0x4_0000) as byte, (0x80 + n / 0x1000 % 0x40) as byte,
       (0x80 + n / 0x40 % 0x40) as byte, (0x80 + n % 0x40) as byte]
  }

  /** Go's `[]byte(s)`; its length is Go's `len(s)`. */
  function Utf8(s: string): (bs: seq<byte>)
    decreases |s|
  {
    if |s| == 0 then [] else Utf8Char(s[0]) + Utf8(s[1..])
  }

  predicate IsHexByte(b: byte) {
    IsHexDigit((b as int) as char)
  }

  /** The first byte `hex.DecodeString` rejects: it checks the bytes pair
      by pair, each pair left to right, so in order. */
  function FirstNonHexByte(bs: seq<byte>): (r: Option<byte>)
    decreases |bs|
  {
    if |bs| == 0 then None
    else if !IsHexByte(bs[0]) then Some(bs[0])
    else FirstNonHexByte(bs[1..])
  }

  /** `FirstNonHexByte` finds nothing exactly when every byte is a hex
      digit, and otherwise the first byte that is not. */
  lemma {:induction false} FirstNonHexByteIsFirst(bs: seq<byte>)
    ensures FirstNonHexByte(bs).None? <==> forall i :: 0 <= i < |bs| ==> IsHexByte(bs[i])
    ensures FirstNonHexByte(bs).Some? ==>
      exists i :: 0 <= i < |bs| && bs[i] == FirstNonHexByte(bs).value && !IsHexByte(bs[i])
                  && forall j :: 0 <= j < i ==> IsHexByte(bs[j])
    decreases |bs|
  {
    if |bs| > 0 && IsHexByte(bs[0]) {
      var t := bs[1..];
      FirstNonHexByteIsFirst(t);
      assert forall i :: 1 <= i < |bs| ==> bs[i] == t[i - 1];
      if FirstNonHexByte(t).Some? {
        var i :| 0 <= i < |t| && t[i] == FirstNonHexByte(t).value && !IsHexByte(t[i])
                 && forall j :: 0 <= j < i ==> IsHexByte(t[j]);
        assert bs[i + 1] == t[i];
        assert forall j :: 0 <= j < i + 1 ==> IsHexByte(bs[j]);
      }
    }
  }

  /** Whether `%#U` quotes the character: strconv's `IsPrint` on Latin-1,
      printable ASCII and U+00A1 to U+00FF except the soft hyphen. */
  predicate IsPrintLatin1(b: byte) {
    (0x20 <= b <= 0x7E) || (0xA1 <= b && b != 0xAD)
  }

  function UpperHexDigit(d: int): (c: char)
    requires 0 <= d < 16
    ensures IsHexDigit(c)
  {
    if d < 10 then ('0' as int + d) as char else ('A' as int + d - 10) as char
  }

  /** The error `ObjectIDFromHex` returns for a text of another length
      than 24 bytes. */
  const ErrInvalidHex: string := "the provided hex string is not a valid ObjectID"

  /** The error prefix of `hex.InvalidByteError`. */
  const InvalidBytePrefix: string := "encoding/hex: invalid byte: "

  /** `hex.InvalidByteError(b).Error()`: the prefix, then `%#U` of the
      byte: "U+" and four upper-case hex digits, then the character quoted
      when it is printable. */
  function InvalidByteError(b: byte): string {
    InvalidBytePrefix + "U+00" + [UpperHexDigit(b as int / 16), UpperHexDigit(b as int % 16)]
    + (if IsPrintLatin1(b) then " '" + [(b as int) as char] + "'" else "")
  }

  /** `primitive.ObjectIDFromHex`: a text that is not 24 bytes long gives
      `ErrInvalidHex`; otherwise its bytes are decoded as hex, and the first
      that is no hex digit gives its `InvalidByteError`; otherwise the
      ObjectID, written in lower case. */
  function ObjectIDFromHex(s: string): (r: Result<string, string>)
    ensures r.Ok? ==> IsObjectID(r.value)
  {
    var bs := Utf8(s);
    FirstNonHexByteIsFirst(bs);
    if |bs| != 24 then Err(ErrInvalidHex)
    else
      match FirstNonHexByte(bs)
      case Some(b) => Err(InvalidByteError(b))
      case None => Ok(seq(24, i requires 0 <= i < 24 => LowerHexDigit((bs[i] as int) as char)))
  }

  /** `ObjectIDFromHex` accepts exactly the texts of 24 hex digits, of
      either case, and gives them in lower case. */
  lemma ObjectIDFromHexAccepts(s: string)
    ensures ObjectIDFromHex(s).Ok? <==> |s| == 24 && forall i :: 0 <= i < |s| ==> IsHexDigit(s[i])
    ensures ObjectIDFromHex(s).Ok? ==> forall i :: 0 <= i < 24 ==> ObjectIDFromHex(s).value[i] == LowerHexDigit(s[i])
  {
    Utf8Hex(s);
    FirstNonHexByteIsFirst(Utf8(s));
    if forall i :: 0 <= i < |s| ==> IsHexDigit(s[i]) {
      Utf8Ascii(s);
    }
  }

  /** The two errors of `ObjectIDFromHex`: a text that is not 24 bytes
      long gets `ErrInvalidHex`; one of 24 bytes that is rejected gets the
      `InvalidByteError` of its first byte that is no hex digit. */
  lemma ObjectIDFromHexErrors(s: string)
    ensures |Utf8(s)| != 24 ==> ObjectIDFromHex(s) == Err(ErrInvalidHex)
    ensures |Utf8(s)| == 24 && ObjectIDFromHex(s).Err? ==>
      exists i :: 0 <= i < 24 && ObjectIDFromHex(s).error == InvalidByteError(Utf8(s)[i]) && !IsHexByte(Utf8(s)[i])
                  && forall j :: 0 <= j < i ==> IsHexByte(Utf8(s)[j])
  {
    FirstNonHexByteIsFirst(Utf8(s));
  }

  /** The bytes of a text are all hex digits exactly when its characters
      are, and then there is one byte per character. */
  lemma {:induction false} Utf8Hex(s: string)
    ensures (forall i :: 0 <= i < |Utf8(s)| ==> IsHexByte(Utf8(s)[i])) <==> (forall i :: 0 <= i < |s| ==> IsHexDigit(s[i]))
    ensures (forall i :: 0 <= i < |s| ==> IsHexDigit(s[i])) ==> |Utf8(s)| == |s|
    decreases |s|
  {
    if |s| > 0 {
      Utf8Hex(s[1..]);
      var head := Utf8Char(s[0]);
      var tail := Utf8(s[1..]);
      assert Utf8(s) == head + tail;
      assert forall i :: 0 <= i < |tail| ==> Utf8(s)[|head| + i] == tail[i];
      assert forall i :: 0 <= i < |s[1..]| ==> s[1..][i] == s[i + 1];
      assert Utf8(s)[0] == head[0];
      if |head| > 1 {
        assert !IsHexByte(head[0]) && !IsHexDigit(s[0]);
      } else {
        assert (forall i :: 0 <= i < |Utf8(s)| ==> IsHexByte(Utf8(s)[i]))
          <==> IsHexByte(head[0]) && forall i :: 0 <= i < |tail| ==> IsHexByte(tail[i]);
        assert (forall i :: 0 <= i < |s| ==> IsHexDigit(s[i]))
          <==> IsHexDigit(s[0]) && forall i :: 0 <= i < |s[1..]| ==> IsHexDigit(s[1..][i]);
      }
    }
  }

  /** An ASCII text has one byte per character, its code. */
  lemma {:induction false} Utf8Ascii(s: string)
    requires forall i :: 0 <= i < |s| ==> s[i] as int < 0x80
    ensures |Utf8(s)| == |s| && forall i :: 0 <= i < |s| ==> Utf8(s)[i] as int == s[i] as int
    decreases |s|
  {
    if |s| > 0 {
      Utf8Ascii(s[1..]);
      assert forall i :: 1 <= i < |s| ==> Utf8(s)[i] == Utf8(s[1..])[i - 1] && s[i] == s[1..][i - 1];
    }
  }

  /** For an ASCII text the two errors are told apart by its length: not
      24 characters gives `ErrInvalidHex`, and 24 the decoding error of
      the first character that is no hex digit. */
  lemma AsciiIdErrors(s: string, i: int)
    requires forall k :: 0 <= k < |s| ==> s[k] as int < 0x80
    ensures |s| != 24 ==> ObjectIDFromHex(s) == Err(ErrInvalidHex)
    ensures |s| == 24 && 0 <= i < 24 && !IsHexDigit(s[i]) && (forall j :: 0 <= j < i ==> IsHexDigit(s[j])) ==>
      ObjectIDFromHex(s) == Err(InvalidByteError(s[i] as int as byte))
  {
    Utf8Ascii(s);
    if |s| == 24 && 0 <= i < 24 && !IsHexDigit(s[i]) && (forall j :: 0 <= j < i ==> IsHexDigit(s[j])) {
      var bs := Utf8(s);
      assert !IsHexByte(bs[i]) && forall j :: 0 <= j < i ==> IsHexByte(bs[j]);
      var r := FirstNonHexByte(bs);
      FirstNonHexByteIsFirst(bs);
      var k :| 0 <= k < |bs| && bs[k] == r.value && !IsHexByte(bs[k]) && forall j :: 0 <= j < k ==> IsHexByte(bs[j]);
      assert k == i;
    }
  }

  /** The decoding error for `z`, the first byte of 24 `z`s. */
  lemma InvalidByteZ()
    ensures InvalidByteError(0x7A) == "encoding/hex: invalid byte: U+007A 'z'"
  {
  }

  /** `id, _ := primitive.ObjectIDFromHex(s)`: the error is dropped and the
      zero ObjectID is used instead. */
  function ObjectIDOrNil(s: string): (id: string)
    ensures IsObjectID(id)
  {
    if |s| == 24 && forall i :: 0 <= i < 24 ==> IsHexDigit(s[i]) then
      seq(24, i requires 0 <= i < 24 => LowerHexDigit(s[i]))
    else NilObjectID
  }

  /** `ObjectIDOrNil` is `ObjectIDFromHex` with its error replaced by the
      zero ObjectID. */
  lemma ObjectIDOrNilDropsError(s: string)
    ensures ObjectIDOrNil(s) == match ObjectIDFromHex(s) case Ok(id) => id case Err(_) => NilObjectID
  {
    ObjectIDFromHexAccepts(s);
  }

  /** Converting an ObjectID's own hex form gives back that ObjectID. */
  lemma ObjectIDRoundTrip(id: string)
    requires IsObjectID(id)
    ensures ObjectIDFromHex(id) == Ok(id)
  {
    ObjectIDFromHexAccepts(id);
    assert ObjectIDFromHex(id).value == id;
  }
}
