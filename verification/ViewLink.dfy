/** Short-lived view links: minting a token for a file and a viewer, and reading it back.

    The signature is an arbitrary function of the payload that yields ASCII without a colon, as a
    hexadecimal digest does. File ids, user ids and signatures are ASCII, one byte a character. */
module ViewLink {
  import opened Clock
  import opened Wrappers
  import opened Decimal
  import opened Text
  import opened Base64

  type Sign = string -> string

  predicate IsAscii(text: string) {
    forall i :: 0 <= i < |text| ==> text[i] as int < 128
  }

  ghost predicate IsSigner(sign: Sign) {
    forall payload :: IsAscii(sign(payload)) && Without(sign(payload), ':')
  }

  function Bytes(text: string): (bytes: seq<nat>)
    requires IsAscii(text)
    ensures AreBytes(bytes)
  {
    seq(|text|, i requires 0 <= i < |text| => text[i] as int)
  }

  function Characters(bytes: seq<nat>): Option<string> {
    if exists i :: 0 <= i < |bytes| && bytes[i] >= 128 then None
    else Some(seq(|bytes|, i requires 0 <= i < |bytes| && bytes[i] < 128 => bytes[i] as char))
  }

  lemma CharactersOfBytes(text: string)
    requires IsAscii(text)
    ensures Characters(Bytes(text)) == Some(text)
  {
    assert Characters(Bytes(text)).value == text;
  }

  function Payload(file: string, user: string, expiry: nat): string {
    file + [':'] + user + [':'] + Print(expiry)
  }

  function ExpiryOf(moment: Micros, expiresIn: nat): nat
    requires moment >= 0
  {
    FloorSeconds(moment + expiresIn * SECOND)
  }

  lemma PayloadIsAscii(file: string, user: string, expiry: nat)
    requires IsAscii(file) && IsAscii(user)
    ensures IsAscii(Payload(file, user, expiry))
  {
  }

  function Grant(file: string, user: string, moment: Micros, expiresIn: nat, sign: Sign): (token: string)
    requires IsAscii(file) && IsAscii(user) && moment >= 0
        && IsAscii(sign(Payload(file, user, ExpiryOf(moment, expiresIn))))
  {
    var payload := Payload(file, user, ExpiryOf(moment, expiresIn));
    PayloadIsAscii(file, user, ExpiryOf(moment, expiresIn));
    Stripped(Encode(Bytes(payload + [':'] + sign(payload))))
  }

  datatype Verdict = Valid(file: string, user: string) | NotFound | Expired

  function Opened(token: string): Option<string> {
    var bytes := Decode(Restored(token));
    if bytes.None? then None else Characters(bytes.value)
  }

  function Verify(token: string, now: Micros, sign: Sign): Verdict {
    var text := Opened(token);
    if text.None? then NotFound else Checked(text.value, FloorSeconds(now), sign)
  }

  /** The decoded text, split from the right at its last three colons. */
  function Checked(text: string, second: int, sign: Sign): Verdict {
    var signed := CutAtLast(text, ':');
    if signed.Whole? then NotFound else
    var dated := CutAtLast(signed.head, ':');
    if dated.Whole? then NotFound else
    var owned := CutAtLast(dated.head, ':');
    if owned.Whole? then NotFound else
    if sign(owned.head + [':'] + owned.tail + [':'] + dated.tail) != signed.tail then NotFound else
    if dated.tail == "" || !AllDigits(dated.tail) then NotFound else
    if Read(dated.tail) < second then Expired else
    Valid(owned.head, owned.tail)
  }

  lemma TokenReadsBack(text: string)
    requires IsAscii(text)
    ensures Opened(Stripped(Encode(Bytes(text)))) == Some(text)
  {
    UnpaddedRoundTrip(Bytes(text));
    CharactersOfBytes(text);
  }

  lemma CutIsSplit(text: string, sep: char)
    ensures var cut := CutAtLast(text, sep);
            cut.Cut? ==> cut.head + [sep] + cut.tail == text && Without(cut.tail, sep)
  {
  }

  lemma SignedPayloadChecks(file: string, user: string, expiry: nat, second: int, sign: Sign)
    requires IsSigner(sign)
    ensures var cut, payload := CutAtLast(file + [':'] + user, ':'), Payload(file, user, expiry);
            && cut.Cut?
            && Checked(payload + [':'] + sign(payload), second, sign) ==
                 if expiry < second then Expired else Valid(cut.head, cut.tail)
  {
    var payload := Payload(file, user, expiry);
    CutIsInverse(payload, ':', sign(payload));
    CutIsInverse(file + [':'] + user, ':', Print(expiry));
    LastIsNotBefore(file + [':'] + user, ':', |file|);
    CutIsSplit(file + [':'] + user, ':');
    ReadPrint(expiry);
  }

  /** The text of a link: file, viewer, date and signature, where only the file may hold colons, the date is a
      number and the signature is the signer's for what stands before it. */
  ghost predicate IsSignedText(text: string, file: string, user: string, date: string, signature: string, sign: Sign) {
    && text == file + ":" + user + ":" + date + ":" + signature
    && Without(user, ':') && Without(date, ':') && Without(signature, ':')
    && date != "" && (forall i :: 0 <= i < |date| ==> '0' <= date[i] <= '9')
    && signature == sign(file + ":" + user + ":" + date)
  }

  /** A text is split in one way only. */
  lemma SignedTextSplits(text: string, file: string, user: string, date: string, signature: string, sign: Sign)
    requires IsSignedText(text, file, user, date, signature, sign)
    ensures CutAtLast(text, ':') == Cut(file + ":" + user + ":" + date, signature)
    ensures CutAtLast(file + ":" + user + ":" + date, ':') == Cut(file + ":" + user, date)
    ensures CutAtLast(file + ":" + user, ':') == Cut(file, user)
  {
    CutIsInverse(file + ":" + user + ":" + date, ':', signature);
    CutIsInverse(file + ":" + user, ':', date);
    CutIsInverse(file, ':', user);
  }

  lemma SignedTextIsChecked(text: string, file: string, user: string, date: string, signature: string, second: int,
                            sign: Sign)
    requires IsSignedText(text, file, user, date, signature, sign)
    ensures Checked(text, second, sign) == if Read(date) < second then Expired else Valid(file, user)
  {
    SignedTextSplits(text, file, user, date, signature, sign);
  }

  lemma CheckedTextIsSigned(text: string, second: int, sign: Sign) returns (date: string, file: string, user: string)
    requires !Checked(text, second, sign).NotFound?
    ensures exists signature :: IsSignedText(text, file, user, date, signature, sign)
  {
    var signed := CutAtLast(text, ':');
    var dated := CutAtLast(signed.head, ':');
    var owned := CutAtLast(dated.head, ':');
    CutIsSplit(text, ':');
    CutIsSplit(signed.head, ':');
    CutIsSplit(dated.head, ':');
    date, file, user := dated.tail, owned.head, owned.tail;
    assert IsSignedText(text, file, user, date, signed.tail, sign);
  }

  /** Which tokens open a file, for every token, moment and signer: those whose text is signed and dated no
      earlier than now, and no others. */
  lemma LinkOpensIff(token: string, now: Micros, sign: Sign, file: string, user: string)
    ensures Verify(token, now, sign) == Valid(file, user) <==>
      Opened(token).Some? &&
      exists date, signature ::
        IsSignedText(Opened(token).value, file, user, date, signature, sign) && Read(date) >= FloorSeconds(now)
  {
    if Verify(token, now, sign) == Valid(file, user) {
      var date, f, u := CheckedTextIsSigned(Opened(token).value, FloorSeconds(now), sign);
      var signature :| IsSignedText(Opened(token).value, f, u, date, signature, sign);
      SignedTextIsChecked(Opened(token).value, f, u, date, signature, FloorSeconds(now), sign);
    }
    if Opened(token).Some? {
      forall date, signature | IsSignedText(Opened(token).value, file, user, date, signature, sign)
        ensures Verify(token, now, sign) == if Read(date) < FloorSeconds(now) then Expired else Valid(file, user)
      {
        SignedTextIsChecked(Opened(token).value, file, user, date, signature, FloorSeconds(now), sign);
      }
    }
  }

  /** Which tokens are reported as expired: signed ones with an earlier date. Everything else is not found. */
  lemma LinkIsExpiredIff(token: string, now: Micros, sign: Sign)
    ensures Verify(token, now, sign) == Expired <==>
      Opened(token).Some? &&
      exists file, user, date, signature ::
        IsSignedText(Opened(token).value, file, user, date, signature, sign) && Read(date) < FloorSeconds(now)
  {
    if Verify(token, now, sign) == Expired {
      var date, f, u := CheckedTextIsSigned(Opened(token).value, FloorSeconds(now), sign);
      var signature :| IsSignedText(Opened(token).value, f, u, date, signature, sign);
      SignedTextIsChecked(Opened(token).value, f, u, date, signature, FloorSeconds(now), sign);
    }
    if Opened(token).Some? {
      forall file, user, date, signature | IsSignedText(Opened(token).value, file, user, date, signature, sign)
        ensures Verify(token, now, sign) == if Read(date) < FloorSeconds(now) then Expired else Valid(file, user)
      {
        SignedTextIsChecked(Opened(token).value, file, user, date, signature, FloorSeconds(now), sign);
      }
    }
  }

  function TokenOf(text: string): string
    requires IsAscii(text)
  {
    Stripped(Encode(Bytes(text)))
  }

  /** A link whose file, viewer or expiry is changed under its old signature is not found at any time, unless the
      signer gives both payloads that signature. */
  lemma TamperedLinkIsNotFound(file: string, user: string, expiry: nat, signed: string, sign: Sign, now: Micros)
    requires IsAscii(file) && IsAscii(user) && Without(user, ':') && IsSigner(sign)
    ensures var payload := Payload(file, user, expiry);
            && IsAscii(payload + ":" + sign(signed))
            && (sign(payload) != sign(signed) ==> Verify(TokenOf(payload + ":" + sign(signed)), now, sign) == NotFound)
  {
    var payload, date := Payload(file, user, expiry), Print(expiry);
    var text := payload + ":" + sign(signed);
    PayloadIsAscii(file, user, expiry);
    TokenReadsBack(text);
    CutIsInverse(payload, ':', sign(signed));
    CutIsInverse(file + [':'] + user, ':', date);
    CutIsInverse(file, ':', user);
  }

  /** What a granted token reads back as: always the same bytes up to the signature, split at the last
      colon before the expiry. */
  lemma GrantReadsBack(file: string, user: string, moment: Micros, expiresIn: nat, sign: Sign, now: Micros)
    requires IsAscii(file) && IsAscii(user) && moment >= 0 && IsSigner(sign)
    ensures var cut := CutAtLast(file + [':'] + user, ':');
            && cut.Cut?
            && Verify(Grant(file, user, moment, expiresIn, sign), now, sign) ==
                 if ExpiryOf(moment, expiresIn) < FloorSeconds(now) then Expired else Valid(cut.head, cut.tail)
  {
    var expiry := ExpiryOf(moment, expiresIn);
    var payload := Payload(file, user, expiry);
    PayloadIsAscii(file, user, expiry);
    TokenReadsBack(payload + [':'] + sign(payload));
    SignedPayloadChecks(file, user, expiry, FloorSeconds(now), sign);
  }

  /** A granted link names exactly its file and its viewer, at every time up to its expiry second, exactly
      when the viewer's id has no colon; the file's id may hold any. */
  lemma LinkNamesItsViewerIff(file: string, user: string, moment: Micros, expiresIn: nat, sign: Sign, now: Micros)
    requires IsAscii(file) && IsAscii(user) && moment >= 0 && IsSigner(sign)
    requires FloorSeconds(now) <= ExpiryOf(moment, expiresIn)
    ensures Verify(Grant(file, user, moment, expiresIn, sign), now, sign) == Valid(file, user) <==> Without(user, ':')
  {
    GrantReadsBack(file, user, moment, expiresIn, sign, now);
    if Without(user, ':') {
      CutIsInverse(file, ':', user);
    } else {
      CutIsSplit(file + [':'] + user, ':');
    }
  }

  /** The text of a UUID, which is what user ids are. */
  predicate IsUuid(text: string) {
    && |text| == 36
    && forall i :: 0 <= i < 36 ==> if i in {8, 13, 18, 23} then text[i] == '-' else IsHex(text[i])
  }

  predicate IsHex(c: char) {
    '0' <= c <= '9' || 'a' <= c <= 'f'
  }

  /** For every file, every viewer and every moment: until the expiry second a link names exactly its file and
      viewer, and afterwards it reports that it has expired. */
  lemma LinkNamesItsViewer(file: string, user: string, moment: Micros, expiresIn: nat, sign: Sign, now: Micros)
    requires IsAscii(file) && IsUuid(user) && moment >= 0 && IsSigner(sign)
    ensures IsAscii(user)
    ensures Verify(Grant(file, user, moment, expiresIn, sign), now, sign) ==
              if FloorSeconds(now) <= ExpiryOf(moment, expiresIn) then Valid(file, user) else Expired
  {
    assert Without(user, ':');
    GrantReadsBack(file, user, moment, expiresIn, sign, now);
    CutIsInverse(file, ':', user);
  }

  /** A link works for at least the time promised, and once its expiry second is over it reports that
      it has expired, for any file and viewer. */
  lemma LinkExpiresOnTime(file: string, user: string, moment: Micros, expiresIn: nat, sign: Sign, now: Micros)
    requires IsAscii(file) && IsAscii(user) && moment >= 0 && IsSigner(sign)
    ensures Verify(Grant(file, user, moment, expiresIn, sign), now, sign) == Expired <==>
        now >= (ExpiryOf(moment, expiresIn) + 1) * SECOND
    ensures now <= moment + expiresIn * SECOND ==> Verify(Grant(file, user, moment, expiresIn, sign), now, sign).Valid?
    ensures now >= moment + (expiresIn + 1) * SECOND ==>
        Verify(Grant(file, user, moment, expiresIn, sign), now, sign) == Expired
  {
    GrantReadsBack(file, user, moment, expiresIn, sign, now);
  }

  /** Two grants share a token only when they agree on file, viewer and expiry. */
  lemma TokensAreDistinct(file: string, user: string, moment: Micros, otherFile: string, otherUser: string,
                          otherMoment: Micros, expiresIn: nat, sign: Sign)
    requires IsAscii(file) && IsAscii(user) && moment >= 0 && Without(user, ':')
    requires IsAscii(otherFile) && IsAscii(otherUser) && otherMoment >= 0 && Without(otherUser, ':')
    requires IsSigner(sign)
    ensures Grant(file, user, moment, expiresIn, sign) == Grant(otherFile, otherUser, otherMoment, expiresIn, sign) <==>
      file == otherFile && user == otherUser && ExpiryOf(moment, expiresIn) == ExpiryOf(otherMoment, expiresIn)
  {
    var expiry, otherExpiry := ExpiryOf(moment, expiresIn), ExpiryOf(otherMoment, expiresIn);
    var now := (if expiry < otherExpiry then expiry else otherExpiry) * SECOND;
    LinkNamesItsViewerIff(file, user, moment, expiresIn, sign, now);
    LinkNamesItsViewerIff(otherFile, otherUser, otherMoment, expiresIn, sign, now);
    var later := (if expiry < otherExpiry then otherExpiry else expiry) * SECOND;
    LinkExpiresOnTime(file, user, moment, expiresIn, sign, later);
    LinkExpiresOnTime(otherFile, otherUser, otherMoment, expiresIn, sign, later);
  }
}
