/**
 Approval links: printed from their claims and signed, and accepted only when printing what was
 read gives the same string back.  The keyed digest is any function to 64 hexadecimal digits.
 */
module Tokens {
  import opened Wrappers
  import opened Clock
  import opened Numerals

  const PREFIX := ['a', '1']
  const UUID_DIGITS := 32
  const MAC_DIGITS := 64
  const EXPIRY_DIGITS := 11

  datatype Claims = Claims(tenant: nat, request: nat, link: nat, expiresAt: Time)

  type Mac = string -> string

  ghost predicate Signs(mac: Mac) {
    forall payload :: |mac(payload)| == MAC_DIGITS && Digits(Sixteen, mac(payload))
  }

  predicate Uuids(c: Claims) {
    c.tenant < Power(Sixteen, UUID_DIGITS) && c.request < Power(Sixteen, UUID_DIGITS) && c.link < Power(Sixteen, UUID_DIGITS)
  }

  /** str(int(timestamp)). */
  function SecondsText(t: Time): string {
    if Seconds(t) < 0 then ['-'] + Decimal(-Seconds(t)) else Decimal(Seconds(t))
  }

  function Fields(c: Claims): seq<string> {
    [PREFIX, Padded(Sixteen, c.tenant, UUID_DIGITS), Padded(Sixteen, c.request, UUID_DIGITS), Padded(Sixteen, c.link, UUID_DIGITS),
     SecondsText(c.expiresAt)]
  }

  function Issue(mac: Mac, c: Claims): string {
    var payload := Join(Fields(c));
    payload + ['.'] + mac(payload)
  }

  predicate IsUuid(s: string) {
    |s| == UUID_DIGITS && Digits(Sixteen, s)
  }

  /** The regular expression, piece by piece: no piece can contain a dot. */
  predicate Shaped(parts: seq<string>) {
    && |parts| == 6 && parts[0] == PREFIX && IsUuid(parts[1]) && IsUuid(parts[2]) && IsUuid(parts[3])
    && 1 <= |parts[4]| <= EXPIRY_DIGITS && Digits(Ten, parts[4])
    && |parts[5]| == MAC_DIGITS && Digits(Sixteen, parts[5])
  }

  function Read(parts: seq<string>): Claims
    requires Shaped(parts)
  {
    Claims(ValueOf(Sixteen, parts[1]), ValueOf(Sixteen, parts[2]), ValueOf(Sixteen, parts[3]), ValueOf(Ten, parts[4]) * SECOND)
  }

  function Verify(mac: Mac, value: string): Option<Claims> {
    var parts := Split(value);
    if !Shaped(parts) || mac(Join(parts[..5])) != parts[5] then None
    else if Issue(mac, Read(parts)) != value then None
    else Some(Read(parts))
  }

  /** A whole number of seconds that prints with at most eleven digits. */
  predicate Printable(t: Time) {
    0 <= Seconds(t) <= 99_999_999_999 && Seconds(t) * SECOND == t
  }

  lemma ElevenDigits()
    ensures Power(Ten, EXPIRY_DIGITS) == 100_000_000_000
  {
    assert Power(Ten, 2) == 100;
    assert Power(Ten, 4) == 10_000;
    assert Power(Ten, 6) == 1_000_000;
    assert Power(Ten, 8) == 100_000_000;
    assert Power(Ten, 10) == 10_000_000_000;
  }

  lemma {:induction false} SignIsNoDigit(s: string)
    ensures !Digits(Ten, ['-'] + s)
  {
    if s != [] {
      SignIsNoDigit(s[..|s| - 1]);
      assert (['-'] + s)[..|s|] == ['-'] + s[..|s| - 1];
    }
  }

  lemma {:induction false} SignIsNoDot(s: string)
    requires Dotless(s)
    ensures Dotless(['-'] + s)
  {
    if s == [] {
      assert Dotless(['-'] + s);
    } else {
      SignIsNoDot(s[..|s| - 1]);
      assert (['-'] + s)[..|s|] == ['-'] + s[..|s| - 1];
    }
  }

  lemma SecondsTextIsDotless(t: Time)
    ensures Dotless(SecondsText(t))
  {
    var n := if Seconds(t) < 0 then -Seconds(t) else Seconds(t);
    DecimalReads(n);
    DigitsAreDotless(Ten, Decimal(n));
    SignIsNoDot(Decimal(n));
  }

  lemma UuidText(n: nat)
    requires n < Power(Sixteen, UUID_DIGITS)
    ensures IsUuid(Padded(Sixteen, n, UUID_DIGITS)) && Dotless(Padded(Sixteen, n, UUID_DIGITS))
    ensures ValueOf(Sixteen, Padded(Sixteen, n, UUID_DIGITS)) == n
  {
    PaddedReads(Sixteen, n, UUID_DIGITS);
    DigitsAreDotless(Sixteen, Padded(Sixteen, n, UUID_DIGITS));
  }

  lemma FieldsAreDotless(c: Claims)
    requires Uuids(c)
    ensures AllDotless(Fields(c))
  {
    UuidText(c.tenant);
    UuidText(c.request);
    UuidText(c.link);
    SecondsTextIsDotless(c.expiresAt);
    assert Dotless(PREFIX);
  }

  lemma SignedSplits(fields: seq<string>, signature: string)
    requires fields != [] && AllDotless(fields) && Dotless(signature)
    ensures Split(Join(fields) + ['.'] + signature) == fields + [signature]
  {
    JoinSnoc(fields, signature);
    assert AllDotless(fields + [signature]);
    SplitJoins(fields + [signature]);
  }

  /** Splitting an issued link gives its fields and its signature back. */
  lemma IssuedSplits(mac: Mac, c: Claims)
    requires Signs(mac) && Uuids(c)
    ensures Split(Issue(mac, c)) == Fields(c) + [mac(Join(Fields(c)))]
  {
    FieldsAreDotless(c);
    DigitsAreDotless(Sixteen, mac(Join(Fields(c))));
    SignedSplits(Fields(c), mac(Join(Fields(c))));
  }

  /** The expiry field of an issued link has the accepted shape exactly for these instants, and reads back. */
  lemma ExpiryText(t: Time)
    ensures 1 <= |SecondsText(t)| <= EXPIRY_DIGITS && Digits(Ten, SecondsText(t)) <==> 0 <= Seconds(t) <= 99_999_999_999
    ensures Seconds(t) >= 0 ==> ValueOf(Ten, SecondsText(t)) == Seconds(t)
  {
    ElevenDigits();
    if Seconds(t) < 0 {
      SignIsNoDigit(Decimal(-Seconds(t)));
    } else {
      DecimalReads(Seconds(t));
      DecimalLength(Seconds(t), EXPIRY_DIGITS);
    }
  }

  /** verify_link(issue_link(c)) is c if and only if the expiry is a whole second in 0..99999999999. */
  lemma RoundTripIff(mac: Mac, c: Claims)
    requires Signs(mac) && Uuids(c)
    ensures Verify(mac, Issue(mac, c)) == Some(c) <==> Printable(c.expiresAt)
  {
    var parts := Fields(c) + [mac(Join(Fields(c)))];
    IssuedSplits(mac, c);
    UuidText(c.tenant);
    UuidText(c.request);
    UuidText(c.link);
    ExpiryText(c.expiresAt);
    assert parts[..5] == Fields(c);
    assert Shaped(parts) <==> 0 <= Seconds(c.expiresAt) <= 99_999_999_999;
    if Shaped(parts) {
      assert Read(parts) == c.(expiresAt := Seconds(c.expiresAt) * SECOND);
    }
  }

  /** Whatever is accepted is exactly what issuing its claims prints, and those claims round-trip. */
  lemma AcceptedIsIssued(mac: Mac, value: string)
    requires Signs(mac) && Verify(mac, value).Some?
    ensures var c := Verify(mac, value).value;
      value == Issue(mac, c) && Uuids(c) && Printable(c.expiresAt)
  {
    var parts := Split(value);
    ValueBound(Sixteen, parts[1]);
    ValueBound(Sixteen, parts[2]);
    ValueBound(Sixteen, parts[3]);
    ValueBound(Ten, parts[4]);
    RoundTripIff(mac, Read(parts));
  }

  /** The accepted strings are exactly the issued ones: one spelling per claim, none for others. */
  lemma AcceptsExactlyIssued(mac: Mac, value: string)
    requires Signs(mac)
    ensures Verify(mac, value).Some? <==>
      exists c: Claims :: Uuids(c) && Printable(c.expiresAt) && value == Issue(mac, c)
  {
    if Verify(mac, value).Some? {
      AcceptedIsIssued(mac, value);
    }
    forall c: Claims | Uuids(c) && Printable(c.expiresAt) && value == Issue(mac, c) ensures Verify(mac, value) == Some(c) {
      RoundTripIff(mac, c);
    }
  }

  /**
   A link minted with a request carries the stored, floored expiry: what the reviewer presents reads
   back to the request's own deadline, and rebuilding it for a notice prints the same string.
   */
  lemma MintedLinkMatches(mac: Mac, c: Claims)
    requires Signs(mac) && Uuids(c) && 0 <= c.expiresAt && Seconds(c.expiresAt) <= 99_999_999_999
    ensures Issue(mac, c.(expiresAt := Floored(c.expiresAt))) == Issue(mac, c)
    ensures Verify(mac, Issue(mac, c)) == Some(c.(expiresAt := Floored(c.expiresAt)))
  {
    FlooredIsClose(c.expiresAt);
    var stored := c.(expiresAt := Floored(c.expiresAt));
    assert Fields(stored) == Fields(c);
    RoundTripIff(mac, stored);
  }
}
