/** The worker's `totp`: RFC 6238 section 4.2 over HOTP (RFC 4226 section 5.3). The
    base32 decoder and HMAC-SHA1 are parameters. */
module Totp {
  import opened Values
  import Secrets

  newtype Byte = n: int | 0 <= n < 256

  const STEP: real := 30.0
  const TWO_31: nat := 0x8000_0000
  const TWO_64: nat := 0x1_0000_0000_0000_0000

  /** The library calls `totp` relies on. */
  datatype Library = Library(decode: string -> seq<Byte>, hmac: (seq<Byte>, seq<Byte>) -> seq<Byte>) {
    ghost predicate Valid() {
      forall key, message :: |hmac(key, message)| == 20
    }
  }

  /** `'=' * (-len(value) % 8)`. */
  function Pad(value: string): string {
    value + seq((-|value|) % 8, _ => '=')
  }

  function Counter(at: real): int {
    (at / STEP).Floor
  }

  /** Big-endian bytes of `n`, `width` of them (`struct.pack('>Q', n)` for eight). */
  function BigEndian(n: nat, width: nat): (r: seq<Byte>)
    ensures |r| == width
  {
    if width == 0 then [] else BigEndian(n / 256, width - 1) + [(n % 256) as Byte]
  }

  function FromBigEndian(bytes: seq<Byte>): nat {
    if bytes == [] then 0
    else FromBigEndian(bytes[..|bytes| - 1]) * 256 + bytes[|bytes| - 1] as int
  }

  /** `digest[-1] & 15`. */
  function Offset(digest: seq<Byte>): (o: nat)
    requires digest != []
    ensures o <= 15
  {
    digest[|digest| - 1] as int % 16
  }

  /** `struct.unpack('>I', digest[o:o + 4])[0] & 0x7fffffff`. */
  function Truncate(digest: seq<Byte>): nat
    requires |digest| == 20
  {
    var o := Offset(digest);
    FromBigEndian(digest[o..o + 4]) % TWO_31
  }

  function Digit(d: nat): char
    requires d < 10
  {
    '0' + d as char
  }

  /** `f'{n:06d}'` for a number of at most `width` digits. */
  function Decimal(n: nat, width: nat): string {
    if width == 0 then "" else Decimal(n / 10, width - 1) + [Digit(n % 10)]
  }

  function DecimalValue(s: string): int {
    if s == "" then 0 else DecimalValue(s[..|s| - 1]) * 10 + (s[|s| - 1] as int - '0' as int)
  }

  /** The code for `secret` at time `at`, or none where the worker raises. */
  function Code(lib: Library, secret: Json, at: real): Option<string>
    requires lib.Valid()
  {
    if !secret.Str? || !Secrets.WorkerAccepts(secret.s) then None
    else
      var counter := Counter(at);
      if !(0 <= counter < TWO_64) then None
      else
        var key := lib.decode(Pad(Secrets.Canonical(secret.s)));
        Some(Decimal(Truncate(lib.hmac(key, BigEndian(counter, 8))) % 1000000, 6))
  }

  // ----- padding

  /** Padding completes groups of eight, and the worker accepts a length exactly when
      the amount of padding is one that RFC 4648 section 6 allows. */
  lemma PadCompletesGroups(value: string)
    ensures |Pad(value)| % 8 == 0 && value <= Pad(value)
    ensures |Pad(value)| - |value| < 8 && forall i :: |value| <= i < |Pad(value)| ==> Pad(value)[i] == '='
    ensures Secrets.WholeGroups(|value|) <==> |Pad(value)| - |value| in {0, 1, 3, 4, 6}
  {
    var n, p := |value|, (-|value|) % 8;
    assert (n + p) % 8 == 0;
    assert p == if n % 8 == 0 then 0 else 8 - n % 8;
  }

  // ----- bytes

  lemma {:induction false} BigEndianRoundTrip(n: nat, width: nat)
    requires n < Power256(width)
    ensures FromBigEndian(BigEndian(n, width)) == n
  {
    if width > 0 {
      assert n / 256 < Power256(width - 1);
      BigEndianRoundTrip(n / 256, width - 1);
      var r := BigEndian(n, width);
      assert r[..|r| - 1] == BigEndian(n / 256, width - 1);
    }
  }

  function Power256(k: nat): nat {
    if k == 0 then 1 else 256 * Power256(k - 1)
  }

  /** The eight counter bytes determine the counter. */
  lemma CounterBytes(n: nat)
    requires n < TWO_64
    ensures FromBigEndian(BigEndian(n, 8)) == n
  {
    assert Power256(4) == 256 * (256 * (256 * (256 * Power256(0))));
    assert Power256(8) == 256 * (256 * (256 * (256 * Power256(4))));
    BigEndianRoundTrip(n, 8);
  }

  /** Clearing the top bit of the word is the byte-wise formula of RFC 4226 section
      5.4, and the slice never leaves the digest. */
  lemma TruncationByBytes(digest: seq<Byte>)
    requires |digest| == 20
    ensures var o := digest[19] as int % 16;
            o + 4 <= |digest| &&
            Truncate(digest) == (digest[o] as int % 128) * 0x100_0000 + digest[o + 1] as int * 0x1_0000
                                + digest[o + 2] as int * 0x100 + digest[o + 3] as int
  {
    var o := Offset(digest);
    var w := digest[o..o + 4];
    FourBytes(w);
    var b, low := w[0] as int, w[1] as int * 0x1_0000 + w[2] as int * 0x100 + w[3] as int;
    assert b == b / 128 * 128 + b % 128;
    assert FromBigEndian(w) == b / 128 * TWO_31 + ((b % 128) * 0x100_0000 + low);
    assert 0 <= (b % 128) * 0x100_0000 + low < TWO_31;
  }

  /** The example of RFC 4226 section 5.4: the last byte points at bytes 10 to 13. */
  lemma ExampleDigest(digest: seq<Byte>)
    requires |digest| == 20 && digest[19] == 0x5a
    requires digest[10] == 0x50 && digest[11] == 0xef && digest[12] == 0x7f && digest[13] == 0x19
    ensures Truncate(digest) == 0x50ef7f19 && Truncate(digest) % 1000000 == 872921
  {
    TruncationByBytes(digest);
  }

  lemma FourBytes(w: seq<Byte>)
    requires |w| == 4
    ensures FromBigEndian(w) == w[0] as int * 0x100_0000 + w[1] as int * 0x1_0000 + w[2] as int * 0x100 + w[3] as int
  {
    assert w[..3][..2] == w[..2] && w[..2][..1] == w[..1] && w[..1][..0] == [];
    assert FromBigEndian(w[..1]) == w[0] as int;
    assert FromBigEndian(w[..2]) == w[0] as int * 256 + w[1] as int;
    assert FromBigEndian(w[..3]) == (w[0] as int * 256 + w[1] as int) * 256 + w[2] as int;
  }

  // ----- digits

  predicate Digits(s: string) {
    forall i :: 0 <= i < |s| ==> '0' <= s[i] <= '9'
  }

  function Power10(k: nat): nat {
    if k == 0 then 1 else 10 * Power10(k - 1)
  }

  lemma {:induction false} DecimalDenotes(n: nat, width: nat)
    requires n < Power10(width)
    ensures |Decimal(n, width)| == width && Digits(Decimal(n, width)) && DecimalValue(Decimal(n, width)) == n
  {
    if width > 0 {
      assert n / 10 < Power10(width - 1);
      DecimalDenotes(n / 10, width - 1);
      var r := Decimal(n, width);
      assert r[..|r| - 1] == Decimal(n / 10, width - 1);
    }
  }

  /** There is a code exactly for a text secret whose canonical form is base32 of 16 to 128
      characters without an impossible last group, and a time from the epoch on whose
      counter fits eight bytes. */
  lemma CodeExists(lib: Library, secret: Json, at: real)
    requires lib.Valid()
    ensures Code(lib, secret, at).Some? <==>
            && secret.Str? && 16 <= |Secrets.Canonical(secret.s)| <= 128
            && (forall c :: c in Secrets.Canonical(secret.s) ==> 'A' <= c <= 'Z' || '2' <= c <= '7')
            && |Secrets.Canonical(secret.s)| % 8 !in {1, 3, 6}
            && 0.0 <= at < 30.0 * 0x1_0000_0000_0000_0000 as real
  {
    CounterBounds(at);
    if secret.Str? {
      Secrets.AcceptedExactly(secret.s);
    }
    assert Counter(at) >= 0 <==> at >= 0.0;
    assert Counter(at) < TWO_64 <==> at < 30.0 * 0x1_0000_0000_0000_0000 as real;
  }

  /** Every code is six digits denoting the truncated word modulo a million. */
  lemma CodeIsSixDigits(lib: Library, secret: Json, at: real)
    requires lib.Valid() && Code(lib, secret, at).Some?
    ensures var code := Code(lib, secret, at).value;
            |code| == 6 && Digits(code) &&
            DecimalOfSix(code) == DecimalValue(code) &&
            DecimalValue(code) == Truncate(lib.hmac(lib.decode(Pad(Secrets.Canonical(secret.s))),
                                                    BigEndian(Counter(at), 8))) % 1000000
  {
    assert Power10(2) == 100 && Power10(4) == 10000 && Power10(6) == 1000000;
    var n := Truncate(lib.hmac(lib.decode(Pad(Secrets.Canonical(secret.s))), BigEndian(Counter(at), 8))) % 1000000;
    DecimalDenotes(n, 6);
    SixDigits(Decimal(n, 6));
  }

  /** The number that six digits show, the first one the most significant. */
  function DecimalOfSix(s: string): int
    requires |s| == 6
  {
    (s[0] as int - '0' as int) * 100000 + (s[1] as int - '0' as int) * 10000 + (s[2] as int - '0' as int) * 1000
    + (s[3] as int - '0' as int) * 100 + (s[4] as int - '0' as int) * 10 + (s[5] as int - '0' as int)
  }

  lemma OneMoreDigit(s: string, k: nat)
    requires k < |s|
    ensures DecimalValue(s[..k + 1]) == DecimalValue(s[..k]) * 10 + (s[k] as int - '0' as int)
  {
    assert s[..k + 1][..k] == s[..k];
  }

  lemma SixDigits(s: string)
    requires |s| == 6
    ensures DecimalValue(s) == DecimalOfSix(s)
  {
    OneMoreDigit(s, 0);
    OneMoreDigit(s, 1);
    OneMoreDigit(s, 2);
    OneMoreDigit(s, 3);
    OneMoreDigit(s, 4);
    OneMoreDigit(s, 5);
    assert s[..6] == s && s[..0] == "";
  }

  /** The text the service stores produces the same codes as the text it was sent, at
      every time. */
  lemma StoredSecretSameCodes(lib: Library, secret: string, at: real)
    requires lib.Valid()
    ensures Code(lib, Str(Secrets.ServiceForm(secret)), at) == Code(lib, Str(secret), at)
  {
    Secrets.SameSecret(secret);
  }

  // ----- the verification window

  /** `31 - time.time() % 30`. */
  function WindowWait(at: real): real {
    31.0 - (at - STEP * Counter(at) as real)
  }

  /** Waiting from `at` lands one second into the very next time step; a login that
      starts any later is in a later step than every login that ended by `at`. */
  lemma NextWindow(at: real, done: real, start: real)
    requires done <= at && start >= at + WindowWait(at)
    ensures 1.0 < WindowWait(at) <= 31.0
    ensures Counter(at + WindowWait(at)) == Counter(at) + 1
    ensures at + WindowWait(at) == 30.0 * (Counter(at) + 1) as real + 1.0
    ensures 30.0 * Counter(at) as real <= at < 30.0 * (Counter(at) + 1) as real
    ensures Counter(done) <= Counter(at) < Counter(start)
  {
    CounterBounds(at);
    CounterUnique(at + WindowWait(at), Counter(at) + 1);
    CounterMonotone(done, at);
    CounterMonotone(at + WindowWait(at), start);
  }

  lemma CounterBounds(at: real)
    ensures STEP * Counter(at) as real <= at < STEP * (Counter(at) + 1) as real
  {
    var q := at / STEP;
    assert q.Floor as real <= q < (q.Floor + 1) as real;
    assert at == STEP * q;
  }

  lemma CounterUnique(at: real, k: int)
    requires STEP * k as real <= at < STEP * (k + 1) as real
    ensures Counter(at) == k
  {
    CounterBounds(at);
  }

  lemma CounterMonotone(a: real, b: real)
    requires a <= b
    ensures Counter(a) <= Counter(b)
  {
    CounterBounds(a);
    CounterBounds(b);
  }
}
