/** Normalisation of TOTP secrets, once by the Python worker and once by the Go
    service. ASCII only: other characters are never changed and never a space. */
module Secrets {
  import opened Values

  const PY_SPACES: set<char> := {' ', '\t', '\n', '\r', 11 as char, 12 as char,
                                 28 as char, 29 as char, 30 as char, 31 as char}
  const GO_SPACES: set<char> := {' ', '\t', '\n', '\r', 11 as char, 12 as char}
  const NEWLINES: set<char> := {'\r', '\n'}
  const BLANK: set<char> := {' '}
  const PADDING: set<char> := {'='}

  function Upper(c: char): char {
    if 'a' <= c <= 'z' then (c as int - 32) as char else c
  }

  function UpperAll(s: string): (r: string)
    ensures |r| == |s|
  {
    if s == "" then "" else UpperAll(s[..|s| - 1]) + [Upper(s[|s| - 1])]
  }

  /** `s` without the characters of `cs`. */
  function Remove(s: string, cs: set<char>): string {
    if s == "" then ""
    else
      var rest := Remove(s[..|s| - 1], cs);
      if s[|s| - 1] in cs then rest else rest + [s[|s| - 1]]
  }

  function TrimRight(s: string, cs: set<char>): string {
    if s != "" && s[|s| - 1] in cs then TrimRight(s[..|s| - 1], cs) else s
  }

  function TrimLeft(s: string, cs: set<char>): string {
    if s != "" && s[0] in cs then TrimLeft(s[1..], cs) else s
  }

  predicate Base32Char(c: char) {
    'A' <= c <= 'Z' || '2' <= c <= '7'
  }

  predicate Base32(s: string) {
    forall i :: 0 <= i < |s| ==> Base32Char(s[i])
  }

  /** The worker's `''.join(value.upper().split()).rstrip('=')`. */
  function Canonical(s: string): string {
    TrimRight(Remove(UpperAll(s), PY_SPACES), PADDING)
  }

  /** Lengths of an unpadded base32 text that its padding completes: the decoder
      refuses one, three or six characters in the last group. */
  predicate WholeGroups(n: nat) {
    n % 8 !in {1, 3, 6}
  }

  /** The worker's `totp` accepts the secret. */
  predicate WorkerAccepts(s: string) {
    var v := Canonical(s);
    16 <= |v| <= 128 && Base32(v) && WholeGroups(|v|)
  }

  /** Bytes the service's unpadded decoder produces from `n` characters; it drops an
      incomplete last group. */
  function DecodedLength(n: nat): nat {
    n / 8 * 5 + (match n % 8
                 case 2 => 1
                 case 4 => 2
                 case 5 => 3
                 case 7 => 4
                 case _ => 0)
  }

  function ServiceForm(s: string): string {
    TrimRight(Remove(UpperAll(TrimRight(TrimLeft(s, GO_SPACES), GO_SPACES)), BLANK), PADDING)
  }

  /** The service's `NormalizeOpenAITOTPSecret`. Its base32 decoder ignores line
      breaks but the returned text keeps them. */
  function ServiceNormalize(s: string): Option<string> {
    var v := ServiceForm(s);
    var digits := Remove(v, NEWLINES);
    if Base32(digits) && 10 <= DecodedLength(|digits|) <= 64 then Some(v) else None
  }

  // ----- removing and trimming characters

  lemma {:induction false} RemoveConcat(a: string, b: string, cs: set<char>)
    ensures Remove(a + b, cs) == Remove(a, cs) + Remove(b, cs)
  {
    if b == "" {
      assert a + b == a;
    } else {
      var front := b[..|b| - 1];
      assert (a + b)[..|a + b| - 1] == a + front;
      RemoveConcat(a, front, cs);
    }
  }

  lemma {:induction false} RemoveFiner(s: string, cs: set<char>, ds: set<char>)
    requires cs <= ds
    ensures Remove(Remove(s, cs), ds) == Remove(s, ds)
  {
    if s != "" {
      var front, last := s[..|s| - 1], s[|s| - 1..];
      RemoveFiner(front, cs, ds);
      assert last[..0] == "";
      RemoveConcat(Remove(front, cs), Remove(last, cs), ds);
      RemoveConcat(front, last, ds);
      assert front + last == s;
      RemoveConcat(front, last, cs);
    }
  }

  lemma {:induction false} RemoveChars(s: string, cs: set<char>)
    ensures forall c :: c in Remove(s, cs) <==> c in s && c !in cs
  {
    if s != "" {
      RemoveChars(s[..|s| - 1], cs);
      assert s == s[..|s| - 1] + [s[|s| - 1]];
    }
  }

  lemma {:induction false} RemoveNothing(s: string, cs: set<char>)
    requires forall c :: c in s ==> c !in cs
    ensures Remove(s, cs) == s
  {
    if s != "" {
      var front := s[..|s| - 1];
      assert forall c :: c in front ==> c in s;
      RemoveNothing(front, cs);
      assert s == front + [s[|s| - 1]];
    }
  }

  lemma {:induction false} RemoveTrimmedRight(s: string, cs: set<char>, ds: set<char>)
    requires cs <= ds
    ensures Remove(TrimRight(s, cs), ds) == Remove(s, ds)
  {
    if s != "" && s[|s| - 1] in cs {
      RemoveTrimmedRight(s[..|s| - 1], cs, ds);
    }
  }

  lemma {:induction false} RemoveTrimmedLeft(s: string, cs: set<char>, ds: set<char>)
    requires cs <= ds
    ensures Remove(TrimLeft(s, cs), ds) == Remove(s, ds)
  {
    if s != "" && s[0] in cs {
      RemoveTrimmedLeft(s[1..], cs, ds);
      assert s == s[..1] + s[1..];
      assert s[..1][..0] == "";
      RemoveConcat(s[..1], s[1..], ds);
    }
  }

  /** Trimming padding before or after removing spaces ends in the same text. */
  lemma {:induction false} TrimAroundRemove(s: string, cs: set<char>, ds: set<char>)
    requires cs !! ds
    ensures TrimRight(Remove(TrimRight(s, cs), ds), cs) == TrimRight(Remove(s, ds), cs)
  {
    if s != "" && s[|s| - 1] in cs {
      var front := s[..|s| - 1];
      TrimAroundRemove(front, cs, ds);
      assert Remove(s, ds) == Remove(front, ds) + [s[|s| - 1]];
      assert Remove(s, ds)[..|Remove(s, ds)| - 1] == Remove(front, ds);
    }
  }

  lemma {:induction false} TrimRightTwice(s: string, cs: set<char>)
    ensures TrimRight(TrimRight(s, cs), cs) == TrimRight(s, cs)
  {
    if s != "" && s[|s| - 1] in cs {
      TrimRightTwice(s[..|s| - 1], cs);
    }
  }

  lemma {:induction false} TrimRightPrefix(s: string, cs: set<char>)
    ensures TrimRight(s, cs) <= s
    ensures TrimRight(s, cs) == s || s[|s| - 1] in cs
  {
    if s != "" && s[|s| - 1] in cs {
      TrimRightPrefix(s[..|s| - 1], cs);
    }
  }

  lemma {:induction false} TrimLeftSuffix(s: string, cs: set<char>)
    ensures exists k :: 0 <= k <= |s| && TrimLeft(s, cs) == s[k..]
  {
    if s != "" && s[0] in cs {
      TrimLeftSuffix(s[1..], cs);
      var k :| 0 <= k <= |s[1..]| && TrimLeft(s[1..], cs) == s[1..][k..];
      assert TrimLeft(s, cs) == s[k + 1..];
    } else {
      assert TrimLeft(s, cs) == s[0..];
    }
  }

  // ----- upper case

  lemma {:induction false} UpperAt(s: string, i: nat)
    requires i < |s|
    ensures UpperAll(s)[i] == Upper(s[i])
  {
    if i < |s| - 1 {
      UpperAt(s[..|s| - 1], i);
    }
  }

  lemma UpperConcat(a: string, b: string)
    ensures UpperAll(a + b) == UpperAll(a) + UpperAll(b)
  {
    forall i | 0 <= i < |a + b| ensures UpperAll(a + b)[i] == (UpperAll(a) + UpperAll(b))[i] {
      UpperAt(a + b, i);
      if i < |a| {
        UpperAt(a, i);
      } else {
        UpperAt(b, i - |a|);
      }
    }
  }

  predicate Uppercase(s: string) {
    forall i :: 0 <= i < |s| ==> Upper(s[i]) == s[i]
  }

  lemma UpperIsUppercase(s: string)
    ensures Uppercase(UpperAll(s))
  {
    forall i | 0 <= i < |s| ensures Upper(UpperAll(s)[i]) == UpperAll(s)[i] {
      UpperAt(s, i);
    }
  }

  lemma UppercaseFixed(s: string)
    requires Uppercase(s)
    ensures UpperAll(s) == s
  {
    forall i | 0 <= i < |s| ensures UpperAll(s)[i] == s[i] {
      UpperAt(s, i);
    }
  }

  lemma UppercaseByChars(s: string, t: string)
    requires Uppercase(s) && forall c :: c in t ==> c in s
    ensures Uppercase(t)
  {
    forall i | 0 <= i < |t| ensures Upper(t[i]) == t[i] {
      assert t[i] in t;
    }
  }

  // ----- the two normalisations

  lemma RemoveUppercase(s: string, cs: set<char>)
    requires Uppercase(s)
    ensures Uppercase(Remove(s, cs))
  {
    RemoveChars(s, cs);
    UppercaseByChars(s, Remove(s, cs));
  }

  lemma TrimRightUppercase(s: string, cs: set<char>)
    requires Uppercase(s)
    ensures Uppercase(TrimRight(s, cs))
  {
    TrimRightPrefix(s, cs);
  }

  /** Trimming at both ends commutes with upper case and disappears once spaces are
      removed. */
  lemma TrimmedSameText(s: string)
    ensures var t := TrimRight(TrimLeft(s, GO_SPACES), GO_SPACES);
            Remove(UpperAll(t), PY_SPACES) == Remove(UpperAll(s), PY_SPACES)
  {
    UpperTrimRight(TrimLeft(s, GO_SPACES));
    UpperTrimLeft(s);
    RemoveTrimmedRight(UpperAll(TrimLeft(s, GO_SPACES)), GO_SPACES, PY_SPACES);
    RemoveTrimmedLeft(UpperAll(s), GO_SPACES, PY_SPACES);
  }

  lemma {:induction false} UpperTrimRight(s: string)
    ensures UpperAll(TrimRight(s, GO_SPACES)) == TrimRight(UpperAll(s), GO_SPACES)
  {
    if s != "" && s[|s| - 1] in GO_SPACES {
      UpperTrimRight(s[..|s| - 1]);
      assert UpperAll(s)[..|s| - 1] == UpperAll(s[..|s| - 1]);
    }
  }

  lemma {:induction false} UpperTrimLeft(s: string)
    ensures UpperAll(TrimLeft(s, GO_SPACES)) == TrimLeft(UpperAll(s), GO_SPACES)
  {
    if s != "" {
      UpperAt(s, 0);
      if s[0] in GO_SPACES {
        UpperTrimLeft(s[1..]);
        UpperConcat(s[..1], s[1..]);
        assert s[..1] + s[1..] == s;
      }
    }
  }

  /** Whatever the service stores is, to the worker, the same secret as the one that
      was sent. */
  lemma SameSecret(s: string)
    ensures Canonical(ServiceForm(s)) == Canonical(s)
  {
    var u := UpperAll(TrimRight(TrimLeft(s, GO_SPACES), GO_SPACES));
    var y := Remove(u, BLANK);
    var v := TrimRight(y, PADDING);
    UpperIsUppercase(TrimRight(TrimLeft(s, GO_SPACES), GO_SPACES));
    RemoveUppercase(u, BLANK);
    TrimRightUppercase(y, PADDING);
    UppercaseFixed(v);
    TrimAroundRemove(y, PADDING, PY_SPACES);
    RemoveFiner(u, BLANK, PY_SPACES);
    TrimmedSameText(s);
  }

  lemma CanonicalIdempotent(s: string)
    ensures Canonical(Canonical(s)) == Canonical(s)
  {
    var u := UpperAll(s);
    var r := Remove(u, PY_SPACES);
    var v := TrimRight(r, PADDING);
    UpperIsUppercase(s);
    RemoveUppercase(u, PY_SPACES);
    TrimRightUppercase(r, PADDING);
    UppercaseFixed(v);
    RemoveChars(u, PY_SPACES);
    TrimRightPrefix(r, PADDING);
    assert forall c :: c in v ==> c in r;
    RemoveNothing(v, PY_SPACES);
    TrimRightTwice(r, PADDING);
  }

  lemma CanonicalOfBase32(s: string)
    requires Base32(s)
    ensures Canonical(s) == s && ServiceForm(s) == s && Remove(s, NEWLINES) == s
  {
    UppercaseFixed(s);
    assert forall c :: c in s ==> Base32Char(c);
    RemoveNothing(s, PY_SPACES);
    RemoveNothing(s, BLANK);
    RemoveNothing(s, NEWLINES);
    assert s != "" ==> s[|s| - 1] in s;
    assert s != "" ==> s[0] in s;
  }

  /** The text the service stores differs from the worker's canonical text exactly
      when it kept a line break. */
  lemma StoredTextIsCanonical(s: string)
    requires ServiceNormalize(s).Some?
    ensures ServiceNormalize(s).value == Canonical(s)
            <==> forall c :: c in NEWLINES ==> c !in ServiceForm(s)
  {
    var v := ServiceForm(s);
    SameSecret(s);
    RemoveChars(v, NEWLINES);
    if forall c :: c in NEWLINES ==> c !in v {
      RemoveNothing(v, NEWLINES);
      CanonicalOfBase32(v);
    } else {
      RemoveChars(UpperAll(v), PY_SPACES);
      TrimRightPrefix(Remove(UpperAll(v), PY_SPACES), PADDING);
      assert forall c :: c in Canonical(v) ==> c in Remove(UpperAll(v), PY_SPACES);
    }
  }

  lemma DecodedBounds(n: nat)
    ensures 10 <= DecodedLength(n) <= 64 <==> 16 <= n <= 103
  {
    var q, last := n / 8, DecodedLength(n) - n / 8 * 5;
    assert 0 <= last <= 4;
    assert 10 <= DecodedLength(n) <= 64 <==> 2 <= q <= 12;
    assert 16 <= n <= 103 <==> 2 <= q <= 12;
  }

  // ----- what the canonical form depends on

  /** What the worker computes codes for: base32 text of 16 to 128 characters whose last
      group is possible. */
  lemma AcceptedExactly(s: string)
    ensures WorkerAccepts(s) <==>
            && 16 <= |Canonical(s)| <= 128 && |Canonical(s)| % 8 !in {1, 3, 6}
            && (forall c :: c in Canonical(s) ==> 'A' <= c <= 'Z' || '2' <= c <= '7')
  {
    var v := Canonical(s);
    assert forall i :: 0 <= i < |v| ==> v[i] in v;
    forall c | c in v ensures exists i :: 0 <= i < |v| && v[i] == c {
      var i := Position(v, c);
    }
  }

  /** The canonical form has no white space and no small letters, and no padding at its
      end. */
  lemma CanonicalShape(s: string)
    ensures forall c :: c in Canonical(s) ==>
              !('a' <= c <= 'z') && c !in {' ', '\t', '\n', '\r', 11 as char, 12 as char, 28 as char, 29 as char, 30 as char, 31 as char}
    ensures Canonical(s) != "" ==> Canonical(s)[|Canonical(s)| - 1] != '='
  {
    var u := UpperAll(s);
    var r := Remove(u, PY_SPACES);
    RemoveChars(u, PY_SPACES);
    TrimRightPrefix(r, PADDING);
    TrimmedEnd(r, PADDING);
    forall c | c in Canonical(s) ensures c in u && c !in PY_SPACES && !('a' <= c <= 'z') {
      assert c in r;
      var i := Position(u, c);
      UpperAt(s, i);
    }
  }

  lemma {:induction false} TrimmedEnd(s: string, cs: set<char>)
    ensures var t := TrimRight(s, cs); t != "" ==> t[|t| - 1] !in cs
  {
    if s != "" && s[|s| - 1] in cs {
      TrimmedEnd(s[..|s| - 1], cs);
    }
  }

  /** `t` is `s` with some of its small letters in upper case. */
  predicate Capitalised(s: string, t: string) {
    |s| == |t| && forall i :: 0 <= i < |s| ==> t[i] == s[i] || ('a' <= s[i] <= 'z' && t[i] as int == s[i] as int - 32)
  }

  /** Case does not matter, to either program. */
  lemma CaseIsIgnored(s: string, t: string)
    requires Capitalised(s, t)
    ensures Canonical(s) == Canonical(t) && ServiceForm(s) == ServiceForm(t)
  {
    forall i | 0 <= i < |s| ensures UpperAll(s)[i] == UpperAll(t)[i] {
      UpperAt(s, i);
      UpperAt(t, i);
    }
    assert UpperAll(s) == UpperAll(t);
    UpperTrimRight(TrimLeft(s, GO_SPACES));
    UpperTrimLeft(s);
    UpperTrimRight(TrimLeft(t, GO_SPACES));
    UpperTrimLeft(t);
  }

  /** White space anywhere does not matter to the worker. */
  lemma SpaceIsIgnored(a: string, c: char, b: string)
    requires c in {' ', '\t', '\n', '\r', 11 as char, 12 as char, 28 as char, 29 as char, 30 as char, 31 as char}
    ensures Canonical(a + [c] + b) == Canonical(a + b)
  {
    UpperConcat(a + [c], b);
    UpperConcat(a, [c]);
    UpperConcat(a, b);
    UpperAt([c], 0);
    RemoveConcat(UpperAll(a) + [c], UpperAll(b), PY_SPACES);
    RemoveConcat(UpperAll(a), [c], PY_SPACES);
    RemoveConcat(UpperAll(a), UpperAll(b), PY_SPACES);
    assert [c][..0] == "";
    assert Remove([c], PY_SPACES) == "";
    assert UpperAll([c]) == [c];
  }

  /** Padding at the end does not matter to it. */
  lemma PaddingIsIgnored(s: string)
    ensures Canonical(s + "=") == Canonical(s)
  {
    var pad := "=";
    UpperConcat(s, pad);
    UpperAt(pad, 0);
    assert UpperAll(pad) == pad;
    RemoveConcat(UpperAll(s), pad, PY_SPACES);
    assert pad[..0] == "";
    var r := Remove(UpperAll(s), PY_SPACES);
    assert (r + pad)[..|r + pad| - 1] == r;
  }

  /** What the service hands to its decoder, which skips line breaks. */
  function Digits(s: string): string {
    Remove(ServiceForm(s), NEWLINES)
  }

  /** If only base32 characters are left, they are the worker's canonical text. */
  lemma DigitsAreCanonical(s: string)
    requires Base32(Digits(s))
    ensures Digits(s) == Canonical(s)
  {
    var v := ServiceForm(s);
    SameSecret(s);
    RemoveChars(v, NEWLINES);
    forall c | c in v ensures Base32Char(c) || c in NEWLINES {
      assert c !in NEWLINES ==> c in Digits(s);
      if c in Digits(s) {
        var i := Position(Digits(s), c);
      }
    }
    UppercaseText(v);
    UppercaseFixed(v);
    SameRemoval(v);
    CanonicalOfBase32(Digits(s));
    TrimNothing(Digits(s));
  }

  /** Text of base32 characters and line breaks has no small letters. */
  lemma UppercaseText(v: string)
    requires forall c :: c in v ==> Base32Char(c) || c in NEWLINES
    ensures Uppercase(v)
  {
    forall i | 0 <= i < |v| ensures Upper(v[i]) == v[i] {
      assert v[i] in v;
    }
  }

  /** In such text the worker's spaces are the line breaks. */
  lemma {:induction false} SameRemoval(v: string)
    requires forall c :: c in v ==> Base32Char(c) || c in NEWLINES
    ensures Remove(v, PY_SPACES) == Remove(v, NEWLINES)
  {
    if v != "" {
      SameRemoval(v[..|v| - 1]);
      assert v[|v| - 1] in v;
    }
  }

  lemma TrimNothing(v: string)
    requires Base32(v)
    ensures TrimRight(v, PADDING) == v
  {
    assert v != "" ==> Base32Char(v[|v| - 1]);
  }

  /** Exactly where the two programs disagree, for every text. Of the secrets that the
      worker computes codes for, the service refuses those with 104 characters or more,
      and those in which a character outside base32 is left when it has trimmed the text
      and dropped blanks and line breaks, such as a tab between two groups. Of the secrets
      the service stores, the worker refuses those with an incomplete last group. */
  lemma AcceptanceGap(s: string)
    ensures WorkerAccepts(s) ==> (ServiceNormalize(s).None? <==> |Canonical(s)| >= 104 || !Base32(Digits(s)))
    ensures ServiceNormalize(s).Some? ==> (!WorkerAccepts(s) <==> !WholeGroups(|Canonical(s)|))
  {
    DecodedBounds(|Canonical(s)|);
    if Base32(Digits(s)) {
      DigitsAreCanonical(s);
    }
  }

  /** Secrets of the first kind: base32 text that is too long for the service alone. */
  lemma LongIsRefused(s: string)
    requires Base32(s) && 104 <= |s| <= 128 && WholeGroups(|s|)
    ensures WorkerAccepts(s) && ServiceNormalize(s).None?
  {
    CanonicalOfBase32(s);
    DecodedBounds(|s|);
  }

  /** Secrets that the service stores and the worker refuses: base32 text with an
      incomplete last group. */
  lemma IncompleteIsStored(s: string)
    requires Base32(s) && 16 <= |s| < 104 && !WholeGroups(|s|)
    ensures ServiceNormalize(s) == Some(s) && !WorkerAccepts(s)
  {
    CanonicalOfBase32(s);
    DecodedBounds(|s|);
  }

  /** There are secrets of all three kinds. */
  lemma GapsExist() returns (long: string, tab: string, incomplete: string)
    ensures WorkerAccepts(long) && ServiceNormalize(long).None? && |Canonical(long)| == 104
    ensures WorkerAccepts(tab) && ServiceNormalize(tab).None? && |Canonical(tab)| == 16
    ensures ServiceNormalize(incomplete) == Some(incomplete) && !WorkerAccepts(incomplete)
  {
    var group := seq(8, _ => 'A');
    long, tab, incomplete := seq(104, _ => 'A'), group + "\t" + group, seq(17, _ => 'A');
    CanonicalOfBase32(long);
    LongIsRefused(long);
    TabIsRefused(group, group);
    IncompleteIsStored(incomplete);
  }

  /** Secrets of the second kind: with a tab between two groups of base32 characters,
      the worker takes the secret and the service does not. */
  lemma TabIsRefused(a: string, b: string)
    requires Base32(a) && Base32(b) && a != "" && b != ""
    requires 16 <= |a| + |b| <= 128 && WholeGroups(|a| + |b|)
    ensures WorkerAccepts(a + "\t" + b) && ServiceNormalize(a + "\t" + b).None?
    ensures Canonical(a + "\t" + b) == a + b
  {
    var s := a + "\t" + b;
    TabSent(a, b);
    TabTaken(a, b, s);
    TabKept(s, |a|);
  }

  lemma TabTaken(a: string, b: string, s: string)
    requires Base32(a) && Base32(b) && s == a + "\t" + b && UpperAll(s) == s
    requires 16 <= |a| + |b| <= 128 && WholeGroups(|a| + |b|)
    ensures WorkerAccepts(s) && Canonical(s) == a + b
  {
    TabDropped(a, b);
    assert Canonical(s) == a + b;
    assert |a + b| == |a| + |b|;
  }

  /** The service leaves the text as it is. */
  lemma TabSent(a: string, b: string)
    requires Base32(a) && Base32(b) && a != "" && b != ""
    ensures var s := a + "\t" + b;
            UpperAll(s) == s && ServiceForm(s) == s
  {
    var s := a + "\t" + b;
    forall i | 0 <= i < |s| ensures SentAsIs(s[i]) {
      assert s[i] == if i < |a| then a[i] else if i == |a| then '\t' else b[i - |a| - 1];
    }
    NothingToTrim(s);
  }

  predicate SentAsIs(c: char) {
    Base32Char(c) || c == '\t' || c == '\n' || c == '\r'
  }

  /** A line break inside is no obstacle to either program, and the service keeps it. */
  lemma LineBreakIsKept(a: string, c: char, b: string)
    requires (c == '\n' || c == '\r') && Base32(a) && Base32(b) && a != "" && b != "" && 16 <= |a| + |b| <= 103
    ensures ServiceNormalize(a + [c] + b) == Some(a + [c] + b)
  {
    var s := a + [c] + b;
    forall i | 0 <= i < |s| ensures SentAsIs(s[i]) {
      assert s[i] == if i < |a| then a[i] else if i == |a| then c else b[i - |a| - 1];
    }
    NothingToTrim(s);
    BreakDropped(a, c, b);
    DecodedBounds(|a + b|);
    assert Base32(a + b);
  }

  lemma BreakDropped(a: string, c: char, b: string)
    requires (c == '\n' || c == '\r') && Base32(a) && Base32(b)
    ensures Remove(a + [c] + b, NEWLINES) == a + b
  {
    assert [c][..0] == "" && Remove([c], NEWLINES) == "";
    RemoveConcat(a + [c], b, NEWLINES);
    RemoveConcat(a, [c], NEWLINES);
    CanonicalOfBase32(a);
    CanonicalOfBase32(b);
  }

  /** White space around the text does not matter to the service. */
  lemma OuterSpaceIsIgnored(s: string, c: char)
    requires c in {' ', '\t', '\n', '\r', 11 as char, 12 as char}
    ensures ServiceForm([c] + s) == ServiceForm(s) && ServiceForm(s + [c]) == ServiceForm(s)
  {
    assert ([c] + s)[1..] == s;
    TrimWithLast(s, c);
  }

  lemma {:induction false} TrimWithLast(s: string, c: char)
    requires c in GO_SPACES
    ensures TrimRight(TrimLeft(s + [c], GO_SPACES), GO_SPACES) == TrimRight(TrimLeft(s, GO_SPACES), GO_SPACES)
  {
    if s == "" {
      assert s + [c] == [c] && [c][1..] == "" && [c][..0] == "";
    } else if s[0] in GO_SPACES {
      assert (s + [c])[1..] == s[1..] + [c];
      TrimWithLast(s[1..], c);
    } else {
      assert (s + [c])[..|s|] == s;
    }
  }

  /** A blank inside does not matter to it either. */
  lemma BlankIsIgnored(a: string, b: string)
    requires a != "" && b != "" && a[0] !in GO_SPACES && b[|b| - 1] !in GO_SPACES
    ensures ServiceForm(a + " " + b) == ServiceForm(a + b)
  {
    var blank := " ";
    NoTrim(a + blank + b, GO_SPACES);
    NoTrim(a + b, GO_SPACES);
    UpperConcat(a + blank, b);
    UpperConcat(a, blank);
    UpperConcat(a, b);
    UpperAt(blank, 0);
    assert UpperAll(blank) == blank && blank[..0] == "" && Remove(blank, BLANK) == "";
    RemoveConcat(UpperAll(a) + blank, UpperAll(b), BLANK);
    RemoveConcat(UpperAll(a), blank, BLANK);
    RemoveConcat(UpperAll(a), UpperAll(b), BLANK);
  }

  /** The service's decoder meets a tab that the service left in the text. */
  lemma TabKept(s: string, k: nat)
    requires k < |s| && s[k] == '\t' && ServiceForm(s) == s
    ensures ServiceNormalize(s).None?
  {
    var digits := Remove(s, NEWLINES);
    RemoveChars(s, NEWLINES);
    assert s[k] in s && s[k] !in NEWLINES;
    var i := Position(digits, '\t');
    assert !Base32Char(digits[i]);
  }

  /** Text without blanks between two base32 characters is sent as it is. */
  lemma NothingToTrim(s: string)
    requires s != "" && Base32Char(s[0]) && Base32Char(s[|s| - 1])
    requires forall i :: 0 <= i < |s| ==> SentAsIs(s[i])
    ensures UpperAll(s) == s && ServiceForm(s) == s
  {
    UppercaseFixed(s);
    forall c | c in s ensures c !in BLANK {
      var i := Position(s, c);
    }
    RemoveNothing(s, BLANK);
    NotRemoved(s[0]);
    NotRemoved(s[|s| - 1]);
    NoTrim(s, GO_SPACES);
    NoTrim(s, PADDING);
  }

  lemma NotRemoved(c: char)
    requires Base32Char(c)
    ensures c !in GO_SPACES && c !in PADDING
  {
  }

  lemma NoTrim(s: string, cs: set<char>)
    requires s != "" && s[0] !in cs && s[|s| - 1] !in cs
    ensures TrimLeft(s, cs) == s && TrimRight(s, cs) == s
  {
  }

  lemma TabDropped(a: string, b: string)
    requires Base32(a) && Base32(b)
    ensures Remove(a + "\t" + b, PY_SPACES) == a + b && TrimRight(a + b, PADDING) == a + b
  {
    var tab := "\t";
    assert tab[..0] == "" && Remove(tab, PY_SPACES) == "";
    RemoveConcat(a + tab, b, PY_SPACES);
    RemoveConcat(a, tab, PY_SPACES);
    RemoveNoSpaces(a);
    RemoveNoSpaces(b);
    assert Base32(a + b);
    TrimNothing(a + b);
  }

  lemma RemoveNoSpaces(v: string)
    requires Base32(v)
    ensures Remove(v, PY_SPACES) == v
  {
    assert forall c :: c in v ==> Base32Char(c);
    RemoveNothing(v, PY_SPACES);
  }
}
