/** The digest rules of the docs checker: every run of whole words of a token is compared,
    by digest, with a list of identifiers that must not appear. */
module TokenScanner {
  import opened Values

  predicate IsSeparator(c: char) {
    c == '.' || c == '_' || c == '-'
  }

  /** The words of a token and the separators between them. */
  function Split(s: string): (r: (seq<string>, seq<char>))
    ensures |r.0| == |r.1| + 1
  {
    if s == "" then ([""], [])
    else
      var (words, seps) := Split(s[..|s| - 1]);
      var c := s[|s| - 1];
      if IsSeparator(c) then (words + [""], seps + [c])
      else (words[..|words| - 1] + [words[|words| - 1] + [c]], seps)
  }

  /** Where word `i` begins and ends. */
  ghost function Begin(words: seq<string>, i: nat): nat
    requires i < |words|
    decreases i, 0
  {
    if i == 0 then 0 else End(words, i - 1) + 1
  }

  ghost function End(words: seq<string>, i: nat): nat
    requires i < |words|
    decreases i, 1
  {
    Begin(words, i) + |words[i]|
  }

  /** A word stands between two places that are borders of the token or separators. */
  ghost predicate StartsWord(s: string, a: nat) {
    a <= |s| && (a == 0 || s[a - 1] == '.' || s[a - 1] == '_' || s[a - 1] == '-')
  }

  ghost predicate EndsWord(s: string, b: nat) {
    b <= |s| && (b == |s| || s[b] == '.' || s[b] == '_' || s[b] == '-')
  }

  /** The runs of whole words, stated without words. */
  ghost predicate IsRun(s: string, min: int, a: nat, b: nat) {
    a <= b && StartsWord(s, a) && EndsWord(s, b) && b - a >= min
  }

  // ----- words and places

  /** Word `i` is in the token where it should be, with separators around it only. */
  ghost predicate Placed(s: string, words: seq<string>, seps: seq<char>, i: nat)
    requires |words| == |seps| + 1 && i < |words|
  {
    && End(words, i) <= |s| && s[Begin(words, i)..End(words, i)] == words[i]
    && (forall p :: Begin(words, i) <= p < End(words, i) ==> !IsSeparator(s[p]))
    && (i == |words| - 1 ==> End(words, i) == |s|)
    && (i < |words| - 1 ==> End(words, i) < |s| && s[End(words, i)] == seps[i] && IsSeparator(seps[i]))
  }

  ghost predicate IsSplit(s: string, words: seq<string>, seps: seq<char>) {
    |words| == |seps| + 1 && forall i :: 0 <= i < |words| ==> Placed(s, words, seps, i)
  }

  lemma {:induction false} SameBegin(words: seq<string>, other: seq<string>, i: nat)
    requires i < |words| && i < |other| && forall k :: 0 <= k < i ==> words[k] == other[k]
    ensures Begin(words, i) == Begin(other, i)
  {
    if i > 0 {
      SameBegin(words, other, i - 1);
    }
  }

  /** Splitting loses nothing: every word is where it was in the token. */
  lemma {:induction false} SplitPlaces(s: string)
    ensures IsSplit(s, Split(s).0, Split(s).1)
  {
    if s != "" {
      var front, c := s[..|s| - 1], s[|s| - 1];
      SplitPlaces(front);
      OneMoreChar(front, Split(front).0, Split(front).1, c);
      assert front + [c] == s;
    }
  }

  lemma OneMoreChar(s: string, words: seq<string>, seps: seq<char>, c: char)
    requires IsSplit(s, words, seps)
    ensures IsSeparator(c) ==> IsSplit(s + [c], words + [""], seps + [c])
    ensures !IsSeparator(c) ==> IsSplit(s + [c], words[..|words| - 1] + [words[|words| - 1] + [c]], seps)
  {
    var last := |words| - 1;
    var next := if IsSeparator(c) then words + [""] else words[..last] + [words[last] + [c]];
    var nextSeps := if IsSeparator(c) then seps + [c] else seps;
    forall i | 0 <= i < |next| ensures Placed(s + [c], next, nextSeps, i) {
      if i < last {
        SameBegin(next, words, i);
        assert Placed(s, words, seps, i);
        assert (s + [c])[Begin(words, i)..End(words, i)] == s[Begin(words, i)..End(words, i)];
      } else {
        LastWord(s, words, seps, c, next, nextSeps, i);
      }
    }
  }

  lemma LastWord(s: string, words: seq<string>, seps: seq<char>, c: char, next: seq<string>, nextSeps: seq<char>, i: nat)
    requires IsSplit(s, words, seps) && |next| == |nextSeps| + 1 && |words| - 1 <= i < |next|
    requires next == if IsSeparator(c) then words + [""] else words[..|words| - 1] + [words[|words| - 1] + [c]]
    requires nextSeps == if IsSeparator(c) then seps + [c] else seps
    ensures Placed(s + [c], next, nextSeps, i)
  {
    var last := |words| - 1;
    SameBegin(next, words, last);
    assert Placed(s, words, seps, last);
    var b := Begin(words, last);
    assert s[b..] == words[last];
    assert (s + [c])[b..|s| + 1] == s[b..] + [c];
    assert (s + [c])[b..|s|] == s[b..];
  }

  /** Every place of the token is in some word or at its end. */
  lemma Locate(s: string, words: seq<string>, seps: seq<char>, p: nat) returns (i: nat)
    requires IsSplit(s, words, seps) && p <= |s|
    ensures i < |words| && Begin(words, i) <= p <= End(words, i)
  {
    i := 0;
    while End(words, i) < p
      invariant i < |words| && Begin(words, i) <= p
      decreases |words| - i
    {
      assert Placed(s, words, seps, i);
      i := i + 1;
    }
  }

  lemma WordStart(s: string, words: seq<string>, seps: seq<char>, a: nat) returns (i: nat)
    requires IsSplit(s, words, seps) && StartsWord(s, a)
    ensures i < |words| && Begin(words, i) == a
  {
    i := Locate(s, words, seps, a);
    assert Placed(s, words, seps, i);
  }

  lemma WordEnd(s: string, words: seq<string>, seps: seq<char>, b: nat) returns (j: nat)
    requires IsSplit(s, words, seps) && EndsWord(s, b)
    ensures j < |words| && End(words, j) == b
  {
    j := Locate(s, words, seps, b);
    assert Placed(s, words, seps, j);
  }

  lemma {:induction false} LaterWords(words: seq<string>, i: nat, j: nat)
    requires i < j < |words|
    ensures Begin(words, i) <= End(words, i) < Begin(words, j) <= End(words, j)
    decreases j
  {
    if i < j - 1 {
      LaterWords(words, i, j - 1);
    }
  }

  /** A run of words is a run, and grows by a separator and a word. */
  lemma RunOfWords(s: string, words: seq<string>, seps: seq<char>, i: nat, j: nat)
    requires IsSplit(s, words, seps) && i <= j < |words|
    ensures Begin(words, i) <= End(words, j) <= |s|
    ensures StartsWord(s, Begin(words, i)) && EndsWord(s, End(words, j))
    ensures i == j ==> s[Begin(words, i)..End(words, j)] == words[i]
    ensures i < j ==> Begin(words, i) <= End(words, j - 1) < |s|
    ensures i < j ==> s[Begin(words, i)..End(words, j)] == s[Begin(words, i)..End(words, j - 1)] + [seps[j - 1]] + words[j]
  {
    assert Placed(s, words, seps, i) && Placed(s, words, seps, j);
    if i > 0 {
      assert Placed(s, words, seps, i - 1);
    }
    if i < j {
      LaterWords(words, i, j);
      OneMoreWord(s, words, seps, i, j);
    }
  }

  lemma OneMoreWord(s: string, words: seq<string>, seps: seq<char>, i: nat, j: nat)
    requires IsSplit(s, words, seps) && i < j < |words|
    ensures Begin(words, i) <= End(words, j - 1) < |s| && Begin(words, i) <= End(words, j) <= |s|
    ensures s[Begin(words, i)..End(words, j)] == s[Begin(words, i)..End(words, j - 1)] + [seps[j - 1]] + words[j]
  {
    assert Placed(s, words, seps, j) && Placed(s, words, seps, j - 1);
    if i < j - 1 {
      LaterWords(words, i, j - 1);
    }
    var a, b, e := Begin(words, i), End(words, j - 1), End(words, j);
    ThreeParts(s, a, b, e);
  }

  lemma ThreeParts(s: string, a: nat, b: nat, e: nat)
    requires a <= b < e <= |s|
    ensures s[a..e] == s[a..b] + [s[b]] + s[b + 1..e]
  {
  }

  // ----- the scan

  type Span = (nat, nat)

  ghost predicate Before(x: Span, y: Span) {
    x.0 < y.0 || (x.0 == y.0 && x.1 < y.1)
  }

  /** Words `p` to `q` have been joined before the scan reaches words `i` to `j`. */
  predicate Scanned(p: int, q: int, i: int, j: int) {
    p <= q && (p < i || (p == i && q < j))
  }

  ghost function SpanOf(words: seq<string>, p: nat, q: nat): Span
    requires p < |words| && q < |words|
  {
    (Begin(words, p), End(words, q))
  }

  ghost predicate FromScanned(words: seq<string>, i: nat, j: nat, span: Span) {
    exists p: nat, q: nat :: p < |words| && q < |words| && Scanned(p, q, i, j) && span == SpanOf(words, p, q)
  }

  /** The spans found so far, in order, are those of the runs scanned so far. */
  ghost predicate Listed(words: seq<string>, min: int, spans: seq<Span>, i: nat, j: nat) {
    && (forall k :: 0 <= k < |spans| ==> FromScanned(words, i, j, spans[k]) && spans[k].1 - spans[k].0 >= min)
    && (forall k, l :: 0 <= k < l < |spans| ==> Before(spans[k], spans[l]))
    && (forall p: nat, q: nat :: p < |words| && q < |words| && Scanned(p, q, i, j) && End(words, q) - Begin(words, p) >= min ==>
          SpanOf(words, p, q) in spans)
  }

  ghost predicate Shows(s: string, pieces: seq<string>, spans: seq<Span>) {
    |pieces| == |spans| && forall k :: 0 <= k < |spans| ==> spans[k].0 <= spans[k].1 <= |s| && pieces[k] == s[spans[k].0..spans[k].1]
  }

  lemma ListedNext(words: seq<string>, min: int, spans: seq<Span>, i: nat, j: nat)
    requires i <= j < |words| && Listed(words, min, spans, i, j)
    ensures End(words, j) - Begin(words, i) < min ==> Listed(words, min, spans, i, j + 1)
    ensures End(words, j) - Begin(words, i) >= min ==> Listed(words, min, spans + [SpanOf(words, i, j)], i, j + 1)
  {
    var span := SpanOf(words, i, j);
    forall k | 0 <= k < |spans| ensures Before(spans[k], span) && FromScanned(words, i, j + 1, spans[k]) {
      var p: nat, q: nat :| p < |words| && q < |words| && Scanned(p, q, i, j) && spans[k] == SpanOf(words, p, q);
      assert Scanned(p, q, i, j + 1);
      if p < i {
        LaterWords(words, p, i);
      } else {
        LaterWords(words, q, j);
      }
    }
    assert Scanned(i, j, i, j + 1) && FromScanned(words, i, j + 1, span);
    forall p: nat, q: nat | p < |words| && q < |words| && Scanned(p, q, i, j + 1)
      ensures Scanned(p, q, i, j) || (p == i && q == j)
    {
    }
  }

  lemma NextRow(words: seq<string>, min: int, spans: seq<Span>, i: nat)
    requires i < |words| && Listed(words, min, spans, i, |words|)
    ensures Listed(words, min, spans, i + 1, i + 1)
  {
    forall k | 0 <= k < |spans| ensures FromScanned(words, i + 1, i + 1, spans[k]) {
      var p: nat, q: nat :| p < |words| && q < |words| && Scanned(p, q, i, |words|) && spans[k] == SpanOf(words, p, q);
      assert Scanned(p, q, i + 1, i + 1);
    }
    forall p: nat, q: nat | p < |words| && q < |words| && Scanned(p, q, i + 1, i + 1) ensures Scanned(p, q, i, |words|) {
    }
  }

  /** When all words are done, the spans are the runs. */
  lemma AllListed(s: string, words: seq<string>, seps: seq<char>, min: int, spans: seq<Span>)
    requires IsSplit(s, words, seps) && Listed(words, min, spans, |words|, |words|)
    ensures forall a: nat, b: nat :: (a, b) in spans <==> IsRun(s, min, a, b)
  {
    forall a: nat, b: nat ensures (a, b) in spans <==> IsRun(s, min, a, b) {
      SpanIsRun(s, words, seps, min, spans, a, b);
    }
  }

  lemma SpanIsRun(s: string, words: seq<string>, seps: seq<char>, min: int, spans: seq<Span>, a: nat, b: nat)
    requires IsSplit(s, words, seps) && Listed(words, min, spans, |words|, |words|)
    ensures (a, b) in spans <==> IsRun(s, min, a, b)
  {
    if IsRun(s, min, a, b) {
      var p := WordStart(s, words, seps, a);
      var q := WordEnd(s, words, seps, b);
      if q < p {
        LaterWords(words, q, p);
      }
      assert Scanned(p, q, |words|, |words|);
      assert SpanOf(words, p, q) == (a, b);
    }
    if (a, b) in spans {
      var k := Position(spans, (a, b));
      var p: nat, q: nat :| p < |words| && q < |words| && Scanned(p, q, |words|, |words|) && spans[k] == SpanOf(words, p, q);
      RunOfWords(s, words, seps, p, q);
    }
  }

  method SplitToken(s: string) returns (words: seq<string>, seps: seq<char>)
    ensures IsSplit(s, words, seps)
  {
    SplitPlaces(s);
    words, seps := Split(s).0, Split(s).1;
  }

  /** The run of words `i` to `j` is taken if it is long enough. */
  method Take(s: string, words: seq<string>, seps: seq<char>, min: int, i: nat, j: nat, piece: string,
              before: seq<string>, ghost found: seq<Span>)
    returns (pieces: seq<string>, ghost spans: seq<Span>)
    requires IsSplit(s, words, seps) && i <= j < |words|
    requires Begin(words, i) <= End(words, j) <= |s| && piece == s[Begin(words, i)..End(words, j)]
    requires Listed(words, min, found, i, j) && Shows(s, before, found)
    ensures Listed(words, min, spans, i, j + 1) && Shows(s, pieces, spans)
  {
    pieces, spans := before, found;
    ListedNext(words, min, spans, i, j);
    if |piece| >= min {
      pieces, spans := pieces + [piece], spans + [SpanOf(words, i, j)];
    }
  }

  /** The inner loop: the runs that begin with word `i`. */
  method PiecesFrom(s: string, words: seq<string>, seps: seq<char>, min: int, i: nat,
                    before: seq<string>, ghost found: seq<Span>)
    returns (pieces: seq<string>, ghost spans: seq<Span>)
    requires IsSplit(s, words, seps) && i < |words|
    requires Listed(words, min, found, i, i) && Shows(s, before, found)
    ensures Listed(words, min, spans, i, |words|) && Shows(s, pieces, spans)
  {
    var piece := words[i];
    RunOfWords(s, words, seps, i, i);
    pieces, spans := Take(s, words, seps, min, i, i, piece, before, found);
    for j := i + 1 to |words|
      invariant Begin(words, i) <= End(words, j - 1) <= |s| && piece == s[Begin(words, i)..End(words, j - 1)]
      invariant Listed(words, min, spans, i, j) && Shows(s, pieces, spans)
    {
      RunOfWords(s, words, seps, i, j);
      piece := piece + [seps[j - 1]] + words[j];
      pieces, spans := Take(s, words, seps, min, i, j, piece, pieces, spans);
    }
  }

  /** The runs of whole words that are long enough, each once and in order. */
  ghost predicate RunsInOrder(s: string, min: int, spans: seq<Span>) {
    && (forall k, l :: 0 <= k < l < |spans| ==> Before(spans[k], spans[l]))
    && (forall a: nat, b: nat :: (a, b) in spans <==> IsRun(s, min, a, b))
  }

  /** `pieces` are the texts of these runs. */
  ghost predicate ListsRuns(s: string, min: int, pieces: seq<string>) {
    exists spans: seq<Span> :: RunsInOrder(s, min, spans) && Shows(s, pieces, spans)
  }

  /** `token_pieces` of a token in lower case. */
  method TokenPieces(s: string, min: int) returns (pieces: seq<string>)
    ensures ListsRuns(s, min, pieces)
  {
    var words, seps := SplitToken(s);
    pieces := [];
    ghost var spans: seq<Span> := [];
    for i := 0 to |words|
      invariant Listed(words, min, spans, i, i) && Shows(s, pieces, spans)
    {
      pieces, spans := PiecesFrom(s, words, seps, min, i, pieces, spans);
      NextRow(words, min, spans, i);
    }
    AllListed(s, words, seps, min, spans);
    assert RunsInOrder(s, min, spans);
  }

  // ----- the rules

  /** A match of the token pattern, or of a rule's own pattern with its first group. */
  datatype Token = Token(at: nat, text: string)
  datatype Match = Match(at: nat, text: string, group: string)

  /** What a hit shows: a digest rule never shows the text it found. */
  datatype Shown = Digest(prefix: string) | Text(text: string)
  datatype Hit = Hit(at: nat, shown: Shown)

  datatype Rule =
    | TokenRule(digests: set<string>, minLength: Option<int>)
    | PatternRule(groups: set<string>)

  /** The first twelve characters of a digest. */
  function Abbreviated(d: string): (r: Shown)
    ensures r.Digest? && r.prefix <= d && |r.prefix| == if |d| < 12 then |d| else 12
  {
    Digest(if |d| <= 12 then d else d[..12])
  }

  /** `shown` is all of `d` up to its twelfth character. */
  ghost predicate ShortenedTo(d: string, shown: string) {
    shown <= d && (shown == d || |shown| == 12) && |shown| <= 12
  }

  /** Where a token rule strikes: in token `t`, from `a` to `b`. */
  type Place = (nat, nat, nat)

  ghost predicate PlaceBefore(x: Place, y: Place) {
    x.0 < y.0 || (x.0 == y.0 && Before((x.1, x.2), (y.1, y.2)))
  }

  /** One scan: the tokens of a text, `str.lower`, the digest, and the rule. */
  datatype Scan = Scan(tokens: seq<Token>, lower: string -> string, digest: string -> string, wanted: set<string>, min: int) {

    ghost function Text(t: nat): string
      requires t < |tokens|
    {
      lower(tokens[t].text)
    }

    /** The run from `a` to `b` of token `t` has a digest on the list. */
    ghost predicate Strikes(x: Place) {
      x.0 < |tokens| && IsRun(Text(x.0), min, x.1, x.2) && digest(Text(x.0)[x.1..x.2]) in wanted
    }

    ghost predicate HitAt(x: Place, hit: Hit) {
      Strikes(x) && hit.at == tokens[x.0].at && hit.shown.Digest? && ShortenedTo(digest(Text(x.0)[x.1..x.2]), hit.shown.prefix)
    }

    /** The hits are those of the places, one each and in order. */
    ghost predicate HitsOf(hits: seq<Hit>, places: seq<Place>) {
      && |hits| == |places|
      && (forall k :: 0 <= k < |places| ==> HitAt(places[k], hits[k]))
      && (forall k, l :: 0 <= k < l < |places| ==> PlaceBefore(places[k], places[l]))
    }

    /** The places found when the tokens before `t` are done, and the runs of token `t`
        that come before `run`. */
    ghost predicate Found(hits: seq<Hit>, places: seq<Place>, t: nat, run: Span) {
      && HitsOf(hits, places)
      && (forall x: Place :: x in places ==> PlaceBefore(x, (t, run.0, run.1)))
      && (forall x: Place :: Strikes(x) && PlaceBefore(x, (t, run.0, run.1)) ==> x in places)
    }

    /** One hit for every place where the rule strikes, in order, and no other. */
    ghost predicate AllReported(hits: seq<Hit>) {
      exists places: seq<Place> :: HitsOf(hits, places) && forall x: Place :: Strikes(x) ==> x in places
    }

    /** The next run of token `t` is `run`, and the one after it `next`. */
    lemma OneMoreRun(hits: seq<Hit>, places: seq<Place>, t: nat, run: Span, next: Span)
      requires Found(hits, places, t, run) && t < |tokens| && IsRun(Text(t), min, run.0, run.1) && Before(run, next)
      requires forall x: Place :: Strikes(x) && x.0 == t && Before((x.1, x.2), next) ==> (x.1, x.2) == run || Before((x.1, x.2), run)
      ensures var d := digest(Text(t)[run.0..run.1]);
              if d in wanted then Found(hits + [Hit(tokens[t].at, Abbreviated(d))], places + [(t, run.0, run.1)], t, next)
              else Found(hits, places, t, next)
    {
      var here := (t, run.0, run.1);
      var more := if Strikes(here) then places + [here] else places;
      forall x: Place | x in more ensures PlaceBefore(x, (t, next.0, next.1)) {
        assert x == here || PlaceBefore(x, here);
      }
      forall x: Place | Strikes(x) && PlaceBefore(x, (t, next.0, next.1)) ensures x in more {
        assert x == here || PlaceBefore(x, here);
      }
      forall k | 0 <= k < |places| ensures PlaceBefore(places[k], here) {
        assert places[k] in places;
      }
    }
  }

  /** The span at `k`, or a place after all of them. */
  ghost function SpanAt(spans: seq<Span>, k: nat, end: nat): Span {
    if k < |spans| then spans[k] else (end + 1, 0)
  }

  /** Nothing lies between a run and the next. */
  lemma NextRun(s: string, min: int, spans: seq<Span>, k: nat, a: nat, b: nat)
    requires RunsInOrder(s, min, spans) && IsRun(s, min, a, b) && Before((a, b), SpanAt(spans, k, |s|))
    ensures exists m :: 0 <= m < |spans| && m < k && spans[m] == (a, b)
  {
    var m := Position(spans, (a, b));
  }

  lemma RunsBefore(s: string, min: int, spans: seq<Span>, k: nat, a: nat, b: nat)
    requires RunsInOrder(s, min, spans) && k < |spans| && IsRun(s, min, a, b) && Before((a, b), SpanAt(spans, k + 1, |s|))
    ensures (a, b) == spans[k] || Before((a, b), spans[k])
  {
    NextRun(s, min, spans, k + 1, a, b);
    var m :| 0 <= m < |spans| && m < k + 1 && spans[m] == (a, b);
    assert m == k || Before(spans[m], spans[k]);
  }

  lemma SpanIsBefore(s: string, min: int, spans: seq<Span>, k: nat)
    requires RunsInOrder(s, min, spans) && k < |spans|
    ensures IsRun(s, min, spans[k].0, spans[k].1) && Before(spans[k], SpanAt(spans, k + 1, |s|))
  {
    assert (spans[k].0, spans[k].1) in spans;
  }

  /** The inner loop: the pieces of one token. */
  method HitsOfToken(scan: Scan, t: nat, before: seq<Hit>, ghost found: seq<Place>)
    returns (hits: seq<Hit>, ghost places: seq<Place>)
    requires t < |scan.tokens| && scan.Found(before, found, t, (0, 0))
    ensures scan.Found(hits, places, t + 1, (0, 0))
  {
    hits, places := before, found;
    var text := scan.lower(scan.tokens[t].text);
    var pieces := TokenPieces(text, scan.min);
    ghost var spans: seq<Span> :| RunsInOrder(text, scan.min, spans) && Shows(text, pieces, spans);
    FirstRun(scan, hits, places, t, spans);
    for k := 0 to |pieces|
      invariant scan.Found(hits, places, t, SpanAt(spans, k, |text|))
    {
      TakeRun(scan, hits, places, t, spans, k);
      var d := scan.digest(pieces[k]);
      if d in scan.wanted {
        hits, places := hits + [Hit(scan.tokens[t].at, Abbreviated(d))], places + [(t, spans[k].0, spans[k].1)];
      }
    }
    LastRun(scan, hits, places, t);
  }

  lemma FirstRun(scan: Scan, hits: seq<Hit>, places: seq<Place>, t: nat, spans: seq<Span>)
    requires t < |scan.tokens| && scan.Found(hits, places, t, (0, 0)) && RunsInOrder(scan.Text(t), scan.min, spans)
    ensures scan.Found(hits, places, t, SpanAt(spans, 0, |scan.Text(t)|))
  {
    var text := scan.Text(t);
    var first := SpanAt(spans, 0, |text|);
    forall x: Place | scan.Strikes(x) && PlaceBefore(x, (t, first.0, first.1)) ensures x in places {
      if x.0 == t {
        NextRun(text, scan.min, spans, 0, x.1, x.2);
      }
      assert PlaceBefore(x, (t, 0, 0));
    }
  }

  lemma TakeRun(scan: Scan, hits: seq<Hit>, places: seq<Place>, t: nat, spans: seq<Span>, k: nat)
    requires t < |scan.tokens| && k < |spans| && RunsInOrder(scan.Text(t), scan.min, spans)
    requires scan.Found(hits, places, t, spans[k])
    ensures spans[k].0 <= spans[k].1 <= |scan.Text(t)|
    ensures var d := scan.digest(scan.Text(t)[spans[k].0..spans[k].1]);
            var next := SpanAt(spans, k + 1, |scan.Text(t)|);
            if d in scan.wanted then
              scan.Found(hits + [Hit(scan.tokens[t].at, Abbreviated(d))], places + [(t, spans[k].0, spans[k].1)], t, next)
            else scan.Found(hits, places, t, next)
  {
    var text := scan.Text(t);
    SpanIsBefore(text, scan.min, spans, k);
    var next := SpanAt(spans, k + 1, |text|);
    forall x: Place | scan.Strikes(x) && x.0 == t && Before((x.1, x.2), next)
      ensures (x.1, x.2) == spans[k] || Before((x.1, x.2), spans[k])
    {
      RunsBefore(text, scan.min, spans, k, x.1, x.2);
    }
    scan.OneMoreRun(hits, places, t, spans[k], next);
  }

  lemma LastRun(scan: Scan, hits: seq<Hit>, places: seq<Place>, t: nat)
    requires t < |scan.tokens| && scan.Found(hits, places, t, (|scan.Text(t)| + 1, 0))
    ensures scan.Found(hits, places, t + 1, (0, 0))
  {
  }

  /** The digest branch of `rule_hits`: a hit for every run of a token whose digest is on
      the list, and for nothing else. */
  method TokenRuleHits(scan: Scan) returns (hits: seq<Hit>)
    ensures scan.AllReported(hits)
  {
    hits := [];
    ghost var places: seq<Place> := [];
    for t := 0 to |scan.tokens|
      invariant scan.Found(hits, places, t, (0, 0))
    {
      hits, places := HitsOfToken(scan, t, hits, places);
    }
    assert scan.HitsOf(hits, places);
    forall x: Place | scan.Strikes(x) ensures x in places {
      assert PlaceBefore(x, (|scan.tokens|, 0, 0));
    }
  }

  /** A rule's own pattern: its matches, the digest, and the digests of the groups that
      are wanted. Without any, every match is a hit. */
  datatype Pattern = Pattern(matches: seq<Match>, digest: string -> string, groups: set<string>) {

    ghost predicate Strikes(k: nat) {
      k < |matches| && (groups == {} || digest(matches[k].group) in groups)
    }

    ghost predicate HitAt(k: nat, hit: Hit) {
      && Strikes(k) && hit.at == matches[k].at
      && if groups == {} then hit.shown == Text(matches[k].text)
         else hit.shown.Digest? && ShortenedTo(digest(matches[k].group), hit.shown.prefix)
    }

    /** The hits are those of the matches `places`, one each and in order. */
    ghost predicate HitsOf(hits: seq<Hit>, places: seq<nat>) {
      && |hits| == |places|
      && (forall k :: 0 <= k < |places| ==> HitAt(places[k], hits[k]))
      && (forall k, l :: 0 <= k < l < |places| ==> places[k] < places[l])
    }

    /** Of the matches before `n`, exactly those that strike have their places. */
    ghost predicate FoundBefore(hits: seq<Hit>, places: seq<nat>, n: nat) {
      HitsOf(hits, places) && forall k: nat :: k in places <==> k < n && Strikes(k)
    }

    /** One hit for every match that strikes, in order, and no other. */
    ghost predicate AllReported(hits: seq<Hit>) {
      exists places: seq<nat> :: FoundBefore(hits, places, |matches|)
    }

    lemma OneMoreMatch(hits: seq<Hit>, places: seq<nat>, n: nat, hit: Hit)
      requires FoundBefore(hits, places, n)
      ensures HitAt(n, hit) ==> FoundBefore(hits + [hit], places + [n], n + 1)
      ensures !Strikes(n) ==> FoundBefore(hits, places, n + 1)
    {
      forall k | 0 <= k < |places| ensures places[k] < n {
        assert places[k] in places;
      }
    }

    /** With a list of digests every hit shows the beginning of a digest of the list, at most
        twelve characters, and never the text. */
    lemma NothingIsShown(hits: seq<Hit>)
      requires groups != {} && AllReported(hits)
      ensures forall hit :: hit in hits ==> exists d :: d in groups && hit.shown.Digest? && ShortenedTo(d, hit.shown.prefix)
    {
      var places :| FoundBefore(hits, places, |matches|);
      forall hit | hit in hits ensures exists d :: d in groups && hit.shown.Digest? && ShortenedTo(d, hit.shown.prefix) {
        var k := Position(hits, hit);
        assert HitAt(places[k], hits[k]);
        assert digest(matches[places[k]].group) in groups;
      }
    }

    /** Without one, hit number `k` is match number `k`. */
    lemma EveryMatchIsShown(hits: seq<Hit>)
      requires groups == {} && AllReported(hits)
      ensures |hits| == |matches|
      ensures forall k :: 0 <= k < |hits| ==> hits[k] == Hit(matches[k].at, Text(matches[k].text))
    {
      var places :| FoundBefore(hits, places, |matches|);
      AllPlaces(places, |matches|);
      forall k | 0 <= k < |hits| ensures hits[k] == Hit(matches[k].at, Text(matches[k].text)) {
        assert HitAt(places[k], hits[k]);
      }
    }
  }

  /** The numbers below `n` in ascending order. */
  lemma {:induction false} AllPlaces(places: seq<nat>, n: nat)
    requires forall k, l :: 0 <= k < l < |places| ==> places[k] < places[l]
    requires forall k: nat :: k in places <==> k < n
    ensures |places| == n && forall k :: 0 <= k < n ==> places[k] == k
  {
    assert places != [] ==> places[|places| - 1] in places;
    if n > 0 {
      var last := Position(places, n - 1);
      var front := places[..|places| - 1];
      forall k: nat ensures k in front <==> k < n - 1 {
        assert k in front ==> k in places;
        if k in places {
          var i := Position(places, k);
          assert i < |front| ==> front[i] == k && k < places[last];
          assert k in front ==> k != places[last];
        }
      }
      AllPlaces(front, n - 1);
    }
  }

  /** `rule_hits`. The regex engine's matches of the text are inputs: `tokens` for the
      token pattern, `matches` for the rule's own. */
  method RuleHits(rule: Rule, tokens: seq<Token>, matches: seq<Match>, lower: string -> string, digest: string -> string)
    returns (hits: seq<Hit>)
    ensures rule.TokenRule? ==>
              var min := if rule.minLength.Some? then rule.minLength.value else 4;
              Scan(tokens, lower, digest, rule.digests, min).AllReported(hits)
    ensures rule.PatternRule? ==> Pattern(matches, digest, rule.groups).AllReported(hits)
  {
    match rule
    case TokenRule(digests, minLength) =>
      hits := TokenRuleHits(Scan(tokens, lower, digest, digests, if minLength.Some? then minLength.value else 4));
    case PatternRule(groups) =>
      hits := PatternRuleHits(matches, digest, groups);
  }

  method PatternRuleHits(matches: seq<Match>, digest: string -> string, groups: set<string>) returns (hits: seq<Hit>)
    ensures Pattern(matches, digest, groups).AllReported(hits)
  {
    hits := [];
    ghost var pattern, places: seq<nat> := Pattern(matches, digest, groups), [];
    for k := 0 to |matches|
      invariant pattern.FoundBefore(hits, places, k)
    {
      var d := digest(matches[k].group);
      var hit := Hit(matches[k].at, if groups != {} then Abbreviated(d) else Text(matches[k].text));
      pattern.OneMoreMatch(hits, places, k, hit);
      if groups == {} || d in groups {
        hits, places := hits + [hit], places + [k];
      }
    }
  }
}
