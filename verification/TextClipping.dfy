/**
 Cutting UTF-8 text without splitting a character: the clipped tool output of the command line and
 the short descriptions of deferred tools.

 The code works on byte offsets; the theorems speak of characters.
 */
module TextClipping {
  import opened Options
  import opened Utf8

  // ---------------------------------------------------------------- character boundaries

  /** The byte offset of character `k`. */
  function Offset(s: Text, k: nat): nat
    requires k <= |s|
  {
    |Encode(s[..k])|
  }

  predicate IsCharBoundary(bytes: seq<Byte>, i: nat) {
    i == 0 || i == |bytes| || (i < |bytes| && !IsContinuation(bytes[i]))
  }

  lemma {:induction false} OffsetSplits(s: Text, k: nat)
    requires k <= |s|
    ensures Encode(s) == Encode(s[..k]) + Encode(s[k..])
    ensures k < |s| ==> Encode(s[k..]) == Enc(s[k]) + Encode(s[k + 1..]) && Offset(s, k + 1) == Offset(s, k) + |Enc(s[k])|
  {
    assert s == s[..k] + s[k..];
    EncodeAppend(s[..k], s[k..]);
    if k < |s| {
      assert s[k..][1..] == s[k + 1..] && s[..k + 1] == s[..k] + [s[k]];
      EncodeAppend(s[..k], [s[k]]);
      assert Encode([s[k]]) == Enc(s[k]);
    }
  }

  lemma {:induction false} OffsetsIncrease(s: Text, j: nat, k: nat)
    requires j < k <= |s|
    ensures Offset(s, j) + (k - j) <= Offset(s, k) <= Offset(s, j) + 4 * (k - j)
  {
    OffsetSplits(s, k - 1);
    if j < k - 1 {
      OffsetsIncrease(s, j, k - 1);
    }
  }

  lemma {:induction false} OffsetIsBoundary(s: Text, k: nat)
    requires k <= |s|
    ensures IsCharBoundary(Encode(s), Offset(s, k))
  {
    OffsetSplits(s, k);
    if k == |s| {
      assert s[..k] == s;
    } else {
      assert Encode(s)[Offset(s, k)] == Enc(s[k])[0];
    }
  }

  lemma {:induction false} BoundaryIsOffset(s: Text, i: nat) returns (k: nat)
    requires i <= |Encode(s)| && IsCharBoundary(Encode(s), i)
    ensures k <= |s| && i == Offset(s, k)
  {
    if i == 0 {
      k := 0;
    } else {
      var n := |Enc(s[0])|;
      assert i < |Encode(s)| ==> Encode(s)[i] == Encode(s[1..])[i - n];
      var after := BoundaryIsOffset(s[1..], i - n);
      k := after + 1;
      assert s[..k] == [s[0]] + s[1..][..k - 1];
      assert s[..k][1..] == s[1..][..k - 1];
    }
  }

  // ---------------------------------------------------------------- clipping a tool result

  const BODY_TRUNCATE_BYTES: nat := 2000

  /** An ellipsis, a space, and `<truncated>`. */
  const MARKER: Text := [0x2026, 0x20, 0x3C, 0x74, 0x72, 0x75, 0x6E, 0x63, 0x61, 0x74, 0x65, 0x64, 0x3E]

  /** How many characters of `s` fit into `limit` bytes. */
  function Fitting(s: Text, limit: nat): (k: nat)
    ensures k <= |s|
  {
    if s == [] || |Enc(s[0])| > limit then 0 else 1 + Fitting(s[1..], limit - |Enc(s[0])|)
  }

  /** A prefix fits exactly when it has no more characters than that. */
  lemma {:induction false} FittingIsLongest(s: Text, limit: nat, k: nat)
    requires k <= |s|
    ensures Offset(s, k) <= limit <==> k <= Fitting(s, limit)
  {
    if k > 0 {
      assert s[..k][0] == s[0] && s[..k][1..] == s[1..][..k - 1];
      if |Enc(s[0])| <= limit {
        FittingIsLongest(s[1..], limit - |Enc(s[0])|, k - 1);
      }
    }
  }

  function Clipped(body: Text): Text {
    if |Encode(body)| <= BODY_TRUNCATE_BYTES then body else body[..Fitting(body, BODY_TRUNCATE_BYTES)] + MARKER
  }

  /** Walks back from the limit to a character boundary. */
  method ClipBody(body: Text) returns (clipped: seq<Byte>)
    ensures clipped == Encode(Clipped(body))
  {
    var bytes := Encode(body);
    if |bytes| <= BODY_TRUNCATE_BYTES {
      return bytes;
    }
    var end := BODY_TRUNCATE_BYTES;
    while end > 0 && !IsCharBoundary(bytes, end)
      invariant 0 <= end <= BODY_TRUNCATE_BYTES
      invariant forall j: nat :: end < j <= BODY_TRUNCATE_BYTES ==> !IsCharBoundary(bytes, j)
    {
      end := end - 1;
    }
    ghost var k := BoundaryIsOffset(body, end);
    LastBoundaryIsFitting(body, k);
    OffsetSplits(body, k);
    EncodeAppend(body[..k], MARKER);
    return bytes[..end] + Encode(MARKER);
  }

  lemma {:induction false} LastBoundaryIsFitting(body: Text, k: nat)
    requires |Encode(body)| > BODY_TRUNCATE_BYTES && k <= |body| && Offset(body, k) <= BODY_TRUNCATE_BYTES
    requires forall j: nat :: Offset(body, k) < j <= BODY_TRUNCATE_BYTES ==> !IsCharBoundary(Encode(body), j)
    ensures k == Fitting(body, BODY_TRUNCATE_BYTES)
  {
    assert body[..|body|] == body;
    OffsetSplits(body, k);
    OffsetIsBoundary(body, k + 1);
    FittingIsLongest(body, BODY_TRUNCATE_BYTES, k);
    FittingIsLongest(body, BODY_TRUNCATE_BYTES, k + 1);
  }

  lemma {:induction false} MarkerIs()
    ensures MARKER == Codes("\U{2026} <truncated>")
  {
  }

  /**
   A clipped body keeps the longest whole-character prefix of at most 2000 bytes, and that is never
   shorter than 1997 bytes; a body that fits is kept as it is.
   */
  lemma {:induction false} ClippedKeepsLongestPrefix(body: Text, k: nat)
    requires k <= |body|
    ensures |Encode(body)| <= 2000 ==> Clipped(body) == body
    ensures |Encode(body)| > 2000 ==>
              exists n: nat ::
                && n < |body| && Clipped(body) == body[..n] + Codes("\U{2026} <truncated>")
                && 1997 <= Offset(body, n) <= 2000
                && (Offset(body, k) <= 2000 <==> k <= n)
  {
    MarkerIs();
    if |Encode(body)| > BODY_TRUNCATE_BYTES {
      var n := Fitting(body, BODY_TRUNCATE_BYTES);
      assert body[..|body|] == body;
      FittingIsLongest(body, BODY_TRUNCATE_BYTES, |body|);
      FittingIsLongest(body, BODY_TRUNCATE_BYTES, n);
      FittingIsLongest(body, BODY_TRUNCATE_BYTES, n + 1);
      FittingIsLongest(body, BODY_TRUNCATE_BYTES, k);
      OffsetSplits(body, n);
    }
  }

  // ---------------------------------------------------------------- words

  /** The Unicode White_Space property. */
  predicate IsWhitespace(c: int) {
    0x09 <= c <= 0x0D || c == 0x20 || c == 0x85 || c == 0xA0 || c == 0x1680 || 0x2000 <= c <= 0x200A ||
    c == 0x2028 || c == 0x2029 || c == 0x202F || c == 0x205F || c == 0x3000
  }

  /** The length of the leading run of characters other than whitespace. */
  function WordLength(s: Text): (n: nat)
    ensures n <= |s| && (forall i :: 0 <= i < n ==> !IsWhitespace(s[i])) && (n < |s| ==> IsWhitespace(s[n]))
  {
    if s == [] || IsWhitespace(s[0]) then 0 else 1 + WordLength(s[1..])
  }

  /** `split_whitespace`: the maximal runs of characters other than whitespace. */
  function Words(s: Text): seq<Text>
    decreases |s|
  {
    if s == [] then []
    else if IsWhitespace(s[0]) then Words(s[1..])
    else [s[..WordLength(s)]] + Words(s[WordLength(s)..])
  }

  function Join(words: seq<Text>): Text {
    if words == [] then []
    else if |words| == 1 then words[0]
    else words[0] + [0x20] + Join(words[1..])
  }

  predicate IsWord(w: Text) {
    w != [] && forall i :: 0 <= i < |w| ==> !IsWhitespace(w[i])
  }

  lemma {:induction false} WordsAreWords(s: Text)
    ensures forall w :: w in Words(s) ==> IsWord(w)
    decreases |s|
  {
    if s != [] {
      if IsWhitespace(s[0]) {
        WordsAreWords(s[1..]);
      } else {
        WordsAreWords(s[WordLength(s)..]);
      }
    }
  }

  lemma {:induction false} WordLengthIs(w: Text, rest: Text)
    requires IsWord(w) && (rest != [] ==> IsWhitespace(rest[0]))
    ensures WordLength(w + rest) == |w|
  {
    assert (w + rest)[0] == w[0] && (w + rest)[1..] == w[1..] + rest;
    if |w| > 1 {
      WordLengthIs(w[1..], rest);
    } else {
      assert w[1..] + rest == rest;
    }
  }

  ghost predicate IsGap(gap: Text) {
    forall i :: 0 <= i < |gap| ==> IsWhitespace(gap[i])
  }

  /** Words with whitespace between them, and perhaps before the first and after the last. */
  ghost predicate AreSpaced(gaps: seq<Text>, words: seq<Text>) {
    && |gaps| == |words| + 1 && (forall w :: w in words ==> IsWord(w)) && (forall g :: g in gaps ==> IsGap(g))
    && forall i :: 0 < i < |gaps| - 1 ==> gaps[i] != []
  }

  /** The gaps and the words in turn. */
  function Spaced(gaps: seq<Text>, words: seq<Text>): Text
    requires |gaps| == |words| + 1
  {
    gaps[0] + if words == [] then [] else words[0] + Spaced(gaps[1..], words[1..])
  }

  lemma {:induction false} WordsAfterGap(gap: Text, rest: Text)
    requires IsGap(gap)
    ensures Words(gap + rest) == Words(rest)
  {
    if gap == [] {
      assert gap + rest == rest;
    } else {
      assert (gap + rest)[1..] == gap[1..] + rest;
      WordsAfterGap(gap[1..], rest);
    }
  }

  lemma {:induction false} WordsOfGap(gap: Text)
    requires IsGap(gap)
    ensures Words(gap) == []
  {
    WordsAfterGap(gap, []);
    assert gap + [] == gap;
  }

  lemma {:induction false} FirstWord(w: Text, rest: Text)
    requires IsWord(w) && (rest != [] ==> IsWhitespace(rest[0]))
    ensures Words(w + rest) == [w] + Words(rest)
  {
    WordLengthIs(w, rest);
    assert (w + rest)[0] == w[0] && (w + rest)[..|w|] == w && (w + rest)[|w|..] == rest;
  }

  /** What follows the first word. */
  lemma {:induction false} LaterAreSpaced(gaps: seq<Text>, words: seq<Text>, rest: Text)
    requires AreSpaced(gaps, words) && words != [] && rest == Spaced(gaps[1..], words[1..])
    ensures AreSpaced(gaps[1..], words[1..]) && IsGap(gaps[0]) && IsWord(words[0])
    ensures rest != [] ==> IsWhitespace(rest[0])
  {
    assert gaps[0] in gaps && words[0] in words && gaps[1] in gaps;
    assert gaps[1] == gaps[1..][0];
  }

  /** However much whitespace, of whatever kind, stands between, before and after words, splitting gives the words. */
  lemma {:induction false} WordsOfSpaced(gaps: seq<Text>, words: seq<Text>)
    requires AreSpaced(gaps, words)
    ensures Words(Spaced(gaps, words)) == words
    decreases |words|
  {
    if words == [] {
      assert gaps[0] in gaps && gaps[0] + [] == gaps[0];
      WordsOfGap(gaps[0]);
    } else {
      var rest := Spaced(gaps[1..], words[1..]);
      LaterAreSpaced(gaps, words, rest);
      WordsAfterGap(gaps[0], words[0] + rest);
      FirstWord(words[0], rest);
      WordsOfSpaced(gaps[1..], words[1..]);
      assert words == [words[0]] + words[1..];
    }
  }

  lemma {:induction false} WiderGap(c: Scalar, gaps: seq<Text>, words: seq<Text>, wider: seq<Text>)
    requires IsWhitespace(c) && AreSpaced(gaps, words) && wider == [[c] + gaps[0]] + gaps[1..]
    ensures AreSpaced(wider, words) && Spaced(wider, words) == [c] + Spaced(gaps, words)
  {
    assert wider[1..] == gaps[1..];
    forall g | g in wider
      ensures IsGap(g)
    {
      assert gaps[0] in gaps && IsGap(gaps[0]);
    }
  }

  lemma {:induction false} OneMoreWord(w: Text, gaps: seq<Text>, words: seq<Text>)
    requires IsWord(w) && AreSpaced(gaps, words) && (words != [] ==> gaps[0] != [])
    ensures AreSpaced([[]] + gaps, [w] + words) && Spaced([[]] + gaps, [w] + words) == w + Spaced(gaps, words)
  {
    assert ([[]] + gaps)[1..] == gaps && ([w] + words)[1..] == words;
  }

  lemma {:induction false} AfterSpace(s: Text, later: seq<Text>, gaps: seq<Text>)
    requires s != [] && IsWhitespace(s[0]) && AreSpaced(later, Words(s[1..])) && s[1..] == Spaced(later, Words(s[1..]))
    requires gaps == [[s[0]] + later[0]] + later[1..]
    ensures AreSpaced(gaps, Words(s)) && s == Spaced(gaps, Words(s)) && gaps[0] != []
  {
    WiderGap(s[0], later, Words(s[1..]), gaps);
    assert s == [s[0]] + s[1..];
  }

  lemma {:induction false} AfterWord(s: Text, n: nat, later: seq<Text>)
    requires s != [] && !IsWhitespace(s[0]) && n == WordLength(s)
    requires AreSpaced(later, Words(s[n..])) && s[n..] == Spaced(later, Words(s[n..])) && (n < |s| ==> later[0] != [])
    ensures AreSpaced([[]] + later, Words(s)) && s == Spaced([[]] + later, Words(s))
  {
    OneMoreWord(s[..n], later, Words(s[n..]));
    assert s == s[..n] + s[n..];
  }

  /** And every text is its words with whitespace around them: a word ends only at whitespace or with the text. */
  lemma {:induction false} TextIsSpacedWords(s: Text) returns (gaps: seq<Text>)
    ensures AreSpaced(gaps, Words(s)) && s == Spaced(gaps, Words(s))
    ensures s != [] && IsWhitespace(s[0]) ==> gaps[0] != []
    decreases |s|
  {
    if s == [] {
      gaps := [[]];
    } else if IsWhitespace(s[0]) {
      var later := TextIsSpacedWords(s[1..]);
      gaps := [[s[0]] + later[0]] + later[1..];
      AfterSpace(s, later, gaps);
    } else {
      var n := WordLength(s);
      var later := TextIsSpacedWords(s[n..]);
      gaps := [[]] + later;
      AfterWord(s, n, later);
    }
  }

  /** Splitting undoes joining. */
  lemma {:induction false} WordsOfJoin(words: seq<Text>)
    requires forall w :: w in words ==> IsWord(w)
    ensures Words(Join(words)) == words
  {
    if words != [] {
      var w := words[0];
      assert w in words;
      var rest: Text := if |words| == 1 then [] else [0x20] + Join(words[1..]);
      assert Join(words) == w + rest;
      WordLengthIs(w, rest);
      assert (w + rest)[0] == w[0] && (w + rest)[..|w|] == w && (w + rest)[|w|..] == rest;
      if |words| > 1 {
        assert rest[1..] == Join(words[1..]);
        WordsOfJoin(words[1..]);
      } else {
        assert words == [w];
      }
    }
  }

  const WINDOW_WORDS: nat := 40

  function Window(desc: Text): Text {
    var words := Words(desc);
    Join(if |words| <= WINDOW_WORDS then words else words[..WINDOW_WORDS])
  }

  /** The window has the first forty words of the description and no others. */
  lemma {:induction false} WindowKeepsWords(desc: Text)
    ensures Words(Window(desc)) == if |Words(desc)| <= 40 then Words(desc) else Words(desc)[..40]
  {
    WordsAreWords(desc);
    var words := Words(desc);
    assert forall w :: |words| > WINDOW_WORDS && w in words[..WINDOW_WORDS] ==> w in words;
    WordsOfJoin(if |words| <= WINDOW_WORDS then words else words[..WINDOW_WORDS]);
  }

  /** Position `i` holds a space with a character that is not whitespace on either side. */
  predicate IsSingleSpace(s: Text, i: nat) {
    0 < i && i + 1 < |s| && s[i] == 0x20 && !IsWhitespace(s[i - 1]) && !IsWhitespace(s[i + 1])
  }

  lemma {:induction false} JoinSpaces(words: seq<Text>, i: nat)
    requires forall w :: w in words ==> IsWord(w)
    ensures i < |Join(words)| && IsWhitespace(Join(words)[i]) ==> IsSingleSpace(Join(words), i)
    ensures words != [] ==> Join(words) != [] && words[0] != [] && Join(words)[0] == words[0][0]
  {
    if words != [] {
      var w := words[0];
      assert w in words;
      if |words| > 1 {
        var rest := Join(words[1..]);
        assert words[1] in words;
        JoinSpaces(words[1..], if i > |w| then i - |w| - 1 else 0);
        assert Join(words) == w + [0x20] + rest;
        assert i > |w| && i < |Join(words)| ==> Join(words)[i] == rest[i - |w| - 1];
        if i > |w| + 1 && i < |Join(words)| - 1 {
          assert Join(words)[i - 1] == rest[i - |w| - 2] && Join(words)[i + 1] == rest[i - |w|];
        }
      }
    }
  }

  /** The words of the window are separated by single spaces, and there is no other whitespace in it. */
  lemma {:induction false} WindowHasSingleSpaces(desc: Text, i: nat)
    requires i < |Window(desc)| && IsWhitespace(Window(desc)[i])
    ensures IsSingleSpace(Window(desc), i)
  {
    WordsAreWords(desc);
    var words := Words(desc);
    assert forall w :: |words| > WINDOW_WORDS && w in words[..WINDOW_WORDS] ==> w in words;
    JoinSpaces(if |words| <= WINDOW_WORDS then words else words[..WINDOW_WORDS], i);
  }

  // ---------------------------------------------------------------- the first sentence

  predicate IsTerminator(c: int) {
    c == 0x2E || c == 0x21 || c == 0x3F
  }

  /** Full stop, exclamation mark and question mark; and the characters that Unicode calls white space. */
  lemma {:induction false} CharacterClassesAre(c: int)
    ensures IsTerminator(c) <==> c in {'.' as int, '!' as int, '?' as int}
    ensures IsWhitespace(c) <==> c in {9, 10, 11, 12, 13, 32, 133, 160, 5760, 8192, 8193, 8194, 8195, 8196, 8197, 8198, 8199, 8200,
                                       8201, 8202, 8232, 8233, 8239, 8287, 12_288}
  {
  }

  /** A sentence ends with character `k`: a terminator at the end or before whitespace. */
  predicate SentenceEndsAt(s: Text, k: nat) {
    k < |s| && IsTerminator(s[k]) && (k + 1 == |s| || IsWhitespace(s[k + 1]))
  }

  /** The first place from `from` on where a sentence ends. */
  function FirstEnd(s: Text, from: nat): (r: Option<nat>)
    requires from <= |s|
    ensures r.Some? ==> from <= r.value && SentenceEndsAt(s, r.value) && forall k :: from <= k < r.value ==> !SentenceEndsAt(s, k)
    ensures r.None? ==> forall k :: from <= k < |s| ==> !SentenceEndsAt(s, k)
    decreases |s| - from
  {
    if from == |s| then None else if SentenceEndsAt(s, from) then Some(from) else FirstEnd(s, from + 1)
  }

  /** The text up to the end of its first sentence, or all of it. */
  function FirstSentence(s: Text): Text {
    match FirstEnd(s, 0)
    case Some(k) => s[..k + 1]
    case None => s
  }

  function ShortDescription(desc: Text): Text {
    FirstSentence(Window(desc))
  }

  /**
   The short description is the shortest prefix of the window that is a sentence, or else the whole
   window; its words are among the first forty of the description.
   */
  lemma {:induction false} ShortDescriptionIsShortestSentence(desc: Text) returns (n: nat)
    ensures n <= |Window(desc)| && ShortDescription(desc) == Window(desc)[..n]
    ensures forall k: nat :: SentenceEndsAt(Window(desc), k) ==> n <= k + 1
    ensures n < |Window(desc)| ==> n > 0 && SentenceEndsAt(Window(desc), n - 1)
    ensures Words(Window(desc)) == if |Words(desc)| <= 40 then Words(desc) else Words(desc)[..40]
  {
    var window := Window(desc);
    n := |ShortDescription(desc)|;
    assert window[..|window|] == window;
    WindowKeepsWords(desc);
  }

  /** An ASCII character is one byte. */
  lemma {:induction false} AsciiAt(s: Text, k: nat)
    requires k < |s| && s[k] < 0x80
    ensures Offset(s, k) + 1 == Offset(s, k + 1) <= |Encode(s)| && Encode(s)[Offset(s, k)] == s[k]
    ensures Encode(s)[..Offset(s, k) + 1] == Encode(s[..k + 1]) && Encode(s)[Offset(s, k) + 1..] == Encode(s[k + 1..])
  {
    OffsetSplits(s, k);
    OffsetSplits(s, k + 1);
    assert Encode(s)[Offset(s, k)] == Enc(s[k])[0];
  }

  /** A byte below 0x80 is a character of its own. */
  lemma {:induction false} AsciiByteIsChar(s: Text, i: nat) returns (k: nat)
    requires i < |Encode(s)| && Encode(s)[i] < 0x80
    ensures k < |s| && i == Offset(s, k) && s[k] == Encode(s)[i]
  {
    k := BoundaryIsOffset(s, i);
    assert s[..|s|] == s;
    OffsetSplits(s, k);
    assert Encode(s)[i] == Enc(s[k])[0];
  }

  /** The rest of the string begins with whitespace. */
  predicate StartsWithWhitespace(bytes: seq<Byte>) {
    bytes != [] && IsWhitespace(FirstChar(bytes))
  }

  lemma {:induction false} StartsWithWhitespaceIff(s: Text)
    ensures StartsWithWhitespace(Encode(s)) <==> s != [] && IsWhitespace(s[0])
  {
    if s != [] {
      FirstCharDecodes(s[0], Encode(s[1..]));
    }
  }

  /** The test that the scan makes at byte `i`. */
  predicate EndsAtByte(bytes: seq<Byte>, i: nat) {
    i < |bytes| && IsTerminator(bytes[i]) && (i + 1 == |bytes| || StartsWithWhitespace(bytes[i + 1..]))
  }

  /** A byte that is not ASCII ends nothing. */
  lemma {:induction false} WideEndsNothing(s: Text, k: nat)
    requires k < |s| && s[k] >= 0x80
    ensures !EndsAtByte(Encode(s), Offset(s, k))
  {
    OffsetSplits(s, k);
    assert Encode(s)[Offset(s, k)] == Enc(s[k])[0];
  }

  /** At the offset of a character, the test on bytes is the test on characters. */
  lemma {:induction false} EndsAtByteIff(s: Text, k: nat)
    requires k < |s|
    ensures EndsAtByte(Encode(s), Offset(s, k)) <==> SentenceEndsAt(s, k)
  {
    if s[k] < 0x80 {
      AsciiAt(s, k);
      var rest := s[k + 1..];
      StartsWithWhitespaceIff(rest);
      assert Encode(rest) == [] <==> rest == [];
    } else {
      WideEndsNothing(s, k);
    }
  }

  /** No sentence ends at a character before byte `i`. */
  ghost predicate Scanned(s: Text, i: nat) {
    forall k: nat :: k < |s| && Offset(s, k) < i ==> !SentenceEndsAt(s, k)
  }

  lemma {:induction false} ScanGoesOn(s: Text, i: nat)
    requires Scanned(s, i) && !EndsAtByte(Encode(s), i)
    ensures Scanned(s, i + 1)
  {
    forall k: nat | k < |s| && Offset(s, k) == i
      ensures !SentenceEndsAt(s, k)
    {
      EndsAtByteIff(s, k);
    }
  }

  lemma {:induction false} ScanFinds(s: Text, i: nat)
    requires Scanned(s, i) && EndsAtByte(Encode(s), i)
    ensures Encode(s)[..i + 1] == Encode(FirstSentence(s))
  {
    var k := AsciiByteIsChar(s, i);
    EndsAtByteIff(s, k);
    AsciiAt(s, k);
    FirstEndIs(s, k);
  }

  lemma {:induction false} FirstEndIs(s: Text, k: nat)
    requires SentenceEndsAt(s, k) && Scanned(s, Offset(s, k))
    ensures FirstEnd(s, 0) == Some(k)
  {
    forall j: nat | j < k
      ensures !SentenceEndsAt(s, j)
    {
      OffsetsIncrease(s, j, k);
    }
  }

  lemma {:induction false} ScanFindsNothing(s: Text)
    requires Scanned(s, |Encode(s)|)
    ensures FirstSentence(s) == s
  {
    forall k: nat | k < |s|
      ensures !SentenceEndsAt(s, k)
    {
      OffsetsIncrease(s, k, |s|);
      assert s[..|s|] == s;
    }
  }

  /** Scans the bytes of the window for the end of a sentence and cuts after it. */
  method ExtractShortDescription(desc: Text) returns (short: seq<Byte>)
    ensures short == Encode(ShortDescription(desc))
  {
    var window := Window(desc);
    var bytes := Encode(window);
    var i := 0;
    while i < |bytes|
      invariant 0 <= i <= |bytes| && Scanned(window, i)
    {
      var b := bytes[i];
      if b == 0x2E || b == 0x21 || b == 0x3F {
        var rest := bytes[i + 1..];
        if rest == [] || StartsWithWhitespace(rest) {
          ScanFinds(window, i);
          return bytes[..i + 1];
        }
      }
      ScanGoesOn(window, i);
      i := i + 1;
    }
    ScanFindsNothing(window);
    return bytes;
  }
}
