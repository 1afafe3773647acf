/** The boundary-aware splitter (internal/chunk/chunk.go, internal/chunk/sentences.go): words with
    sentence and paragraph flags, the cutting loop, and the merge of a small tail. Token counts
    use exact rationals: 1.3 is 13/10. */
module Splitter {
  import opened Bytes

  // ----- Words -----

  function IsSpaceByte(b: Byte): bool {
    b == 32 || b == 10 || b == 13 || b == 9
  }

  /** ASCII . ! ? or the three-byte CJK terminators U+3002, U+FF01, U+FF1F. */
  function EndsSentence(word: Bytes): bool {
    var n := |word|;
    || (n >= 1 && (word[n - 1] == 46 || word[n - 1] == 33 || word[n - 1] == 63))
    || (n >= 3 && word[n - 3] == 0xE3 && word[n - 2] == 0x80 && word[n - 1] == 0x82)
    || (n >= 3 && word[n - 3] == 0xEF && word[n - 2] == 0xBC && (word[n - 1] == 0x81 || word[n - 1] == 0x9F))
  }

  function Newlines(ws: Bytes): nat {
    if ws == [] then 0 else (if ws[0] == 10 then 1 else 0) + Newlines(ws[1..])
  }

  /** A blank line between two words. */
  function HasParagraphBreak(ws: Bytes): bool {
    Newlines(ws) >= 2
  }

  /** Two newlines break a paragraph, wherever they stand among other white space; one does not. */
  lemma BreaksIff(ws: Bytes)
    ensures HasParagraphBreak(ws) <==> exists i, j :: 0 <= i < j < |ws| && ws[i] == ws[j] == 10
  {
    TwoNewlines(ws);
  }

  lemma {:induction false} TwoNewlines(ws: Bytes)
    ensures Newlines(ws) >= 1 <==> exists i :: 0 <= i < |ws| && ws[i] == 10
    ensures Newlines(ws) >= 2 <==> exists i, j :: 0 <= i < j < |ws| && ws[i] == ws[j] == 10
  {
    if ws != [] {
      var tail := ws[1..];
      TwoNewlines(tail);
      forall i | 0 <= i < |tail| ensures tail[i] == ws[i + 1] {
      }
      if i, j :| 0 <= i < j < |tail| && tail[i] == tail[j] == 10 {
        assert ws[i + 1] == ws[j + 1] == 10;
      }
      if i :| 0 <= i < |tail| && tail[i] == 10 {
        assert ws[i + 1] == 10;
      }
      if i, j :| 0 <= i < j < |ws| && ws[i] == ws[j] == 10 {
        assert tail[j - 1] == 10;
        assert i > 0 ==> tail[i - 1] == 10;
      }
    }
  }

  /** The full stop, exclamation and question marks, and their full-width forms in UTF-8. */
  const Terminators: seq<Bytes> :=
    [[46], [33], [63], [0xE3, 0x80, 0x82], [0xEF, 0xBC, 0x81], [0xEF, 0xBC, 0x9F]]

  /** A word ends a sentence iff it ends with a terminator. */
  lemma EndsSentenceIff(word: Bytes)
    ensures EndsSentence(word) <==>
            exists i, stem :: 0 <= i < |Terminators| && word == stem + Terminators[i]
  {
    var n := |word|;
    if n >= 1 && word[n - 1] in [46, 33, 63] {
      var i := if word[n - 1] == 46 then 0 else if word[n - 1] == 33 then 1 else 2;
      assert word == word[..n - 1] + Terminators[i];
    } else if EndsSentence(word) {
      var i := if word[n - 3] == 0xE3 then 3 else if word[n - 1] == 0x81 then 4 else 5;
      assert word == word[..n - 3] + Terminators[i];
    }
  }

  datatype WordSpan = WordSpan(text: Bytes, start: nat, end: nat, sentEnd: bool, paraEnd: bool)

  ghost predicate IsWordAt(s: Bytes, w: WordSpan) {
    && w.start < w.end <= |s| && w.text == s[w.start..w.end]
    && (forall p :: w.start <= p < w.end ==> !IsSpaceByte(s[p]))
    && (w.start > 0 ==> IsSpaceByte(s[w.start - 1]))
    && (w.end < |s| ==> IsSpaceByte(s[w.end]))
  }

  /** The words below `to`: maximal runs, in order, leaving out no byte that is not a space. */
  ghost predicate RunsTo(s: Bytes, words: seq<WordSpan>, to: nat) {
    && to <= |s|
    && (forall k :: 0 <= k < |words| ==> IsWordAt(s, words[k]) && words[k].end <= to)
    && (forall k :: 0 <= k < |words| - 1 ==> words[k].end < words[k + 1].start)
    && (forall p :: 0 <= p < to && !IsSpaceByte(s[p]) ==>
         exists k :: 0 <= k < |words| && words[k].start <= p < words[k].end)
  }

  ghost predicate Runs(s: Bytes, words: seq<WordSpan>) {
    RunsTo(s, words, |s|)
  }

  ghost predicate BreakAfter(s: Bytes, words: seq<WordSpan>, k: nat)
    requires k < |words|
  {
    k + 1 < |words| && BreakBetween(s, words[k].end, words[k + 1].start)
  }

  ghost predicate BreakBetween(s: Bytes, lo: nat, hi: nat) {
    lo <= hi <= |s| && HasParagraphBreak(s[lo..hi])
  }

  /** A word ends a paragraph iff a blank line follows it before the next word, and ends a sentence iff it
      carries a terminator, ends a paragraph, or is the last word. */
  ghost predicate Flags(s: Bytes, words: seq<WordSpan>, closed: bool) {
    forall k :: 0 <= k < |words| ==>
      && words[k].paraEnd == BreakAfter(s, words, k)
      && words[k].sentEnd == (EndsSentence(words[k].text) || words[k].paraEnd || (closed && k == |words| - 1))
  }

  ghost predicate IsTokenization(s: Bytes, words: seq<WordSpan>) {
    Runs(s, words) && Flags(s, words, true)
  }

  method TokenizeWords(s: Bytes) returns (out: seq<WordSpan>)
    ensures IsTokenization(s, out)
  {
    out := [];
    var i, n := 0, |s|;
    while i < n
      invariant 0 <= i <= n && TokenizedTo(s, out, i)
    {
      var wsStart := i;
      i := SkipSpaces(s, i);
      if i >= n {
        OnlySpacesLeft(s, out, wsStart);
        break;
      }
      var start := i;
      i := SkipWord(s, i);
      out := AddWord(s, out, wsStart, start, i);
    }
    out := CloseText(s, out);
  }

  /** The words below `to`, where the next gap starts, and their flags before the end of the text is known. */
  ghost predicate TokenizedTo(s: Bytes, out: seq<WordSpan>, to: nat) {
    && RunsTo(s, out, to) && Flags(s, out, false)
    && (0 < to < |s| ==> IsSpaceByte(s[to]))
    && (out == [] ==> to == 0 || to == |s|)
    && (out != [] && to < |s| ==> out[|out| - 1].end == to)
  }

  lemma OnlySpacesLeft(s: Bytes, out: seq<WordSpan>, to: nat)
    requires TokenizedTo(s, out, to) && forall p :: to <= p < |s| ==> IsSpaceByte(s[p])
    ensures TokenizedTo(s, out, |s|)
  {
    SpacesAtEnd(s, out, to);
  }

  /** Appends the word [start, end), and marks the one before it when a blank line lies between. */
  method AddWord(s: Bytes, out: seq<WordSpan>, wsStart: nat, start: nat, end: nat) returns (r: seq<WordSpan>)
    requires TokenizedTo(s, out, wsStart) && wsStart <= start < end <= |s|
    requires forall p :: wsStart <= p < start ==> IsSpaceByte(s[p])
    requires forall p :: start <= p < end ==> !IsSpaceByte(s[p])
    requires end < |s| ==> IsSpaceByte(s[end])
    ensures TokenizedTo(s, r, end)
  {
    var w := WordSpan(s[start..end], start, end, EndsSentence(s[start..end]), false);
    var marked := MarkParagraph(out, s[wsStart..start]);
    assert wsStart < |s| && (start > wsStart ==> IsSpaceByte(s[start - 1]));
    assert wsStart > 0 ==> start > wsStart;
    assert IsWordAt(s, w);
    RunsFrame(s, out, marked, wsStart);
    RunAdded(s, marked, wsStart, w);
    FlagsAdded(s, out, marked + [w], wsStart, w);
    r := marked + [w];
  }

  /** The end of the text ends a sentence. */
  method CloseText(s: Bytes, out: seq<WordSpan>) returns (r: seq<WordSpan>)
    requires TokenizedTo(s, out, |s|)
    ensures IsTokenization(s, r)
  {
    r := out;
    if |out| > 0 {
      r := out[|out| - 1 := out[|out| - 1].(sentEnd := true)];
      LastClosed(s, out, r);
      RunsFrame(s, out, r, |s|);
    }
  }

  method SkipSpaces(s: Bytes, at: nat) returns (i: nat)
    requires at <= |s|
    ensures at <= i <= |s| && (i < |s| ==> !IsSpaceByte(s[i]))
    ensures forall p :: at <= p < i ==> IsSpaceByte(s[p])
  {
    i := at;
    while i < |s| && IsSpaceByte(s[i])
      invariant at <= i <= |s|
      invariant forall p :: at <= p < i ==> IsSpaceByte(s[p])
    {
      i := i + 1;
    }
  }

  method SkipWord(s: Bytes, at: nat) returns (i: nat)
    requires at < |s| && !IsSpaceByte(s[at])
    ensures at < i <= |s| && (i < |s| ==> IsSpaceByte(s[i]))
    ensures forall p :: at <= p < i ==> !IsSpaceByte(s[p])
  {
    i := at;
    while i < |s| && !IsSpaceByte(s[i])
      invariant at <= i <= |s|
      invariant forall p :: at <= p < i ==> !IsSpaceByte(s[p])
    {
      i := i + 1;
    }
  }

  ghost predicate SameSpans(a: seq<WordSpan>, b: seq<WordSpan>) {
    && |a| == |b|
    && forall k :: 0 <= k < |a| ==> a[k].text == b[k].text && a[k].start == b[k].start && a[k].end == b[k].end
  }

  /** Where the words are does not depend on the flags. */
  lemma RunsFrame(s: Bytes, a: seq<WordSpan>, b: seq<WordSpan>, hi: nat)
    requires SameSpans(a, b) && RunsTo(s, a, hi)
    ensures RunsTo(s, b, hi)
  {
    forall k | 0 <= k < |b| ensures IsWordAt(s, b[k]) && b[k].end <= hi {
      assert IsWordAt(s, a[k]);
    }
    forall p | 0 <= p < hi && !IsSpaceByte(s[p])
      ensures exists k :: 0 <= k < |b| && b[k].start <= p < b[k].end
    {
      var k :| 0 <= k < |a| && a[k].start <= p < a[k].end;
      assert b[k].start <= p < b[k].end;
    }
  }

  lemma SpacesAtEnd(s: Bytes, words: seq<WordSpan>, hi: nat)
    requires RunsTo(s, words, hi)
    requires forall p :: hi <= p < |s| ==> IsSpaceByte(s[p])
    ensures Runs(s, words)
  {
  }

  lemma RunAdded(s: Bytes, out: seq<WordSpan>, wsStart: nat, w: WordSpan)
    requires RunsTo(s, out, wsStart) && wsStart <= w.start && IsWordAt(s, w)
    requires forall p :: wsStart <= p < w.start ==> IsSpaceByte(s[p])
    requires out != [] ==> out[|out| - 1].end < w.start
    ensures RunsTo(s, out + [w], w.end)
  {
    var r := out + [w];
    forall p | 0 <= p < w.end && !IsSpaceByte(s[p])
      ensures exists k :: 0 <= k < |r| && r[k].start <= p < r[k].end
    {
      if p < wsStart {
        var k :| 0 <= k < |out| && out[k].start <= p < out[k].end;
        assert r[k].start <= p < r[k].end;
      } else {
        assert r[|out|].start <= p < r[|out|].end;
      }
    }
    forall k | 0 <= k < |r| ensures IsWordAt(s, r[k]) && r[k].end <= w.end {
      if k < |out| {
        assert IsWordAt(s, out[k]);
      }
    }
  }

  /** Marks the last word when a blank line follows it. */
  method MarkParagraph(out: seq<WordSpan>, ws: Bytes) returns (r: seq<WordSpan>)
    ensures SameSpans(out, r)
    ensures forall k :: 0 <= k < |out| - 1 ==> r[k] == out[k]
    ensures out != [] ==>
              var n := |out| - 1;
              && r[n].paraEnd == (out[n].paraEnd || HasParagraphBreak(ws))
              && r[n].sentEnd == (out[n].sentEnd || HasParagraphBreak(ws))
  {
    r := out;
    if |out| > 0 && HasParagraphBreak(ws) {
      r := out[|out| - 1 := out[|out| - 1].(paraEnd := true, sentEnd := true)];
    }
  }

  lemma FlagsAdded(s: Bytes, out: seq<WordSpan>, r: seq<WordSpan>, wsStart: nat, w: WordSpan)
    requires Flags(s, out, false) && wsStart <= w.start <= |s|
    requires |r| == |out| + 1 && SameSpans(out, r[..|out|]) && r[|out|] == w
    requires forall k :: 0 <= k < |out| - 1 ==> r[k] == out[k]
    requires out != [] ==>
               && out[|out| - 1].end == wsStart
               && r[|out| - 1].paraEnd == (out[|out| - 1].paraEnd || HasParagraphBreak(s[wsStart..w.start]))
               && r[|out| - 1].sentEnd == (out[|out| - 1].sentEnd || HasParagraphBreak(s[wsStart..w.start]))
    requires w.sentEnd == EndsSentence(w.text) && !w.paraEnd
    ensures Flags(s, r, false)
  {
    forall k | 0 <= k < |r|
      ensures r[k].paraEnd == BreakAfter(s, r, k)
      ensures r[k].sentEnd == (EndsSentence(r[k].text) || r[k].paraEnd)
    {
      if k < |out| - 1 {
        assert r[..|out|][k + 1].start == out[k + 1].start;
        assert BreakAfter(s, out, k) == BreakAfter(s, r, k);
      } else if k == |out| - 1 {
        assert r[..|out|][k].text == out[k].text;
        assert r[k].end == wsStart && r[k + 1].start == w.start;
        assert !BreakAfter(s, out, k);
      }
    }
  }

  lemma LastClosed(s: Bytes, out: seq<WordSpan>, r: seq<WordSpan>)
    requires Flags(s, out, false) && out != []
    requires r == out[|out| - 1 := out[|out| - 1].(sentEnd := true)]
    ensures SameSpans(out, r) && Flags(s, r, true)
  {
    forall k | 0 <= k < |r| ensures BreakAfter(s, r, k) == BreakAfter(s, out, k) {
    }
  }

  /** The words of a text are what lies between its spaces, tabs, line feeds and carriage returns. */
  lemma WordsBetweenSpaces(s: Bytes, words: seq<WordSpan>, p: nat)
    requires Runs(s, words) && p < |s|
    ensures s[p] == 32 || s[p] == 9 || s[p] == 10 || s[p] == 13
            <==> forall k :: 0 <= k < |words| ==> !(words[k].start <= p < words[k].end)
  {
    if !IsSpaceByte(s[p]) {
      assert exists k :: 0 <= k < |words| && words[k].start <= p < words[k].end;
    }
    forall k | 0 <= k < |words| && IsSpaceByte(s[p]) ensures !(words[k].start <= p < words[k].end) {
      assert IsWordAt(s, words[k]);
    }
  }

  // ----- Tokens -----

  /** Whitespace-separated fields: a field starts at every non-space byte after a space or at the start. */
  function FieldCount(s: Bytes): nat {
    if s == [] then 0
    else
      var n := |s|;
      FieldCount(s[..n - 1]) + (if !IsSpaceByte(s[n - 1]) && (n == 1 || IsSpaceByte(s[n - 2])) then 1 else 0)
  }

  function Tokens(words: nat): nat {
    (13 * words + 9) / 10
  }

  function EstimateTokens(s: Bytes): nat {
    Tokens(FieldCount(s))
  }

  function WordsForTokens(tokens: int): nat {
    if tokens <= 0 then 0 else 10 * tokens / 13
  }

  /** The two conversions form a Galois connection. */
  lemma TokensGalois(words: nat, tokens: nat)
    ensures Tokens(words) <= tokens <==> words <= WordsForTokens(tokens)
  {
  }

  lemma TokensSubadditive(a: nat, b: nat)
    ensures Tokens(a + b) <= Tokens(a) + Tokens(b)
  {
  }

  lemma {:induction false} SpacesAddNoField(s: Bytes, lo: nat, hi: nat)
    requires lo <= hi <= |s|
    requires forall p :: lo <= p < hi ==> IsSpaceByte(s[p])
    ensures FieldCount(s[..hi]) == FieldCount(s[..lo])
    decreases hi
  {
    if lo < hi {
      assert s[..hi][..hi - 1] == s[..hi - 1];
      SpacesAddNoField(s, lo, hi - 1);
    }
  }

  lemma {:induction false} RunIsOneField(s: Bytes, lo: nat, hi: nat)
    requires lo < hi <= |s|
    requires forall p :: lo <= p < hi ==> !IsSpaceByte(s[p])
    requires lo > 0 ==> IsSpaceByte(s[lo - 1])
    ensures FieldCount(s[..hi]) == FieldCount(s[..lo]) + 1
    decreases hi
  {
    assert s[..hi][..hi - 1] == s[..hi - 1];
    if lo + 1 < hi {
      RunIsOneField(s, lo, hi - 1);
    }
  }

  lemma {:induction false} FieldsUpTo(s: Bytes, words: seq<WordSpan>, k: nat)
    requires Runs(s, words) && k <= |words|
    ensures GapTo(s, words, k) <= |s| && FieldCount(s[..GapTo(s, words, k)]) == k
    decreases k
  {
    GapAddsNoField(s, words, k);
    if k > 0 {
      FieldsUpTo(s, words, k - 1);
      WordIsOneField(s, words, k - 1);
    }
  }

  /** The gap before word `k` (after the last word for k == |words|). */
  function GapFrom(words: seq<WordSpan>, k: nat): nat
    requires k <= |words|
  {
    if k == 0 then 0 else words[k - 1].end
  }

  function GapTo(s: Bytes, words: seq<WordSpan>, k: nat): nat
    requires k <= |words|
  {
    if k == |words| then |s| else words[k].start
  }

  lemma GapAddsNoField(s: Bytes, words: seq<WordSpan>, k: nat)
    requires Runs(s, words) && k <= |words|
    ensures GapFrom(words, k) <= GapTo(s, words, k) <= |s|
    ensures FieldCount(s[..GapTo(s, words, k)]) == FieldCount(s[..GapFrom(words, k)])
  {
    GapIsSpace(s, words, k);
    SpacesAddNoField(s, GapFrom(words, k), GapTo(s, words, k));
  }

  lemma WordIsOneField(s: Bytes, words: seq<WordSpan>, k: nat)
    requires Runs(s, words) && k < |words|
    ensures words[k].start < words[k].end <= |s| && FieldCount(s[..words[k].end]) == FieldCount(s[..words[k].start]) + 1
  {
    assert IsWordAt(s, words[k]);
    RunIsOneField(s, words[k].start, words[k].end);
  }

  lemma GapIsSpace(s: Bytes, words: seq<WordSpan>, k: nat)
    requires Runs(s, words) && k <= |words|
    ensures GapFrom(words, k) <= GapTo(s, words, k) <= |s|
    ensures forall p :: GapFrom(words, k) <= p < GapTo(s, words, k) ==> IsSpaceByte(s[p])
  {
    var from, to := GapFrom(words, k), GapTo(s, words, k);
    forall p | from <= p < to ensures IsSpaceByte(s[p]) {
      forall j | 0 <= j < |words| ensures !(words[j].start <= p < words[j].end) {
        if j < k {
          EndsInOrder(s, words, j, k - 1);
        } else {
          EndsInOrder(s, words, k, j);
        }
      }
    }
  }

  lemma {:induction false} EndsInOrder(s: Bytes, words: seq<WordSpan>, j: nat, k: nat)
    requires Runs(s, words) && j <= k < |words|
    ensures words[j].end <= words[k].end && words[j].start <= words[k].start
    ensures j < k ==> words[j].end < words[k].start
    decreases k
  {
    assert IsWordAt(s, words[k]);
    if j < k {
      EndsInOrder(s, words, j, k - 1);
      assert IsWordAt(s, words[k - 1]);
    }
  }

  /** Counting fields and tokenizing agree on how many words a text has. */
  lemma FieldsAreWords(s: Bytes, words: seq<WordSpan>)
    requires Runs(s, words)
    ensures FieldCount(s) == |words|
  {
    FieldsUpTo(s, words, |words|);
    assert s[..|s|] == s;
  }

  // ----- Cutting -----

  datatype Config = Config(size: int, overlap: int, minTokens: int) {
    function PerChunk(): nat {
      if WordsForTokens(size) < 1 then 1 else WordsForTokens(size)
    }
    function OverlapWords(): (o: nat)
      ensures o < PerChunk()
    {
      if WordsForTokens(overlap) >= PerChunk() then PerChunk() / 4 else WordsForTokens(overlap)
    }
    function MinFlush(): nat { WordsForTokens(minTokens) }
  }

  /** One segment before the tail merge: the words [from, to), and whether a paragraph end cut it. */
  datatype Cut = Cut(from: nat, to: nat, flushed: bool)

  ghost predicate Flushable(words: seq<WordSpan>, c: Config, i: int, k: int) {
    && 0 <= i <= k < |words| && k < i + c.PerChunk()
    && words[k].paraEnd && k - i + 1 >= c.MinFlush()
  }

  ghost predicate Snappable(words: seq<WordSpan>, c: Config, i: int, k: int) {
    && 0 <= i < k < |words| && i + c.PerChunk() / 2 <= k < i + c.PerChunk()
    && words[k].sentEnd
  }

  /** Where a segment starting at `cut.from` ends: all the rest if that fits; else after the first
      paragraph end that makes it large enough; else after the last sentence end in the back half; else
      at the full window. */
  ghost predicate EndsRight(words: seq<WordSpan>, c: Config, cut: Cut) {
    && cut.from < cut.to <= |words|
    && if |words| - cut.from <= c.PerChunk() then
         cut.to == |words| && !cut.flushed
       else if cut.flushed then
         && Flushable(words, c, cut.from, cut.to - 1)
         && forall k :: k < cut.to - 1 ==> !Flushable(words, c, cut.from, k)
       else
         && (forall k :: !Flushable(words, c, cut.from, k))
         && if exists k :: Snappable(words, c, cut.from, k) then
              && Snappable(words, c, cut.from, cut.to - 1)
              && forall k :: cut.to - 1 < k ==> !Snappable(words, c, cut.from, k)
            else
              cut.to == cut.from + c.PerChunk()
  }

  /** Where the next segment starts. */
  function Advance(c: Config, cut: Cut): int {
    if cut.flushed || cut.to - c.OverlapWords() <= cut.from then cut.to else cut.to - c.OverlapWords()
  }

  ghost predicate Chained(words: seq<WordSpan>, c: Config, cuts: seq<Cut>) {
    && (|cuts| > 0 ==> cuts[0].from == 0)
    && (forall j :: 0 <= j < |cuts| ==> EndsRight(words, c, cuts[j]))
    && (forall j :: 0 <= j < |cuts| - 1 ==> cuts[j].to < |words| && cuts[j + 1].from == Advance(c, cuts[j]))
  }

  ghost predicate IsCutting(words: seq<WordSpan>, c: Config, cuts: seq<Cut>) {
    && Chained(words, c, cuts)
    && (words == [] <==> cuts == [])
    && (cuts != [] ==> cuts[|cuts| - 1].to == |words|)
  }

  // ----- Theorems about every cutting -----

  lemma CutEndUnique(words: seq<WordSpan>, c: Config, a: Cut, b: Cut)
    requires EndsRight(words, c, a) && EndsRight(words, c, b) && a.from == b.from
    ensures a == b
  {
  }

  /** The rules above determine the segments. */
  lemma {:induction false} CuttingUnique(words: seq<WordSpan>, c: Config, a: seq<Cut>, b: seq<Cut>, j: nat)
    requires IsCutting(words, c, a) && IsCutting(words, c, b) && j < |a|
    ensures j < |b| && a[j] == b[j]
    decreases j
  {
    if j > 0 {
      CuttingUnique(words, c, a, b, j - 1);
    }
    CutEndUnique(words, c, a[j], b[j]);
  }

  /** A paragraph end inside the overlap would already have ended the earlier segment. */
  lemma NoParagraphInOverlap(words: seq<WordSpan>, c: Config, cuts: seq<Cut>, j: nat, k: int)
    requires IsCutting(words, c, cuts) && j + 1 < |cuts|
    requires cuts[j + 1].from <= k < cuts[j].to
    ensures !Flushable(words, c, cuts[j + 1].from, k)
  {
    assert EndsRight(words, c, cuts[j]);
    assert cuts[j + 1].from == Advance(c, cuts[j]);
    assert !Flushable(words, c, cuts[j].from, k);
  }

  lemma EndsNeverBack(words: seq<WordSpan>, c: Config, cuts: seq<Cut>, j: nat)
    requires IsCutting(words, c, cuts) && j + 1 < |cuts|
    ensures cuts[j].to <= cuts[j + 1].to
    ensures c.OverlapWords() <= c.PerChunk() / 2 ==> cuts[j].to < cuts[j + 1].to
  {
    var a, b := cuts[j], cuts[j + 1];
    assert EndsRight(words, c, a) && EndsRight(words, c, b) && b.from == Advance(c, a);
    if b.flushed {
      if b.to - 1 < a.to {
        NoParagraphInOverlap(words, c, cuts, j, b.to - 1);
      }
    } else if a.flushed || |words| - b.from <= c.PerChunk() {
    } else {
      SnapNeverBack(words, c, a, b);
    }
  }

  lemma SnapNeverBack(words: seq<WordSpan>, c: Config, a: Cut, b: Cut)
    requires EndsRight(words, c, a) && EndsRight(words, c, b) && b.from == Advance(c, a)
    requires !a.flushed && !b.flushed && a.to < |words| && |words| - b.from > c.PerChunk()
    ensures a.to <= b.to
    ensures c.OverlapWords() <= c.PerChunk() / 2 ==> a.to < b.to
  {
    assert Snappable(words, c, b.from, a.to - 1) ==> a.to <= b.to;
    if exists k :: Snappable(words, c, b.from, k) {
      assert Snappable(words, c, b.from, b.to - 1);
      assert b.to - 1 < a.to - 1 ==> Snappable(words, c, a.from, b.to - 1);
    }
  }

  /** Starts strictly increase, ends never go back, and neighbours share exactly 0 words, or the
      overlap; after a paragraph end, 0. */
  lemma NeighboursShare(words: seq<WordSpan>, c: Config, cuts: seq<Cut>, j: nat)
    requires IsCutting(words, c, cuts) && j + 1 < |cuts|
    ensures cuts[j].from < cuts[j + 1].from <= cuts[j].to <= cuts[j + 1].to
    ensures cuts[j].to - cuts[j + 1].from in {0, c.OverlapWords()}
    ensures cuts[j].flushed ==> cuts[j + 1].from == cuts[j].to
    ensures !cuts[j].flushed && cuts[j].to - cuts[j].from > c.OverlapWords() ==>
                cuts[j].to - cuts[j + 1].from == c.OverlapWords()
  {
    EndsNeverBack(words, c, cuts, j);
    assert EndsRight(words, c, cuts[j]) && EndsRight(words, c, cuts[j + 1]);
    assert cuts[j + 1].from == Advance(c, cuts[j]);
  }

  /** No word is left out. */
  lemma {:induction false} EveryWordCovered(words: seq<WordSpan>, c: Config, cuts: seq<Cut>, w: nat, j: nat)
    requires IsCutting(words, c, cuts) && j < |cuts| && cuts[j].from <= w < |words|
    ensures exists k :: j <= k < |cuts| && cuts[k].from <= w < cuts[k].to
    decreases |cuts| - j
  {
    if w < cuts[j].to {
      assert cuts[j].from <= w < cuts[j].to;
    } else {
      NeighboursShare(words, c, cuts, j);
      EveryWordCovered(words, c, cuts, w, j + 1);
    }
  }

  ghost predicate EndsGrow(cuts: seq<Cut>) {
    forall j, k :: 0 <= j < k < |cuts| ==> cuts[j].from < cuts[k].from && cuts[j].to < cuts[k].to
  }

  /** With an overlap of at most half a window no segment lies inside another. */
  lemma {:induction false} NoNesting(words: seq<WordSpan>, c: Config, cuts: seq<Cut>, j: nat, k: nat)
    requires IsCutting(words, c, cuts) && j < k < |cuts|
    requires c.OverlapWords() <= c.PerChunk() / 2
    ensures cuts[j].from < cuts[k].from && cuts[j].to < cuts[k].to
    decreases k
  {
    NeighboursShare(words, c, cuts, k - 1);
    EndsNeverBack(words, c, cuts, k - 1);
    if j < k - 1 {
      NoNesting(words, c, cuts, j, k - 1);
    }
  }

  /** A text of 2 * n one-letter words whose n-th alone carries a full stop. */
  function OneStop(n: nat): (s: Bytes)
    requires n > 0
  {
    seq(4 * n, p requires 0 <= p < 4 * n =>
      if p == 2 * n - 1 then 46 else if p == 2 * n then 32
      else if p < 2 * n - 1 then (if p % 2 == 0 then 97 else 32)
      else if p % 2 == 1 then 97 else 32)
  }

  function OneStopWord(n: nat, k: nat): (w: WordSpan)
    requires n > 0 && k < 2 * n
  {
    if k < n - 1 then WordSpan([97], 2 * k, 2 * k + 1, false, false)
    else if k == n - 1 then WordSpan([97, 46], 2 * k, 2 * k + 2, true, false)
    else WordSpan([97], 2 * k + 1, 2 * k + 2, k == 2 * n - 1, false)
  }

  lemma OneStopWordAt(n: nat, k: nat)
    requires n > 0 && k < 2 * n
    ensures IsWordAt(OneStop(n), OneStopWord(n, k))
    ensures k + 1 < 2 * n ==> OneStopWord(n, k).end + 1 == OneStopWord(n, k + 1).start
    ensures k + 1 < 2 * n ==> !BreakBetween(OneStop(n), OneStopWord(n, k).end, OneStopWord(n, k + 1).start)
  {
    var s, w := OneStop(n), OneStopWord(n, k);
    assert s[w.start..w.end] == w.text;
    if k + 1 < 2 * n {
      OneByteNoBreak(s, w.end);
    }
  }

  lemma OneByteNoBreak(s: Bytes, p: nat)
    requires p < |s|
    ensures !BreakBetween(s, p, p + 1)
  {
    assert s[p..p + 1] == [s[p]];
    assert [s[p]][1..] == [];
    assert Newlines([s[p]]) <= 1;
  }

  function OneStopWords(n: nat): (words: seq<WordSpan>)
    requires n > 0
    ensures |words| == 2 * n
  {
    seq(2 * n, k requires 0 <= k < 2 * n => OneStopWord(n, k))
  }

  lemma OneStopCovers(n: nat, p: nat)
    requires n > 0 && p < 4 * n && !IsSpaceByte(OneStop(n)[p])
    ensures exists k :: 0 <= k < 2 * n && OneStopWords(n)[k].start <= p < OneStopWords(n)[k].end
  {
    var k := if p <= 2 * n - 1 then p / 2 else (p - 1) / 2;
    assert OneStopWord(n, k).start <= p < OneStopWord(n, k).end;
    assert OneStopWords(n)[k] == OneStopWord(n, k);
  }

  lemma OneStopTokens(n: nat)
    requires n > 0
    ensures IsTokenization(OneStop(n), OneStopWords(n))
  {
    var s, words := OneStop(n), OneStopWords(n);
    forall k | 0 <= k < 2 * n
      ensures IsWordAt(s, words[k]) && (k + 1 < 2 * n ==> words[k].end + 1 == words[k + 1].start)
      ensures !BreakAfter(s, words, k)
    {
      OneStopWordAt(n, k);
    }
    forall p | 0 <= p < |s| && !IsSpaceByte(s[p])
      ensures exists k :: 0 <= k < |words| && words[k].start <= p < words[k].end
    {
      OneStopCovers(n, p);
    }
    OneStopFlags(n);
  }

  lemma OneStopFlags(n: nat)
    requires n > 0
    requires forall k :: 0 <= k < 2 * n ==> !BreakAfter(OneStop(n), OneStopWords(n), k)
    ensures Flags(OneStop(n), OneStopWords(n), true)
  {
    forall k | 0 <= k < 2 * n
      ensures OneStopWords(n)[k].sentEnd == (EndsSentence(OneStopWords(n)[k].text) || k == 2 * n - 1)
    {
      var w := OneStopWord(n, k);
      assert OneStopWords(n)[k] == w;
    }
  }

  /** With more overlap than half a window, the second segment of this text lies inside the first. */
  lemma NestedSegments(c: Config, cuts: seq<Cut>)
    requires c.OverlapWords() > c.PerChunk() / 2
    requires IsCutting(OneStopWords(c.PerChunk()), c, cuts)
    ensures |cuts| > 1 && cuts[0].from < cuts[1].from && cuts[1].to == cuts[0].to
  {
    var n := c.PerChunk();
    var words := OneStopWords(n);
    assert forall k :: 0 <= k < 2 * n ==> words[k] == OneStopWord(n, k);
    StopIsSnapped(c, cuts[0]);
    assert cuts[1].from == Advance(c, cuts[0]);
    StopIsSnapped(c, cuts[1]);
  }

  /** A window over the full stop but not over the last word ends at the stop. */
  lemma StopIsSnapped(c: Config, cut: Cut)
    requires c.PerChunk() > 1 && EndsRight(OneStopWords(c.PerChunk()), c, cut)
    requires cut.from + c.PerChunk() / 2 <= c.PerChunk() - 1 && cut.from < c.PerChunk() - 1
    ensures cut.to == c.PerChunk() && !cut.flushed
  {
    var n, words := c.PerChunk(), OneStopWords(c.PerChunk());
    assert words[n - 1] == OneStopWord(n, n - 1);
    assert Snappable(words, c, cut.from, n - 1);
    assert words[cut.to - 1] == OneStopWord(n, cut.to - 1);
  }

  /** Segment ends grow on every text iff the overlap is at most half a window. */
  lemma EndsGrowIff(c: Config)
    ensures (forall text: Bytes, words: seq<WordSpan>, cuts: seq<Cut> ::
                   IsTokenization(text, words) && IsCutting(words, c, cuts) ==> EndsGrow(cuts))
            <==> c.OverlapWords() <= c.PerChunk() / 2
  {
    if c.OverlapWords() <= c.PerChunk() / 2 {
      forall text: Bytes, words: seq<WordSpan>, cuts: seq<Cut>
        | IsTokenization(text, words) && IsCutting(words, c, cuts)
        ensures EndsGrow(cuts) {
        forall j, k | 0 <= j < k < |cuts| ensures cuts[j].from < cuts[k].from && cuts[j].to < cuts[k].to {
          NoNesting(words, c, cuts, j, k);
        }
      }
    } else {
      OneStopTokens(c.PerChunk());
      var cuts := CuttingExists(OneStopWords(c.PerChunk()), c);
      NestedSegments(c, cuts);
      assert !EndsGrow(cuts) by {
        assert cuts[0].to == cuts[1].to;
      }
    }
  }

  lemma EndExists(words: seq<WordSpan>, c: Config, i: nat) returns (cut: Cut)
    requires i < |words|
    ensures cut.from == i && EndsRight(words, c, cut)
  {
    if |words| - i <= c.PerChunk() {
      return Cut(i, |words|, false);
    }
    var k := i;
    while k < i + c.PerChunk()
      invariant i <= k <= i + c.PerChunk()
      invariant forall x :: x < k ==> !Flushable(words, c, i, x)
    {
      if Flushable(words, c, i, k) {
        return Cut(i, k + 1, true);
      }
      k := k + 1;
    }
    k := i + c.PerChunk() - 1;
    while k > i
      invariant i <= k
      invariant forall x :: k < x ==> !Snappable(words, c, i, x)
    {
      if Snappable(words, c, i, k) {
        return Cut(i, k + 1, false);
      }
      k := k - 1;
    }
    return Cut(i, i + c.PerChunk(), false);
  }

  /** Every text has a cutting, and by CuttingUnique only one. */
  lemma CuttingExists(words: seq<WordSpan>, c: Config) returns (cuts: seq<Cut>)
    ensures IsCutting(words, c, cuts)
  {
    cuts := [];
    var i := 0;
    while i < |words|
      invariant Chained(words, c, cuts) && 0 <= i
      invariant words == [] ==> cuts == []
      invariant i < |words| ==>
                    if cuts == [] then i == 0 else cuts[|cuts| - 1].to < |words| && i == Advance(c, cuts[|cuts| - 1])
      invariant i >= |words| ==> words == [] || (cuts != [] && cuts[|cuts| - 1].to == |words|)
      decreases |words| - i
    {
      var cut := EndExists(words, c, i);
      cuts := cuts + [cut];
      i := if cut.to >= |words| then |words| else Advance(c, cut);
    }
  }

  // ----- Segments -----

  datatype Segment = Segment(text: Bytes, start: nat, end: nat, tokenCount: nat)

  /** Words joined by single spaces. */
  function Joined(words: seq<WordSpan>): Bytes {
    var n := |words|;
    if n == 0 then [] else if n == 1 then words[0].text
    else Joined(words[..n - 1]) + [32] + words[n - 1].text
  }

  method BuildSegment(words: seq<WordSpan>) returns (seg: Segment)
    requires words != []
    ensures seg == SegmentOf(words)
  {
    var text := [];
    for i := 0 to |words|
      invariant text == Joined(words[..i])
    {
      assert words[..i + 1][..i] == words[..i];
      if i > 0 {
        text := text + [32];
      }
      text := text + words[i].text;
    }
    assert words[..|words|] == words;
    seg := Segment(text, words[0].start, words[|words| - 1].end, EstimateTokens(text));
  }

  function SegmentOf(words: seq<WordSpan>): Segment
    requires words != []
  {
    Segment(Joined(words), words[0].start, words[|words| - 1].end, EstimateTokens(Joined(words)))
  }

  /** The segments of a cutting, before the tail merge. */
  ghost predicate AreSegments(words: seq<WordSpan>, cuts: seq<Cut>, segs: seq<Segment>) {
    && |segs| == |cuts|
    && forall j :: 0 <= j < |cuts| ==>
        cuts[j].from < cuts[j].to <= |words| && segs[j] == SegmentOf(words[cuts[j].from..cuts[j].to])
  }

  function TrimLeft(s: Bytes): (r: Bytes) {
    if s != [] && IsSpaceByte(s[0]) then TrimLeft(s[1..]) else s
  }

  function TrimSpace(s: Bytes): (r: Bytes)
    decreases |s|
  {
    if s != [] && IsSpaceByte(s[|s| - 1]) then TrimSpace(s[..|s| - 1]) else TrimLeft(s)
  }

  /** What the last two segments become. */
  ghost predicate IsMerged(prev: Segment, last: Segment, m: Segment) {
    m == Segment(prev.text + [32] + last.text, prev.start, last.end, EstimateTokens(prev.text + [32] + last.text))
  }

  /** The tail below the minimum joins its predecessor; nothing else changes. */
  ghost predicate TailMerged(c: Config, segs: seq<Segment>, out: seq<Segment>) {
    var n := |segs|;
    if n >= 2 && segs[n - 1].tokenCount < c.minTokens then
      |out| == n - 1 && out[..n - 2] == segs[..n - 2] && IsMerged(segs[n - 2], segs[n - 1], out[n - 2])
    else
      out == segs
  }

  method Split(text: Bytes, c: Config)
    returns (out: seq<Segment>, ghost words: seq<WordSpan>, ghost cuts: seq<Cut>, ghost segs: seq<Segment>)
    ensures IsTokenization(text, words) && IsCutting(words, c, cuts)
    ensures AreSegments(words, cuts, segs) && TailMerged(c, segs, out)
    ensures EstimateTokens(text) <= c.size ==> |out| <= 1
  {
    var ws := TokenizeWords(text);
    words, cuts, segs := ws, [], [];
    if |ws| == 0 {
      return [], words, cuts, segs;
    }
    var all;
    all, cuts := CutAll(ws, c);
    segs := all;
    WordsShaped(text, ws);
    out := MergeTail(c, all, ws, cuts);
    CutIffTooLong(text, c, ws, cuts);
  }

  /** The cutting loop. */
  method CutAll(ws: seq<WordSpan>, c: Config) returns (all: seq<Segment>, ghost cuts: seq<Cut>)
    requires ws != []
    ensures IsCutting(ws, c, cuts) && AreSegments(ws, cuts, all)
  {
    all, cuts := [], [];
    var i := 0;
    while i < |ws|
      invariant 0 <= i && Chained(ws, c, cuts) && AreSegments(ws, cuts, all)
      invariant if i < |ws| then Resumes(ws, c, cuts, i) else cuts != [] && cuts[|cuts| - 1].to == |ws|
      decreases |ws| - i
    {
      var end, flushed := CutFrom(ws, c, i);
      var seg := BuildSegment(ws[i..end]);
      ghost var cut := Cut(i, end, flushed);
      CutAdded(ws, c, cuts, cut);
      SegmentAdded(ws, cuts, all, cut, seg);
      all := all + [seg];
      cuts := cuts + [cut];
      if end >= |ws| {
        break;
      }
      i := NextStart(c, i, end, flushed);
    }
  }

  /** The next segment starts at word i. */
  ghost predicate Resumes(words: seq<WordSpan>, c: Config, cuts: seq<Cut>, i: int) {
    if cuts == [] then i == 0 else cuts[|cuts| - 1].to < |words| && i == Advance(c, cuts[|cuts| - 1])
  }

  lemma CutAdded(words: seq<WordSpan>, c: Config, cuts: seq<Cut>, cut: Cut)
    requires Chained(words, c, cuts) && EndsRight(words, c, cut) && Resumes(words, c, cuts, cut.from)
    ensures Chained(words, c, cuts + [cut])
  {
    var r := cuts + [cut];
    forall j | 0 <= j < |r| ensures EndsRight(words, c, r[j]) {
      assert j < |cuts| ==> EndsRight(words, c, cuts[j]);
    }
  }

  lemma SegmentAdded(words: seq<WordSpan>, cuts: seq<Cut>, segs: seq<Segment>, cut: Cut, seg: Segment)
    requires AreSegments(words, cuts, segs)
    requires cut.from < cut.to <= |words| && seg == SegmentOf(words[cut.from..cut.to])
    ensures AreSegments(words, cuts + [cut], segs + [seg])
  {
  }

  /** The overlap is shared with the next segment unless a paragraph end cut this one. */
  method NextStart(c: Config, i: nat, end: nat, flushed: bool) returns (next: nat)
    requires i < end
    ensures next == Advance(c, Cut(i, end, flushed)) && i < next <= end
  {
    next := end;
    if !flushed {
      if end - c.OverlapWords() > i {
        next := end - c.OverlapWords();
      }
    }
  }

  /** One pass of the cutting loop: the end of the segment that starts at word i. */
  method CutFrom(words: seq<WordSpan>, c: Config, i: nat) returns (end: nat, flushed: bool)
    requires i < |words|
    ensures EndsRight(words, c, Cut(i, end, flushed))
  {
    end, flushed := i + c.PerChunk(), false;
    if end > |words| {
      end := |words|;
    }
    if |words| - i <= c.PerChunk() {
      return;
    }
    var limit := end;
    var k := i;
    while k < limit
      invariant i <= k <= limit == end
      invariant forall x :: x < k ==> !Flushable(words, c, i, x)
    {
      if words[k].paraEnd && k - i + 1 >= c.MinFlush() {
        assert Flushable(words, c, i, k);
        return k + 1, true;
      }
      k := k + 1;
    }
    var half := i + c.PerChunk() / 2;
    if half <= i {
      half := i + 1;
    }
    k := end - 1;
    while k >= half && k > i
      invariant i <= k < end == limit
      invariant forall x :: k < x ==> !Snappable(words, c, i, x)
    {
      if words[k].sentEnd {
        assert Snappable(words, c, i, k);
        return k + 1, false;
      }
      k := k - 1;
    }
  }

  method MergeTail(c: Config, segs: seq<Segment>, ghost words: seq<WordSpan>, ghost cuts: seq<Cut>)
    returns (out: seq<Segment>)
    requires AreSegments(words, cuts, segs)
    requires forall k :: 0 <= k < |words| ==> WordShaped(words[k].text)
    ensures TailMerged(c, segs, out)
  {
    out := segs;
    var n := |segs|;
    if n >= 2 && segs[n - 1].tokenCount < c.minTokens {
      var last, prev := segs[n - 1], segs[n - 2];
      var joined := TrimSpace(prev.text + [32] + last.text);
      JoinedEdges(words[cuts[n - 2].from..cuts[n - 2].to]);
      JoinedEdges(words[cuts[n - 1].from..cuts[n - 1].to]);
      out := segs[..n - 2] + [Segment(joined, prev.start, last.end, EstimateTokens(joined))];
    }
  }

  ghost predicate WordShaped(w: Bytes) {
    w != [] && forall p :: 0 <= p < |w| ==> !IsSpaceByte(w[p])
  }

  lemma {:induction false} JoinedEdges(words: seq<WordSpan>)
    requires words != [] && forall k :: 0 <= k < |words| ==> WordShaped(words[k].text)
    ensures var s := Joined(words); s != [] && !IsSpaceByte(s[0]) && !IsSpaceByte(s[|s| - 1])
    decreases |words|
  {
    var n := |words|;
    if n > 1 {
      JoinedEdges(words[..n - 1]);
    }
  }

  // ----- What segments hold -----

  lemma {:induction false} FieldsOfPrefix(s: Bytes, w: Bytes)
    requires WordShaped(w) && (s != [] ==> IsSpaceByte(s[|s| - 1]))
    ensures FieldCount(s + w) == FieldCount(s) + 1
  {
    assert (s + w)[..|s|] == s && (s + w)[..|s| + |w|] == s + w;
    RunIsOneField(s + w, |s|, |s| + |w|);
  }

  lemma {:induction false} JoinedFields(words: seq<WordSpan>)
    requires forall k :: 0 <= k < |words| ==> WordShaped(words[k].text)
    ensures FieldCount(Joined(words)) == |words|
    decreases |words|
  {
    var n := |words|;
    if n == 1 {
      FieldsOfPrefix([], words[0].text);
      assert [] + words[0].text == words[0].text;
    } else if n > 1 {
      JoinedFields(words[..n - 1]);
      var s := Joined(words[..n - 1]);
      assert (s + [32])[..|s|] == s;
      FieldsOfPrefix(s + [32], words[n - 1].text);
    }
  }

  lemma WordsShaped(text: Bytes, words: seq<WordSpan>)
    requires Runs(text, words)
    ensures forall k :: 0 <= k < |words| ==> WordShaped(words[k].text)
  {
    forall k | 0 <= k < |words| ensures WordShaped(words[k].text) {
      assert IsWordAt(text, words[k]);
    }
  }

  lemma PartFields(text: Bytes, words: seq<WordSpan>, lo: nat, hi: nat)
    requires Runs(text, words) && lo <= hi <= |words|
    ensures FieldCount(Joined(words[lo..hi])) == hi - lo
    ensures forall k :: 0 <= k < hi - lo ==> WordShaped(words[lo..hi][k].text)
  {
    WordsShaped(text, words);
    JoinedFields(words[lo..hi]);
  }

  function Budget(c: Config): nat {
    if c.size > 2 then c.size else 2
  }

  lemma WindowBudget(c: Config, width: nat)
    requires width <= c.PerChunk()
    ensures Tokens(width) <= Budget(c)
  {
    if c.size > 0 {
      TokensGalois(width, c.size);
    }
  }

  lemma CutWidth(words: seq<WordSpan>, c: Config, cut: Cut)
    requires EndsRight(words, c, cut)
    ensures 0 < cut.to - cut.from <= c.PerChunk()
  {
  }

  // ----- How full they are -----

  /** The token estimate is 1.3 times the number of words, rounded up. */
  lemma TokensRoundUp(words: nat)
    ensures 10 * Tokens(words) >= 13 * words > 10 * (Tokens(words) - 1)
  {
  }

  /** The window is the most words within the budget: one more would exceed it. */
  lemma WindowIsMost(c: Config)
    ensures if c.size >= 2 then Tokens(c.PerChunk()) <= c.size < Tokens(c.PerChunk() + 1) else c.PerChunk() == 1
  {
    if c.size >= 2 {
      TokensGalois(1, c.size);
      TokensGalois(c.PerChunk(), c.size);
      TokensGalois(c.PerChunk() + 1, c.size);
    }
  }

  /** The overlap is the most words within its own budget, or, when the whole window is within that, a
      quarter of the window. */
  lemma OverlapIsMost(c: Config)
    requires c.overlap >= 0
    ensures var o := c.OverlapWords();
            if Tokens(c.PerChunk()) <= c.overlap then 4 * o <= c.PerChunk() < 4 * (o + 1)
            else Tokens(o) <= c.overlap < Tokens(o + 1)
  {
    TokensGalois(c.PerChunk(), c.overlap);
    TokensGalois(c.OverlapWords(), c.overlap);
    TokensGalois(c.OverlapWords() + 1, c.overlap);
  }

  /** A text is cut iff it is over the budget. */
  lemma CutIffTooLong(text: Bytes, c: Config, words: seq<WordSpan>, cuts: seq<Cut>)
    requires IsTokenization(text, words) && IsCutting(words, c, cuts)
    ensures EstimateTokens(text) <= c.size ==> |cuts| <= 1
    ensures c.size >= 2 ==> (|cuts| <= 1 <==> EstimateTokens(text) <= c.size)
  {
    FieldsAreWords(text, words);
    WindowIsMost(c);
    if cuts != [] {
      assert EndsRight(words, c, cuts[0]);
      if |words| <= c.PerChunk() {
        OneCut(words, c, cuts);
      }
    }
    TokensGalois(|words|, if c.size < 0 then 0 else c.size);
  }

  lemma OneCut(words: seq<WordSpan>, c: Config, cuts: seq<Cut>)
    requires IsCutting(words, c, cuts) && cuts != [] && |words| <= c.PerChunk()
    ensures |cuts| == 1
  {
    assert EndsRight(words, c, cuts[0]);
    CutsGoOn(words, c, cuts);
  }

  lemma CutsGoOn(words: seq<WordSpan>, c: Config, cuts: seq<Cut>)
    requires IsCutting(words, c, cuts)
    ensures |cuts| > 1 ==> cuts[0].to < |words|
  {
  }

  /** A segment that no paragraph or sentence end has cut, and that is not the last, is as long as the
      budget allows. */
  lemma UncutIsFull(words: seq<WordSpan>, c: Config, cuts: seq<Cut>, j: nat)
    requires IsCutting(words, c, cuts) && j + 1 < |cuts| && c.size >= 2
    requires !cuts[j].flushed && !words[cuts[j].to - 1].sentEnd
    ensures Tokens(cuts[j].to - cuts[j].from) <= c.size < Tokens(cuts[j].to - cuts[j].from + 1)
  {
    assert EndsRight(words, c, cuts[j]);
    WindowIsMost(c);
  }

  /** A segment ends at a paragraph end iff that is the first one in its window before which one more word
      would exceed the minimum. */
  lemma FlushesIff(words: seq<WordSpan>, c: Config, cut: Cut)
    requires EndsRight(words, c, cut) && |words| - cut.from > c.PerChunk()
    ensures cut.flushed <==> exists k :: cut.from <= k < cut.from + c.PerChunk() && words[k].paraEnd
                                         && Tokens(k - cut.from + 2) > c.minTokens
    ensures cut.flushed ==>
              && words[cut.to - 1].paraEnd && Tokens(cut.to - cut.from + 1) > c.minTokens
              && forall k :: cut.from <= k < cut.to - 1 && words[k].paraEnd ==> Tokens(k - cut.from + 2) <= c.minTokens
  {
    forall k: nat | cut.from <= k < cut.from + c.PerChunk()
      ensures Flushable(words, c, cut.from, k) <==> words[k].paraEnd && Tokens(k - cut.from + 2) > c.minTokens
    {
      TokensGalois(k - cut.from + 2, if c.minTokens < 0 then 0 else c.minTokens);
    }
  }

  /** A segment's token count is that of its number of words, and within the budget. */
  lemma SegmentBudget(text: Bytes, c: Config, words: seq<WordSpan>, cuts: seq<Cut>, segs: seq<Segment>, j: nat)
    requires IsTokenization(text, words) && IsCutting(words, c, cuts) && AreSegments(words, cuts, segs) && j < |segs|
    ensures cuts[j].from < cuts[j].to && segs[j].tokenCount == Tokens(cuts[j].to - cuts[j].from)
    ensures segs[j].tokenCount <= Budget(c)
  {
    CutWidth(words, c, cuts[j]);
    PartFields(text, words, cuts[j].from, cuts[j].to);
    WindowBudget(c, cuts[j].to - cuts[j].from);
  }

  /** Every returned segment is within the budget, or, as a merged tail, at most minTokens - 1 over it. */
  lemma ResultBudget(text: Bytes, c: Config, words: seq<WordSpan>, cuts: seq<Cut>, segs: seq<Segment>,
                     out: seq<Segment>, j: nat)
    requires IsTokenization(text, words) && IsCutting(words, c, cuts) && AreSegments(words, cuts, segs)
    requires TailMerged(c, segs, out) && j < |out|
    ensures out[j].tokenCount <= Budget(c)
            || (j + 2 == |segs| && j + 1 == |out| && out[j].tokenCount <= Budget(c) + c.minTokens - 1)
  {
    SegmentBudget(text, c, words, cuts, segs, j);
    if |segs| >= 2 && segs[|segs| - 1].tokenCount < c.minTokens && j == |segs| - 2 {
      TailBudget(text, c, words, cuts, segs, out[j]);
    } else {
      OthersUnchanged(c, segs, out, j);
    }
  }

  lemma OthersUnchanged(c: Config, segs: seq<Segment>, out: seq<Segment>, j: nat)
    requires TailMerged(c, segs, out) && j < |out|
    requires !(|segs| >= 2 && segs[|segs| - 1].tokenCount < c.minTokens && j == |segs| - 2)
    ensures j < |segs| && out[j] == segs[j]
  {
    if |segs| >= 2 && segs[|segs| - 1].tokenCount < c.minTokens {
      assert out[..|segs| - 2][j] == segs[..|segs| - 2][j];
    }
  }

  lemma TailBudget(text: Bytes, c: Config, words: seq<WordSpan>, cuts: seq<Cut>, segs: seq<Segment>, m: Segment)
    requires Runs(text, words) && AreSegments(words, cuts, segs) && |segs| >= 2
    requires segs[|segs| - 2].tokenCount <= Budget(c) && segs[|segs| - 1].tokenCount < c.minTokens
    requires IsMerged(segs[|segs| - 2], segs[|segs| - 1], m)
    ensures m.tokenCount <= Budget(c) + c.minTokens - 1
  {
    var n := |segs|;
    MergedTokens(text, words, cuts[n - 2], cuts[n - 1], segs[n - 2], segs[n - 1], m);
  }

  /** A merged tail: the words of both segments, those they share twice, from the first word of the one to
      the last of the other. */
  lemma MergedText(words: seq<WordSpan>, cuts: seq<Cut>, segs: seq<Segment>, c: Config, out: seq<Segment>)
    requires AreSegments(words, cuts, segs) && TailMerged(c, segs, out) && |out| < |segs|
    ensures var a, b := cuts[|segs| - 2], cuts[|segs| - 1]; var m := out[|out| - 1];
            && |out| == |segs| - 1 && segs[|segs| - 1].tokenCount < c.minTokens
            && m.text == Joined(words[a.from..a.to] + words[b.from..b.to])
            && m.start == words[a.from].start && m.end == words[b.to - 1].end
    ensures forall j :: 0 <= j < |out| - 1 ==> out[j] == segs[j]
  {
    var n := |segs|;
    var a, b := cuts[n - 2], cuts[n - 1];
    JoinedAppend(words[a.from..a.to], words[b.from..b.to]);
    OthersKept(c, segs, out);
  }

  lemma OthersKept(c: Config, segs: seq<Segment>, out: seq<Segment>)
    requires TailMerged(c, segs, out) && |out| < |segs|
    ensures forall j :: 0 <= j < |out| - 1 ==> out[j] == segs[j]
  {
    forall j | 0 <= j < |out| - 1 ensures out[j] == segs[j] {
      OthersUnchanged(c, segs, out, j);
    }
  }

  lemma MergedTokens(text: Bytes, words: seq<WordSpan>, a: Cut, b: Cut, prev: Segment, last: Segment, m: Segment)
    requires Runs(text, words) && a.from < a.to <= |words| && b.from < b.to <= |words|
    requires prev == SegmentOf(words[a.from..a.to]) && last == SegmentOf(words[b.from..b.to])
    requires IsMerged(prev, last, m)
    ensures m.tokenCount == Tokens((a.to - a.from) + (b.to - b.from))
    ensures m.tokenCount <= prev.tokenCount + last.tokenCount
  {
    var p, q := words[a.from..a.to], words[b.from..b.to];
    PartFields(text, words, a.from, a.to);
    PartFields(text, words, b.from, b.to);
    JoinedAppend(p, q);
    JoinedFields(p + q);
    TokensSubadditive(|p|, |q|);
  }

  lemma {:induction false} JoinedAppend(a: seq<WordSpan>, b: seq<WordSpan>)
    requires a != [] && b != []
    ensures Joined(a) + [32] + Joined(b) == Joined(a + b)
    decreases |b|
  {
    var both, n := a + b, |b|;
    var init := b[..n - 1];
    assert both[..|both| - 1] == a + init && both[|both| - 1] == b[n - 1];
    if n > 1 {
      JoinedAppend(a, init);
      assert Joined(a) + [32] + (Joined(init) + [32] + b[n - 1].text)
             == (Joined(a) + [32] + Joined(init)) + [32] + b[n - 1].text;
    } else {
      assert a + init == a;
    }
  }

  function Moved(w: WordSpan, base: nat): WordSpan
    requires base <= w.start <= w.end
  {
    w.(start := w.start - base, end := w.end - base)
  }

  /** `own` are the words lo to hi, in coordinates that start at `base`. */
  ghost predicate MovedBack(words: seq<WordSpan>, lo: nat, hi: nat, base: nat, own: seq<WordSpan>) {
    && lo <= hi <= |words| && |own| == hi - lo
    && forall k :: 0 <= k < |own| ==> MovedTo(words[lo + k], base, own[k])
  }

  ghost predicate MovedTo(w: WordSpan, base: nat, m: WordSpan) {
    base <= w.start <= w.end && m == Moved(w, base)
  }

  /** Before the merge, a segment's text is the words of the source between its offsets, joined by
      single spaces. */
  lemma TextIsSourceWords(text: Bytes, words: seq<WordSpan>, lo: nat, hi: nat, seg: Segment)
    returns (own: seq<WordSpan>)
    requires Runs(text, words) && lo < hi <= |words| && seg == SegmentOf(words[lo..hi])
    ensures seg.start == words[lo].start && seg.end == words[hi - 1].end && seg.start < seg.end <= |text|
    ensures Runs(text[seg.start..seg.end], own) && seg.text == Joined(own)
    ensures MovedBack(words, lo, hi, seg.start, own)
  {
    SegmentEdges(words, lo, hi);
    own := PartOfSource(text, words, lo, hi, seg.start, seg.end);
  }

  lemma SegmentEdges(words: seq<WordSpan>, lo: nat, hi: nat)
    requires lo < hi <= |words|
    ensures SegmentOf(words[lo..hi]).start == words[lo].start && SegmentOf(words[lo..hi]).end == words[hi - 1].end
  {
  }

  lemma PartOfSource(text: Bytes, words: seq<WordSpan>, lo: nat, hi: nat, base: nat, top: nat)
    returns (own: seq<WordSpan>)
    requires Runs(text, words) && lo < hi <= |words| && base == words[lo].start && top == words[hi - 1].end
    ensures base < top <= |text| && Runs(text[base..top], own)
    ensures Joined(own) == Joined(words[lo..hi]) && MovedBack(words, lo, hi, base, own)
  {
    forall q | lo <= q < hi ensures base <= words[q].start < words[q].end <= top <= |text| {
      WithinPart(text, words, lo, hi, q);
    }
    own := Rebased(words, lo, hi, base);
    JoinedFrame(words[lo..hi], own);
    SliceRuns(text, words, lo, hi, base, top, own);
  }

  lemma WithinPart(text: Bytes, words: seq<WordSpan>, lo: nat, hi: nat, q: nat)
    requires Runs(text, words) && lo <= q < hi <= |words|
    ensures words[lo].start <= words[q].start < words[q].end <= words[hi - 1].end <= |text|
  {
    EndsInOrder(text, words, lo, q);
    EndsInOrder(text, words, q, hi - 1);
    assert IsWordAt(text, words[q]) && IsWordAt(text, words[hi - 1]);
  }

  lemma MovedAt(words: seq<WordSpan>, lo: nat, hi: nat, base: nat, own: seq<WordSpan>, k: nat)
    requires MovedBack(words, lo, hi, base, own) && k < |own|
    ensures base <= words[lo + k].start <= words[lo + k].end && own[k] == Moved(words[lo + k], base)
  {
    assert MovedTo(words[lo + k], base, own[k]);
  }

  lemma Rebased(words: seq<WordSpan>, lo: nat, hi: nat, base: nat) returns (own: seq<WordSpan>)
    requires lo < hi <= |words| && forall q :: lo <= q < hi ==> base <= words[q].start < words[q].end
    ensures MovedBack(words, lo, hi, base, own)
    ensures forall k :: 0 <= k < hi - lo ==> own[k].text == words[lo..hi][k].text
  {
    own := seq(hi - lo, k requires 0 <= k < hi - lo => assert base <= words[lo + k].start; Moved(words[lo + k], base));
  }

  lemma {:induction false} JoinedFrame(a: seq<WordSpan>, b: seq<WordSpan>)
    requires |a| == |b| && forall k :: 0 <= k < |a| ==> a[k].text == b[k].text
    ensures Joined(a) == Joined(b)
    decreases |a|
  {
    if |a| > 1 {
      JoinedFrame(a[..|a| - 1], b[..|b| - 1]);
    }
  }

  lemma SliceWord(text: Bytes, w: WordSpan, lo: nat, top: nat)
    requires IsWordAt(text, w) && lo <= w.start && w.end <= top <= |text|
    ensures IsWordAt(text[lo..top], Moved(w, lo))
  {
    var m := Moved(w, lo);
    SliceOfSlice(text, lo, top, m.start, m.end);
    assert text[lo..top][m.start..m.end] == text[w.start..w.end];
    assert forall p :: 0 <= p < top - lo ==> text[lo..top][p] == text[lo + p];
  }

  lemma SliceRuns(text: Bytes, words: seq<WordSpan>, lo: nat, hi: nat, base: nat, top: nat, own: seq<WordSpan>)
    requires Runs(text, words) && lo < hi <= |words|
    requires base == words[lo].start < words[hi - 1].end == top <= |text|
    requires MovedBack(words, lo, hi, base, own)
    requires forall q :: lo <= q < hi ==> words[q].end <= top
    ensures Runs(text[base..top], own)
  {
    var s := text[base..top];
    forall k | 0 <= k < |own| ensures IsWordAt(s, own[k]) && own[k].end <= |s| {
      MovedAt(words, lo, hi, base, own, k);
      SliceWord(text, words[lo + k], base, top);
    }
    forall k | 0 <= k < |own| - 1 ensures own[k].end < own[k + 1].start {
      MovedInOrder(text, words, lo, hi, base, own, k);
    }
    forall p | 0 <= p < |s| && !IsSpaceByte(s[p])
      ensures exists k :: 0 <= k < |own| && own[k].start <= p < own[k].end
    {
      var k := MovedOwner(text, words, lo, hi, base, own, p);
    }
  }

  lemma MovedInOrder(text: Bytes, words: seq<WordSpan>, lo: nat, hi: nat, base: nat, own: seq<WordSpan>, k: nat)
    requires Runs(text, words) && MovedBack(words, lo, hi, base, own) && k + 1 < |own|
    ensures own[k].end < own[k + 1].start
  {
    MovedAt(words, lo, hi, base, own, k);
    MovedAt(words, lo, hi, base, own, k + 1);
    assert words[lo + k].end < words[lo + k + 1].start;
  }

  lemma MovedOwner(text: Bytes, words: seq<WordSpan>, lo: nat, hi: nat, base: nat, own: seq<WordSpan>, p: nat)
    returns (k: nat)
    requires Runs(text, words) && MovedBack(words, lo, hi, base, own) && lo < hi && base == words[lo].start
    requires base + p < words[hi - 1].end <= |text| && !IsSpaceByte(text[base + p])
    ensures k < |own| && own[k].start <= p < own[k].end
  {
    var q := OwnerInside(text, words, lo, hi, base + p);
    k := q - lo;
    MovedOver(words, lo, hi, base, own, q, p);
  }

  lemma MovedOver(words: seq<WordSpan>, lo: nat, hi: nat, base: nat, own: seq<WordSpan>, q: nat, p: nat)
    requires MovedBack(words, lo, hi, base, own) && lo <= q < hi && words[q].start <= base + p < words[q].end
    ensures own[q - lo].start <= p < own[q - lo].end
  {
    MovedAt(words, lo, hi, base, own, q - lo);
  }

  lemma OwnerInside(text: Bytes, words: seq<WordSpan>, lo: nat, hi: nat, p: nat) returns (k: nat)
    requires Runs(text, words) && lo < hi <= |words|
    requires words[lo].start <= p < words[hi - 1].end <= |text| && !IsSpaceByte(text[p])
    ensures lo <= k < hi && words[k].start <= p < words[k].end
  {
    k :| 0 <= k < |words| && words[k].start <= p < words[k].end;
    OwnerAt(text, words, lo, hi, p, k);
  }

  lemma OwnerAt(text: Bytes, words: seq<WordSpan>, lo: nat, hi: nat, p: nat, k: nat)
    requires Runs(text, words) && lo < hi <= |words| && k < |words|
    requires words[lo].start <= p < words[hi - 1].end && words[k].start <= p < words[k].end
    ensures lo <= k < hi
  {
    if k < lo {
      EndsInOrder(text, words, k, lo);
    }
    if k >= hi {
      EndsInOrder(text, words, hi - 1, k);
    }
  }

  /** Two tokenizations of a text are the same, so words and flags are determined by the text. */
  lemma {:induction false} TokenizationUnique(s: Bytes, a: seq<WordSpan>, b: seq<WordSpan>, k: nat)
    requires IsTokenization(s, a) && IsTokenization(s, b) && k < |a|
    ensures |a| == |b| && a[k] == b[k]
    decreases |a| - k
  {
    FieldsAreWords(s, a);
    FieldsAreWords(s, b);
    SpanUnique(s, a, b, k);
    if k + 1 < |a| {
      SpanUnique(s, a, b, k + 1);
    }
  }

  lemma {:induction false} SpanUnique(s: Bytes, a: seq<WordSpan>, b: seq<WordSpan>, k: nat)
    requires Runs(s, a) && Runs(s, b) && |a| == |b| && k < |a|
    ensures a[k].start == b[k].start && a[k].end == b[k].end && a[k].text == b[k].text
    decreases k
  {
    if k > 0 {
      SpanUnique(s, a, b, k - 1);
    }
    GapIsSpace(s, a, k);
    GapIsSpace(s, b, k);
    SameRun(s, a[k], b[k], if k == 0 then 0 else a[k - 1].end);
  }

  lemma SameRun(s: Bytes, a: WordSpan, b: WordSpan, lo: nat)
    requires IsWordAt(s, a) && IsWordAt(s, b) && lo <= a.start && lo <= b.start
    requires forall p :: lo <= p < a.start || lo <= p < b.start ==> IsSpaceByte(s[p])
    ensures a.start == b.start && a.end == b.end && a.text == b.text
  {
    assert !IsSpaceByte(s[a.start]) && !IsSpaceByte(s[b.start]);
    SameEnd(s, a, b);
    SameEnd(s, b, a);
  }

  lemma SameEnd(s: Bytes, a: WordSpan, b: WordSpan)
    requires IsWordAt(s, a) && IsWordAt(s, b) && a.start == b.start
    ensures a.end >= b.end
  {
    if a.end < |s| {
      assert IsSpaceByte(s[a.end]);
    }
  }
}
