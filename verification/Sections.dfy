/** Section context of a chunk (internal/pipeline/section.go): the breadcrumb of headings active where
    the chunk starts, and the wikilinks inside it. Offsets first go through the redaction
    translation (internal/redact/redact.go). */
module Sections {

  // ----- Offsets through redaction -----

  /** One substitution, in coordinates of the original text. */
  datatype Edit = Edit(pos: nat, removed: nat, inserted: nat) {
    function Shift(): int { inserted - removed }
  }

  /** In order, and not overlapping, as the redaction pass emits them. */
  ghost predicate WellPlaced(edits: seq<Edit>, from: nat)
    decreases edits
  {
    edits == [] || (from <= edits[0].pos && edits[0].removed > 0 &&
                       WellPlaced(edits[1..], edits[0].pos + edits[0].removed))
  }

  /** The loop's effect on a running offset: it stops at the first edit not before it. */
  function Translate(running: int, edits: seq<Edit>): int
    decreases edits
  {
    if edits == [] || edits[0].pos >= running then running
    else Translate(running + edits[0].Shift(), edits[1..])
  }

  /** The documented value: shift by every substitution strictly before the offset. */
  function Documented(offset: int, edits: seq<Edit>): int
    decreases edits
  {
    if edits == [] then offset
    else Documented(offset, edits[1..]) + (if edits[0].pos < offset then edits[0].Shift() else 0)
  }

  method TranslateOffset(offset: int, edits: seq<Edit>) returns (r: int)
    ensures r == Translate(offset, edits)
  {
    r := offset;
    for i := 0 to |edits|
      invariant Translate(r, edits[i..]) == Translate(offset, edits)
    {
      assert edits[i..][1..] == edits[i + 1..];
      if edits[i].pos < r {
        r := r + edits[i].Shift();
      } else {
        break;
      }
    }
  }

  /** How long the redacted form of the original's [from, to) is. */
  function RedactedLength(from: nat, to: nat, edits: seq<Edit>): int
    decreases edits
  {
    if edits == [] || edits[0].pos >= to then to - from
    else edits[0].pos - from + edits[0].inserted + RedactedLength(edits[0].pos + edits[0].removed, to, edits[1..])
  }

  lemma {:induction false} LaterEditsDoNotShift(offset: int, edits: seq<Edit>, from: nat)
    requires WellPlaced(edits, from) && offset <= from
    ensures Documented(offset, edits) == offset
    decreases edits
  {
    if edits != [] {
      LaterEditsDoNotShift(offset, edits[1..], edits[0].pos + edits[0].removed);
    }
  }

  /** The documented value is where the offset's text really is in the redacted text. */
  lemma {:induction false} DocumentedIsPosition(offset: nat, edits: seq<Edit>, from: nat)
    requires WellPlaced(edits, from) && from <= offset
    requires forall e :: e in edits && e.pos < offset ==> e.pos + e.removed <= offset
    ensures Documented(offset, edits) - from == RedactedLength(from, offset, edits)
    decreases edits
  {
    if edits != [] {
      var e := edits[0];
      assert e in edits && forall x :: x in edits[1..] ==> x in edits;
      if e.pos < offset {
        DocumentedIsPosition(offset, edits[1..], e.pos + e.removed);
      } else {
        LaterEditsDoNotShift(offset, edits[1..], e.pos + e.removed);
      }
    }
  }

  /** How far the first n edits move what follows them. */
  function Net(edits: seq<Edit>, n: nat): int
    requires n <= |edits|
    decreases n
  {
    if n == 0 then 0 else Net(edits, n - 1) + edits[n - 1].Shift()
  }

  /** How many edits lie before the offset: those that are documented to move it. */
  ghost predicate AreBefore(edits: seq<Edit>, offset: int, n: nat) {
    && n <= |edits|
    && (forall i :: 0 <= i < n ==> edits[i].pos < offset)
    && (n < |edits| ==> edits[n].pos >= offset)
  }

  /** How many edits the loop applies: it goes on while the next edit's original position lies before
      the offset as moved so far. */
  ghost predicate AreApplied(edits: seq<Edit>, offset: int, n: nat) {
    && n <= |edits| && AppliedSoFar(edits, offset, n)
    && (n < |edits| ==> edits[n].pos >= offset + Net(edits, n))
  }

  lemma {:induction false} NetTail(edits: seq<Edit>, n: nat)
    requires 0 < n <= |edits|
    ensures Net(edits, n) == edits[0].Shift() + Net(edits[1..], n - 1)
    decreases n
  {
    if n > 1 {
      NetTail(edits, n - 1);
    }
  }

  /** The loop moves the offset by exactly the edits it applies. */
  lemma {:induction false} TranslateIsNet(offset: int, edits: seq<Edit>, n: nat)
    requires AreApplied(edits, offset, n)
    ensures Translate(offset, edits) == offset + Net(edits, n)
    decreases n
  {
    if n > 0 {
      assert edits[0].pos < offset + Net(edits, 0);
      var moved, tail := offset + edits[0].Shift(), edits[1..];
      forall i | 0 <= i < n ensures Net(edits, i + 1) == edits[0].Shift() + Net(tail, i) {
        NetTail(edits, i + 1);
      }
      forall i | 0 <= i < n - 1 ensures tail[i].pos < moved + Net(tail, i) {
        assert edits[i + 1].pos < offset + Net(edits, i + 1);
      }
      assert n < |edits| ==> tail[n - 1] == edits[n];
      TranslateIsNet(moved, tail, n - 1);
    }
  }

  /** The documented value is the offset moved by the edits before it. */
  lemma {:induction false} DocumentedIsNet(offset: int, edits: seq<Edit>, from: nat, n: nat)
    requires WellPlaced(edits, from) && AreBefore(edits, offset, n)
    ensures Documented(offset, edits) == offset + Net(edits, n)
    decreases n
  {
    if n > 0 {
      NetTail(edits, n);
      var tail := edits[1..];
      assert forall i :: 0 <= i < |tail| ==> tail[i] == edits[i + 1];
      DocumentedIsNet(offset, tail, edits[0].pos + edits[0].removed, n - 1);
    } else if edits != [] {
      LaterEditsDoNotShift(offset, edits[1..], edits[0].pos + edits[0].removed);
    }
  }

  /** The edits from the n-th on are applied while each lies before the moved offset. */
  lemma {:induction false} AppliedExist(edits: seq<Edit>, offset: int, n: nat) returns (applied: nat)
    requires n <= |edits| && AppliedSoFar(edits, offset, n)
    ensures AreApplied(edits, offset, applied)
    decreases |edits| - n
  {
    if n < |edits| && edits[n].pos < offset + Net(edits, n) {
      AppliedOneMore(edits, offset, n);
      applied := AppliedExist(edits, offset, n + 1);
    } else {
      applied := n;
    }
  }

  ghost predicate AppliedSoFar(edits: seq<Edit>, offset: int, n: nat)
    requires n <= |edits|
  {
    forall i :: 0 <= i < n ==> edits[i].pos < offset + Net(edits, i)
  }

  lemma AppliedOneMore(edits: seq<Edit>, offset: int, n: nat)
    requires n < |edits| && AppliedSoFar(edits, offset, n) && edits[n].pos < offset + Net(edits, n)
    ensures AppliedSoFar(edits, offset, n + 1)
  {
  }

  /** For edits of any kind: the value is the documented one iff the edits that only one of the two
      counts cancel out. */
  lemma TranslatesIff(offset: int, edits: seq<Edit>, from: nat, applied: nat, before: nat)
    requires WellPlaced(edits, from) && AreApplied(edits, offset, applied) && AreBefore(edits, offset, before)
    ensures Translate(offset, edits) == Documented(offset, edits) <==> Net(edits, applied) == Net(edits, before)
  {
    TranslateIsNet(offset, edits, applied);
    DocumentedIsNet(offset, edits, from, before);
  }

  lemma {:induction false} NetMoves(edits: seq<Edit>, m: nat, n: nat)
    requires m < n <= |edits|
    ensures (forall i :: m <= i < n ==> edits[i].Shift() > 0) ==> Net(edits, m) < Net(edits, n)
    ensures (forall i :: m <= i < n ==> edits[i].Shift() < 0) ==> Net(edits, m) > Net(edits, n)
    decreases n
  {
    if m < n - 1 {
      NetMoves(edits, m, n - 1);
    }
  }

  lemma {:induction false} NetSign(edits: seq<Edit>, n: nat)
    requires n <= |edits|
    ensures (forall i :: 0 <= i < |edits| ==> edits[i].Shift() > 0) ==> Net(edits, n) >= 0
    ensures (forall i :: 0 <= i < |edits| ==> edits[i].Shift() < 0) ==> Net(edits, n) <= 0
    decreases n
  {
    if n > 0 {
      NetSign(edits, n - 1);
    }
  }

  /** The loop applies exactly the edits before the offset: the moved offset passes none of the others, and
      is passed by none of these. */
  ghost predicate Uncrossed(edits: seq<Edit>, offset: int, before: nat)
    requires before <= |edits|
  {
    && (forall i :: 0 <= i < before ==> edits[i].pos < offset + Net(edits, i))
    && (before == |edits| || edits[before].pos >= offset + Net(edits, before))
  }

  /** The edits that only one of the two counts all move the offset one way. */
  ghost predicate OneWay(edits: seq<Edit>, m: nat, n: nat)
    requires m <= |edits| && n <= |edits|
  {
    || (forall i :: m <= i < n || n <= i < m ==> edits[i].Shift() > 0)
    || (forall i :: m <= i < n || n <= i < m ==> edits[i].Shift() < 0)
  }

  lemma AppliedUnique(edits: seq<Edit>, offset: int, m: nat, n: nat)
    requires AreApplied(edits, offset, m) && AreApplied(edits, offset, n)
    ensures m == n
  {
  }

  /** For edits of any kind: the value is the documented one when no edit is crossed, and only then if the
      crossed edits, where the two counts differ, all move the offset one way. */
  lemma CrossedTranslatesIff(offset: int, edits: seq<Edit>, from: nat, applied: nat, before: nat)
    requires WellPlaced(edits, from) && AreApplied(edits, offset, applied) && AreBefore(edits, offset, before)
    ensures Uncrossed(edits, offset, before) <==> applied == before
    ensures Uncrossed(edits, offset, before) ==> Translate(offset, edits) == Documented(offset, edits)
    ensures OneWay(edits, applied, before) ==>
              (Translate(offset, edits) == Documented(offset, edits) <==> Uncrossed(edits, offset, before))
  {
    TranslatesIff(offset, edits, from, applied, before);
    if Uncrossed(edits, offset, before) {
      AppliedUnique(edits, offset, applied, before);
    } else if OneWay(edits, applied, before) {
      if applied < before {
        NetMoves(edits, applied, before);
      } else {
        NetMoves(edits, before, applied);
      }
    }
  }

  /** When every placeholder is longer than what it replaces, the value is the documented one iff the
      moved offset does not pass the next edit, the first one at or past the offset itself. */
  lemma GrowingTranslatesIff(offset: int, edits: seq<Edit>, from: nat, before: nat)
    requires WellPlaced(edits, from) && AreBefore(edits, offset, before)
    requires forall i :: 0 <= i < |edits| ==> edits[i].Shift() > 0
    ensures Translate(offset, edits) == Documented(offset, edits)
            <==> before == |edits| || edits[before].pos >= offset + Net(edits, before)
  {
    var applied := AppliedExist(edits, offset, 0);
    TranslatesIff(offset, edits, from, applied, before);
    forall i | 0 <= i < before ensures edits[i].pos < offset + Net(edits, i) {
      NetSign(edits, i);
    }
    if applied > before {
      NetMoves(edits, before, applied);
    }
    assert applied >= before;
  }

  /** When every placeholder is shorter, it is iff no edit before the offset lies at or past the offset
      as moved by the edits before that edit. */
  lemma ShrinkingTranslatesIff(offset: int, edits: seq<Edit>, from: nat, before: nat)
    requires WellPlaced(edits, from) && AreBefore(edits, offset, before)
    requires forall i :: 0 <= i < |edits| ==> edits[i].Shift() < 0
    ensures Translate(offset, edits) >= Documented(offset, edits)
    ensures Translate(offset, edits) == Documented(offset, edits)
            <==> forall i :: 0 <= i < before ==> edits[i].pos < offset + Net(edits, i)
  {
    var applied := AppliedExist(edits, offset, 0);
    TranslateIsNet(offset, edits, applied);
    DocumentedIsNet(offset, edits, from, before);
    NetSign(edits, before);
    if applied < before {
      NetMoves(edits, applied, before);
      assert edits[applied].pos >= offset + Net(edits, applied);
    }
    assert applied <= before;
  }

  /** The length of the text that replaces a secret: "[REDACTED:" and "]" around its type. */
  function Placeholder(kind: string): nat {
    |"[REDACTED:"| + |kind| + |"]"|
  }

  /** The code and its comment differ. A long key and a token before a heading: the heading is placed too
      far on, and past the heading that follows it. Two numbers of eleven digits around a heading: the
      second one moves it too. */
  lemma TranslationOvershoots()
    ensures var edits := [Edit(0, 200, Placeholder("private-key")), Edit(210, 40, Placeholder("github-token"))];
            && WellPlaced(edits, 0)
            && Translate(300, edits) == 122 && Documented(300, edits) == 105
            && Translate(388, edits) == 210 && Translate(389, edits) == 194
    ensures var edits := [Edit(0, 11, Placeholder("ssn")), Edit(21, 11, Placeholder("ssn"))];
            && WellPlaced(edits, 0) && Translate(20, edits) == 26 && Documented(20, edits) == 23
  {
    var keys := [Edit(0, 200, Placeholder("private-key")), Edit(210, 40, Placeholder("github-token"))];
    assert keys[1..] == [Edit(210, 40, Placeholder("github-token"))] && keys[1..][1..] == [];
    assert Net(keys, 0) == 0 && Net(keys, 1) == -178 && Net(keys, 2) == -195;
    TranslateIsNet(300, keys, 1);
    DocumentedIsNet(300, keys, 0, 2);
    TranslateIsNet(388, keys, 1);
    TranslateIsNet(389, keys, 2);
    var numbers := [Edit(0, 11, Placeholder("ssn")), Edit(21, 11, Placeholder("ssn"))];
    assert numbers[1..] == [Edit(21, 11, Placeholder("ssn"))] && numbers[1..][1..] == [];
    assert Net(numbers, 0) == 0 && Net(numbers, 1) == 3 && Net(numbers, 2) == 6;
    TranslateIsNet(20, numbers, 2);
    DocumentedIsNet(20, numbers, 0, 1);
  }

  // ----- The heading stack -----

  datatype Heading = Heading(offset: int, level: int, text: string)

  /** Headings in the chunker's coordinates. */
  function Marks(spans: seq<Heading>, edits: seq<Edit>): (ms: seq<Heading>)
    ensures |ms| == |spans|
  {
    seq(|spans|, i requires 0 <= i < |spans| =>
        Heading(Translate(spans[i].offset, edits), spans[i].level, spans[i].text))
  }

  ghost predicate Ordered(ms: seq<Heading>) {
    forall i, j :: 0 <= i < j < |ms| ==> ms[i].offset <= ms[j].offset
  }

  ghost predicate DistinctOffsets(ms: seq<Heading>) {
    forall i, j :: 0 <= i < j < |ms| ==> ms[i].offset != ms[j].offset
  }

  /** A heading is an ancestor at `start` iff it is at or before it, and no later heading at or
      before it has a level less than or equal to its own. */
  ghost predicate Active(ms: seq<Heading>, start: int, m: Heading) {
    && m in ms && m.offset <= start
    && forall x :: x in ms && m.offset < x.offset <= start ==> x.level > m.level
  }

  /** The path at `start`: exactly the active headings, in document order, levels strictly increasing. */
  ghost predicate IsPath(path: seq<Heading>, ms: seq<Heading>, start: int) {
    && (forall m :: m in path <==> Active(ms, start, m))
    && (forall i, j :: 0 <= i < j < |path| ==> path[i].offset < path[j].offset && path[i].level < path[j].level)
  }

  function Texts(path: seq<Heading>): (ts: seq<string>)
    ensures |ts| == |path|
  {
    seq(|path|, i requires 0 <= i < |path| => path[i].text)
  }

  lemma {:induction false} SortedByOffsetUnique(a: seq<Heading>, b: seq<Heading>)
    requires forall i, j :: 0 <= i < j < |a| ==> a[i].offset < a[j].offset
    requires forall i, j :: 0 <= i < j < |b| ==> b[i].offset < b[j].offset
    requires forall m :: m in a <==> m in b
    ensures a == b
    decreases |a|
  {
    if a == [] {
      HasMember(b);
    } else {
      assert a[0] in b && b[0] in a;
      assert a[0] == b[0];
      TailMembers(a);
      TailMembers(b);
      SortedByOffsetUnique(a[1..], b[1..]);
      assert a == [a[0]] + a[1..] && b == [b[0]] + b[1..];
    }
  }

  lemma HasMember(s: seq<Heading>)
    ensures s == [] || exists m :: m in s
  {
    assert s == [] || s[0] in s;
  }

  lemma TailMembers(a: seq<Heading>)
    requires a != [] && forall i, j :: 0 <= i < j < |a| ==> a[i].offset < a[j].offset
    ensures forall m :: m in a[1..] <==> m in a && m != a[0]
  {
    forall m ensures m in a[1..] <==> m in a && m != a[0] {
      if m in a && m != a[0] {
        var i :| 0 <= i < |a| && a[i] == m;
        assert a[1..][i - 1] == m;
      }
    }
  }

  /** There is only one path, so the answer does not depend on how equal elements were sorted. */
  lemma PathUnique(a: seq<Heading>, b: seq<Heading>, ms: seq<Heading>, start: int)
    requires IsPath(a, ms, start) && IsPath(b, ms, start)
    ensures a == b
  {
    SortedByOffsetUnique(a, b);
  }

  function Insert(s: seq<Heading>, k: nat, m: Heading): (r: seq<Heading>)
    requires k <= |s|
    ensures multiset(r) == multiset(s) + multiset{m}
  {
    assert s == s[..k] + s[k..];
    s[..k] + [m] + s[k..]
  }

  lemma InsertKeepsOrder(s: seq<Heading>, k: nat, m: Heading)
    requires k <= |s| && Ordered(s)
    requires k > 0 ==> s[k - 1].offset <= m.offset
    requires forall j :: k <= j < |s| ==> s[j].offset > m.offset
    ensures Ordered(Insert(s, k, m))
  {
    var r := Insert(s, k, m);
    forall i, j | 0 <= i < j < |r| ensures r[i].offset <= r[j].offset {
      assert r[i] == if i < k then s[i] else if i == k then m else s[i - 1];
      assert r[j] == if j < k then s[j] else if j == k then m else s[j - 1];
    }
  }

  /** Stable insertion by offset. */
  method SortMarks(ms: seq<Heading>) returns (sorted: seq<Heading>)
    ensures Ordered(sorted) && multiset(sorted) == multiset(ms)
  {
    sorted := [];
    for i := 0 to |ms|
      invariant Ordered(sorted) && multiset(sorted) == multiset(ms[..i])
    {
      PrefixGrows(ms, i);
      sorted := InsertMark(sorted, ms[i]);
    }
    assert ms[..|ms|] == ms;
  }

  lemma PrefixGrows(ms: seq<Heading>, i: nat)
    requires i < |ms|
    ensures multiset(ms[..i + 1]) == multiset(ms[..i]) + multiset{ms[i]}
  {
    assert ms[..i + 1] == ms[..i] + [ms[i]];
  }

  method InsertMark(s: seq<Heading>, m: Heading) returns (r: seq<Heading>)
    requires Ordered(s)
    ensures Ordered(r) && multiset(r) == multiset(s) + multiset{m}
  {
    var k := |s|;
    while k > 0 && s[k - 1].offset > m.offset
      invariant 0 <= k <= |s|
      invariant forall j :: k <= j < |s| ==> s[j].offset > m.offset
    {
      k := k - 1;
    }
    InsertKeepsOrder(s, k, m);
    r := Insert(s, k, m);
  }

  /** Popping same-or-deeper levels and pushing keeps the path of the marks read so far. */
  lemma PushKeepsPath(stack: seq<Heading>, k: nat, ms: seq<Heading>, n: nat, start: int)
    requires n < |ms| && ms[n].offset <= start && k <= |stack|
    requires forall i, j :: 0 <= i < j < |ms| ==> ms[i].offset < ms[j].offset
    requires IsPath(stack, ms[..n], start)
    requires forall i :: k <= i < |stack| ==> stack[i].level >= ms[n].level
    requires k > 0 ==> stack[k - 1].level < ms[n].level
    ensures IsPath(stack[..k] + [ms[n]], ms[..n + 1], start)
  {
    var m := ms[n];
    var path := stack[..k] + [m];
    forall x | x in ms[..n] ensures x.offset < m.offset {
      var i :| 0 <= i < n && ms[i] == x;
    }
    assert ms[..n + 1] == ms[..n] + [m];
    forall i | 0 <= i < k ensures stack[i].level < m.level && stack[i].offset < m.offset {
      assert stack[i] in stack;
      assert Active(ms[..n], start, stack[i]);
    }
    forall x ensures x in path <==> Active(ms[..n + 1], start, x) {
      if x in stack[..k] {
        var i :| 0 <= i < k && stack[i] == x;
        assert Active(ms[..n], start, x);
      }
      if Active(ms[..n + 1], start, x) && x != m {
        assert Active(ms[..n], start, x);
        var i :| 0 <= i < |stack| && stack[i] == x;
        assert m.level > x.level;
        assert i < k;
        assert stack[..k][i] == x;
      }
    }
  }

  /** The breadcrumb and the level of the governing heading (0 when there is none). */
  method ResolveBreadcrumb(spans: seq<Heading>, startIdx: int, edits: seq<Edit>)
    returns (crumb: seq<string>, level: int, ghost path: seq<Heading>)
    requires DistinctOffsets(Marks(spans, edits))
    ensures IsPath(path, Marks(spans, edits), startIdx)
    ensures crumb == Texts(path)
    ensures level == if path == [] then 0 else path[|path| - 1].level
  {
    if spans == [] {
      return [], 0, [];
    }
    var marks := [];
    for i := 0 to |spans|
      invariant marks == Marks(spans, edits)[..i]
    {
      var off := TranslateOffset(spans[i].offset, edits);
      marks := marks + [Heading(off, spans[i].level, spans[i].text)];
    }
    var sorted := SortMarks(marks);
    SameElements(sorted, marks);
    var stack := Replay(sorted, startIdx);
    path := stack;
    crumb := Texts(stack);
    level := if stack == [] then 0 else stack[|stack| - 1].level;
  }

  lemma SameElements(sorted: seq<Heading>, ms: seq<Heading>)
    requires Ordered(sorted) && multiset(sorted) == multiset(ms) && DistinctOffsets(ms)
    ensures forall m :: m in sorted <==> m in ms
    ensures forall i, j :: 0 <= i < j < |sorted| ==> sorted[i].offset < sorted[j].offset
  {
    forall m ensures m in sorted <==> m in ms {
      assert m in multiset(sorted) <==> m in multiset(ms);
    }
    forall i, j | 0 <= i < j < |sorted| ensures sorted[i].offset != sorted[j].offset {
      var x, y := sorted[i], sorted[j];
      assert x in ms && y in ms;
      assert x.offset == y.offset ==> x == y;
      OnceOnly(ms, x);
      NotTwice(sorted, i, j);
    }
  }

  lemma NotTwice(s: seq<Heading>, i: nat, j: nat)
    requires i < j < |s| && multiset(s)[s[i]] <= 1
    ensures s[i] != s[j]
  {
    assert s == s[..j] + [s[j]] + s[j + 1..];
    assert s[i] in s[..j];
  }

  lemma {:induction false} OnceOnly(ms: seq<Heading>, x: Heading)
    requires DistinctOffsets(ms)
    ensures multiset(ms)[x] <= 1
    decreases |ms|
  {
    if ms != [] {
      var rest := ms[1..];
      assert ms == [ms[0]] + rest;
      OnceOnly(rest, x);
      assert forall k :: 0 <= k < |rest| ==> rest[k] == ms[k + 1] && rest[k] != ms[0];
      assert x == ms[0] ==> multiset(rest)[x] == 0;
    }
  }

  /** Replays the headings up to `start` on an ancestor stack. */
  method Replay(ms: seq<Heading>, start: int) returns (stack: seq<Heading>)
    requires forall i, j :: 0 <= i < j < |ms| ==> ms[i].offset < ms[j].offset
    ensures IsPath(stack, ms, start)
  {
    stack := [];
    var n := 0;
    while n < |ms| && ms[n].offset <= start
      invariant 0 <= n <= |ms| && IsPath(stack, ms[..n], start)
    {
      ghost var before := stack;
      while |stack| > 0 && stack[|stack| - 1].level >= ms[n].level
        invariant |stack| <= |before| && stack == before[..|stack|]
        invariant forall i :: |stack| <= i < |before| ==> before[i].level >= ms[n].level
      {
        stack := stack[..|stack| - 1];
      }
      PushKeepsPath(before, |stack|, ms, n, start);
      stack := stack + [ms[n]];
      n := n + 1;
    }
    forall x ensures Active(ms[..n], start, x) <==> Active(ms, start, x) {
      PrefixActive(ms, n, start, x);
    }
  }

  lemma PrefixActive(ms: seq<Heading>, n: nat, start: int, x: Heading)
    requires n <= |ms| && (n < |ms| ==> ms[n].offset > start)
    requires forall i, j :: 0 <= i < j < |ms| ==> ms[i].offset < ms[j].offset
    ensures Active(ms[..n], start, x) <==> Active(ms, start, x)
  {
    forall y | y in ms && y.offset <= start ensures y in ms[..n] {
      var i :| 0 <= i < |ms| && ms[i] == y;
      assert i < n;
      assert ms[..n][i] == y;
    }
  }

  /** The leaf is the nearest preceding heading. */
  lemma LeafIsNearest(path: seq<Heading>, ms: seq<Heading>, start: int)
    requires DistinctOffsets(ms) && IsPath(path, ms, start)
    ensures path == [] <==> forall m :: m in ms ==> m.offset > start
    ensures path != [] ==>
              forall m :: m in ms && m.offset <= start ==> m.offset <= path[|path| - 1].offset
  {
    if exists m :: m in ms && m.offset <= start {
      var near := Nearest(ms, start);
      assert Active(ms, start, near);
      var i :| 0 <= i < |path| && path[i] == near;
      assert path[|path| - 1] in path;
    } else {
      assert forall m :: m in path ==> m.offset <= start && m in ms;
      HasMember(path);
    }
  }

  lemma {:induction false} Nearest(ms: seq<Heading>, start: int) returns (m: Heading)
    requires exists x :: x in ms && x.offset <= start
    ensures m in ms && m.offset <= start && forall x :: x in ms && x.offset <= start ==> x.offset <= m.offset
    decreases |ms|
  {
    var rest := ms[1..];
    assert ms == [ms[0]] + rest;
    if exists x :: x in rest && x.offset <= start {
      m := Nearest(rest, start);
      if ms[0].offset <= start && ms[0].offset > m.offset {
        m := ms[0];
      }
    } else {
      m := ms[0];
    }
  }

  // ----- Wikilinks -----

  datatype Wikilink = Wikilink(offset: int, target: string)

  ghost predicate Inside(l: Wikilink, start: int, end: int, edits: seq<Edit>) {
    start <= Translate(l.offset, edits) < end
  }

  /** The j-th link goes to the target, and lies inside. */
  ghost predicate OccursAt(links: seq<Wikilink>, j: int, target: string, start: int, end: int, edits: seq<Edit>) {
    0 <= j < |links| && links[j].target == target && Inside(links[j], start, end, edits)
  }

  /** One of the first n links does. */
  ghost predicate Occurs(links: seq<Wikilink>, target: string, n: int, start: int, end: int, edits: seq<Edit>) {
    exists i :: 0 <= i < n && OccursAt(links, i, target, start, end, edits)
  }

  /** The distinct targets located in [start, end), in order of first occurrence. */
  method ResolveWikilinks(links: seq<Wikilink>, start: int, end: int, edits: seq<Edit>) returns (out: seq<string>)
    ensures forall t :: t in out <==> Occurs(links, t, |links|, start, end, edits)
    ensures forall a, b :: 0 <= a < b < |out| ==> out[a] != out[b]
    ensures forall a, b, j :: 0 <= a < b < |out| && OccursAt(links, j, out[b], start, end, edits)
              ==> Occurs(links, out[a], j, start, end, edits)
  {
    out := [];
    var seen: set<string> := {};
    ghost var firsts: seq<nat> := [];
    for n := 0 to |links|
      invariant Collected(links, start, end, edits, n, seen, out, firsts)
    {
      var off := TranslateOffset(links[n].offset, edits);
      CollectedStep(links, start, end, edits, n, seen, out, firsts);
      if off < start || off >= end {
        continue;
      }
      if links[n].target in seen {
        continue;
      }
      seen := seen + {links[n].target};
      out := out + [links[n].target];
      firsts := firsts + [n];
    }
    FirstsTell(links, start, end, edits, out, firsts);
  }

  /** The targets of the first n links that lie inside, each with the position of its first occurrence. */
  ghost predicate Collected(links: seq<Wikilink>, start: int, end: int, edits: seq<Edit>, n: nat,
                            seen: set<string>, out: seq<string>, firsts: seq<nat>)
    requires n <= |links|
  {
    && (forall t :: t in out <==> t in seen)
    && |firsts| == |out|
    && (forall k :: 0 <= k < |out| ==> firsts[k] < n && FirstInside(links, firsts[k], out[k], start, end, edits))
    && (forall a, b :: 0 <= a < b < |out| ==> firsts[a] < firsts[b] && out[a] != out[b])
    && (forall i :: 0 <= i < n && Inside(links[i], start, end, edits) ==> links[i].target in seen)
  }

  lemma CollectedStep(links: seq<Wikilink>, start: int, end: int, edits: seq<Edit>, n: nat,
                      seen: set<string>, out: seq<string>, firsts: seq<nat>)
    requires n < |links| && Collected(links, start, end, edits, n, seen, out, firsts)
    ensures var t := links[n].target;
            if !Inside(links[n], start, end, edits) || t in seen
            then Collected(links, start, end, edits, n + 1, seen, out, firsts)
            else Collected(links, start, end, edits, n + 1, seen + {t}, out + [t], firsts + [n])
  {
    var t := links[n].target;
    if Inside(links[n], start, end, edits) && t !in seen {
      var more, at := out + [t], firsts + [n];
      assert FirstInside(links, n, t, start, end, edits);
      forall k | 0 <= k < |more| ensures at[k] < n + 1 && FirstInside(links, at[k], more[k], start, end, edits) {
        assert k < |out| ==> FirstInside(links, firsts[k], out[k], start, end, edits);
      }
      forall x ensures x in more <==> x in seen + {t} {
        assert x in more <==> x in out || x == t;
      }
    }
  }

  /** The first positions of the targets tell which they are, and in which order they first occur. */
  lemma FirstsTell(links: seq<Wikilink>, start: int, end: int, edits: seq<Edit>, out: seq<string>, firsts: seq<nat>)
    requires |firsts| == |out|
    requires forall k :: 0 <= k < |out| ==>
                 firsts[k] < |links| && FirstInside(links, firsts[k], out[k], start, end, edits)
    requires forall a, b :: 0 <= a < b < |out| ==> firsts[a] < firsts[b] && out[a] != out[b]
    requires forall i :: 0 <= i < |links| && Inside(links[i], start, end, edits) ==> links[i].target in out
    ensures forall t :: t in out <==> Occurs(links, t, |links|, start, end, edits)
    ensures forall a, b, j :: 0 <= a < b < |out| && OccursAt(links, j, out[b], start, end, edits)
              ==> Occurs(links, out[a], j, start, end, edits)
  {
    forall t ensures t in out <==> Occurs(links, t, |links|, start, end, edits) {
      if t in out {
        var k :| 0 <= k < |out| && out[k] == t;
        assert FirstInside(links, firsts[k], out[k], start, end, edits);
        assert OccursAt(links, firsts[k], t, start, end, edits);
      }
    }
    forall a, b, j | 0 <= a < b < |out| && OccursAt(links, j, out[b], start, end, edits)
      ensures Occurs(links, out[a], j, start, end, edits)
    {
      assert FirstInside(links, firsts[b], out[b], start, end, edits);
      assert FirstInside(links, firsts[a], out[a], start, end, edits);
      assert firsts[a] < j && OccursAt(links, firsts[a], out[a], start, end, edits);
    }
  }

  ghost predicate FirstInside(links: seq<Wikilink>, i: nat, target: string, start: int, end: int, edits: seq<Edit>) {
    && i < |links| && links[i].target == target && Inside(links[i], start, end, edits)
    && forall j :: 0 <= j < i && Inside(links[j], start, end, edits) ==> links[j].target != target
  }
}
