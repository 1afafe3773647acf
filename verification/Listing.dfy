/** Listing documents and chunks page by page, and the loops that read every page
    (internal/engine/list_documents.go, internal/engine/list_chunks.go, internal/engine/bridge_source.go). */
module Listing {
  import opened Bytes
  import opened Tokens
  import opened Pagination

  type Time = t: Stamp | Writable(t) witness Stamp(1, 1, 1, 0, 0, 0, 0)

  const ZeroTime: Time := Stamp(1, 1, 1, 0, 0, 0, 0)

  type Index = i: int | Int64(i)

  /** Instants in order: equal numbers are equal times. */
  function Instant(t: Stamp): int {
    (((((t.year * 12 + (t.month - 1)) * 31 + (t.day - 1)) * 24 + t.hour) * 60 + t.minute) * 60 + t.second)
    * 1_000_000_000 + t.nano
  }

  lemma {:induction false} Multiple(d: nat, n: nat)
    requires d > 0
    ensures d * n >= n
    decreases d
  {
    if d > 1 {
      Multiple(d - 1, n);
      assert d * n == (d - 1) * n + n;
    }
  }

  lemma MixedRadix(a: int, x: int, b: int, y: int, n: int)
    requires n > 0 && 0 <= x < n && 0 <= y < n && a * n + x == b * n + y
    ensures a == b && x == y
  {
    assert (a - b) * n == a * n - b * n && (b - a) * n == b * n - a * n;
    if a > b {
      Multiple(a - b, n);
    } else if b > a {
      Multiple(b - a, n);
    }
  }

  lemma MixedRadixLess(a: int, x: int, b: int, y: int, n: int)
    requires n > 0 && 0 <= x < n && 0 <= y < n
    ensures a * n + x < b * n + y <==> a < b || (a == b && x < y)
  {
    assert (a - b) * n == a * n - b * n && (b - a) * n == b * n - a * n;
    if a > b {
      Multiple(a - b, n);
    } else if b > a {
      Multiple(b - a, n);
    }
  }

  /** Earlier: by year, then month, day, hour, minute, second and nanosecond. */
  predicate Earlier(a: Stamp, b: Stamp) {
    if a.year != b.year then a.year < b.year
    else if a.month != b.month then a.month < b.month
    else if a.day != b.day then a.day < b.day
    else if a.hour != b.hour then a.hour < b.hour
    else if a.minute != b.minute then a.minute < b.minute
    else if a.second != b.second then a.second < b.second
    else a.nano < b.nano
  }

  /** A month, a day and a time of day, in any year. */
  predicate InCalendar(t: Stamp) {
    && 1 <= t.month <= 12 && 1 <= t.day <= 31
    && 0 <= t.hour < 24 && 0 <= t.minute < 60 && 0 <= t.second < 60 && 0 <= t.nano < 1_000_000_000
  }

  /** The order of instants is that of the times. */
  lemma InstantIsOrder(a: Stamp, b: Stamp)
    requires InCalendar(a) && InCalendar(b)
    ensures Instant(a) < Instant(b) <==> Earlier(a, b)
  {
    var (a2, b2) := (a.year * 12 + (a.month - 1), b.year * 12 + (b.month - 1));
    var (a3, b3) := (a2 * 31 + (a.day - 1), b2 * 31 + (b.day - 1));
    var (a4, b4) := (a3 * 24 + a.hour, b3 * 24 + b.hour);
    var (a5, b5) := (a4 * 60 + a.minute, b4 * 60 + b.minute);
    var (a6, b6) := (a5 * 60 + a.second, b5 * 60 + b.second);
    MixedRadixLess(a6, a.nano, b6, b.nano, 1_000_000_000);
    SameRadix(a5, a.second, b5, b.second, 60);
    SameRadix(a4, a.minute, b4, b.minute, 60);
    SameRadix(a3, a.hour, b3, b.hour, 24);
    SameRadix(a2, a.day - 1, b2, b.day - 1, 31);
    SameRadix(a.year, a.month - 1, b.year, b.month - 1, 12);
  }

  lemma SameRadix(a: int, x: int, b: int, y: int, n: int)
    requires n > 0 && 0 <= x < n && 0 <= y < n
    ensures a * n + x < b * n + y <==> a < b || (a == b && x < y)
    ensures a * n + x == b * n + y <==> a == b && x == y
  {
    MixedRadixLess(a, x, b, y, n);
    MixedRadixLess(b, y, a, x, n);
  }

  lemma InstantInjective(a: Time, b: Time)
    requires Instant(a) == Instant(b)
    ensures a == b
  {
    var (a2, b2) := (a.year * 12 + (a.month - 1), b.year * 12 + (b.month - 1));
    var (a3, b3) := (a2 * 31 + (a.day - 1), b2 * 31 + (b.day - 1));
    var (a4, b4) := (a3 * 24 + a.hour, b3 * 24 + b.hour);
    var (a5, b5) := (a4 * 60 + a.minute, b4 * 60 + b.minute);
    MixedRadix(a5 * 60 + a.second, a.nano, b5 * 60 + b.second, b.nano, 1_000_000_000);
    MixedRadix(a5, a.second, b5, b.second, 60);
    MixedRadix(a4, a.minute, b4, b.minute, 60);
    MixedRadix(a3, a.hour, b3, b.hour, 24);
    MixedRadix(a2, a.day - 1, b2, b.day - 1, 31);
    MixedRadix(a.year, a.month - 1, b.year, b.month - 1, 12);
  }

  datatype Doc = Doc(id: Bytes, ingestedAt: Time, status: string, tags: seq<string>)

  datatype Chunk = Chunk(id: Bytes, documentID: Bytes, index: Index, content: Bytes)

  datatype Page<T> = Page(items: seq<T>, next: Bytes)

  datatype Result<T> = Ok(value: T) | Invalid

  const DefaultPageSize: int := 50
  const MaxPageSize: int := 200

  function PageSize(requested: int): Option<nat> {
    var n := if requested == 0 then DefaultPageSize else requested;
    if n < 1 || n > MaxPageSize then None else Some(n)
  }

  /** Only white space. */
  predicate Blank(s: Bytes) {
    forall i :: 0 <= i < |s| ==> s[i] == 32 || 9 <= s[i] <= 13
  }

  function DocEntry(d: Doc): Entry<Doc> { Entry(Key(Instant(d.ingestedAt), d.id), d) }

  function ChunkEntry(c: Chunk): Entry<Chunk> { Entry(Key(c.index, c.id), c) }

  /** Where a request resumes. A token of white space is accepted, and resumes at the zero key. */
  function DocResume(token: Bytes): Result<Option<Key>> {
    if token == [] then Ok(None)
    else if Blank(token) then Ok(Some(Key(Instant(ZeroTime), [])))
    else match DecodeDocToken(token)
      case None => Invalid
      case Some(p) => Ok(Some(Key(Instant(p.0), p.1)))
  }

  function ChunkResume(token: Bytes): Result<Option<Key>> {
    if token == [] then Ok(None)
    else if Blank(token) then Ok(Some(Key(0, [])))
    else match DecodeChunkToken(token)
      case None => Invalid
      case Some(p) => Ok(Some(Key(p.0, p.1)))
  }

  /** Blank: nothing but spaces, tabs, line feeds, vertical tabs, form feeds and carriage returns. */
  lemma BlankIff(s: Bytes)
    ensures Blank(s) <==> forall b :: b in s ==> b in [32, 9, 10, 11, 12, 13]
  {
    if forall b :: b in s ==> b in [32, 9, 10, 11, 12, 13] {
      forall i | 0 <= i < |s| ensures s[i] == 32 || 9 <= s[i] <= 13 {
        assert s[i] in s;
      }
    }
  }

  /** A blank token starts at the first document that has an id; of chunks, at the first that has one and an
      index that is not negative. */
  lemma BlankTokenStarts(token: Bytes, d: Doc, c: Chunk)
    requires Blank(token) && token != []
    ensures DocResume(token).Ok? && DocResume(token).value.Some?
    ensures !Earlier(d.ingestedAt, ZeroTime) && d.id != [] ==> KeyLess(DocResume(token).value.value, DocEntry(d).key)
    ensures ChunkResume(token).Ok? && ChunkResume(token).value.Some?
    ensures KeyLess(ChunkResume(token).value.value, ChunkEntry(c).key) <==> c.index > 0 || (c.index == 0 && c.id != [])
  {
    InstantIsOrder(d.ingestedAt, ZeroTime);
  }

  datatype DocRequest = DocRequest(pageSize: int, token: Bytes, after: Bytes, status: string, tags: seq<string>)

  type TimeParser = Bytes -> Option<Stamp>

  predicate StatusKnown(s: string) { s == "" || s == "embedded" || s == "pending" || s == "error" }

  predicate AfterValid(after: Bytes, parse: TimeParser) { Blank(after) || parse(after).Some? }

  /** The request is refused iff one of its four fields is out of range or malformed. */
  predicate Refused(req: DocRequest, parse: TimeParser) {
    PageSize(req.pageSize).None? || !StatusKnown(req.status) || !AfterValid(req.after, parse)
    || DocResume(req.token).Invalid?
  }

  /** What matches: status, time strictly after a bound unless that is absent or the zero time, and any
      of the tags. */
  predicate Wanted(req: DocRequest, parse: TimeParser, d: Doc) {
    && (req.status == "" || d.status == req.status)
    && (!Blank(req.after) && parse(req.after).Some? && parse(req.after).value != ZeroTime ==>
          Instant(d.ingestedAt) > Instant(parse(req.after).value))
    && (req.tags == [] || exists i :: 0 <= i < |d.tags| && d.tags[i] in req.tags)
  }

  /** The sorted listing of everything in the scan that matches. */
  ghost predicate IsDocListing(sorted: seq<Entry<Doc>>, scan: seq<Doc>, req: DocRequest, parse: TimeParser) {
    && Sorted(sorted)
    && forall e :: e in sorted <==> e == DocEntry(e.value) && e.value in scan && Wanted(req, parse, e.value)
  }

  ghost predicate IsChunkListing(sorted: seq<Entry<Chunk>>, scan: seq<Chunk>, doc: Bytes) {
    && Sorted(sorted)
    && forall e :: e in sorted <==> e == ChunkEntry(e.value) && e.value in scan && e.value.documentID == doc
  }

  function Values<T>(es: seq<Entry<T>>): (vs: seq<T>)
    ensures |vs| == |es| && forall i :: 0 <= i < |es| ==> vs[i] == es[i].value
  {
    seq(|es|, i requires 0 <= i < |es| => es[i].value)
  }

  ghost predicate DistinctDocs(scan: seq<Doc>) {
    forall i, j :: 0 <= i < j < |scan| ==> scan[i].id != scan[j].id
  }

  ghost predicate DistinctChunks(scan: seq<Chunk>) {
    forall i, j :: 0 <= i < j < |scan| ==> scan[i].id != scan[j].id
  }

  method DocHasAnyTag(d: Doc, tags: seq<string>) returns (has: bool)
    ensures has <==> exists i :: 0 <= i < |d.tags| && d.tags[i] in tags
  {
    var wanted: set<string> := set t | t in tags;
    for i := 0 to |d.tags|
      invariant forall j :: 0 <= j < i ==> d.tags[j] !in tags
    {
      if d.tags[i] in wanted {
        return true;
      }
    }
    has := false;
  }

  method FilterDocs(scan: seq<Doc>, req: DocRequest, parse: TimeParser) returns (es: seq<Entry<Doc>>)
    requires AfterValid(req.after, parse) && DistinctDocs(scan)
    ensures DistinctKeys(es)
    ensures forall e :: e in es <==> e == DocEntry(e.value) && e.value in scan && Wanted(req, parse, e.value)
  {
    var bound: Option<Stamp> := None;
    if !Blank(req.after) && parse(req.after).value != ZeroTime {
      bound := parse(req.after);
    }
    es := [];
    ghost var at: seq<nat> := [];
    for i := 0 to |scan|
      invariant |at| == |es| && forall k :: 0 <= k < |es| ==>
                    at[k] < i && es[k] == DocEntry(scan[at[k]]) && Wanted(req, parse, scan[at[k]])
      invariant forall k, m :: 0 <= k < m < |es| ==> at[k] < at[m]
      invariant forall j :: 0 <= j < i && Wanted(req, parse, scan[j]) ==> DocEntry(scan[j]) in es
    {
      var keep := IsWanted(scan[i], req, bound, parse);
      if keep {
        es, at := es + [DocEntry(scan[i])], at + [i];
      }
    }
  }

  method IsWanted(d: Doc, req: DocRequest, bound: Option<Stamp>, ghost parse: TimeParser) returns (keep: bool)
    requires AfterValid(req.after, parse)
    requires bound == if !Blank(req.after) && parse(req.after).value != ZeroTime then parse(req.after) else None
    ensures keep <==> Wanted(req, parse, d)
  {
    if req.status != "" && d.status != req.status {
      return false;
    }
    if bound.Some? && !(Instant(d.ingestedAt) > Instant(bound.value)) {
      return false;
    }
    if |req.tags| > 0 {
      keep := DocHasAnyTag(d, req.tags);
    } else {
      keep := true;
    }
  }

  lemma SameMembers<T(!new)>(sorted: seq<Entry<T>>, es: seq<Entry<T>>)
    requires multiset(sorted) == multiset(es)
    ensures forall e :: e in sorted <==> e in es
  {
    forall e ensures e in sorted <==> e in es {
      assert e in multiset(sorted) <==> e in multiset(es);
    }
  }

  /** The key after which the following page resumes, when there is one. */
  function NextKey<T>(sorted: seq<Entry<T>>, resume: Option<Key>, size: nat): Option<Key> {
    var page := PageFor(Request(sorted, size), resume);
    if MoreAfter(Request(sorted, size), resume) && page != [] then Some(page[|page| - 1].key) else None
  }

  /** One page: the first entries past the resume point. */
  ghost predicate IsPage<T(!new)>(items: seq<T>, sorted: seq<Entry<T>>, resume: Option<Key>, size: nat) {
    items == Values(PageFor(Request(sorted, size), resume))
  }

  /** A token is given iff more entries remain, and it leads to the next key; a key with an empty id
      cannot be read back. */
  ghost predicate LeadsOn(next: Bytes, read: Bytes -> Result<Option<Key>>, key: Option<Key>) {
    && (next != [] <==> key.Some?)
    && (key.Some? && key.value.id != [] ==> read(next) == Ok(key))
  }

  ghost predicate InPageOrder(docs: seq<Doc>) {
    forall i, j :: 0 <= i < j < |docs| ==> DocBefore(docs[i], docs[j])
  }

  /** Taken in earlier, or at the same time and with the smaller id. */
  predicate DocBefore(a: Doc, b: Doc) {
    Earlier(a.ingestedAt, b.ingestedAt) || (a.ingestedAt == b.ingestedAt && Less(a.id, b.id))
  }

  ghost predicate ChunksInOrder(chunks: seq<Chunk>) {
    forall i, j :: 0 <= i < j < |chunks| ==> ChunkBefore(chunks[i], chunks[j])
  }

  predicate ChunkBefore(a: Chunk, b: Chunk) {
    a.index < b.index || (a.index == b.index && Less(a.id, b.id))
  }

  lemma DocKeys(a: Doc, b: Doc)
    ensures KeyLess(DocEntry(a).key, DocEntry(b).key) <==> DocBefore(a, b)
  {
    InstantIsOrder(a.ingestedAt, b.ingestedAt);
    if Instant(a.ingestedAt) == Instant(b.ingestedAt) {
      InstantInjective(a.ingestedAt, b.ingestedAt);
    }
  }

  /** The entries of a page are in the order of the listing. */
  lemma {:induction false} SkipSorted<T>(sorted: seq<Entry<T>>, resume: Option<Key>)
    requires Sorted(sorted)
    ensures Sorted(Skip(sorted, resume))
    decreases |sorted|
  {
    if sorted != [] && resume.Some? && !KeyLess(resume.value, sorted[0].key) {
      SkipSorted(sorted[1..], resume);
    }
  }

  lemma PageInOrder(items: seq<Doc>, sorted: seq<Entry<Doc>>, resume: Option<Key>, size: nat)
    requires Sorted(sorted) && (forall e :: e in sorted ==> e == DocEntry(e.value))
    requires IsPage(items, sorted, resume, size)
    ensures InPageOrder(items) && |items| <= size
  {
    SkipSorted(sorted, resume);
    var page := PageFor(Request(sorted, size), resume);
    forall i, j | 0 <= i < j < |items| ensures DocBefore(items[i], items[j]) {
      FromListing(sorted, resume, page[i]);
      FromListing(sorted, resume, page[j]);
      DocKeys(items[i], items[j]);
    }
  }

  lemma ChunkPageInOrder(items: seq<Chunk>, sorted: seq<Entry<Chunk>>, resume: Option<Key>, size: nat)
    requires Sorted(sorted) && (forall e :: e in sorted ==> e == ChunkEntry(e.value))
    requires IsPage(items, sorted, resume, size)
    ensures ChunksInOrder(items) && |items| <= size
  {
    SkipSorted(sorted, resume);
    var page := PageFor(Request(sorted, size), resume);
    forall i, j | 0 <= i < j < |items| ensures ChunkBefore(items[i], items[j]) {
      FromListing(sorted, resume, page[i]);
      FromListing(sorted, resume, page[j]);
    }
  }

  /** What a bound on the time of ingestion keeps: what came strictly later. The zero time bounds nothing. */
  lemma WantedIff(req: DocRequest, parse: TimeParser, d: Doc)
    requires AfterValid(req.after, parse) && (!Blank(req.after) ==> InCalendar(parse(req.after).value))
    ensures Wanted(req, parse, d) <==>
            && req.status in ["", d.status]
            && (Blank(req.after) || parse(req.after).value == Stamp(1, 1, 1, 0, 0, 0, 0)
                || Earlier(parse(req.after).value, d.ingestedAt))
            && (req.tags == [] || exists tag :: tag in d.tags && tag in req.tags)
  {
    if !Blank(req.after) {
      InstantIsOrder(parse(req.after).value, d.ingestedAt);
    }
  }

  /** A page of documents, or a refusal. The sorted listing is what the pages are cut from. */
  method ListDocuments(scan: seq<Doc>, req: DocRequest, parse: TimeParser)
    returns (r: Result<Page<Doc>>, ghost sorted: seq<Entry<Doc>>)
    requires DistinctDocs(scan)
    ensures r.Invalid? <==> Refused(req, parse)
    ensures r.Invalid? <==>
            || !(0 <= req.pageSize <= 200) || req.status !in ["", "embedded", "pending", "error"]
            || !(Blank(req.after) || parse(req.after).Some?) || DocResume(req.token).Invalid?
    ensures r.Ok? ==> InPageOrder(r.value.items) && |r.value.items| <= if req.pageSize == 0 then 50 else req.pageSize
    ensures r.Ok? ==> IsDocListing(sorted, scan, req, parse)
    ensures r.Ok? ==> IsPage(r.value.items, sorted, DocResume(req.token).value, PageSize(req.pageSize).value)
    ensures r.Ok? ==>
              LeadsOn(r.value.next, DocResume,
                        NextKey(sorted, DocResume(req.token).value, PageSize(req.pageSize).value))
  {
    sorted := [];
    var size := PageSize(req.pageSize);
    if size.None? || !StatusKnown(req.status) {
      return Invalid, sorted;
    }
    if !Blank(req.after) && parse(req.after).None? {
      return Invalid, sorted;
    }
    var resume := DocResume(req.token);
    if resume.Invalid? {
      return Invalid, sorted;
    }
    var es := FilterDocs(scan, req, parse);
    var inOrder := SortEntries(es);
    SameMembers(inOrder, es);
    sorted := inOrder;
    var page := CutDocs(inOrder, resume.value, size.value);
    PageInOrder(page.items, inOrder, resume.value, size.value);
    r := Ok(page);
  }

  method CutDocs(sorted: seq<Entry<Doc>>, resume: Option<Key>, size: nat) returns (page: Page<Doc>)
    requires size > 0 && forall e :: e in sorted ==> e == DocEntry(e.value)
    ensures IsPage(page.items, sorted, resume, size)
    ensures LeadsOn(page.next, DocResume, NextKey(sorted, resume, size))
  {
    var es, more := CutPage(sorted, resume, size);
    var next: Bytes := [];
    if more {
      var last := es[|es| - 1];
      FromListing(sorted, resume, last);
      next := DocTokenAfter(last.value);
    }
    page := Page(Values(es), next);
  }

  method DocTokenAfter(d: Doc) returns (next: Bytes)
    ensures LeadsOn(next, DocResume, Some(DocEntry(d).key))
  {
    DocTokenResumes(d);
    next := EncodeDocToken(d.ingestedAt, d.id);
  }

  lemma {:induction false} FromListing<T>(sorted: seq<Entry<T>>, resume: Option<Key>, e: Entry<T>)
    requires e in Skip(sorted, resume)
    ensures e in sorted
    decreases |sorted|
  {
    if sorted != [] && e !in [sorted[0]] && resume.Some? && !KeyLess(resume.value, sorted[0].key) {
      FromListing(sorted[1..], resume, e);
    }
  }

  lemma EncodedNotBlank(bs: Bytes)
    requires bs != []
    ensures EncodeBytes(bs) != [] && !Blank(EncodeBytes(bs))
  {
    assert EncodeBytes(bs)[0] == Digit(bs[0] / 4);
  }

  /** A document's own token is never blank, and resumes right after that document. */
  lemma DocTokenResumes(d: Doc)
    ensures var token := EncodeDocToken(d.ingestedAt, d.id);
            token != [] && (d.id != [] ==> DocResume(token) == Ok(Some(DocEntry(d).key)))
  {
    EncodedNotBlank(FormatStamp(d.ingestedAt) + [Separator] + d.id);
    DocTokenRoundTrip(d.ingestedAt, d.id);
  }

  // ----- Chunks of one document -----

  datatype ChunkRequest = ChunkRequest(pageSize: int, token: Bytes)

  predicate ChunksRefused(documentID: Bytes, req: ChunkRequest) {
    Blank(documentID) || PageSize(req.pageSize).None? || ChunkResume(req.token).Invalid?
  }

  method FilterChunks(scan: seq<Chunk>, documentID: Bytes) returns (es: seq<Entry<Chunk>>)
    requires DistinctChunks(scan)
    ensures DistinctKeys(es)
    ensures forall e :: e in es <==> e == ChunkEntry(e.value) && e.value in scan && e.value.documentID == documentID
  {
    es := [];
    ghost var at: seq<nat> := [];
    for i := 0 to |scan|
      invariant |at| == |es| && forall k :: 0 <= k < |es| ==>
                    at[k] < i && es[k] == ChunkEntry(scan[at[k]]) && scan[at[k]].documentID == documentID
      invariant forall k, m :: 0 <= k < m < |es| ==> at[k] < at[m]
      invariant forall j :: 0 <= j < i && scan[j].documentID == documentID ==> ChunkEntry(scan[j]) in es
    {
      if scan[i].documentID == documentID {
        es, at := es + [ChunkEntry(scan[i])], at + [i];
      }
    }
  }

  method ListChunks(scan: seq<Chunk>, documentID: Bytes, req: ChunkRequest)
    returns (r: Result<Page<Chunk>>, ghost sorted: seq<Entry<Chunk>>)
    requires DistinctChunks(scan)
    ensures r.Invalid? <==> ChunksRefused(documentID, req)
    ensures r.Invalid? <==> Blank(documentID) || !(0 <= req.pageSize <= 200) || ChunkResume(req.token).Invalid?
    ensures r.Ok? ==> ChunksInOrder(r.value.items) && |r.value.items| <= if req.pageSize == 0 then 50 else req.pageSize
    ensures r.Ok? ==> IsChunkListing(sorted, scan, documentID)
    ensures r.Ok? ==> IsPage(r.value.items, sorted, ChunkResume(req.token).value, PageSize(req.pageSize).value)
    ensures r.Ok? ==>
              LeadsOn(r.value.next, ChunkResume,
                        NextKey(sorted, ChunkResume(req.token).value, PageSize(req.pageSize).value))
  {
    sorted := [];
    var size, resume := PageSize(req.pageSize), ChunkResume(req.token);
    if Blank(documentID) || size.None? || resume.Invalid? {
      return Invalid, sorted;
    }
    var es := FilterChunks(scan, documentID);
    var inOrder := SortEntries(es);
    SameMembers(inOrder, es);
    sorted := inOrder;
    var page := CutChunks(inOrder, resume.value, size.value);
    ChunkPageInOrder(page.items, inOrder, resume.value, size.value);
    r := Ok(page);
  }

  method CutChunks(sorted: seq<Entry<Chunk>>, resume: Option<Key>, size: nat) returns (page: Page<Chunk>)
    requires size > 0 && forall e :: e in sorted ==> e == ChunkEntry(e.value)
    ensures IsPage(page.items, sorted, resume, size)
    ensures LeadsOn(page.next, ChunkResume, NextKey(sorted, resume, size))
  {
    var es, more := CutPage(sorted, resume, size);
    var next: Bytes := [];
    if more {
      var last := es[|es| - 1];
      FromListing(sorted, resume, last);
      next := ChunkTokenAfter(last.value);
    }
    page := Page(Values(es), next);
  }

  method ChunkTokenAfter(c: Chunk) returns (next: Bytes)
    ensures LeadsOn(next, ChunkResume, Some(ChunkEntry(c).key))
  {
    ChunkTokenResumes(c);
    next := EncodeChunkToken(c.index, c.id);
  }

  lemma ChunkTokenResumes(c: Chunk)
    ensures var token := EncodeChunkToken(c.index, c.id);
            token != [] && (c.id != [] ==> ChunkResume(token) == Ok(Some(ChunkEntry(c).key)))
  {
    EncodedNotBlank(Itoa(c.index) + [Separator] + c.id);
    ChunkTokenRoundTrip(c.index, c.id);
  }

  // ----- Draining every page -----

  lemma {:induction false} SortedUnique<T(!new)>(a: seq<Entry<T>>, b: seq<Entry<T>>)
    requires Sorted(a) && Sorted(b) && forall e :: e in a <==> e in b
    ensures a == b
    decreases |a|
  {
    HasMember(a);
    HasMember(b);
    if a != [] && b != [] {
      HeadsAgree(a, b);
      TailMembers(a);
      TailMembers(b);
      SortedUnique(a[1..], b[1..]);
      assert a == [a[0]] + a[1..] && b == [b[0]] + b[1..];
    }
  }

  lemma HasMember<T(!new)>(s: seq<Entry<T>>)
    ensures s == [] || exists e :: e in s
  {
    assert s == [] || s[0] in s;
  }

  lemma HeadsAgree<T(!new)>(a: seq<Entry<T>>, b: seq<Entry<T>>)
    requires a != [] && b != [] && Sorted(a) && Sorted(b) && forall e :: e in a <==> e in b
    ensures a[0] == b[0]
  {
    assert a[0] in b && b[0] in a;
    KeyAsymmetric(a[0].key, b[0].key);
  }

  lemma TailMembers<T(!new)>(a: seq<Entry<T>>)
    requires a != [] && Sorted(a)
    ensures forall e :: e in a[1..] <==> e in a && e != a[0]
  {
    forall e ensures e in a[1..] <==> e in a && e != a[0] {
      if e in a[1..] {
        var i :| 0 <= i < |a[1..]| && a[1..][i] == e;
        KeyAsymmetric(a[0].key, a[i + 1].key);
      }
      if e in a && e != a[0] {
        var i :| 0 <= i < |a| && a[i] == e;
        assert a[1..][i - 1] == e;
      }
    }
  }

  lemma ValuesJoin<T>(a: seq<Entry<T>>, b: seq<Entry<T>>)
    ensures Values(a + b) == Values(a) + Values(b)
  {
  }

  /** Reading one page on: what was read, plus what the next key leaves, is still the whole listing. */
  lemma DrainStep<T(!new)>(read: seq<T>, items: seq<T>, sorted: seq<Entry<T>>, resume: Option<Key>, size: nat)
    requires Sorted(sorted) && size > 0 && IsPage(items, sorted, resume, size)
    requires read + Values(Skip(sorted, resume)) == Values(sorted)
    ensures var next := NextKey(sorted, resume, size);
            if next.None? then read + items == Values(sorted)
            else
              && read + items + Values(Skip(sorted, next)) == Values(sorted)
              && |Skip(sorted, next)| < |Skip(sorted, resume)|
              && exists e :: e in sorted && e.key == next.value
  {
    if MoreAfter(Request(sorted, size), resume) {
      MoreLeft(sorted, resume, size);
      PageJoins(read, Skip(sorted, resume), size);
    }
  }

  lemma MoreLeft<T(!new)>(sorted: seq<Entry<T>>, resume: Option<Key>, size: nat)
    requires Sorted(sorted) && 0 < size < |Skip(sorted, resume)|
    ensures var left := Skip(sorted, resume);
            && NextKey(sorted, resume, size) == Some(left[size - 1].key)
            && PageFor(Request(sorted, size), resume) == left[..size]
            && Skip(sorted, Some(left[size - 1].key)) == left[size..]
            && left[size - 1] in sorted
  {
    SkipFurther(sorted, resume, size);
    FromListing(sorted, resume, Skip(sorted, resume)[size - 1]);
  }

  lemma PageJoins<T>(read: seq<T>, left: seq<Entry<T>>, size: nat)
    requires size < |left|
    ensures read + Values(left[..size]) + Values(left[size..]) == read + Values(left)
  {
    ValuesJoin(left[..size], left[size..]);
    assert left[..size] + left[size..] == left;
  }

  const Embedded: DocRequest := DocRequest(200, [], [], "embedded", [])

  /** Any token leaves the listing the same. */
  lemma SameListing(a: seq<Entry<Doc>>, b: seq<Entry<Doc>>, scan: seq<Doc>, token: Bytes, parse: TimeParser)
    requires IsDocListing(a, scan, Embedded, parse)
    requires IsDocListing(b, scan, Embedded.(token := token), parse)
    ensures a == b
  {
    forall e ensures e in a <==> e in b {
      assert Wanted(Embedded, parse, e.value) <==> Wanted(Embedded.(token := token), parse, e.value);
    }
    SortedUnique(a, b);
  }

  /** Reads all embedded documents, 200 at a time. The pages concatenate to exactly the listing. */
  method DrainDocuments(scan: seq<Doc>, parse: TimeParser) returns (r: Result<seq<Doc>>, ghost sorted: seq<Entry<Doc>>)
    requires DistinctDocs(scan) && forall d :: d in scan ==> d.id != []
    ensures r.Ok? && r.value == Values(sorted)
    ensures IsDocListing(sorted, scan, Embedded, parse)
  {
    var docs: seq<Doc>, token: Bytes := [], [];
    sorted := [];
    ghost var started := false;
    ghost var resume: Option<Key> := None;
    while true
      invariant !started ==> docs == [] && resume == None
      invariant DocResume(token) == Ok(resume)
      invariant started ==>
                    IsDocListing(sorted, scan, Embedded, parse) && docs + Values(Skip(sorted, resume)) == Values(sorted)
      decreases if started then 0 else 1, |Skip(sorted, resume)|
    {
      var page, listing := ListDocuments(scan, Embedded.(token := token), parse);
      assert !Refused(Embedded.(token := token), parse);
      if started {
        SameListing(sorted, listing, scan, token, parse);
      } else {
        AnyToken(listing, scan, token, parse);
        assert [] + Values(listing) == Values(listing);
      }
      sorted, started := listing, true;
      DrainStep(docs, page.value.items, sorted, resume, 200);
      resume := NextKey(sorted, resume, 200);
      docs := docs + page.value.items;
      if page.value.next == [] {
        break;
      }
      token := page.value.next;
    }
    r := Ok(docs);
  }

  lemma AnyToken(listing: seq<Entry<Doc>>, scan: seq<Doc>, token: Bytes, parse: TimeParser)
    requires IsDocListing(listing, scan, Embedded.(token := token), parse)
    ensures IsDocListing(listing, scan, Embedded, parse)
  {
    forall e: Entry<Doc> ensures Wanted(Embedded, parse, e.value) <==>
          Wanted(Embedded.(token := token), parse, e.value) {
    }
  }

  /** Reads all chunks of one document, 200 at a time. The pages concatenate to exactly the listing. */
  method DrainChunks(scan: seq<Chunk>, documentID: Bytes)
    returns (r: Result<seq<Chunk>>, ghost sorted: seq<Entry<Chunk>>)
    requires DistinctChunks(scan) && forall c :: c in scan ==> c.id != []
    ensures r.Invalid? <==> Blank(documentID)
    ensures r.Ok? ==> r.value == Values(sorted) && IsChunkListing(sorted, scan, documentID)
  {
    var chunks: seq<Chunk>, token: Bytes := [], [];
    sorted := [];
    ghost var started := false;
    ghost var resume: Option<Key> := None;
    while true
      invariant !started ==> chunks == [] && resume == None
      invariant ChunkResume(token) == Ok(resume)
      invariant started ==> !Blank(documentID)
      invariant started ==>
                    IsChunkListing(sorted, scan, documentID) && chunks + Values(Skip(sorted, resume)) == Values(sorted)
      decreases if started then 0 else 1, |Skip(sorted, resume)|
    {
      var page, listing := ListChunks(scan, documentID, ChunkRequest(200, token));
      if page.Invalid? {
        return Invalid, sorted;
      }
      if started {
        SortedUnique(sorted, listing);
      } else {
        assert [] + Values(listing) == Values(listing);
      }
      sorted, started := listing, true;
      DrainStep(chunks, page.value.items, sorted, resume, 200);
      resume := NextKey(sorted, resume, 200);
      chunks := chunks + page.value.items;
      if page.value.next == [] {
        break;
      }
      token := page.value.next;
    }
    r := Ok(chunks);
  }

  // ----- Draining while documents come and go -----

  /** Each scan is the store as one page request finds it. */
  ghost predicate Scans(scans: seq<seq<Doc>>) {
    forall i :: 0 <= i < |scans| ==> DistinctDocs(scans[i]) && forall d :: d in scans[i] ==> d.id != []
  }

  /** The requests that follow the tokens through changing scans: each page is cut from the listing of its
      scan, after the key the page before it ended with. */
  ghost predicate Followed(qs: seq<Request<Doc>>, scans: seq<seq<Doc>>, req: DocRequest, parse: TimeParser) {
    && |qs| <= |scans| && Wellformed(qs)
    && forall i :: 0 <= i < |qs| ==>
        PageSize(req.pageSize) == Some(qs[i].size) && IsDocListing(qs[i].listing, scans[i], req, parse)
  }

  lemma ListingOfToken(sorted: seq<Entry<Doc>>, scan: seq<Doc>, req: DocRequest, token: Bytes, parse: TimeParser)
    requires IsDocListing(sorted, scan, req.(token := token), parse)
    ensures IsDocListing(sorted, scan, req, parse)
  {
    forall e: Entry<Doc> ensures Wanted(req, parse, e.value) <==> Wanted(req.(token := token), parse, e.value) {
    }
  }

  /** One request after another, each with the token of the page before, until a page has none or the
      scans run out. What comes back is what the chain of pages holds. */
  method FollowTokens(scans: seq<seq<Doc>>, at: nat, ghost resume: Option<Key>, req: DocRequest, parse: TimeParser)
    returns (docs: seq<Doc>, drained: bool, ghost qs: seq<Request<Doc>>)
    requires Scans(scans) && at <= |scans| && DocResume(req.token) == Ok(resume)
    requires !Refused(req, parse)
    ensures Followed(qs, scans[at..], req, parse)
    ensures docs == Values(Pages(qs, resume))
    ensures drained <==> Drained(qs, resume)
    ensures !drained ==> |qs| == |scans| - at <= |docs|
    decreases |scans| - at
  {
    docs, drained, qs := [], false, [];
    if at == |scans| {
      return;
    }
    var page, listing := ListDocuments(scans[at], req, parse);
    ghost var q := Request(listing, PageSize(req.pageSize).value);
    ghost var next := NextKey(listing, resume, q.size);
    PagePast(q, resume);
    if page.value.next == [] {
      OnePage(q, resume);
      assert scans[at..][0] == scans[at];
      return page.value.items, true, [q];
    }
    KeyFromListing(listing, resume, q.size, scans[at], req, parse);
    var rest;
    ghost var more;
    rest, drained, more := FollowTokens(scans, at + 1, next, req.(token := page.value.next), parse);
    qs := [q] + more;
    assert qs[1..] == more && scans[at..][1..] == scans[at + 1..];
    FollowedMore(q, more, scans[at..], req, page.value.next, parse);
    PagesMore(q, more, resume);
    docs := page.value.items + rest;
  }

  lemma OnePage<T>(q: Request<T>, resume: Option<Key>)
    requires NextKey(q.listing, resume, q.size).None?
    ensures Pages([q], resume) == PageFor(q, resume) && Drained([q], resume)
  {
  }

  lemma PagesMore<T>(q: Request<T>, more: seq<Request<T>>, resume: Option<Key>)
    requires NextKey(q.listing, resume, q.size).Some?
    ensures Values(Pages([q] + more, resume))
            == Values(PageFor(q, resume)) + Values(Pages(more, NextKey(q.listing, resume, q.size)))
    ensures Drained([q] + more, resume) <==> Drained(more, NextKey(q.listing, resume, q.size))
  {
    assert ([q] + more)[1..] == more;
    ValuesJoin(PageFor(q, resume), Pages(more, NextKey(q.listing, resume, q.size)));
  }

  lemma KeyFromListing(listing: seq<Entry<Doc>>, resume: Option<Key>, size: nat, scan: seq<Doc>, req: DocRequest,
                       parse: TimeParser)
    requires IsDocListing(listing, scan, req, parse) && (forall d :: d in scan ==> d.id != [])
    ensures NextKey(listing, resume, size).Some? ==> NextKey(listing, resume, size).value.id != []
  {
    var page := PageFor(Request(listing, size), resume);
    if NextKey(listing, resume, size).Some? {
      var last := page[|page| - 1];
      assert last in Skip(listing, resume);
      FromListing(listing, resume, last);
    }
  }

  lemma FollowedMore(q: Request<Doc>, more: seq<Request<Doc>>, scans: seq<seq<Doc>>, req: DocRequest, token: Bytes,
                     parse: TimeParser)
    requires scans != [] && Followed(more, scans[1..], req.(token := token), parse)
    requires q.size > 0 && PageSize(req.pageSize) == Some(q.size) && IsDocListing(q.listing, scans[0], req, parse)
    ensures Followed([q] + more, scans, req, parse)
  {
    var qs := [q] + more;
    forall i | 0 <= i < |qs|
      ensures PageSize(req.pageSize) == Some(qs[i].size) && IsDocListing(qs[i].listing, scans[i], req, parse)
      ensures Sorted(qs[i].listing)
    {
      if i > 0 {
        assert qs[i] == more[i - 1] && scans[1..][i - 1] == scans[i];
        ListingOfToken(qs[i].listing, scans[i], req, token, parse);
      }
    }
  }

  /** Following the tokens through any changes, a document that matches, and is in every scan unchanged, is
      returned exactly once; and no record of a document is returned twice. The pages end, unless every request
      has returned a document and asked for more. */
  method DrainChanging(scans: seq<seq<Doc>>, req: DocRequest, parse: TimeParser, ghost steady: Doc)
    returns (docs: seq<Doc>, drained: bool)
    requires Scans(scans) && !Refused(req, parse) && req.token == []
    ensures drained && Wanted(req, parse, steady) && (forall i :: 0 <= i < |scans| ==> steady in scans[i]) ==>
              multiset(docs)[steady] == 1
    ensures forall i, j :: 0 <= i < j < |docs| ==> docs[i] != docs[j]
    ensures |scans| > |docs| ==> drained
  {
    ghost var qs;
    docs, drained, qs := FollowTokens(scans, 0, None, req, parse);
    assert scans[0..] == scans;
    PagesOnce(qs, scans, req, parse);
    if drained && Wanted(req, parse, steady) && (forall i :: 0 <= i < |scans| ==> steady in scans[i]) {
      SteadyOnce(qs, scans, req, parse, steady);
    }
  }

  /** An entry of the pages is a document with its own key, so pages and documents correspond. */
  lemma {:induction false} PagesAreDocs(qs: seq<Request<Doc>>, scans: seq<seq<Doc>>, req: DocRequest,
                                        parse: TimeParser, resume: Option<Key>)
    requires Followed(qs, scans, req, parse)
    ensures forall e :: e in Pages(qs, resume) ==> e == DocEntry(e.value)
    decreases qs
  {
    if qs != [] {
      PagePast(qs[0], resume);
      var page := PageFor(qs[0], resume);
      assert forall e :: e in page ==> e in qs[0].listing;
      if MoreAfter(qs[0], resume) {
        assert Followed(qs[1..], scans[1..], req, parse) by {
          assert forall i :: 0 <= i < |qs| - 1 ==> qs[1..][i] == qs[i + 1] && scans[1..][i] == scans[i + 1];
        }
        PagesAreDocs(qs[1..], scans[1..], req, parse, Some(page[|page| - 1].key));
      }
    }
  }

  lemma PagesOnce(qs: seq<Request<Doc>>, scans: seq<seq<Doc>>, req: DocRequest, parse: TimeParser)
    requires Followed(qs, scans, req, parse)
    ensures var docs := Values(Pages(qs, None)); forall i, j :: 0 <= i < j < |docs| ==> docs[i] != docs[j]
  {
    KeysIncrease(qs, None);
    PagesAreDocs(qs, scans, req, parse, None);
    var es := Pages(qs, None);
    forall i, j | 0 <= i < j < |es| ensures es[i].value != es[j].value {
      assert es[i] in es && es[j] in es;
      KeyAsymmetric(es[i].key, es[j].key);
    }
  }

  lemma SteadyOnce(qs: seq<Request<Doc>>, scans: seq<seq<Doc>>, req: DocRequest, parse: TimeParser, steady: Doc)
    requires Followed(qs, scans, req, parse) && Drained(qs, None) && Wanted(req, parse, steady)
    requires forall i :: 0 <= i < |scans| ==> steady in scans[i]
    ensures multiset(Values(Pages(qs, None)))[steady] == 1
  {
    var e := DocEntry(steady);
    forall i | 0 <= i < |qs| ensures e in qs[i].listing {
      assert steady in scans[i];
    }
    StableIsReturned(qs, None, e);
    PagesOnce(qs, scans, req, parse);
    var es, docs := Pages(qs, None), Values(Pages(qs, None));
    var k :| 0 <= k < |es| && es[k] == e;
    assert docs[k] == steady;
    OnceAt(docs, k);
  }

  lemma OnceAt(docs: seq<Doc>, k: nat)
    requires k < |docs| && forall i, j :: 0 <= i < j < |docs| ==> docs[i] != docs[j]
    ensures multiset(docs)[docs[k]] == 1
  {
    assert docs == docs[..k] + [docs[k]] + docs[k + 1..];
    assert docs[k] !in docs[..k] && docs[k] !in docs[k + 1..];
  }
}
