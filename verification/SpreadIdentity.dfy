/** The sidecar as a whole: what it says of the original and the generated PDF, its links, and the identity of the view
    it describes, which is a hash over the original, the layout and every page's mapping. */
module SpreadIdentity {
  import opened Wrappers
  import opened Texts
  import opened Spread
  import opened SpreadLayout

  const NAMESPACE := "techrebbe.supernote."

  const SCHEMA := NAMESPACE + "virtual-spread/v3"

  const GENERATOR := NAMESPACE + "virtual-spread-generator/v1"

  const MAPPING_DOMAIN := NAMESPACE + "virtual-spread-mapping/v1"

  const VIEW_DOMAIN := NAMESPACE + "virtual-spread-view/v1"

  const DOCUMENT_ID_PREFIX := "inkbridge-doc-v1-"

  const VIEW_ID_PREFIX := "inkbridge-view-v1-"

  /** SHA-256 in lower-case hex, and the bits of a number in hex. */
  datatype Formats = Formats(sha: string -> string, bits: real -> string)

  predicate IsLowerHex(c: char) {
    '0' <= c <= '9' || 'a' <= c <= 'f'
  }

  predicate IsHex(s: string) {
    forall i :: 0 <= i < |s| ==> IsLowerHex(s[i])
  }

  predicate IsSha256(s: string) {
    |s| == 64 && IsHex(s)
  }

  ghost predicate WritesHex(f: Formats) {
    && (forall s :: IsSha256(f.sha(s)))
    && (forall x :: IsHex(f.bits(x)))
  }

  // ---------------------------------------------------------------- the sidecar

  datatype Source = Source(size: nat, sha256: string, pageCount: nat, documentId: string)

  datatype Output = Output(
    size: nat, sha256: string, pageCount: nat, spreadSize: Size, gutter: real, layoutAuthority: string, linkAuthority: string,
    mappingAuthority: string, viewId: string, cacheBasename: string)

  /** A link with the fields of its kind; any other JSON value is malformed. */
  datatype Link =
    | Internal(sourcePage: nat, sourceSide: string, outputPage: nat, targetSourcePage: nat, targetOutputPage: nat,
               targetSide: string, targetView: string, rect: seq<real>)
    | Uri(sourcePage: nat, sourceSide: string, outputPage: nat, uri: string, rect: seq<real>)
    | Malformed

  datatype Wire = Wire(
    schema: string, generator: string, direction: string, cover: bool, source: Source, output: Output,
    spreads: seq<SpreadRecord>, pages: seq<PageRecord>, links: seq<Link>)

  predicate IsIndex(n: nat, limit: nat) {
    n <= MAX_PAGE_INDEX && n < limit
  }

  predicate IsRect(rect: seq<real>) {
    |rect| == 4 && Rect(rect[0], rect[1], rect[2], rect[3]).Positive()
  }

  predicate LinkOk(link: Link, sourcePages: nat, outputPages: nat) {
    match link
    case Internal(page, side, output, targetPage, targetOutput, targetSide, view, rect) =>
      && IsIndex(page, sourcePages) && IsIndex(output, outputPages) && SideNamed(side).Some? && IsRect(rect)
      && IsIndex(targetPage, sourcePages) && IsIndex(targetOutput, outputPages) && SideNamed(targetSide).Some?
      && view in {"fit-source-page", "preserve"}
    case Uri(page, side, output, uri, rect) =>
      IsIndex(page, sourcePages) && IsIndex(output, outputPages) && SideNamed(side).Some? && IsRect(rect) && uri != ""
    case Malformed => false
  }

  predicate LinksOk(links: seq<Link>, sourcePages: nat, outputPages: nat) {
    forall i :: 0 <= i < |links| ==> LinkOk(links[i], sourcePages, outputPages)
  }

  /** What a validated sidecar tells its readers. */
  datatype VirtualSpread = VirtualSpread(
    originalSha256: string, documentId: string, originalPageCount: nat, generatedSha256: string, generatedPageCount: nat,
    spreadSize: Size, gutter: real, cover: bool, layoutAuthority: string, linkAuthority: string, mappingAuthority: string,
    viewId: string, cacheBasename: string, mappings: seq<PageMapping>)

  /** Everything is as the sidecar says, and each page has its own mapping. */
  predicate ReadFrom(w: Wire, r: VirtualSpread) {
    && r == VirtualSpread(w.source.sha256, w.source.documentId, w.source.pageCount, w.output.sha256, w.output.pageCount,
                          w.output.spreadSize, w.output.gutter, w.cover, w.output.layoutAuthority, w.output.linkAuthority,
                          w.output.mappingAuthority, w.output.viewId, w.output.cacheBasename, r.mappings)
    && Collected(w.pages, |w.pages|, w.cover, w.output.spreadSize, w.output.gutter, r.mappings)
  }

  // ---------------------------------------------------------------- what is hashed

  function RectNumbers(r: Rect): seq<real> {
    [r.left, r.bottom, r.right, r.top]
  }

  function PageNumbers(p: PageRecord): seq<real> {
    RectNumbers(p.sourceBox) + RectNumbers(p.normalizedBox) + RectNumbers(p.slot) + RectNumbers(p.destination) + [p.scale]
    + [p.transform.a, p.transform.b, p.transform.c, p.transform.d, p.transform.e, p.transform.f]
  }

  function AllBits(f: Formats, numbers: seq<real>): seq<string> {
    seq(|numbers|, i requires 0 <= i < |numbers| => f.bits(numbers[i]))
  }

  function RecordFields(f: Formats, p: PageRecord): seq<string> {
    ["page", Decimal(p.sourcePage), Decimal(p.virtualPage), p.side, Decimal(p.rotation)] + AllBits(f, PageNumbers(p))
  }

  function CanonicalRecord(f: Formats, p: PageRecord): string {
    Joined(RecordFields(f, p), '|')
  }

  function Records(f: Formats, pages: seq<PageRecord>): seq<string> {
    seq(|pages|, i requires 0 <= i < |pages| => CanonicalRecord(f, pages[i]))
  }

  function CanonicalMapping(f: Formats, pages: seq<PageRecord>): string {
    Ended([MAPPING_DOMAIN] + Records(f, pages), '\n')
  }

  function MappingAuthority(f: Formats, pages: seq<PageRecord>): string {
    f.sha(CanonicalMapping(f, pages))
  }

  function SheetNumbers(size: Size, gutter: real): seq<real> {
    [size.width, size.height, gutter]
  }

  function ViewLines(f: Formats, sourceSha256: string, cover: bool, size: Size, gutter: real, mapping: string): seq<string> {
    [VIEW_DOMAIN, "source|" + sourceSha256, "schema|" + SCHEMA, "generator|" + GENERATOR, "direction|rtl",
     "cover|" + (if cover then "1" else "0"), Joined(["spread"] + AllBits(f, SheetNumbers(size, gutter)), '|'),
     "mapping|" + mapping]
  }

  function CanonicalView(f: Formats, sourceSha256: string, cover: bool, size: Size, gutter: real, mapping: string): string {
    Ended(ViewLines(f, sourceSha256, cover, size, gutter, mapping), '\n')
  }

  function ViewOf(f: Formats, w: Wire): string {
    CanonicalView(f, w.source.sha256, w.cover, w.output.spreadSize, w.output.gutter, MappingAuthority(f, w.pages))
  }

  // ---------------------------------------------------------------- what is accepted

  predicate DigestsOk(w: Wire) {
    && IsSha256(w.source.sha256) && IsSha256(w.output.sha256) && IsSha256(w.output.layoutAuthority)
    && IsSha256(w.output.linkAuthority) && IsSha256(w.output.mappingAuthority)
  }

  predicate HeaderOk(w: Wire, expected: string) {
    && w.schema == SCHEMA && w.generator == GENERATOR && w.direction == "rtl"
    && w.source.sha256 == expected && DigestsOk(w) && w.source.documentId == DOCUMENT_ID_PREFIX + w.source.sha256
  }

  predicate IdentityOk(f: Formats, w: Wire) {
    && w.output.mappingAuthority == MappingAuthority(f, w.pages)
    && w.output.viewId == VIEW_ID_PREFIX + f.sha(ViewOf(f, w))
    && w.output.cacheBasename == w.source.documentId + "." + w.output.viewId + ".virtual-spread.pdf"
  }

  predicate CountsOk(w: Wire) {
    && w.source.size > 0 && w.output.size > 0 && 0 < w.source.pageCount <= MAX_PAGE_INDEX && 0 < w.output.pageCount <= MAX_PAGE_INDEX
    && |w.spreads| == w.output.pageCount && |w.pages| == w.source.pageCount && GeometryValid(w.output.spreadSize, w.output.gutter)
  }

  predicate BookOk(w: Wire) {
    Acceptable(w.source.pageCount, w.output.pageCount, w.output.spreadSize, w.output.gutter, w.cover, w.pages, w.spreads)
  }

  /** What the sidecar of an original with digest `expected` must satisfy. */
  predicate SidecarOk(f: Formats, w: Wire, expected: string) {
    && HeaderOk(w, expected) && w.source.size > 0 && w.output.size > 0 && BookOk(w)
    && LinksOk(w.links, w.source.pageCount, w.output.pageCount) && IdentityOk(f, w)
  }

  // ---------------------------------------------------------------- validation

  method ValidateLinks(links: seq<Link>, sourcePages: nat, outputPages: nat) returns (r: Result<(), string>)
    ensures r.Success? <==> LinksOk(links, sourcePages, outputPages)
  {
    for i := 0 to |links|
      invariant forall j :: 0 <= j < i ==> LinkOk(links[j], sourcePages, outputPages)
    {
      if !LinkOk(links[i], sourcePages, outputPages) {
        return Failure("link is malformed");
      }
    }
    r := Success(());
  }

  method ComputeMappingAuthority(f: Formats, pages: seq<PageRecord>) returns (r: string)
    ensures r == MappingAuthority(f, pages)
  {
    var canonical := MAPPING_DOMAIN + "\n";
    ghost var records := Records(f, pages);
    assert Ended([MAPPING_DOMAIN], '\n') == canonical by {
      assert [MAPPING_DOMAIN][1..] == [];
    }
    assert [MAPPING_DOMAIN] + records[..0] == [MAPPING_DOMAIN];
    for i := 0 to |pages|
      invariant canonical == Ended([MAPPING_DOMAIN] + records[..i], '\n')
    {
      EndedAppend([MAPPING_DOMAIN] + records[..i], records[i], '\n');
      assert [MAPPING_DOMAIN] + records[..i] + [records[i]] == [MAPPING_DOMAIN] + records[..i + 1];
      canonical := canonical + CanonicalRecord(f, pages[i]) + "\n";
    }
    assert records[..|pages|] == records;
    r := f.sha(canonical);
  }

  method ValidateHeader(w: Wire, expected: string) returns (r: Result<(), string>)
    ensures r.Success? <==> HeaderOk(w, expected)
  {
    if w.schema != SCHEMA || w.generator != GENERATOR || w.direction != "rtl" {
      return Failure("unsupported schema, generator or direction");
    }
    if w.source.sha256 != expected {
      return Failure("source digest does not match the original");
    }
    if !DigestsOk(w) {
      return Failure("not a lower-case digest");
    }
    if w.source.documentId != DOCUMENT_ID_PREFIX + w.source.sha256 {
      return Failure("documentId is not derived from the original");
    }
    r := Success(());
  }

  method ValidateCounts(w: Wire) returns (r: Result<(), string>)
    ensures r.Success? <==> CountsOk(w)
  {
    if w.source.pageCount == 0 || w.source.pageCount > MAX_PAGE_INDEX {
      return Failure("page count is outside the supported range");
    }
    if w.source.size == 0 || w.output.size == 0 {
      return Failure("sizes must be positive");
    }
    if w.output.pageCount > MAX_PAGE_INDEX || w.output.pageCount == 0 || |w.spreads| != w.output.pageCount {
      return Failure("output page count does not match spreads");
    }
    if |w.pages| != w.source.pageCount {
      return Failure("page count does not match pages");
    }
    if !GeometryValid(w.output.spreadSize, w.output.gutter) {
      return Failure("output geometry is invalid");
    }
    r := Success(());
  }

  method ValidateWire(f: Formats, w: Wire, expected: string) returns (r: Result<VirtualSpread, string>)
    ensures r.Success? <==> SidecarOk(f, w, expected)
    ensures r.Success? ==> ReadFrom(w, r.value)
  {
    var header :- ValidateHeader(w, expected);
    var counts :- ValidateCounts(w);
    var links :- ValidateLinks(w.links, w.source.pageCount, w.output.pageCount);
    var mappings :- ValidatePages(w.pages, w.output.spreadSize, w.output.gutter, w.cover);
    var spreads :- ValidateSpreads(w.spreads, w.pages, w.cover);
    var authority := ComputeMappingAuthority(f, w.pages);
    if w.output.mappingAuthority != authority {
      return Failure("mapping authority does not match pages");
    }
    var viewId := VIEW_ID_PREFIX + f.sha(CanonicalView(f, w.source.sha256, w.cover, w.output.spreadSize, w.output.gutter, authority));
    if w.output.viewId != viewId {
      return Failure("viewId does not match the representation");
    }
    var basename := w.source.documentId + "." + viewId + ".virtual-spread.pdf";
    if w.output.cacheBasename != basename {
      return Failure("cacheBasename does not match the identity");
    }
    r := Success(VirtualSpread(w.source.sha256, w.source.documentId, w.source.pageCount, w.output.sha256, w.output.pageCount,
                               w.output.spreadSize, w.output.gutter, w.cover, w.output.layoutAuthority, w.output.linkAuthority,
                               authority, viewId, basename, mappings));
  }

  // ---------------------------------------------------------------- what a view id tells

  /** Two texts with one digest. */
  predicate ShaClash(f: Formats, s: string, t: string) {
    s != t && f.sha(s) == f.sha(t)
  }

  /** Two numbers, at one place in two lists, with one spelling. */
  predicate BitsClash(f: Formats, a: seq<real>, b: seq<real>) {
    |a| == |b| && exists i :: 0 <= i < |a| && a[i] != b[i] && f.bits(a[i]) == f.bits(b[i])
  }

  lemma BitsTell(f: Formats, a: seq<real>, b: seq<real>)
    requires AllBits(f, a) == AllBits(f, b)
    ensures a == b || BitsClash(f, a, b)
  {
    assert |a| == |AllBits(f, a)| == |b|;
    if a != b {
      var i :| 0 <= i < |a| && a[i] != b[i];
      assert AllBits(f, a)[i] == AllBits(f, b)[i];
    }
  }

  lemma SpellingWithout(f: Formats, x: real, c: char)
    requires WritesHex(f) && !IsLowerHex(c)
    ensures Without(f.bits(x), c)
  {
  }

  lemma BitsWithout(f: Formats, numbers: seq<real>, c: char)
    requires WritesHex(f) && !IsLowerHex(c)
    ensures AllWithout(AllBits(f, numbers), c)
  {
    forall i | 0 <= i < |numbers| ensures Without(f.bits(numbers[i]), c) {
      SpellingWithout(f, numbers[i], c);
    }
  }

  lemma DecimalWithout(n: nat, c: char)
    requires !IsDigit(c)
    ensures Without(Decimal(n), c)
  {
    DecimalDigits(n);
  }

  /** The page without the display numbers, which are not hashed. */
  function Shown(p: PageRecord): PageRecord {
    p.(sourceNumber := None, virtualNumber := None)
  }

  function ShownPages(pages: seq<PageRecord>): seq<PageRecord> {
    seq(|pages|, i requires 0 <= i < |pages| => Shown(pages[i]))
  }

  lemma NumbersTell(p: PageRecord, q: PageRecord)
    requires PageNumbers(p) == PageNumbers(q)
    ensures p.sourceBox == q.sourceBox && p.normalizedBox == q.normalizedBox && p.slot == q.slot && p.destination == q.destination
    ensures p.scale == q.scale && p.transform == q.transform
  {
    var a, b := PageNumbers(p), PageNumbers(q);
    assert a[0] == b[0] && a[1] == b[1] && a[2] == b[2] && a[3] == b[3] && a[4] == b[4] && a[5] == b[5] && a[6] == b[6];
    assert a[7] == b[7] && a[8] == b[8] && a[9] == b[9] && a[10] == b[10] && a[11] == b[11] && a[12] == b[12];
    assert a[13] == b[13] && a[14] == b[14] && a[15] == b[15] && a[16] == b[16] && a[17] == b[17] && a[18] == b[18];
    assert a[19] == b[19] && a[20] == b[20] && a[21] == b[21] && a[22] == b[22];
  }

  lemma FieldsWithout(f: Formats, p: PageRecord, c: char)
    requires WritesHex(f) && SideNamed(p.side).Some? && c in {'|', '\n'}
    ensures AllWithout(RecordFields(f, p), c)
  {
    BitsWithout(f, PageNumbers(p), c);
    DecimalWithout(p.sourcePage, c);
    DecimalWithout(p.virtualPage, c);
    DecimalWithout(p.rotation, c);
  }

  lemma RecordTells(f: Formats, p: PageRecord, q: PageRecord)
    requires WritesHex(f) && SideNamed(p.side).Some? && SideNamed(q.side).Some?
    requires CanonicalRecord(f, p) == CanonicalRecord(f, q)
    ensures Shown(p) == Shown(q) || BitsClash(f, PageNumbers(p), PageNumbers(q))
  {
    var a, b := RecordFields(f, p), RecordFields(f, q);
    FieldsWithout(f, p, '|');
    FieldsWithout(f, q, '|');
    JoinedTells(a, b, '|');
    assert a[1] == b[1] && a[2] == b[2] && a[3] == b[3] && a[4] == b[4];
    DecimalTells(p.sourcePage, q.sourcePage);
    DecimalTells(p.virtualPage, q.virtualPage);
    DecimalTells(p.rotation, q.rotation);
    assert a[5..] == AllBits(f, PageNumbers(p)) && b[5..] == AllBits(f, PageNumbers(q));
    BitsTell(f, PageNumbers(p), PageNumbers(q));
    if PageNumbers(p) == PageNumbers(q) {
      NumbersTell(p, q);
    }
  }

  ghost predicate SidesNamed(pages: seq<PageRecord>) {
    forall i :: 0 <= i < |pages| ==> SideNamed(pages[i].side).Some?
  }

  /** Some number of a page in one book and the same number of that page in the other have one spelling. */
  predicate PageClash(f: Formats, ps: seq<PageRecord>, qs: seq<PageRecord>) {
    exists i :: 0 <= i < |ps| && i < |qs| && BitsClash(f, PageNumbers(ps[i]), PageNumbers(qs[i]))
  }

  lemma MappingLinesWithout(f: Formats, pages: seq<PageRecord>)
    requires WritesHex(f) && SidesNamed(pages)
    ensures AllWithout([MAPPING_DOMAIN] + Records(f, pages), '\n')
  {
    assert Without(MAPPING_DOMAIN, '\n') by {
      assert '\n' !in NAMESPACE && '\n' !in "virtual-spread-mapping/v1";
    }
    forall i | 0 <= i < |pages| ensures Without(Records(f, pages)[i], '\n') {
      FieldsWithout(f, pages[i], '\n');
      JoinedWithout(RecordFields(f, pages[i]), '|', '\n');
    }
  }

  lemma MappingTells(f: Formats, ps: seq<PageRecord>, qs: seq<PageRecord>)
    requires WritesHex(f) && SidesNamed(ps) && SidesNamed(qs)
    requires CanonicalMapping(f, ps) == CanonicalMapping(f, qs)
    ensures ShownPages(ps) == ShownPages(qs) || PageClash(f, ps, qs)
  {
    MappingLinesWithout(f, ps);
    MappingLinesWithout(f, qs);
    EndedTells([MAPPING_DOMAIN] + Records(f, ps), [MAPPING_DOMAIN] + Records(f, qs), '\n');
    assert Records(f, ps) == ([MAPPING_DOMAIN] + Records(f, ps))[1..] == Records(f, qs);
    assert |ps| == |Records(f, ps)| == |qs|;
    if !PageClash(f, ps, qs) {
      forall i | 0 <= i < |ps| ensures Shown(ps[i]) == Shown(qs[i]) {
        assert Records(f, ps)[i] == Records(f, qs)[i];
        RecordTells(f, ps[i], qs[i]);
      }
    }
  }

  // ---------------------------------------------------------------- the view

  lemma ConstantsWithout()
    ensures Without(VIEW_DOMAIN, '\n') && Without("schema|" + SCHEMA, '\n') && Without("generator|" + GENERATOR, '\n')
    ensures Without("direction|rtl", '\n')
  {
    assert '\n' !in NAMESPACE && '\n' !in "virtual-spread-view/v1";
    assert '\n' !in "schema|" && '\n' !in "virtual-spread/v3";
    assert '\n' !in "generator|" && '\n' !in "virtual-spread-generator/v1";
  }

  lemma SheetWithout(f: Formats, size: Size, gutter: real, c: char)
    requires WritesHex(f) && c in {'|', '\n'}
    ensures AllWithout(["spread"] + AllBits(f, SheetNumbers(size, gutter)), c)
  {
    BitsWithout(f, SheetNumbers(size, gutter), c);
  }

  lemma ShaWithout(digest: string)
    requires IsSha256(digest)
    ensures Without(digest, '\n')
  {
  }

  lemma ViewLinesWithout(f: Formats, source: string, cover: bool, size: Size, gutter: real, mapping: string)
    requires WritesHex(f) && IsSha256(source) && IsSha256(mapping)
    ensures AllWithout(ViewLines(f, source, cover, size, gutter, mapping), '\n')
  {
    ConstantsWithout();
    ShaWithout(source);
    ShaWithout(mapping);
    SheetWithout(f, size, gutter, '\n');
    JoinedWithout(["spread"] + AllBits(f, SheetNumbers(size, gutter)), '|', '\n');
    assert Without("source|" + source, '\n') && Without("mapping|" + mapping, '\n');
    assert Without("cover|" + (if cover then "1" else "0"), '\n');
  }

  lemma PrefixTells(prefix: string, s: string, t: string)
    requires prefix + s == prefix + t
    ensures s == t
  {
    assert s == (prefix + s)[|prefix|..] == t;
  }

  lemma SheetTells(f: Formats, size: Size, gutter: real, size': Size, gutter': real)
    requires WritesHex(f)
    requires Joined(["spread"] + AllBits(f, SheetNumbers(size, gutter)), '|')
             == Joined(["spread"] + AllBits(f, SheetNumbers(size', gutter')), '|')
    ensures (size == size' && gutter == gutter') || BitsClash(f, SheetNumbers(size, gutter), SheetNumbers(size', gutter'))
  {
    var a, b := SheetNumbers(size, gutter), SheetNumbers(size', gutter');
    SheetWithout(f, size, gutter, '|');
    SheetWithout(f, size', gutter', '|');
    JoinedTells(["spread"] + AllBits(f, a), ["spread"] + AllBits(f, b), '|');
    assert AllBits(f, a) == (["spread"] + AllBits(f, a))[1..] == AllBits(f, b);
    BitsTell(f, a, b);
    if a == b {
      assert a[0] == b[0] && a[1] == b[1] && a[2] == b[2];
    }
  }

  lemma ViewTells(f: Formats, source: string, cover: bool, size: Size, gutter: real, mapping: string,
                  source': string, cover': bool, size': Size, gutter': real, mapping': string)
    requires WritesHex(f) && IsSha256(source) && IsSha256(mapping) && IsSha256(source') && IsSha256(mapping')
    requires CanonicalView(f, source, cover, size, gutter, mapping) == CanonicalView(f, source', cover', size', gutter', mapping')
    ensures source == source' && cover == cover' && mapping == mapping'
    ensures (size == size' && gutter == gutter') || BitsClash(f, SheetNumbers(size, gutter), SheetNumbers(size', gutter'))
  {
    var a, b := ViewLines(f, source, cover, size, gutter, mapping), ViewLines(f, source', cover', size', gutter', mapping');
    ViewLinesWithout(f, source, cover, size, gutter, mapping);
    ViewLinesWithout(f, source', cover', size', gutter', mapping');
    EndedTells(a, b, '\n');
    assert a[1] == b[1] && a[5] == b[5] && a[6] == b[6] && a[7] == b[7];
    PrefixTells("source|", source, source');
    PrefixTells("cover|", if cover then "1" else "0", if cover' then "1" else "0");
    PrefixTells("mapping|", mapping, mapping');
    assert ("1" == "0") == false by { assert "1"[0] != "0"[0]; }
    SheetTells(f, size, gutter, size', gutter');
  }

  // ---------------------------------------------------------------- identity

  /** The same original shown in the same way: the layout, and every page but for its display numbers. */
  predicate SameView(v: Wire, w: Wire) {
    && v.source.sha256 == w.source.sha256 && v.cover == w.cover
    && v.output.spreadSize == w.output.spreadSize && v.output.gutter == w.output.gutter
    && ShownPages(v.pages) == ShownPages(w.pages)
  }

  /** Two digests or two numbers' spellings that agree although what they were made of does not. */
  predicate Clash(f: Formats, v: Wire, w: Wire) {
    || ShaClash(f, ViewOf(f, v), ViewOf(f, w))
    || ShaClash(f, CanonicalMapping(f, v.pages), CanonicalMapping(f, w.pages))
    || BitsClash(f, SheetNumbers(v.output.spreadSize, v.output.gutter), SheetNumbers(w.output.spreadSize, w.output.gutter))
    || PageClash(f, v.pages, w.pages)
  }

  lemma BookSides(w: Wire)
    requires BookOk(w)
    ensures SidesNamed(w.pages)
  {
    forall i | 0 <= i < |w.pages| ensures SideNamed(w.pages[i].side).Some? {
      assert PageAccepted(w.pages[i], i, w.cover, w.output.spreadSize, w.output.gutter);
      AcceptedOrdered(w.pages[i], w.cover, w.output.spreadSize, w.output.gutter);
    }
  }

  lemma ShownRecords(f: Formats, ps: seq<PageRecord>, qs: seq<PageRecord>)
    requires ShownPages(ps) == ShownPages(qs)
    ensures Records(f, ps) == Records(f, qs)
  {
    assert |ps| == |ShownPages(ps)| == |qs|;
    forall i | 0 <= i < |ps| ensures Records(f, ps)[i] == Records(f, qs)[i] {
      assert ShownPages(ps)[i] == ShownPages(qs)[i];
      assert CanonicalRecord(f, ps[i]) == CanonicalRecord(f, Shown(ps[i]));
    }
  }

  lemma ViewIdTells(f: Formats, v: Wire, w: Wire)
    requires WritesHex(f) && DigestsOk(v) && DigestsOk(w) && BookOk(v) && BookOk(w) && IdentityOk(f, v) && IdentityOk(f, w)
    requires v.output.viewId == w.output.viewId && !Clash(f, v, w)
    ensures SameView(v, w)
  {
    PrefixTells(VIEW_ID_PREFIX, f.sha(ViewOf(f, v)), f.sha(ViewOf(f, w)));
    ViewTells(f, v.source.sha256, v.cover, v.output.spreadSize, v.output.gutter, MappingAuthority(f, v.pages),
              w.source.sha256, w.cover, w.output.spreadSize, w.output.gutter, MappingAuthority(f, w.pages));
    BookSides(v);
    BookSides(w);
    MappingTells(f, v.pages, w.pages);
  }

  /** Two accepted sidecars have one view id exactly when they show the same original in the same way, unless two
      digests clash, or the spellings of two of their numbers. */
  lemma ViewIdExactly(f: Formats, v: Wire, w: Wire, expected: string, expected': string)
    requires WritesHex(f) && SidecarOk(f, v, expected) && SidecarOk(f, w, expected')
    ensures SameView(v, w) ==> v.output.viewId == w.output.viewId
    ensures v.output.viewId == w.output.viewId ==> SameView(v, w) || Clash(f, v, w)
  {
    if SameView(v, w) {
      ShownRecords(f, v.pages, w.pages);
      assert MappingAuthority(f, v.pages) == MappingAuthority(f, w.pages);
    }
    if v.output.viewId == w.output.viewId && !Clash(f, v, w) {
      ViewIdTells(f, v, w);
    }
  }

  lemma SamePageReads(p: PageRecord, q: PageRecord, index: nat, cover: bool, size: Size, gutter: real, m: PageMapping, n: PageMapping)
    requires PageAccepted(p, index, cover, size, gutter) && PageAccepted(q, index, cover, size, gutter) && Shown(p) == Shown(q)
    requires MappingOf(p, cover, size, gutter, m) && MappingOf(q, cover, size, gutter, n)
    ensures m == n
  {
    AcceptedOrdered(p, cover, size, gutter);
    AcceptedOrdered(q, cover, size, gutter);
    ShownParses(p, q, cover);
  }

  lemma ShownParses(p: PageRecord, q: PageRecord, cover: bool)
    requires CheckPlacement(p, cover).Success? && CheckPlacement(q, cover).Success? && Shown(p) == Shown(q)
    ensures Parsed(p, CheckPlacement(p, cover).value) == Parsed(q, CheckPlacement(q, cover).value)
  {
    assert Shown(p).side == Shown(q).side && Shown(p).sourceBox == Shown(q).sourceBox;
  }

  lemma SamePagesRead(v: Wire, w: Wire, ms: seq<PageMapping>, ns: seq<PageMapping>)
    requires SameView(v, w)
    requires Collected(v.pages, |v.pages|, v.cover, v.output.spreadSize, v.output.gutter, ms)
    requires Collected(w.pages, |w.pages|, w.cover, w.output.spreadSize, w.output.gutter, ns)
    ensures ms == ns
  {
    assert |v.pages| == |ShownPages(v.pages)| == |w.pages|;
    forall i | 0 <= i < |v.pages| ensures ms[i] == ns[i] {
      assert ShownPages(v.pages)[i] == ShownPages(w.pages)[i];
      SamePageReads(v.pages[i], w.pages[i], i, v.cover, v.output.spreadSize, v.output.gutter, ms[i], ns[i]);
    }
  }

  /** Readers of two accepted sidecars with one view id are told the same, but for the generated PDF's digest and the
      digests of the layout and the links, which the view id leaves out. */
  lemma OneViewReadsAlike(f: Formats, v: Wire, w: Wire, expected: string, expected': string, r: VirtualSpread, t: VirtualSpread)
    requires WritesHex(f) && SidecarOk(f, v, expected) && SidecarOk(f, w, expected') && ReadFrom(v, r) && ReadFrom(w, t)
    requires r.viewId == t.viewId && !Clash(f, v, w)
    ensures t == r.(generatedSha256 := t.generatedSha256, layoutAuthority := t.layoutAuthority, linkAuthority := t.linkAuthority)
  {
    ViewIdExactly(f, v, w, expected, expected');
    SamePagesRead(v, w, r.mappings, t.mappings);
    assert |v.pages| == |ShownPages(v.pages)| == |w.pages|;
    ShownRecords(f, v.pages, w.pages);
    AcceptedBook(v.source.pageCount, v.output.pageCount, v.output.spreadSize, v.output.gutter, v.cover, v.pages, v.spreads);
    AcceptedBook(w.source.pageCount, w.output.pageCount, w.output.spreadSize, w.output.gutter, w.cover, w.pages, w.spreads);
  }
}
