/** inkbridge-convert/src/virtual_spread.rs: which page stands where in a right-to-left book, and the sidecar's list
    of spreads. */
module SpreadLayout {
  import opened Spread
  import opened Wrappers

  // ---------------------------------------------------------------- placement

  /** The page that belongs at a place, if any page does: the place beside a separate cover stays empty. */
  function PageAt(virtualPage: nat, side: Side, cover: bool): Option<nat> {
    if !cover then Some(2 * virtualPage + if side == Right then 0 else 1)
    else if virtualPage == 0 then if side == Right then Some(0) else None
    else Some(2 * virtualPage - if side == Right then 1 else 0)
  }

  function VirtualPageOf(page: nat, cover: bool): nat {
    if cover then (page + 1) / 2 else page / 2
  }

  function SideOf(page: nat, cover: bool): Side {
    if cover then if page % 2 == 1 || page == 0 then Right else Left
    else if page % 2 == 0 then Right else Left
  }

  /** A page is accepted at exactly one place: the one whose page it is. */
  lemma PlacedExactly(page: nat, virtualPage: nat, side: Side, cover: bool)
    ensures PlacementMatches(page, virtualPage, side, cover) <==> PageAt(virtualPage, side, cover) == Some(page)
    ensures PlacementMatches(page, virtualPage, side, cover) <==> virtualPage == VirtualPageOf(page, cover) && side == SideOf(page, cover)
  {
  }

  /** The number of spreads for `pages` pages, as the sidecar's validation computes it. */
  function ExpectedSpreads(pages: nat, cover: bool): nat {
    if cover then 1 + HalfUp(if pages == 0 then 0 else pages - 1) else HalfUp(pages)
  }

  function HalfUp(n: nat): nat {
    (n + 1) / 2
  }

  /** Some page of a book of `pages` pages stands on this spread. */
  ghost predicate Occupied(virtualPage: nat, pages: nat, cover: bool) {
    exists page: nat :: page < pages && VirtualPageOf(page, cover) == virtualPage
  }

  /** The pages fill exactly the expected spreads: each of them and no other holds a page. */
  lemma SpreadsFilled(pages: nat, virtualPage: nat, cover: bool)
    requires pages > 0
    ensures Occupied(virtualPage, pages, cover) <==> virtualPage < ExpectedSpreads(pages, cover)
  {
    if virtualPage < ExpectedSpreads(pages, cover) {
      var page := PageAt(virtualPage, Right, cover).value;
      PlacedExactly(page, virtualPage, Right, cover);
      assert page < pages && VirtualPageOf(page, cover) == virtualPage;
    }
    if Occupied(virtualPage, pages, cover) {
      var page: nat :| page < pages && VirtualPageOf(page, cover) == virtualPage;
    }
  }

  // ---------------------------------------------------------------- the list of spreads

  datatype SpreadRecord = SpreadRecord(virtualPage: nat, virtualNumber: nat, left: Option<PageRecord>, right: Option<PageRecord>) {
    function On(side: Side): Option<PageRecord> {
      if side == Left then left else right
    }
  }

  predicate StandsAt(page: PageRecord, virtualPage: nat, side: Side) {
    page.virtualPage == virtualPage && page.side == SideName(side)
  }

  /** The first record, at or after `i`, of a page at this place. */
  function FindRecord(pages: seq<PageRecord>, virtualPage: nat, side: Side, i: nat): Option<PageRecord>
    decreases |pages| - i
  {
    if i >= |pages| then None
    else if StandsAt(pages[i], virtualPage, side) then Some(pages[i])
    else FindRecord(pages, virtualPage, side, i + 1)
  }

  method FindPage(pages: seq<PageRecord>, virtualPage: nat, side: Side) returns (r: Option<PageRecord>)
    ensures r == FindRecord(pages, virtualPage, side, 0)
  {
    var i := 0;
    while i < |pages|
      invariant 0 <= i <= |pages|
      invariant FindRecord(pages, virtualPage, side, 0) == FindRecord(pages, virtualPage, side, i)
    {
      if StandsAt(pages[i], virtualPage, side) {
        return Some(pages[i]);
      }
      i := i + 1;
    }
    r := None;
  }

  predicate SpreadMatches(spread: SpreadRecord, index: nat, pages: seq<PageRecord>) {
    && spread.virtualPage == index && spread.virtualNumber == Next(index)
    && spread.left == FindRecord(pages, index, Left, 0) && spread.right == FindRecord(pages, index, Right, 0)
  }

  predicate SpreadsMatch(spreads: seq<SpreadRecord>, pages: seq<PageRecord>, cover: bool) {
    && |spreads| == ExpectedSpreads(|pages|, cover)
    && forall i :: 0 <= i < |spreads| ==> SpreadMatches(spreads[i], i, pages)
  }

  method ValidateSpreads(spreads: seq<SpreadRecord>, pages: seq<PageRecord>, cover: bool) returns (r: Result<(), string>)
    ensures r.Success? <==> SpreadsMatch(spreads, pages, cover)
  {
    for index := 0 to |spreads|
      invariant forall i :: 0 <= i < index ==> SpreadMatches(spreads[i], i, pages)
    {
      var spread := spreads[index];
      if spread.virtualPage != index || spread.virtualNumber != Next(spread.virtualPage) {
        return Failure("spreads are not sequential and zero-based");
      }
      var sides := [Left, Right];
      for k := 0 to 2
        invariant forall j :: 0 <= j < k ==> spread.On(sides[j]) == FindRecord(pages, index, sides[j], 0)
      {
        var expected := FindPage(pages, spread.virtualPage, sides[k]);
        if spread.On(sides[k]) != expected {
          assert sides[k] == Left || sides[k] == Right;
          return Failure("spread disagrees with its pages");
        }
      }
      assert spread.On(sides[0]) == FindRecord(pages, index, Left, 0);
      assert spread.On(sides[1]) == FindRecord(pages, index, Right, 0);
    }
    if |spreads| != ExpectedSpreads(|pages|, cover) {
      return Failure("spread count disagrees with cover parity");
    }
    r := Success(());
  }

  /** Every page in order, each at an accepted place. */
  ghost predicate Ordered(pages: seq<PageRecord>, cover: bool) {
    forall i :: 0 <= i < |pages| ==> pages[i].sourcePage == i && CheckPlacement(pages[i], cover).Success?
  }

  /** The record of the page that belongs at a place, when the book has that page. */
  function RecordAt(pages: seq<PageRecord>, virtualPage: nat, side: Side, cover: bool): Option<PageRecord> {
    match PageAt(virtualPage, side, cover)
    case None => None
    case Some(page) => if page < |pages| then Some(pages[page]) else None
  }

  /** The one list of spreads a book of these pages can have. */
  function Layout(pages: seq<PageRecord>, cover: bool): seq<SpreadRecord> {
    seq(ExpectedSpreads(|pages|, cover), v requires v >= 0 =>
      SpreadRecord(v, Next(v), RecordAt(pages, v, Left, cover), RecordAt(pages, v, Right, cover)))
  }

  lemma StandsExactly(page: PageRecord, virtualPage: nat, side: Side, cover: bool)
    requires CheckPlacement(page, cover).Success?
    ensures StandsAt(page, virtualPage, side) <==> PageAt(virtualPage, side, cover) == Some(page.sourcePage)
  {
    PlacedExactly(page.sourcePage, page.virtualPage, SideNamed(page.side).value, cover);
    PlacedExactly(page.sourcePage, virtualPage, side, cover);
  }

  lemma {:induction false} FoundAtPlace(pages: seq<PageRecord>, virtualPage: nat, side: Side, cover: bool, i: nat)
    requires Ordered(pages, cover) && i <= |pages|
    requires PageAt(virtualPage, side, cover).Some? ==> i <= PageAt(virtualPage, side, cover).value
    ensures FindRecord(pages, virtualPage, side, i) == RecordAt(pages, virtualPage, side, cover)
    decreases |pages| - i
  {
    if i < |pages| {
      StandsExactly(pages[i], virtualPage, side, cover);
      if !StandsAt(pages[i], virtualPage, side) {
        FoundAtPlace(pages, virtualPage, side, cover, i + 1);
      }
    }
  }

  /** Exactly one list of spreads is accepted for an ordered book: its layout. */
  lemma SpreadsExactly(spreads: seq<SpreadRecord>, pages: seq<PageRecord>, cover: bool)
    requires Ordered(pages, cover)
    ensures SpreadsMatch(spreads, pages, cover) <==> spreads == Layout(pages, cover)
  {
    forall i: nat ensures FindRecord(pages, i, Left, 0) == RecordAt(pages, i, Left, cover)
    {
      FoundAtPlace(pages, i, Left, cover, 0);
    }
    forall i: nat ensures FindRecord(pages, i, Right, 0) == RecordAt(pages, i, Right, cover)
    {
      FoundAtPlace(pages, i, Right, cover, 0);
    }
    if spreads == Layout(pages, cover) {
      forall i | 0 <= i < |spreads| ensures SpreadMatches(spreads[i], i, pages) {
        assert spreads[i] == Layout(pages, cover)[i];
      }
    }
    if SpreadsMatch(spreads, pages, cover) {
      forall i | 0 <= i < |spreads| ensures spreads[i] == Layout(pages, cover)[i] {
        assert SpreadMatches(spreads[i], i, pages);
      }
    }
  }

  /** Accepted spreads show every page, and show it in one place only. */
  lemma EachPageShownOnce(spreads: seq<SpreadRecord>, pages: seq<PageRecord>, cover: bool, page: nat, virtualPage: nat, side: Side)
    requires Ordered(pages, cover) && SpreadsMatch(spreads, pages, cover)
    requires page < |pages| && virtualPage < |spreads|
    ensures VirtualPageOf(page, cover) < |spreads|
    ensures spreads[virtualPage].On(side) == Some(pages[page]) <==>
            virtualPage == VirtualPageOf(page, cover) && side == SideOf(page, cover)
  {
    SpreadsExactly(spreads, pages, cover);
    PlacedExactly(page, virtualPage, side, cover);
    SpreadsFilled(|pages|, VirtualPageOf(page, cover), cover);
    assert Occupied(VirtualPageOf(page, cover), |pages|, cover);
    assert spreads[virtualPage].On(side) == RecordAt(pages, virtualPage, side, cover);
    var there := RecordAt(pages, virtualPage, side, cover);
    assert there.Some? ==> there.value.sourcePage == PageAt(virtualPage, side, cover).value;
    assert pages[page].sourcePage == page;
  }

  // ---------------------------------------------------------------- the sidecar

  predicate PageAccepted(page: PageRecord, index: nat, cover: bool, size: Size, gutter: real) {
    page.sourcePage == index && ValidateMapping(page, cover, size, gutter).Success?
  }

  predicate MappingOf(page: PageRecord, cover: bool, size: Size, gutter: real, m: PageMapping) {
    ValidateMapping(page, cover, size, gutter) == Success(m)
  }

  /** What the sidecar's page and spread lists must satisfy. */
  predicate Acceptable(pageCount: nat, outputCount: nat, size: Size, gutter: real, cover: bool, pages: seq<PageRecord>,
                       spreads: seq<SpreadRecord>) {
    && 0 < pageCount <= MAX_PAGE_INDEX && 0 < outputCount <= MAX_PAGE_INDEX
    && |spreads| == outputCount && |pages| == pageCount && GeometryValid(size, gutter)
    && (forall i :: 0 <= i < |pages| ==> PageAccepted(pages[i], i, cover, size, gutter))
    && SpreadsMatch(spreads, pages, cover)
  }

  method ParsePage(page: PageRecord, index: nat, size: Size, gutter: real, cover: bool) returns (r: Result<PageMapping, string>)
    ensures r.Success? <==> PageAccepted(page, index, cover, size, gutter)
    ensures r.Success? ==> MappingOf(page, cover, size, gutter, r.value)
  {
    r := if page.sourcePage != index then Failure("pages must be in order") else ValidateMapping(page, cover, size, gutter);
  }

  /** The first `count` pages are accepted, with these mappings. */
  predicate Collected(pages: seq<PageRecord>, count: nat, cover: bool, size: Size, gutter: real, mappings: seq<PageMapping>) {
    && |mappings| == count <= |pages|
    && (forall i :: 0 <= i < count ==> PageAccepted(pages[i], i, cover, size, gutter))
    && (forall i :: 0 <= i < count ==> MappingOf(pages[i], cover, size, gutter, mappings[i]))
  }

  lemma CollectNext(pages: seq<PageRecord>, count: nat, cover: bool, size: Size, gutter: real, mappings: seq<PageMapping>, next: PageMapping)
    requires Collected(pages, count, cover, size, gutter, mappings) && count < |pages|
    requires PageAccepted(pages[count], count, cover, size, gutter) && MappingOf(pages[count], cover, size, gutter, next)
    ensures Collected(pages, count + 1, cover, size, gutter, mappings + [next])
  {
    var all := mappings + [next];
    forall i | 0 <= i < count + 1
      ensures PageAccepted(pages[i], i, cover, size, gutter) && MappingOf(pages[i], cover, size, gutter, all[i])
    {
      if i < count {
        assert all[i] == mappings[i];
      } else {
        assert all[i] == next;
      }
    }
  }

  /** Collects the accepted mappings in page order. */
  method ValidatePages(pages: seq<PageRecord>, size: Size, gutter: real, cover: bool) returns (r: Result<seq<PageMapping>, string>)
    ensures r.Success? <==> forall i :: 0 <= i < |pages| ==> PageAccepted(pages[i], i, cover, size, gutter)
    ensures r.Success? ==> Collected(pages, |pages|, cover, size, gutter, r.value)
  {
    var mappings: seq<PageMapping> := [];
    for index := 0 to |pages|
      invariant Collected(pages, index, cover, size, gutter, mappings)
    {
      var parsed := ParsePage(pages[index], index, size, gutter, cover);
      if parsed.Failure? {
        return Failure(parsed.error);
      }
      CollectNext(pages, index, cover, size, gutter, mappings, parsed.value);
      mappings := mappings + [parsed.value];
    }
    r := Success(mappings);
  }

  lemma AcceptedOrdered(page: PageRecord, cover: bool, size: Size, gutter: real)
    requires ValidateMapping(page, cover, size, gutter).Success?
    ensures CheckPlacement(page, cover).Success?
    ensures ValidateMapping(page, cover, size, gutter).value == Parsed(page, CheckPlacement(page, cover).value)
  {
  }

  /** In an accepted sidecar the number of spreads is the one the pages need, the spreads are the book's layout, and
      each page's mapping is found under its own index. */
  lemma AcceptedBook(pageCount: nat, outputCount: nat, size: Size, gutter: real, cover: bool, pages: seq<PageRecord>,
                     spreads: seq<SpreadRecord>)
    requires Acceptable(pageCount, outputCount, size, gutter, cover, pages, spreads)
    ensures outputCount == ExpectedSpreads(pageCount, cover) && spreads == Layout(pages, cover)
    ensures forall v: nat :: Occupied(v, pageCount, cover) <==> v < outputCount
    ensures forall i :: 0 <= i < |pages| ==>
              ValidateMapping(pages[i], cover, size, gutter).Success? && ValidateMapping(pages[i], cover, size, gutter).value.sourcePage == i
  {
    forall i | 0 <= i < |pages|
      ensures pages[i].sourcePage == i && CheckPlacement(pages[i], cover).Success?
              && ValidateMapping(pages[i], cover, size, gutter).value.sourcePage == i
    {
      assert PageAccepted(pages[i], i, cover, size, gutter);
      AcceptedOrdered(pages[i], cover, size, gutter);
    }
    SpreadsExactly(spreads, pages, cover);
    forall v: nat ensures Occupied(v, pageCount, cover) <==> v < outputCount {
      SpreadsFilled(pageCount, v, cover);
    }
  }
}
