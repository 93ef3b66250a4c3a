/** The repair is local and idempotent: it changes only the digits of /Length, which then denote the length
    the stream's own /W and /Index require, and a second run finds nothing to repair. */
module XrefRepair {
  import opened Wrappers
  import opened Xref

  /** `b` is `a` with digits in [lo, hi) replaced by digits. */
  ghost predicate Alike(a: Bytes, b: Bytes, lo: nat, hi: nat) {
    && |a| == |b| && lo <= hi <= |a|
    && (forall i :: 0 <= i < |a| && !(lo <= i < hi) ==> a[i] == b[i])
    && (forall i :: lo <= i < hi ==> IsDigit(a[i]) && IsDigit(b[i]))
  }

  ghost predicate DigitFree(needle: Bytes) {
    forall i :: 0 <= i < |needle| ==> !IsDigit(needle[i])
  }

  // ---------------------------------------------------------------- scanners that see no difference

  lemma MatchesAlike(a: Bytes, b: Bytes, lo: nat, hi: nat, needle: Bytes, i: nat)
    requires Alike(a, b, lo, hi) && DigitFree(needle)
    ensures MatchesAt(a, needle, i) <==> MatchesAt(b, needle, i)
  {
    if MatchesAt(a, needle, i) {
      forall k | 0 <= k < |needle| ensures b[i + k] == needle[k] {
        assert a[i..i + |needle|][k] == needle[k];
      }
    }
    if MatchesAt(b, needle, i) {
      forall k | 0 <= k < |needle| ensures a[i + k] == needle[k] {
        assert b[i..i + |needle|][k] == needle[k];
      }
    }
  }

  lemma {:induction false} FindAlike(a: Bytes, b: Bytes, lo: nat, hi: nat, needle: Bytes, i: nat)
    requires Alike(a, b, lo, hi) && DigitFree(needle)
    ensures FindFrom(a, needle, i) == FindFrom(b, needle, i)
    decreases |a| - i
  {
    MatchesAlike(a, b, lo, hi, needle, i);
    if i < |a| {
      FindAlike(a, b, lo, hi, needle, i + 1);
    }
  }

  lemma {:induction false} RFindAlike(a: Bytes, b: Bytes, lo: nat, hi: nat, needle: Bytes, i: nat)
    requires Alike(a, b, lo, hi) && DigitFree(needle)
    ensures RFindBefore(a, needle, i) == RFindBefore(b, needle, i)
  {
    if i > 0 {
      MatchesAlike(a, b, lo, hi, needle, i - 1);
      RFindAlike(a, b, lo, hi, needle, i - 1);
    }
  }

  lemma {:induction false} NameAlike(a: Bytes, b: Bytes, lo: nat, hi: nat, name: Bytes, i: nat)
    requires Alike(a, b, lo, hi) && DigitFree(name)
    ensures NameFrom(a, name, i) == NameFrom(b, name, i)
    decreases |a| - i
  {
    MatchesAlike(a, b, lo, hi, name, i);
    if i < |a| {
      NameAlike(a, b, lo, hi, name, i + 1);
    }
  }

  lemma {:induction false} WhitespaceAlike(a: Bytes, b: Bytes, lo: nat, hi: nat, i: nat)
    requires Alike(a, b, lo, hi)
    ensures AfterWhitespace(a, i) == AfterWhitespace(b, i)
    decreases |a| - i
  {
    if i < |a| {
      WhitespaceAlike(a, b, lo, hi, i + 1);
    }
  }

  lemma {:induction false} DigitsAlike(a: Bytes, b: Bytes, lo: nat, hi: nat, i: nat)
    requires Alike(a, b, lo, hi)
    ensures AfterDigits(a, i) == AfterDigits(b, i)
    decreases |a| - i
  {
    if i < |a| {
      DigitsAlike(a, b, lo, hi, i + 1);
    }
  }

  lemma {:induction false} NameEndAlike(a: Bytes, b: Bytes, lo: nat, hi: nat, i: nat)
    requires Alike(a, b, lo, hi)
    ensures AfterName(a, i) == AfterName(b, i)
    decreases |a| - i
  {
    if i < |a| {
      NameEndAlike(a, b, lo, hi, i + 1);
    }
  }

  /** The run of digits at `start` stays clear of [lo, hi). */
  ghost predicate Clear(d: Bytes, start: nat, lo: nat, hi: nat) {
    AfterDigits(d, start) <= lo || hi <= start
  }

  /** A run of digits that stays clear of [lo, hi) denotes the same number. */
  lemma IntegerAlike(a: Bytes, b: Bytes, lo: nat, hi: nat, i: nat)
    requires Alike(a, b, lo, hi) && i <= |a|
    requires Clear(a, AfterWhitespace(a, i), lo, hi)
    ensures IntegerAt(a, i) == IntegerAt(b, i)
  {
    WhitespaceAlike(a, b, lo, hi, i);
    var start := AfterWhitespace(a, i);
    DigitsAlike(a, b, lo, hi, start);
    WhitespaceSkipped(a, i);
    DigitsTaken(a, start);
    assert a[start..AfterDigits(a, start)] == b[start..AfterDigits(a, start)];
  }

  // ---------------------------------------------------------------- other numbers stay clear of /Length

  const H: byte := 104

  /** [lo, hi) are the digits of /Length in `d`. */
  ghost predicate LengthDigits(d: Bytes, lo: nat, hi: nat) {
    && NameFrom(d, LENGTH, 0).Some?
    && lo == AfterWhitespace(d, NameFrom(d, LENGTH, 0).value) && hi == AfterDigits(d, lo)
    && lo < hi <= |d|
  }

  /** A scanner that starts at `i` has just read something other than /Length or the middle of a number. */
  ghost predicate Apart(d: Bytes, i: nat) {
    && 0 < i <= |d| && !IsWhitespace(d[i - 1]) && d[i - 1] != H
    && !(IsDigit(d[i - 1]) && i < |d| && IsDigit(d[i]))
  }

  ghost predicate BlankAt(d: Bytes, i: int) {
    0 <= i < |d| && IsWhitespace(d[i])
  }

  ghost predicate DigitAt(d: Bytes, i: int) {
    0 <= i < |d| && IsDigit(d[i])
  }

  lemma LastOfName(d: Bytes, ne: nat)
    requires |LENGTH| <= ne <= |d| && d[ne - |LENGTH|..ne] == LENGTH
    ensures d[ne - 1] == H
  {
    assert d[ne - |LENGTH|..ne][|LENGTH| - 1] == LENGTH[|LENGTH| - 1];
  }

  lemma LengthNameEnd(d: Bytes, lo: nat, hi: nat)
    requires LengthDigits(d, lo, hi)
    ensures var ne := NameFrom(d, LENGTH, 0).value;
            && 0 < ne < lo && d[ne - 1] == H && (forall k :: ne <= k < lo ==> IsWhitespace(d[k]))
            && (forall k :: lo <= k < hi ==> IsDigit(d[k]))
  {
    var ne := NameFrom(d, LENGTH, 0).value;
    NameInside(d, LENGTH, 0);
    LastOfName(d, ne);
    WhitespaceSkipped(d, ne);
    DigitsTaken(d, lo);
  }

  /** Two maximal runs of digits that share a digit start together, and then so do the scanners before them. */
  lemma RunStaysApart(d: Bytes, lo: nat, hi: nat, i: nat)
    requires LengthDigits(d, lo, hi) && Apart(d, i)
    ensures Clear(d, AfterWhitespace(d, i), lo, hi)
  {
    var start := AfterWhitespace(d, i);
    var ne := NameFrom(d, LENGTH, 0).value;
    LengthNameEnd(d, lo, hi);
    WhitespaceSkipped(d, i);
    DigitsTaken(d, start);
    assert BlankAt(d, lo - 1);
    assert start > i ==> BlankAt(d, start - 1);
    assert lo < start < hi ==> DigitAt(d, start - 1) && DigitAt(d, start);
    assert i < ne <= start ==> BlankAt(d, ne - 1);
    assert ne < i <= lo ==> BlankAt(d, i - 1);
  }

  lemma {:induction false} IntegersAlike(a: Bytes, b: Bytes, lo: nat, hi: nat, i: nat)
    requires Alike(a, b, lo, hi) && LengthDigits(a, lo, hi) && Apart(a, i)
    ensures IntegersFrom(a, i) == IntegersFrom(b, i)
    decreases |a| - i
  {
    var at := AfterWhitespace(a, i);
    WhitespaceAlike(a, b, lo, hi, i);
    WhitespaceSkipped(a, i);
    RunStaysApart(a, lo, hi, i);
    SkippedOnce(a, i);
    IntegerAlike(a, b, lo, hi, at);
    var number := IntegerAt(a, at);
    if number.Some? && number.value.end > i {
      DigitsTaken(a, at);
      IntegersAlike(a, b, lo, hi, number.value.end);
    }
  }

  /** Skipping whitespace twice is skipping it once. */
  lemma SkippedOnce(a: Bytes, i: nat)
    requires i <= |a|
    ensures AfterWhitespace(a, AfterWhitespace(a, i)) == AfterWhitespace(a, i)
  {
    WhitespaceSkipped(a, i);
  }

  lemma ArrayAlike(a: Bytes, b: Bytes, lo: nat, hi: nat, name: Bytes)
    requires Alike(a, b, lo, hi) && LengthDigits(a, lo, hi) && DigitFree(name) && name != []
    ensures IntegerArray(a, name) == IntegerArray(b, name)
  {
    NameAlike(a, b, lo, hi, name, 0);
    NameInside(a, name, 0);
    if NameFrom(a, name, 0).Some? {
      var end := NameFrom(a, name, 0).value;
      WhitespaceAlike(a, b, lo, hi, end);
      var at := AfterWhitespace(a, end);
      if at < |a| && a[at] == OPEN {
        assert !(lo <= at < hi);
        IntegersAlike(a, b, lo, hi, at + 1);
      }
    }
  }

  lemma SizeAlike(a: Bytes, b: Bytes, lo: nat, hi: nat)
    requires Alike(a, b, lo, hi) && LengthDigits(a, lo, hi)
    ensures IntegerNamed(a, SIZE) == IntegerNamed(b, SIZE)
  {
    NameAlike(a, b, lo, hi, SIZE, 0);
    NameInside(a, SIZE, 0);
    if NameFrom(a, SIZE, 0).Some? {
      var end := NameFrom(a, SIZE, 0).value;
      assert a[end - |SIZE|..end][|SIZE| - 1] == SIZE[|SIZE| - 1];
      RunStaysApart(a, lo, hi, end);
      IntegerAlike(a, b, lo, hi, end);
    }
  }

  lemma ExpectedAlike(a: Bytes, b: Bytes, lo: nat, hi: nat)
    requires Alike(a, b, lo, hi) && LengthDigits(a, lo, hi)
    ensures ExpectedLength(a) == ExpectedLength(b)
  {
    ArrayAlike(a, b, lo, hi, W);
    ArrayAlike(a, b, lo, hi, INDEX);
    SizeAlike(a, b, lo, hi);
  }

  /** A name value without digits reads the same. */
  lemma NameValueAlike(a: Bytes, b: Bytes, lo: nat, hi: nat)
    requires Alike(a, b, lo, hi) && NameNamed(a, TYPE) == Some(XREF)
    ensures NameNamed(b, TYPE) == Some(XREF)
  {
    NameAlike(a, b, lo, hi, TYPE, 0);
    var end := NameFrom(a, TYPE, 0).value;
    WhitespaceAlike(a, b, lo, hi, end);
    var at := AfterWhitespace(a, end);
    NameEndAlike(a, b, lo, hi, at + 1);
    var stop := AfterName(a, at + 1);
    SliceWithoutDigits(a, b, lo, hi, at + 1, stop);
  }

  lemma SliceWithoutDigits(a: Bytes, b: Bytes, lo: nat, hi: nat, from: nat, to: nat)
    requires Alike(a, b, lo, hi) && from <= to <= |a| && DigitFree(a[from..to])
    ensures b[from..to] == a[from..to]
  {
    forall k | from <= k < to ensures a[k] == b[k] {
      assert !IsDigit(a[from..to][k - from]);
    }
  }

  lemma DataAlike(a: Bytes, b: Bytes, lo: nat, hi: nat, section: Section, expected: nat)
    requires Alike(a, b, lo, hi)
    ensures CheckData(a, section, expected) == CheckData(b, section, expected)
  {
    var keywordEnd := section.dictionaryEnd + |STREAM|;
    StartAlike(a, b, lo, hi, keywordEnd);
    if DataStart(a, keywordEnd).Some? {
      EndAlike(a, b, lo, hi, DataStart(a, keywordEnd).value + expected);
    }
  }

  lemma StartAlike(a: Bytes, b: Bytes, lo: nat, hi: nat, keywordEnd: nat)
    requires Alike(a, b, lo, hi)
    ensures DataStart(a, keywordEnd) == DataStart(b, keywordEnd)
  {
    MatchesAlike(a, b, lo, hi, [CR, LF], keywordEnd);
    MatchesAlike(a, b, lo, hi, [LF], keywordEnd);
    MatchesAlike(a, b, lo, hi, [CR], keywordEnd);
  }

  lemma EndAlike(a: Bytes, b: Bytes, lo: nat, hi: nat, dataEnd: nat)
    requires Alike(a, b, lo, hi)
    ensures EndStream(a, dataEnd) == EndStream(b, dataEnd)
  {
    MatchesAlike(a, b, lo, hi, ENDSTREAM, dataEnd);
    MatchesAlike(a, b, lo, hi, [CR, LF] + ENDSTREAM, dataEnd);
    MatchesAlike(a, b, lo, hi, [LF] + ENDSTREAM, dataEnd);
    MatchesAlike(a, b, lo, hi, [CR] + ENDSTREAM, dataEnd);
  }

  // ---------------------------------------------------------------- the two theorems

  function Dictionary(text: Bytes, section: Section): Bytes
    requires section.offset <= section.dictionaryEnd <= |text|
  {
    text[section.offset..section.dictionaryEnd]
  }

  lemma DigitsPlanned(d: Bytes, offset: nat, expected: nat)
    requires PlanDigits(d, offset, expected).Success? && PlanDigits(d, offset, expected).value.Patch?
    ensures var plan := PlanDigits(d, offset, expected).value;
            && plan.length == expected && offset <= plan.start && plan.end <= offset + |d|
            && LengthDigits(d, plan.start - offset, plan.end - offset)
            && |Decimal(expected)| <= plan.end - plan.start
  {
    NameInside(d, LENGTH, 0);
    DigitsInside(d, NameFrom(d, LENGTH, 0).value);
  }

  lemma SectionPlanned(text: Bytes, section: Section)
    requires section.offset <= section.dictionaryEnd <= |text|
    requires PlanSection(text, section).Success? && PlanSection(text, section).value.Patch?
    ensures var d, expected := Dictionary(text, section), PlanSection(text, section).value.length;
            && NameNamed(d, TYPE) == Some(XREF) && ExpectedLength(d) == Success(expected)
            && CheckData(text, section, expected).Success?
            && PlanSection(text, section) == PlanDigits(d, section.offset, expected)
  {
  }

  ghost predicate Located(text: Bytes, section: Section, plan: Plan)
    requires plan.Patch?
  {
    && section.offset <= section.dictionaryEnd < section.startxref <= |text|
    && section.offset <= plan.start < plan.end <= section.dictionaryEnd
    && |Decimal(plan.length)| <= plan.end - plan.start
  }

  /** Everything a planned patch says about the text. */
  ghost predicate Planned(text: Bytes, section: Section, plan: Plan) {
    && plan.Patch? && Located(text, section, plan)
    && var d := Dictionary(text, section);
    && NameNamed(d, TYPE) == Some(XREF) && ExpectedLength(d) == Success(plan.length)
    && CheckData(text, section, plan.length).Success?
    && LengthDigits(d, plan.start - section.offset, plan.end - section.offset)
  }

  lemma PlannedPatch(text: Bytes)
    requires PlanRepair(text).Success? && PlanRepair(text).value.Patch?
    ensures FindSection(text).Success? && Planned(text, FindSection(text).value, PlanRepair(text).value)
  {
    SectionInside(text);
    var section, plan := FindSection(text).value, PlanRepair(text).value;
    SectionPlanned(text, section);
    DigitsPlanned(Dictionary(text, section), section.offset, plan.length);
  }

  lemma PatchedAlike(text: Bytes, section: Section, plan: Plan)
    requires plan.Patch? && Located(text, section, plan)
    requires LengthDigits(Dictionary(text, section), plan.start - section.offset, plan.end - section.offset)
    ensures Alike(text, Patched(text, plan.start, plan.end, plan.length), plan.start, plan.end)
    ensures Patched(text, plan.start, plan.end, plan.length)[plan.start..plan.end] == Padded(plan.length, plan.end - plan.start)
  {
    var d, patched := Dictionary(text, section), Patched(text, plan.start, plan.end, plan.length);
    PaddedDenotes(plan.length, plan.end - plan.start);
    LengthNameEnd(d, plan.start - section.offset, plan.end - section.offset);
    forall i | plan.start <= i < plan.end ensures IsDigit(text[i]) && IsDigit(patched[i]) {
      assert text[i] == d[i - section.offset];
      assert patched[i] == Padded(plan.length, plan.end - plan.start)[i - plan.start];
    }
  }

  /** The repair is local: the buffer keeps its length, only the digits of /Length change, and they then denote
      the entry width times the entry count. */
  lemma RepairIsLocal(text: Bytes)
    requires PlanRepair(text).Success? && PlanRepair(text).value.Patch?
    ensures FindSection(text).Success? && Located(text, FindSection(text).value, PlanRepair(text).value)
    ensures var plan := PlanRepair(text).value;
            && Alike(text, Patched(text, plan.start, plan.end, plan.length), plan.start, plan.end)
            && Denotes(Patched(text, plan.start, plan.end, plan.length)[plan.start..plan.end]) == plan.length
    ensures var section, plan := FindSection(text).value, PlanRepair(text).value;
            LengthDigits(Dictionary(text, section), plan.start - section.offset, plan.end - section.offset)
    ensures var d := Dictionary(text, FindSection(text).value);
            && IntegerArray(d, W).Some? && EntryCount(d).Success?
            && PlanRepair(text).value.length == Sum(IntegerArray(d, W).value) * EntryCount(d).value
  {
    PlannedPatch(text);
    var plan, section := PlanRepair(text).value, FindSection(text).value;
    PatchedAlike(text, section, plan);
    PaddedDenotes(plan.length, plan.end - plan.start);
    ExpectedMeaning(Dictionary(text, section));
  }

  lemma ExpectedMeaning(d: Bytes)
    requires ExpectedLength(d).Success?
    ensures IntegerArray(d, W).Some? && EntryCount(d).Success?
    ensures ExpectedLength(d).value == Sum(IntegerArray(d, W).value) * EntryCount(d).value <= USIZE_MAX
  {
  }

  /** The offset after `startxref` reads the same: its digits lie beyond the patched ones. */
  lemma OffsetAlike(a: Bytes, b: Bytes, lo: nat, hi: nat, at: nat)
    requires Alike(a, b, lo, hi) && hi <= at <= |a|
    ensures IntegerAt(b, at) == IntegerAt(a, at)
  {
    WhitespaceSkipped(a, at);
    IntegerAlike(a, b, lo, hi, at);
  }

  lemma StreamAlike(a: Bytes, b: Bytes, lo: nat, hi: nat, offset: nat, startxref: nat)
    requires Alike(a, b, lo, hi) && hi <= startxref <= |a| && offset <= startxref
    ensures FindFrom(a[offset..startxref], STREAM, 0) == FindFrom(b[offset..startxref], STREAM, 0)
  {
    SliceAlike(a, b, lo, hi, offset, startxref);
    var lower, upper := if lo < offset then 0 else lo - offset, if hi < offset then 0 else hi - offset;
    FindAlike(a[offset..startxref], b[offset..startxref], lower, upper, STREAM, 0);
  }

  lemma SectionAlike(a: Bytes, b: Bytes, lo: nat, hi: nat)
    requires FindSection(a).Success? && Alike(a, b, lo, hi) && hi <= FindSection(a).value.startxref
    ensures FindSection(b) == FindSection(a)
  {
    var startxref := FindSection(a).value.startxref;
    RFindAlike(a, b, lo, hi, STARTXREF, |a|);
    RFoundInside(a, STARTXREF, |a|);
    OffsetAlike(a, b, lo, hi, startxref + |STARTXREF|);
    StreamAlike(a, b, lo, hi, FindSection(a).value.offset, startxref);
  }

  lemma SliceAlike(a: Bytes, b: Bytes, lo: nat, hi: nat, from: nat, to: nat)
    requires Alike(a, b, lo, hi) && from <= to <= |a| && hi <= to
    ensures Alike(a[from..to], b[from..to], if lo < from then 0 else lo - from, if hi < from then 0 else hi - from)
  {
  }

  /** In a dictionary alike but for the digits of /Length, those digits are again the digits of /Length. */
  lemma LengthAlike(d: Bytes, again: Bytes, lo: nat, hi: nat)
    requires Alike(d, again, lo, hi) && LengthDigits(d, lo, hi)
    ensures LengthDigits(again, lo, hi)
  {
    NameAlike(d, again, lo, hi, LENGTH, 0);
    WhitespaceAlike(d, again, lo, hi, NameFrom(d, LENGTH, 0).value);
    DigitsAlike(d, again, lo, hi, lo);
  }

  lemma LengthReads(d: Bytes, offset: nat, lo: nat, hi: nat, n: nat)
    requires LengthDigits(d, lo, hi) && Denotes(d[lo..hi]) == n <= USIZE_MAX
    ensures PlanDigits(d, offset, n) == Success(Keep)
  {
  }

  lemma SectionKept(text: Bytes, section: Section, n: nat)
    requires section.offset <= section.dictionaryEnd <= |text|
    requires NameNamed(Dictionary(text, section), TYPE) == Some(XREF)
    requires ExpectedLength(Dictionary(text, section)) == Success(n)
    requires CheckData(text, section, n).Success?
    requires PlanDigits(Dictionary(text, section), section.offset, n) == Success(Keep)
    ensures PlanSection(text, section) == Success(Keep)
  {
  }

  /** The repair is idempotent: a second run finds nothing to repair. */
  lemma RepairIsIdempotent(text: Bytes)
    requires PlanRepair(text).Success? && PlanRepair(text).value.Patch?
    ensures var plan := PlanRepair(text).value;
            && plan.start <= plan.end <= |text| && |Decimal(plan.length)| <= plan.end - plan.start
            && PlanRepair(Patched(text, plan.start, plan.end, plan.length)) == Success(Keep)
  {
    PlannedPatch(text);
    var plan, section := PlanRepair(text).value, FindSection(text).value;
    var patched := Patched(text, plan.start, plan.end, plan.length);
    PatchedAlike(text, section, plan);
    SectionAlike(text, patched, plan.start, plan.end);
    PatchedKept(text, section, plan);
  }

  lemma PatchedKept(text: Bytes, section: Section, plan: Plan)
    requires Planned(text, section, plan)
    ensures PlanSection(Patched(text, plan.start, plan.end, plan.length), section) == Success(Keep)
  {
    var patched := Patched(text, plan.start, plan.end, plan.length);
    PatchedAlike(text, section, plan);
    DataAlike(text, patched, plan.start, plan.end, section, plan.length);
    ExpectedPatched(text, section, plan);
    ExpectedMeaning(Dictionary(text, section));
    DigitsPatched(text, section, plan);
    SectionKept(patched, section, plan.length);
  }

  lemma ExpectedPatched(text: Bytes, section: Section, plan: Plan)
    requires plan.Patch? && Located(text, section, plan)
    requires LengthDigits(Dictionary(text, section), plan.start - section.offset, plan.end - section.offset)
    requires NameNamed(Dictionary(text, section), TYPE) == Some(XREF)
    ensures var again := Dictionary(Patched(text, plan.start, plan.end, plan.length), section);
            NameNamed(again, TYPE) == Some(XREF) && ExpectedLength(again) == ExpectedLength(Dictionary(text, section))
  {
    var d := Dictionary(text, section);
    var again := Dictionary(Patched(text, plan.start, plan.end, plan.length), section);
    DictionaryPatched(text, section, plan);
    NameValueAlike(d, again, plan.start - section.offset, plan.end - section.offset);
    ExpectedAlike(d, again, plan.start - section.offset, plan.end - section.offset);
  }

  lemma DigitsPatched(text: Bytes, section: Section, plan: Plan)
    requires plan.Patch? && Located(text, section, plan) && plan.length <= USIZE_MAX
    requires LengthDigits(Dictionary(text, section), plan.start - section.offset, plan.end - section.offset)
    ensures var again := Dictionary(Patched(text, plan.start, plan.end, plan.length), section);
            PlanDigits(again, section.offset, plan.length) == Success(Keep)
  {
    var d := Dictionary(text, section);
    var again := Dictionary(Patched(text, plan.start, plan.end, plan.length), section);
    var lo, hi := plan.start - section.offset, plan.end - section.offset;
    DictionaryPatched(text, section, plan);
    LengthAlike(d, again, lo, hi);
    LengthReads(again, section.offset, lo, hi, plan.length);
  }

  lemma SliceOfSlice(text: Bytes, from: nat, to: nat, lo: nat, hi: nat)
    requires from <= lo <= hi <= to <= |text|
    ensures text[from..to][lo - from..hi - from] == text[lo..hi]
  {
    var inner := text[from..to][lo - from..hi - from];
    forall k | 0 <= k < hi - lo ensures inner[k] == text[lo..hi][k] {
      assert inner[k] == text[from..to][lo - from + k];
    }
  }

  lemma DictionaryPatched(text: Bytes, section: Section, plan: Plan)
    requires plan.Patch? && Located(text, section, plan)
    requires LengthDigits(Dictionary(text, section), plan.start - section.offset, plan.end - section.offset)
    ensures var d, again := Dictionary(text, section), Dictionary(Patched(text, plan.start, plan.end, plan.length), section);
            && Alike(d, again, plan.start - section.offset, plan.end - section.offset)
            && Denotes(again[plan.start - section.offset..plan.end - section.offset]) == plan.length
  {
    var patched := Patched(text, plan.start, plan.end, plan.length);
    PatchedAlike(text, section, plan);
    SliceAlike(text, patched, plan.start, plan.end, section.offset, section.dictionaryEnd);
    PaddedDenotes(plan.length, plan.end - plan.start);
    SliceOfSlice(patched, section.offset, section.dictionaryEnd, plan.start, plan.end);
  }
}
