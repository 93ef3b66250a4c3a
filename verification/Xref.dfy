/** inkbridge-convert/src/neoreader_repair.rs: repairing, in place, the /Length of a trailing
    cross-reference stream (section 7.5.8 of ISO 32000-1). */
module Xref {
  import opened Wrappers

  type byte = x: int | 0 <= x < 256 witness 0

  type Bytes = seq<byte>

  const USIZE_MAX: nat := 0xFFFF_FFFF_FFFF_FFFF

  predicate IsDigit(b: byte) {
    48 <= b <= 57
  }

  predicate IsWhitespace(b: byte) {
    b in {0, 9, 10, 12, 13, 32}
  }

  predicate IsDelimiter(b: byte) {
    IsWhitespace(b) || b in {40, 41, 60, 62, 91, 93, 123, 125, 47, 37}
  }

  // The keywords and names the repair looks for.
  const STARTXREF: Bytes := [115, 116, 97, 114, 116, 120, 114, 101, 102]
  const STREAM: Bytes := [115, 116, 114, 101, 97, 109]
  const ENDSTREAM: Bytes := [101, 110, 100, 115, 116, 114, 101, 97, 109]
  const TYPE: Bytes := [47, 84, 121, 112, 101]
  const XREF: Bytes := [88, 82, 101, 102]
  const W: Bytes := [47, 87]
  const INDEX: Bytes := [47, 73, 110, 100, 101, 120]
  const SIZE: Bytes := [47, 83, 105, 122, 101]
  const LENGTH: Bytes := [47, 76, 101, 110, 103, 116, 104]
  const CR: byte := 13
  const LF: byte := 10
  const OPEN: byte := 91
  const CLOSE: byte := 93

  // ---------------------------------------------------------------- searches

  predicate MatchesAt(h: Bytes, needle: Bytes, i: nat) {
    i + |needle| <= |h| && h[i..i + |needle|] == needle
  }

  /** The first match at or after `i`. */
  function FindFrom(h: Bytes, needle: Bytes, i: nat): Option<nat>
    decreases |h| - i
  {
    if i >= |h| then None else if MatchesAt(h, needle, i) then Some(i) else FindFrom(h, needle, i + 1)
  }

  /** The last match before `i`. */
  function RFindBefore(h: Bytes, needle: Bytes, i: nat): Option<nat> {
    if i == 0 then None else if MatchesAt(h, needle, i - 1) then Some(i - 1) else RFindBefore(h, needle, i - 1)
  }

  /** The end of the first occurrence of a name, at or after `i`, that is not the beginning of a longer one. */
  function NameFrom(d: Bytes, name: Bytes, i: nat): Option<nat>
    decreases |d| - i
  {
    if i >= |d| then None
    else if MatchesAt(d, name, i) && (i + |name| == |d| || IsDelimiter(d[i + |name|])) then Some(i + |name|)
    else NameFrom(d, name, i + 1)
  }

  method FindBytes(h: Bytes, needle: Bytes) returns (r: Option<nat>)
    requires needle != []
    ensures r == FindFrom(h, needle, 0)
  {
    var i := 0;
    while i < |h|
      invariant 0 <= i <= |h| && FindFrom(h, needle, 0) == FindFrom(h, needle, i)
    {
      if MatchesAt(h, needle, i) {
        return Some(i);
      }
      i := i + 1;
    }
    r := None;
  }

  method RFindBytes(h: Bytes, needle: Bytes) returns (r: Option<nat>)
    requires needle != []
    ensures r == RFindBefore(h, needle, |h|)
  {
    var i := |h|;
    while i > 0
      invariant 0 <= i <= |h| && RFindBefore(h, needle, |h|) == RFindBefore(h, needle, i)
    {
      i := i - 1;
      if MatchesAt(h, needle, i) {
        return Some(i);
      }
    }
    r := None;
  }

  method NameOffset(d: Bytes, name: Bytes) returns (r: Option<nat>)
    requires name != []
    ensures r == NameFrom(d, name, 0)
  {
    var i := 0;
    while i < |d|
      invariant 0 <= i <= |d| && NameFrom(d, name, 0) == NameFrom(d, name, i)
    {
      if MatchesAt(d, name, i) && (i + |name| == |d| || IsDelimiter(d[i + |name|])) {
        return Some(i + |name|);
      }
      i := i + 1;
    }
    r := None;
  }

  // ---------------------------------------------------------------- numbers

  function AfterWhitespace(b: Bytes, i: nat): (r: nat)
    ensures r >= i
    decreases |b| - i
  {
    if i < |b| && IsWhitespace(b[i]) then AfterWhitespace(b, i + 1) else i
  }

  function AfterDigits(b: Bytes, i: nat): (r: nat)
    ensures r >= i
    decreases |b| - i
  {
    if i < |b| && IsDigit(b[i]) then AfterDigits(b, i + 1) else i
  }

  lemma {:induction false} WhitespaceSkipped(b: Bytes, i: nat)
    requires i <= |b|
    ensures AfterWhitespace(b, i) <= |b|
    ensures forall k :: i <= k < AfterWhitespace(b, i) ==> IsWhitespace(b[k])
    ensures AfterWhitespace(b, i) < |b| ==> !IsWhitespace(b[AfterWhitespace(b, i)])
    decreases |b| - i
  {
    if i < |b| && IsWhitespace(b[i]) {
      WhitespaceSkipped(b, i + 1);
    }
  }

  lemma {:induction false} DigitsTaken(b: Bytes, i: nat)
    requires i <= |b|
    ensures AfterDigits(b, i) <= |b|
    ensures forall k :: i <= k < AfterDigits(b, i) ==> IsDigit(b[k])
    ensures AfterDigits(b, i) < |b| ==> !IsDigit(b[AfterDigits(b, i)])
    decreases |b| - i
  {
    if i < |b| && IsDigit(b[i]) {
      DigitsTaken(b, i + 1);
    }
  }

  function DigitValue(b: byte): nat {
    if IsDigit(b) then b as nat - 48 else 0
  }

  /** The number a run of digits denotes. */
  function Denotes(digits: Bytes): nat
    decreases |digits|
  {
    if digits == [] then 0 else 10 * Denotes(digits[..|digits| - 1]) + DigitValue(digits[|digits| - 1])
  }

  datatype Number = Number(start: nat, end: nat, value: nat)

  /** The integer at `i`, after whitespace; None when there is none or it does not fit. */
  function IntegerAt(b: Bytes, i: nat): Option<Number> {
    var start := AfterWhitespace(b, i);
    var end := AfterDigits(b, start);
    if end == start || end > |b| then None
    else
      var value := Denotes(b[start..end]);
      if value > USIZE_MAX then None else Some(Number(start, end, value))
  }

  /** The integers of an array from `i`, just inside the bracket, to its closing bracket. */
  function IntegersFrom(b: Bytes, i: nat): Option<seq<nat>>
    decreases |b| - i
  {
    var at := AfterWhitespace(b, i);
    if at < |b| && b[at] == CLOSE then Some([])
    else
      match IntegerAt(b, at)
      case None => None
      case Some(number) =>
        if number.end <= i then None
        else
          match IntegersFrom(b, number.end)
          case None => None
          case Some(rest) => Some([number.value] + rest)
  }

  function IntegerArray(d: Bytes, name: Bytes): Option<seq<nat>> {
    match NameFrom(d, name, 0)
    case None => None
    case Some(end) =>
      var at := AfterWhitespace(d, end);
      if at < |d| && d[at] == OPEN then IntegersFrom(d, at + 1) else None
  }

  function IntegerNamed(d: Bytes, name: Bytes): Option<Number> {
    match NameFrom(d, name, 0)
    case None => None
    case Some(end) => IntegerAt(d, end)
  }

  function AfterName(d: Bytes, i: nat): (r: nat)
    ensures r >= i
    decreases |d| - i
  {
    if i < |d| && !IsDelimiter(d[i]) then AfterName(d, i + 1) else i
  }

  function NameNamed(d: Bytes, name: Bytes): Option<Bytes> {
    match NameFrom(d, name, 0)
    case None => None
    case Some(end) =>
      var at := AfterWhitespace(d, end);
      if at < |d| && d[at] == 47 then
        var stop := AfterName(d, at + 1);
        if stop <= |d| then Some(d[at + 1..stop]) else None
      else None
  }

  method SkipWhitespace(b: Bytes, start: nat) returns (cursor: nat)
    requires start <= |b|
    ensures cursor == AfterWhitespace(b, start) && cursor <= |b|
  {
    cursor := start;
    while cursor < |b| && IsWhitespace(b[cursor])
      invariant start <= cursor <= |b| && AfterWhitespace(b, start) == AfterWhitespace(b, cursor)
    {
      cursor := cursor + 1;
    }
  }

  method ParseInteger(b: Bytes, from: nat) returns (r: Option<Number>)
    requires from <= |b|
    ensures r == IntegerAt(b, from)
    ensures r.Some? ==> from <= r.value.start < r.value.end <= |b|
  {
    var start := SkipWhitespace(b, from);
    DigitsTaken(b, start);
    var cursor := start;
    var value := 0;
    while cursor < |b| && IsDigit(b[cursor])
      invariant start <= cursor <= AfterDigits(b, start) <= |b| && AfterDigits(b, start) == AfterDigits(b, cursor)
      invariant value == Denotes(b[start..cursor])
    {
      assert b[start..cursor + 1][..cursor - start] == b[start..cursor];
      value := 10 * value + DigitValue(b[cursor]);
      cursor := cursor + 1;
    }
    if cursor == start || value > USIZE_MAX {
      return None;
    }
    r := Some(Number(start, cursor, value));
  }

  method ParseIntegerArray(d: Bytes, name: Bytes) returns (r: Option<seq<nat>>)
    requires name != []
    ensures r == IntegerArray(d, name)
  {
    var end := NameOffset(d, name);
    if end.None? {
      return None;
    }
    NameInside(d, name, 0);
    var cursor := SkipWhitespace(d, end.value);
    if cursor == |d| || d[cursor] != OPEN {
      return None;
    }
    cursor := cursor + 1;
    ghost var first := cursor;
    var values: seq<nat> := [];
    while true
      invariant first <= cursor <= |d|
      invariant IntegersFrom(d, first) == Prepend(values, IntegersFrom(d, cursor))
      decreases |d| - cursor
    {
      ghost var before := cursor;
      ghost var rest := IntegersFrom(d, before);
      cursor := SkipWhitespace(d, cursor);
      if cursor < |d| && d[cursor] == CLOSE {
        return Some(values);
      }
      var number := ParseInteger(d, cursor);
      if number.None? {
        return None;
      }
      assert rest == Prepend([number.value.value], IntegersFrom(d, number.value.end));
      PrependTwice(values, number.value.value, IntegersFrom(d, number.value.end));
      values := values + [number.value.value];
      cursor := number.value.end;
    }
  }

  function Prepend(values: seq<nat>, rest: Option<seq<nat>>): (r: Option<seq<nat>>)
    ensures values == [] ==> r == rest
    ensures rest == Some([]) ==> r == Some(values)
  {
    if rest.Some? then
      assert values == [] ==> values + rest.value == rest.value;
      assert rest.value == [] ==> values + rest.value == values;
      Some(values + rest.value)
    else None
  }

  lemma PrependTwice(values: seq<nat>, value: nat, rest: Option<seq<nat>>)
    ensures Prepend(values, Prepend([value], rest)) == Prepend(values + [value], rest)
  {
    if rest.Some? {
      assert values + ([value] + rest.value) == values + [value] + rest.value;
    }
  }

  lemma {:induction false} NameInside(d: Bytes, name: Bytes, i: nat)
    requires name != []
    ensures NameFrom(d, name, i).Some? ==>
              var end := NameFrom(d, name, i).value;
              i + |name| <= end <= |d| && MatchesAt(d, name, end - |name|) && (end == |d| || IsDelimiter(d[end]))
    decreases |d| - i
  {
    if i < |d| && !(MatchesAt(d, name, i) && (i + |name| == |d| || IsDelimiter(d[i + |name|]))) {
      NameInside(d, name, i + 1);
    }
  }

  // ---------------------------------------------------------------- planning the repair

  function Sum(values: seq<nat>): nat
    decreases |values|
  {
    if values == [] then 0 else Sum(values[..|values| - 1]) + values[|values| - 1]
  }

  /** The second of each pair. */
  function Counts(index: seq<nat>): seq<nat>
    decreases |index|
  {
    if |index| < 2 then [] else [index[1]] + Counts(index[2..])
  }

  /** Entries of the cross-reference stream, from /Index or else /Size. */
  function EntryCount(d: Bytes): Result<nat, string> {
    match IntegerArray(d, INDEX)
    case Some(index) =>
      if |index| % 2 != 0 then Failure("/Index has an odd number of integers")
      else if Sum(Counts(index)) > USIZE_MAX then Failure("entry count overflowed")
      else Success(Sum(Counts(index)))
    case None =>
      match IntegerNamed(d, SIZE)
      case None => Failure("neither /Index nor /Size")
      case Some(size) => Success(size.value)
  }

  function Product(a: nat, b: nat): nat {
    a * b
  }

  /** The length the stream's own /W and /Index require. */
  function ExpectedLength(d: Bytes): Result<nat, string> {
    match IntegerArray(d, W)
    case None => Failure("no valid /W array")
    case Some(widths) =>
      if |widths| != 3 then Failure("/W must contain three integers")
      else if Sum(widths) > USIZE_MAX then Failure("entry width overflowed")
      else
        var count :- EntryCount(d);
        if Product(Sum(widths), count) > USIZE_MAX then Failure("stream length overflowed") else Success(Product(Sum(widths), count))
  }

  /** Where the stream's data begin, after the line ending that follows the keyword. */
  function DataStart(text: Bytes, keywordEnd: nat): Option<nat> {
    if MatchesAt(text, [CR, LF], keywordEnd) then Some(keywordEnd + 2)
    else if MatchesAt(text, [LF], keywordEnd) || MatchesAt(text, [CR], keywordEnd) then Some(keywordEnd + 1)
    else None
  }

  /** Where `endstream` begins after data that end at `dataEnd`. */
  function EndStream(text: Bytes, dataEnd: nat): Option<nat> {
    if MatchesAt(text, ENDSTREAM, dataEnd) then Some(dataEnd)
    else if MatchesAt(text, [CR, LF] + ENDSTREAM, dataEnd) then Some(dataEnd + 2)
    else if MatchesAt(text, [LF] + ENDSTREAM, dataEnd) && !(0 < dataEnd <= |text| && text[dataEnd - 1] == CR) then Some(dataEnd + 1)
    else if MatchesAt(text, [CR] + ENDSTREAM, dataEnd) then Some(dataEnd + 1)
    else None
  }

  /** Nothing to repair, or the digits of /Length in [start, end) to be replaced by `length`. */
  datatype Plan = Keep | Patch(start: nat, end: nat, length: nat)

  /** The trailing cross-reference section: where it begins, where its dictionary ends, where startxref is. */
  datatype Section = Section(offset: nat, dictionaryEnd: nat, startxref: nat)

  function FindSection(text: Bytes): Result<Section, string> {
    match RFindBefore(text, STARTXREF, |text|)
    case None => Failure("no startxref")
    case Some(startxref) =>
      match IntegerAt(text, startxref + |STARTXREF|)
      case None => Failure("invalid startxref offset")
      case Some(offset) =>
        if offset.value >= startxref || startxref > |text| then Failure("out-of-range xref offset")
        else
          match FindFrom(text[offset.value..startxref], STREAM, 0)
          case None => Failure("no trailing xref stream")
          case Some(relative) => Success(Section(offset.value, offset.value + relative, startxref))
  }

  /** Replacing the digits of /Length, once the stream is known to have length `expected`. */
  function PlanDigits(d: Bytes, offset: nat, expected: nat): Result<Plan, string> {
    match IntegerNamed(d, LENGTH)
    case None => Failure("no direct integer /Length")
    case Some(length) =>
      if length.value == expected then Success(Keep)
      else if |Decimal(expected)| > length.end - length.start then Failure("/Length cannot be repaired in place")
      else Success(Patch(offset + length.start, offset + length.end, expected))
  }

  /** Data of the expected length must lead from the stream keyword to `endstream`, before startxref. */
  function CheckData(text: Bytes, section: Section, expected: nat): Result<(), string> {
    match DataStart(text, section.dictionaryEnd + |STREAM|)
    case None => Failure("no line ending after stream")
    case Some(dataStart) =>
      if dataStart + expected > USIZE_MAX then Failure("data range overflowed")
      else
        match EndStream(text, dataStart + expected)
        case None => Failure("/W and /Index do not lead to endstream")
        case Some(endstream) => if endstream >= section.startxref then Failure("stream extends beyond startxref") else Success(())
  }

  function PlanSection(text: Bytes, section: Section): Result<Plan, string>
    requires section.offset <= section.dictionaryEnd <= |text|
  {
    var d := text[section.offset..section.dictionaryEnd];
    if NameNamed(d, TYPE) != Some(XREF) then Success(Keep)
    else
      var expected :- ExpectedLength(d);
      var _ :- CheckData(text, section, expected);
      PlanDigits(d, section.offset, expected)
  }

  lemma {:induction false} FoundInside(h: Bytes, needle: Bytes, i: nat)
    ensures FindFrom(h, needle, i).Some? ==> i <= FindFrom(h, needle, i).value < |h| && MatchesAt(h, needle, FindFrom(h, needle, i).value)
    decreases |h| - i
  {
    if i < |h| && !MatchesAt(h, needle, i) {
      FoundInside(h, needle, i + 1);
    }
  }

  lemma SectionInside(text: Bytes)
    requires FindSection(text).Success?
    ensures var section := FindSection(text).value;
            section.offset <= section.dictionaryEnd < section.startxref <= |text|
            && section.dictionaryEnd + |STREAM| <= section.startxref
  {
    var startxref := RFindBefore(text, STARTXREF, |text|).value;
    var offset := IntegerAt(text, startxref + |STARTXREF|).value.value;
    FoundInside(text[offset..startxref], STREAM, 0);
  }

  function PlanRepair(text: Bytes): Result<Plan, string> {
    match FindSection(text)
    case Failure(reason) => Failure(reason)
    case Success(section) =>
      SectionInside(text);
      PlanSection(text, section)
  }

  function Decimal(n: nat): Bytes
    decreases n
  {
    if n < 10 then [48 + n] else Decimal(n / 10) + [48 + n % 10]
  }

  function Padded(n: nat, width: nat): Bytes
    requires |Decimal(n)| <= width
  {
    seq(width - |Decimal(n)|, _ => 48) + Decimal(n)
  }

  lemma {:induction false} DecimalDenotes(n: nat)
    ensures Denotes(Decimal(n)) == n && Decimal(n) != [] && forall i :: 0 <= i < |Decimal(n)| ==> IsDigit(Decimal(n)[i])
    decreases n
  {
    if n < 10 {
      assert Decimal(n)[..0] == [];
    } else {
      DecimalDenotes(n / 10);
      assert Decimal(n)[..|Decimal(n)| - 1] == Decimal(n / 10);
    }
  }

  lemma {:induction false} LeadingZeros(zeros: Bytes, digits: Bytes)
    requires forall i :: 0 <= i < |zeros| ==> zeros[i] == 48
    ensures Denotes(zeros + digits) == Denotes(digits)
    decreases |zeros| + |digits|
  {
    if digits == [] {
      assert zeros + digits == zeros;
      if zeros != [] {
        LeadingZeros(zeros[..|zeros| - 1], []);
        assert zeros[..|zeros| - 1] + [] == zeros[..|zeros| - 1];
      }
    } else {
      LeadingZeros(zeros, digits[..|digits| - 1]);
      assert (zeros + digits)[..|zeros + digits| - 1] == zeros + digits[..|digits| - 1];
    }
  }

  /** The digits written: exactly `width` of them, denoting `n`. */
  lemma PaddedDenotes(n: nat, width: nat)
    requires |Decimal(n)| <= width
    ensures |Padded(n, width)| == width && Denotes(Padded(n, width)) == n
    ensures forall i :: 0 <= i < width ==> IsDigit(Padded(n, width)[i])
  {
    DecimalDenotes(n);
    LeadingZeros(seq(width - |Decimal(n)|, _ => 48), Decimal(n));
  }

  // ---------------------------------------------------------------- repairing in place

  method SumOf(values: seq<nat>) returns (r: Option<nat>)
    ensures r == if Sum(values) > USIZE_MAX then None else Some(Sum(values))
  {
    var total := 0;
    var i := 0;
    while i < |values|
      invariant 0 <= i <= |values| && total == Sum(values[..i]) <= USIZE_MAX
    {
      assert values[..i + 1][..i] == values[..i];
      SumGrows(values, i + 1);
      total := total + values[i];
      i := i + 1;
      if total > USIZE_MAX {
        return None;
      }
    }
    assert values[..i] == values;
    r := Some(total);
  }

  lemma {:induction false} SumGrows(values: seq<nat>, i: nat)
    requires i <= |values|
    ensures Sum(values[..i]) <= Sum(values)
    decreases |values|
  {
    if i == |values| {
      assert values[..i] == values;
    } else {
      SumGrows(values[..|values| - 1], i);
      assert values[..|values| - 1][..i] == values[..i];
    }
  }

  method CountsOf(index: seq<nat>) returns (r: seq<nat>)
    ensures r == Counts(index)
  {
    r := [];
    var i := 0;
    while i + 1 < |index|
      invariant 0 <= i <= |index| && r + Counts(index[i..]) == Counts(index)
    {
      assert index[i..][2..] == index[i + 2..];
      r := r + [index[i + 1]];
      i := i + 2;
    }
  }

  method FindEntryCount(d: Bytes) returns (r: Result<nat, string>)
    ensures r == EntryCount(d)
  {
    var index := ParseIntegerArray(d, INDEX);
    if index.Some? {
      if |index.value| % 2 != 0 {
        return Failure("/Index has an odd number of integers");
      }
      var counts := CountsOf(index.value);
      var total := SumOf(counts);
      return if total.None? then Failure("entry count overflowed") else Success(total.value);
    }
    var size := FindInteger(d, SIZE);
    r := if size.None? then Failure("neither /Index nor /Size") else Success(size.value.value);
  }

  method FindInteger(d: Bytes, name: Bytes) returns (r: Option<Number>)
    requires name != []
    ensures r == IntegerNamed(d, name)
    ensures r.Some? ==> r.value.start < r.value.end <= |d|
  {
    var end := NameOffset(d, name);
    if end.None? {
      return None;
    }
    NameInside(d, name, 0);
    r := ParseInteger(d, end.value);
  }

  method FindExpectedLength(d: Bytes) returns (r: Result<nat, string>)
    ensures r == ExpectedLength(d)
  {
    var widths := ParseIntegerArray(d, W);
    if widths.None? {
      return Failure("no valid /W array");
    }
    if |widths.value| != 3 {
      return Failure("/W must contain three integers");
    }
    var width := SumOf(widths.value);
    if width.None? {
      return Failure("entry width overflowed");
    }
    var count :- FindEntryCount(d);
    r := if Product(width.value, count) > USIZE_MAX then Failure("stream length overflowed") else Success(Product(width.value, count));
  }

  method FindName(d: Bytes, name: Bytes) returns (r: Option<Bytes>)
    requires name != []
    ensures r == NameNamed(d, name)
  {
    var end := NameOffset(d, name);
    if end.None? {
      return None;
    }
    NameInside(d, name, 0);
    var at := SkipWhitespace(d, end.value);
    if at == |d| || d[at] != 47 {
      return None;
    }
    var stop := at + 1;
    while stop < |d| && !IsDelimiter(d[stop])
      invariant at + 1 <= stop <= |d| && AfterName(d, at + 1) == AfterName(d, stop)
    {
      stop := stop + 1;
    }
    r := Some(d[at + 1..stop]);
  }

  /** The text with the digits in [start, end) replaced by `n`, padded with zeros. */
  function Patched(text: Bytes, start: nat, end: nat, n: nat): Bytes
    requires start <= end <= |text| && |Decimal(n)| <= end - start
  {
    text[..start] + Padded(n, end - start) + text[end..]
  }

  lemma DigitsInside(d: Bytes, i: nat)
    requires i <= |d|
    ensures IntegerAt(d, i).Some? ==> i <= IntegerAt(d, i).value.start < IntegerAt(d, i).value.end <= |d|
  {
    WhitespaceSkipped(d, i);
    DigitsTaken(d, AfterWhitespace(d, i));
  }

  lemma PatchFits(text: Bytes)
    ensures PlanRepair(text).Success? && PlanRepair(text).value.Patch? ==>
              var plan := PlanRepair(text).value;
              plan.start < plan.end <= |text| && |Decimal(plan.length)| <= plan.end - plan.start
  {
    if PlanRepair(text).Success? && PlanRepair(text).value.Patch? {
      SectionInside(text);
      var section := FindSection(text).value;
      var d := text[section.offset..section.dictionaryEnd];
      NameInside(d, LENGTH, 0);
      DigitsInside(d, NameFrom(d, LENGTH, 0).value);
    }
  }

  method LocateSection(text: Bytes) returns (r: Result<Section, string>)
    ensures r == FindSection(text)
  {
    var startxref := RFindBytes(text, STARTXREF);
    if startxref.None? {
      return Failure("no startxref");
    }
    RFoundInside(text, STARTXREF, |text|);
    var offset := ParseInteger(text, startxref.value + |STARTXREF|);
    if offset.None? {
      return Failure("invalid startxref offset");
    }
    if offset.value.value >= startxref.value {
      return Failure("out-of-range xref offset");
    }
    var relative := FindBytes(text[offset.value.value..startxref.value], STREAM);
    if relative.None? {
      return Failure("no trailing xref stream");
    }
    r := Success(Section(offset.value.value, offset.value.value + relative.value, startxref.value));
  }

  lemma {:induction false} RFoundInside(h: Bytes, needle: Bytes, i: nat)
    ensures RFindBefore(h, needle, i).Some? ==> MatchesAt(h, needle, RFindBefore(h, needle, i).value)
  {
    if i > 0 && !MatchesAt(h, needle, i - 1) {
      RFoundInside(h, needle, i - 1);
    }
  }

  method DecidePlan(text: Bytes) returns (r: Result<Plan, string>)
    ensures r == PlanRepair(text)
  {
    var section :- LocateSection(text);
    SectionInside(text);
    var d := text[section.offset..section.dictionaryEnd];
    var kind := FindName(d, TYPE);
    if kind != Some(XREF) {
      return Success(Keep);
    }
    var expected :- FindExpectedLength(d);
    var checked :- CheckData(text, section, expected);
    r := DecideDigits(d, section.offset, expected);
  }

  method DecideDigits(d: Bytes, offset: nat, expected: nat) returns (r: Result<Plan, string>)
    ensures r == PlanDigits(d, offset, expected)
  {
    var length := FindInteger(d, LENGTH);
    if length.None? {
      return Failure("no direct integer /Length");
    }
    if length.value.value == expected {
      return Success(Keep);
    }
    if |Decimal(expected)| > length.value.end - length.value.start {
      return Failure("/Length cannot be repaired in place");
    }
    r := Success(Patch(offset + length.value.start, offset + length.value.end, expected));
  }

  /** Overwrites the digits in [start, end). */
  method WriteDigits(bytes: array<byte>, start: nat, end: nat, n: nat)
    requires start <= end <= bytes.Length && |Decimal(n)| <= end - start
    modifies bytes
    ensures bytes[..] == Patched(old(bytes[..]), start, end, n)
  {
    var replacement := Decimal(n);
    var padding := end - start - |replacement|;
    ghost var padded := Padded(n, end - start);
    var i := 0;
    while i < end - start
      invariant 0 <= i <= end - start
      invariant forall k :: 0 <= k < i ==> bytes[start + k] == padded[k]
      invariant forall k :: 0 <= k < bytes.Length && !(start <= k < start + i) ==> bytes[k] == old(bytes[k])
    {
      bytes[start + i] := if i < padding then 48 else replacement[i - padding];
      i := i + 1;
    }
    ghost var patched := Patched(old(bytes[..]), start, end, n);
    forall k | 0 <= k < bytes.Length ensures bytes[..][k] == patched[k] {
      if start <= k < end {
        assert bytes[start + (k - start)] == padded[k - start];
      }
    }
  }

  method RepairTrailingXrefStreamLength(bytes: array<byte>) returns (r: Result<bool, string>)
    modifies bytes
    ensures match PlanRepair(old(bytes[..]))
            case Failure(reason) => r == Failure(reason) && bytes[..] == old(bytes[..])
            case Success(Keep) => r == Success(false) && bytes[..] == old(bytes[..])
            case Success(Patch(start, end, length)) =>
              && r == Success(true) && start < end <= bytes.Length && |Decimal(length)| <= end - start
              && bytes[..] == Patched(old(bytes[..]), start, end, length)
  {
    var plan := DecidePlan(bytes[..]);
    PatchFits(bytes[..]);
    if plan.Failure? {
      return Failure(plan.error);
    }
    if plan.value.Keep? {
      return Success(false);
    }
    WriteDigits(bytes, plan.value.start, plan.value.end, plan.value.length);
    r := Success(true);
  }
}
