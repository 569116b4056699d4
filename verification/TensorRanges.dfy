/** Preflight of the byte ranges in a tensor file: each range fits its tensor, and together the ranges tile
    the data region. */
module TensorRanges {
  import opened Wrappers

  datatype ElementType = BOOL | F16 | F32 | F64 | I64 | U8

  function ItemSize(t: ElementType): nat {
    match t
    case BOOL => 1
    case U8 => 1
    case F16 => 2
    case F32 => 4
    case F64 => 8
    case I64 => 8
  }

  /** What the header says about one tensor: its shape, its element type, and its byte range. */
  datatype Entry = Entry(shape: seq<int>, dtype: ElementType, start: int, end: int)

  datatype Range = Range(start: int, end: int)

  datatype RangeError = BadShape | BadRange | MemberTooLarge | GapOrOverlap | TrailingOrOversized

  datatype Limits = Limits(maxMember: nat, maxTotal: nat)

  function Product(shape: seq<int>): int {
    if shape == [] then 1 else shape[0] * Product(shape[1..])
  }

  predicate PositiveShape(shape: seq<int>) { forall i :: 0 <= i < |shape| ==> shape[i] > 0 }

  function ByteCount(e: Entry): int { Product(e.shape) * ItemSize(e.dtype) }

  lemma {:induction false} ProductPositive(shape: seq<int>)
    requires PositiveShape(shape)
    ensures Product(shape) > 0
    decreases |shape|
  {
    if shape != [] {
      ProductPositive(shape[1..]);
      PositiveTimes(shape[0], Product(shape[1..]));
    }
  }

  lemma PositiveTimes(x: int, y: int)
    requires x > 0 && y > 0
    ensures x * y > 0
  {
  }

  /** The size of a shape: one value, and the sizes of the parts of a shape multiplied. */
  lemma {:induction false} ProductJoins(a: seq<int>, b: seq<int>)
    ensures Product(a + b) == Product(a) * Product(b)
    ensures forall x :: Product([x]) == x
    decreases |a|
  {
    forall x ensures Product([x]) == x {
      assert [x][1..] == [] && Product([]) == 1;
    }
    if a == [] {
      assert a + b == b;
    } else {
      ProductJoins(a[1..], b);
      assert (a + b)[1..] == a[1..] + b;
      Reassociated(a[0], Product(a[1..]), Product(b));
    }
  }

  lemma Reassociated(x: int, y: int, z: int)
    ensures x * (y * z) == (x * y) * z
  {
  }

  /** Bytes per element. */
  lemma ItemSizes(t: ElementType)
    ensures ItemSize(t) == 8 <==> t == F64 || t == I64
    ensures ItemSize(t) == 4 <==> t == F32
    ensures ItemSize(t) == 2 <==> t == F16
    ensures ItemSize(t) == 1 <==> t == BOOL || t == U8
  {
  }

  /** One entry is well formed and within the data region and the member cap. */
  predicate EntryFits(e: Entry, dataBytes: nat, limits: Limits) {
    && PositiveShape(e.shape)
    && 0 <= e.start <= e.end <= dataBytes && e.end - e.start == ByteCount(e)
    && ByteCount(e) <= limits.maxMember
  }

  ghost predicate AllFit(entries: seq<Entry>, dataBytes: nat, limits: Limits) {
    forall i :: 0 <= i < |entries| ==> EntryFits(entries[i], dataBytes, limits)
  }

  function RangesOf(entries: seq<Entry>): seq<Range> {
    if entries == [] then []
    else RangesOf(entries[..|entries| - 1]) + [Range(entries[|entries| - 1].start, entries[|entries| - 1].end)]
  }

  /** How many ranges hold a byte. */
  function Cover(ranges: seq<Range>, b: int): nat {
    if ranges == [] then 0 else (if ranges[0].start <= b < ranges[0].end then 1 else 0) + Cover(ranges[1..], b)
  }

  /** Every byte of the data region lies in exactly one range, and no byte outside it in any. */
  ghost predicate ExactTiling(ranges: seq<Range>, from: int, dataBytes: int) {
    forall b :: Cover(ranges, b) == if from <= b < dataBytes then 1 else 0
  }

  predicate AtMost(a: Range, b: Range) { a.start < b.start || (a.start == b.start && a.end <= b.end) }

  function Insert(x: Range, s: seq<Range>): seq<Range> {
    if s == [] then [x] else if AtMost(x, s[0]) then [x] + s else [s[0]] + Insert(x, s[1..])
  }

  function Sorted(s: seq<Range>): seq<Range> {
    if s == [] then [] else Insert(s[0], Sorted(s[1..]))
  }

  ghost predicate Ascending(s: seq<Range>) { forall i, j :: 0 <= i < j < |s| ==> AtMost(s[i], s[j]) }

  ghost predicate Inside(s: seq<Range>, dataBytes: int) {
    forall i :: 0 <= i < |s| ==> 0 <= s[i].start < s[i].end <= dataBytes
  }

  lemma {:induction false} InsertKeeps(x: Range, s: seq<Range>, dataBytes: int)
    requires Ascending(s) && Inside(s, dataBytes) && 0 <= x.start < x.end <= dataBytes
    ensures Ascending(Insert(x, s)) && Inside(Insert(x, s), dataBytes)
    ensures forall b :: Cover(Insert(x, s), b) == Cover([x] + s, b)
    ensures forall i :: 0 <= i < |Insert(x, s)| ==> Insert(x, s)[i] == x || Insert(x, s)[i] in s
    decreases |s|
  {
    assert ([x] + s)[1..] == s;
    if s != [] && !AtMost(x, s[0]) {
      InsertKeeps(x, s[1..], dataBytes);
      assert ([x] + s[1..])[1..] == s[1..];
      assert Insert(x, s)[1..] == Insert(x, s[1..]);
    }
  }

  /** Sorting keeps what covers each byte. */
  lemma {:induction false} SortedKeeps(s: seq<Range>, dataBytes: int)
    requires Inside(s, dataBytes)
    ensures Ascending(Sorted(s)) && Inside(Sorted(s), dataBytes)
    ensures forall b :: Cover(Sorted(s), b) == Cover(s, b)
    decreases |s|
  {
    if s != [] {
      SortedKeeps(s[1..], dataBytes);
      InsertKeeps(s[0], Sorted(s[1..]), dataBytes);
      assert ([s[0]] + Sorted(s[1..]))[1..] == Sorted(s[1..]);
    }
  }

  /** The scan: each range must begin where the one before it ended. */
  function Scan(s: seq<Range>, cursor: int): Option<int> {
    if s == [] then Some(cursor) else if s[0].start != cursor then None else Scan(s[1..], s[0].end)
  }

  lemma {:induction false} UncoveredBefore(s: seq<Range>, b: int)
    requires forall i :: 0 <= i < |s| ==> b < s[i].start
    ensures Cover(s, b) == 0
    decreases |s|
  {
    if s != [] {
      UncoveredBefore(s[1..], b);
    }
  }

  /** The scan reaches the end of the data exactly when the ranges tile what lies ahead of the cursor. */
  lemma {:induction false} ScanExactly(s: seq<Range>, cursor: int, dataBytes: int)
    requires Ascending(s) && Inside(s, dataBytes) && 0 <= cursor <= dataBytes
    ensures Scan(s, cursor) == Some(dataBytes) <==> ExactTiling(s, cursor, dataBytes)
    decreases |s|
  {
    if s == [] {
      assert Cover(s, cursor) == 0;
    } else if s[0].start == cursor {
      ScanExactly(s[1..], s[0].end, dataBytes);
      forall b ensures Cover(s, b) == (if cursor <= b < s[0].end then 1 else 0) + Cover(s[1..], b) {
      }
    } else if s[0].start < cursor {
      assert Cover(s, s[0].start) >= 1;
    } else {
      UncoveredBefore(s, cursor);
    }
  }

  /** In an exact tiling different ranges share no byte. */
  lemma {:induction false} TilingIsDisjoint(s: seq<Range>, i: nat, j: nat, b: int)
    requires i < j < |s| && Cover(s, b) <= 1
    ensures !(s[i].start <= b < s[i].end && s[j].start <= b < s[j].end)
    decreases |s|
  {
    if i > 0 {
      TilingIsDisjoint(s[1..], i - 1, j - 1, b);
    } else if s[j].start <= b < s[j].end {
      Covered(s[1..], j - 1, b);
    }
  }

  lemma {:induction false} Covered(s: seq<Range>, i: nat, b: int)
    requires i < |s| && s[i].start <= b < s[i].end
    ensures Cover(s, b) >= 1
    decreases |s|
  {
    if i > 0 {
      Covered(s[1..], i - 1, b);
    }
  }

  /** The scan gets through exactly the tilings of what lies ahead, up to wherever they end. */
  lemma ScanPassesExactly(s: seq<Range>, dataBytes: nat)
    requires Ascending(s) && Inside(s, dataBytes)
    ensures Scan(s, 0).None? <==> forall end: nat :: !ExactTiling(s, 0, end)
    ensures forall end: nat :: Scan(s, 0) == Some(end) <==> ExactTiling(s, 0, end)
  {
    hide ExactTiling, Cover, Ascending, Scan;
    forall end: nat ensures Scan(s, 0) == Some(end) <==> ExactTiling(s, 0, end) {
      if Scan(s, 0) == Some(end) {
        ScannedInside(s, 0, dataBytes);
        ScanExactly(s, 0, end);
      }
      if ExactTiling(s, 0, end) {
        TiledInside(s, dataBytes, end);
        ScanExactly(s, 0, end);
      }
    }
    if Scan(s, 0).Some? {
      ScannedInside(s, 0, dataBytes);
      assert Scan(s, 0) == Some(Scan(s, 0).value);
    }
  }

  /** What the scan has passed ends where the scan does. */
  lemma {:induction false} ScannedInside(s: seq<Range>, cursor: int, dataBytes: int)
    requires Inside(s, dataBytes) && Scan(s, cursor).Some? && cursor >= 0
    ensures Scan(s, cursor).value >= cursor && Inside(s, Scan(s, cursor).value)
    decreases |s|
  {
    if s != [] {
      ScannedInside(s[1..], s[0].end, dataBytes);
      forall i | 0 <= i < |s| ensures 0 <= s[i].start < s[i].end <= Scan(s, cursor).value {
        assert i > 0 ==> s[i] == s[1..][i - 1];
      }
    }
  }

  lemma TiledInside(s: seq<Range>, dataBytes: int, end: int)
    requires Inside(s, dataBytes) && ExactTiling(s, 0, end)
    ensures Inside(s, end)
  {
    forall i | 0 <= i < |s| ensures s[i].end <= end {
      Covered(s, i, s[i].end - 1);
      assert Cover(s, s[i].end - 1) == if 0 <= s[i].end - 1 < end then 1 else 0;
    }
  }

  lemma FittingIsInside(e: Entry, dataBytes: nat, limits: Limits)
    requires EntryFits(e, dataBytes, limits)
    ensures 0 <= e.start < e.end <= dataBytes
  {
    ProductPositive(e.shape);
    PositiveTimes(Product(e.shape), ItemSize(e.dtype));
  }

  /** The first entry that does not fit is blamed for its shape, else for its range, else for its size. */
  ghost predicate FirstUnfit(entries: seq<Entry>, k: nat, dataBytes: nat, limits: Limits, r: Result<(), RangeError>) {
    && k < |entries| && AllFit(entries[..k], dataBytes, limits)
    && var e := entries[k];
       if exists i :: 0 <= i < |e.shape| && e.shape[i] <= 0 then r == Err(BadShape)
       else if !(0 <= e.start <= e.end <= dataBytes && e.end - e.start == ByteCount(e)) then r == Err(BadRange)
       else r == Err(MemberTooLarge) && ByteCount(e) > limits.maxMember
  }

  /** The preflight: check every entry, then sort the ranges and walk them. It accepts exactly the exact
      tilings of the data region by ranges that fit their tensors, within both byte caps. */
  method CheckRanges(entries: seq<Entry>, dataBytes: nat, limits: Limits) returns (r: Result<(), RangeError>)
    ensures r.Ok? <==>
      AllFit(entries, dataBytes, limits) && ExactTiling(RangesOf(entries), 0, dataBytes) && dataBytes <= limits.maxTotal
    ensures r == Err(GapOrOverlap) <==>
      AllFit(entries, dataBytes, limits) && forall end: nat :: !ExactTiling(RangesOf(entries), 0, end)
    ensures r == Err(TrailingOrOversized) <==>
      && AllFit(entries, dataBytes, limits) && (exists end: nat :: ExactTiling(RangesOf(entries), 0, end))
      && !(ExactTiling(RangesOf(entries), 0, dataBytes) && dataBytes <= limits.maxTotal)
    ensures !AllFit(entries, dataBytes, limits) ==> exists k :: FirstUnfit(entries, k, dataBytes, limits, r)
  {
    hide EntryFits, ExactTiling, Cover, Ascending, Sorted, Product, ItemSize;
    var intervals: seq<Range> := [];
    for k := 0 to |entries|
      invariant forall i :: 0 <= i < k ==> EntryFits(entries[i], dataBytes, limits)
      invariant intervals == RangesOf(entries[..k]) && Inside(intervals, dataBytes)
    {
      var entry := entries[k];
      EntryExactly(entry, dataBytes, limits);
      assert AllFit(entries[..k], dataBytes, limits);
      if !PositiveShape(entry.shape) {
        assert FirstUnfit(entries, k, dataBytes, limits, Err(BadShape));
        return Err(BadShape);
      }
      var expected := Product(entry.shape) * ItemSize(entry.dtype);
      if entry.start < 0 || entry.end < entry.start || entry.end - entry.start != expected || entry.end > dataBytes {
        assert FirstUnfit(entries, k, dataBytes, limits, Err(BadRange));
        return Err(BadRange);
      }
      if expected > limits.maxMember {
        assert FirstUnfit(entries, k, dataBytes, limits, Err(MemberTooLarge));
        return Err(MemberTooLarge);
      }
      FittingIsInside(entry, dataBytes, limits);
      assert entries[..k + 1][..k] == entries[..k];
      intervals := intervals + [Range(entry.start, entry.end)];
    }
    assert entries[..|entries|] == entries;
    SortedKeeps(intervals, dataBytes);
    SameTiling(Sorted(intervals), intervals, dataBytes);
    ScanExactly(Sorted(intervals), 0, dataBytes);
    ScanPassesExactly(Sorted(intervals), dataBytes);
    forall end: nat ensures ExactTiling(Sorted(intervals), 0, end) <==> ExactTiling(intervals, 0, end) {
      SameTiling(Sorted(intervals), intervals, end);
    }
    var sorted := Sorted(intervals);
    var cursor := 0;
    for k := 0 to |sorted|
      invariant Scan(sorted, 0) == Scan(sorted[k..], cursor)
    {
      if sorted[k].start != cursor {
        return Err(GapOrOverlap);
      }
      cursor := sorted[k].end;
    }
    if cursor != dataBytes || cursor > limits.maxTotal {
      return Err(TrailingOrOversized);
    }
    return Ok(());
  }

  lemma EntryExactly(e: Entry, dataBytes: nat, limits: Limits)
    ensures EntryFits(e, dataBytes, limits) <==>
      && PositiveShape(e.shape) && 0 <= e.start && e.start <= e.end
      && e.end - e.start == Product(e.shape) * ItemSize(e.dtype)
      && e.end <= dataBytes && Product(e.shape) * ItemSize(e.dtype) <= limits.maxMember
  {
  }

  lemma SameTiling(s: seq<Range>, t: seq<Range>, dataBytes: int)
    requires forall b :: Cover(s, b) == Cover(t, b)
    ensures ExactTiling(s, 0, dataBytes) <==> ExactTiling(t, 0, dataBytes)
  {
  }
}
