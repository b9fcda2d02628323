/** The order-book sides the streaming session keeps for `l2_updates`
    (src/services/DeltaWebSocketService.ts, `applyOrderbookUpdate` and
    `verifyChecksum`). A side is a list of `[price, size]` levels whose texts
    are kept as the exchange sent them: two levels are the same price exactly
    when their price TEXTS are equal, while the side is ordered by the numeric
    value of the price. The numeric value (`parseFloat`) is abstracted as an
    ordering key `key: string -> int` on the price text. */
module OrderBook {
  import opened Text
  import Crc32

  /** One level `[price, size]`. */
  datatype Level = Level(price: string, size: string)

  /** The size that deletes a level. */
  const RemoveSize: string := "0"

  // ---------------------------------------------------------------------------
  // One delta

  /** `side.findIndex(level => level[0] === price)`: the first level with this
      price text, or -1. */
  function FindPrice(side: seq<Level>, price: string): (r: int)
    ensures -1 <= r < |side|
    ensures r >= 0 ==> side[r].price == price && forall j :: 0 <= j < r ==> side[j].price != price
    ensures r == -1 ==> forall j :: 0 <= j < |side| ==> side[j].price != price
  {
    if side == [] then -1
    else if side[0].price == price then 0
    else
      var r := FindPrice(side[1..], price);
      if r == -1 then -1 else r + 1
  }

  /** One `[price, size]` delta of the forEach in `applyOrderbookUpdate`: size
      `'0'` splices out the first level with that price, if any; any other size
      overwrites the size of that level, or pushes a new level at the end. */
  function ApplyDelta(side: seq<Level>, delta: Level): seq<Level>
  {
    var index := FindPrice(side, delta.price);
    if delta.size == RemoveSize then
      if index != -1 then side[..index] + side[index + 1..] else side
    else if index != -1 then side[index := Level(side[index].price, delta.size)]
    else side + [Level(delta.price, delta.size)]
  }

  /** The deltas applied in order. */
  function ApplyDeltas(side: seq<Level>, deltas: seq<Level>): seq<Level>
  {
    if deltas == [] then side
    else ApplyDelta(ApplyDeltas(side, deltas[..|deltas| - 1]), deltas[|deltas| - 1])
  }

  /** No two levels share a price text. */
  predicate UniquePrices(side: seq<Level>)
  {
    forall i, j :: 0 <= i < j < |side| ==> side[i].price != side[j].price
  }

  /** On a side with unique prices a delta is a map update: afterwards the
      levels at the delta's price are exactly the delta itself when its size
      is not `'0'`, and none when it is; every other level is kept. */
  lemma ApplyDeltaContents(side: seq<Level>, delta: Level, l: Level)
    requires UniquePrices(side)
    ensures l in ApplyDelta(side, delta) <==>
      if l.price == delta.price then delta.size != RemoveSize && l.size == delta.size
      else l in side
  {
    var index := FindPrice(side, delta.price);
    if index != -1 {
      if delta.size == RemoveSize {
        SpliceContents(side, index, l);
      } else {
        OverwriteContents(side, index, delta.size, l);
      }
    }
  }

  lemma SpliceContents(side: seq<Level>, index: nat, l: Level)
    requires UniquePrices(side) && index < |side|
    ensures l in side[..index] + side[index + 1..] <==> l.price != side[index].price && l in side
  {
    var r := side[..index] + side[index + 1..];
    if l in side && l.price != side[index].price {
      var k :| 0 <= k < |side| && side[k] == l;
      if k < index { assert r[k] == l; } else { assert r[k - 1] == l; }
    }
    if l in r {
      var k :| 0 <= k < |r| && r[k] == l;
      if k < index { assert side[k] == l; } else { assert side[k + 1] == l; }
    }
  }

  lemma OverwriteContents(side: seq<Level>, index: nat, size: string, l: Level)
    requires UniquePrices(side) && index < |side|
    ensures l in side[index := Level(side[index].price, size)] <==>
      if l.price == side[index].price then l.size == size else l in side
  {
    var r := side[index := Level(side[index].price, size)];
    if l in side && l.price != side[index].price {
      var k :| 0 <= k < |side| && side[k] == l;
      assert r[k] == l;
    }
    if l.price == side[index].price && l.size == size {
      assert r[index] == l;
    }
    if l in r {
      var k :| 0 <= k < |r| && r[k] == l;
      if k != index {
        assert side[k] == l;
      }
    }
  }

  /** A delta keeps the prices of a side unique. */
  lemma ApplyDeltaUnique(side: seq<Level>, delta: Level)
    requires UniquePrices(side)
    ensures UniquePrices(ApplyDelta(side, delta))
  {
    var index := FindPrice(side, delta.price);
    var r := ApplyDelta(side, delta);
    if index != -1 && delta.size == RemoveSize {
      forall i, j | 0 <= i < j < |r|
        ensures r[i].price != r[j].price
      {
        var i' := if i < index then i else i + 1;
        var j' := if j < index then j else j + 1;
        assert r[i] == side[i'] && r[j] == side[j'];
      }
    }
  }

  lemma {:induction false} ApplyDeltasUnique(side: seq<Level>, deltas: seq<Level>)
    requires UniquePrices(side)
    ensures UniquePrices(ApplyDeltas(side, deltas))
  {
    if deltas != [] {
      ApplyDeltasUnique(side, deltas[..|deltas| - 1]);
      ApplyDeltaUnique(ApplyDeltas(side, deltas[..|deltas| - 1]), deltas[|deltas| - 1]);
    }
  }

  // ---------------------------------------------------------------------------
  // Sorting by numeric price

  /** Ascending by the numeric value of the price. */
  predicate SortedBy(side: seq<Level>, key: string -> int)
  {
    forall i, j :: 0 <= i < j < |side| ==> key(side[i].price) <= key(side[j].price)
  }

  /** Insert `l` into a sorted side after every level whose key is not
      greater, so that equal keys keep their order. */
  function Insert(l: Level, sorted: seq<Level>, key: string -> int): seq<Level>
  {
    if sorted == [] then [l]
    else if key(l.price) < key(sorted[0].price) then [l] + sorted
    else [sorted[0]] + Insert(l, sorted[1..], key)
  }

  /** `side.sort((a, b) => parseFloat(a[0]) - parseFloat(b[0]))`, a stable
      sort, as insertion sort. */
  function SortLevels(side: seq<Level>, key: string -> int): seq<Level>
  {
    if side == [] then []
    else Insert(side[|side| - 1], SortLevels(side[..|side| - 1], key), key)
  }

  lemma {:induction false} InsertPermutes(l: Level, sorted: seq<Level>, key: string -> int)
    ensures multiset(Insert(l, sorted, key)) == multiset(sorted) + multiset{l}
  {
    if sorted != [] && key(l.price) >= key(sorted[0].price) {
      InsertPermutes(l, sorted[1..], key);
      assert sorted == [sorted[0]] + sorted[1..];
    }
  }

  lemma {:induction false} InsertSorted(l: Level, sorted: seq<Level>, key: string -> int)
    requires SortedBy(sorted, key)
    ensures SortedBy(Insert(l, sorted, key), key)
  {
    if sorted != [] && key(l.price) >= key(sorted[0].price) {
      InsertSorted(l, sorted[1..], key);
      var r := Insert(l, sorted, key);
      var tail := Insert(l, sorted[1..], key);
      InsertPermutes(l, sorted[1..], key);
      forall j | 0 < j < |r|
        ensures key(r[0].price) <= key(r[j].price)
      {
        assert r[j] in multiset(tail);
        assert r[j] == l || r[j] in sorted[1..];
      }
    }
  }

  /** The sort orders the side by price. */
  lemma {:induction false} SortLevelsSorted(side: seq<Level>, key: string -> int)
    ensures SortedBy(SortLevels(side, key), key)
  {
    if side != [] {
      SortLevelsSorted(side[..|side| - 1], key);
      InsertSorted(side[|side| - 1], SortLevels(side[..|side| - 1], key), key);
    }
  }

  /** The sort only reorders: the same levels, each as often. */
  lemma {:induction false} SortLevelsPermutes(side: seq<Level>, key: string -> int)
    ensures multiset(SortLevels(side, key)) == multiset(side)
  {
    if side != [] {
      var init := side[..|side| - 1];
      SortLevelsPermutes(init, key);
      InsertPermutes(side[|side| - 1], SortLevels(init, key), key);
      assert side == init + [side[|side| - 1]];
    }
  }

  /** A level whose price is new keeps prices unique when inserted. */
  lemma {:induction false} InsertUnique(l: Level, sorted: seq<Level>, key: string -> int)
    requires UniquePrices(sorted)
    requires forall x :: x in sorted ==> x.price != l.price
    ensures UniquePrices(Insert(l, sorted, key))
  {
    if sorted != [] && key(l.price) >= key(sorted[0].price) {
      InsertUnique(l, sorted[1..], key);
      var r := Insert(l, sorted, key);
      var tail := Insert(l, sorted[1..], key);
      InsertPermutes(l, sorted[1..], key);
      forall j | 0 < j < |r|
        ensures r[0].price != r[j].price
      {
        assert r[j] in multiset(tail);
        if r[j] != l {
          var k :| 0 <= k < |sorted[1..]| && sorted[1..][k] == r[j];
          assert sorted[k + 1] == r[j];
        }
      }
    }
  }

  /** Sorting keeps prices unique. */
  lemma {:induction false} SortLevelsUnique(side: seq<Level>, key: string -> int)
    requires UniquePrices(side)
    ensures UniquePrices(SortLevels(side, key))
  {
    if side != [] {
      var init := side[..|side| - 1];
      var l := side[|side| - 1];
      SortLevelsUnique(init, key);
      SortLevelsPermutes(init, key);
      forall x | x in SortLevels(init, key)
        ensures x.price != l.price
      {
        assert x in multiset(SortLevels(init, key));
        var k :| 0 <= k < |init| && init[k] == x;
        assert side[k] == x;
      }
      InsertUnique(l, SortLevels(init, key), key);
    }
  }

  // ---------------------------------------------------------------------------
  // The update of one side

  /** A side after the deltas and the sort. */
  function UpdatedSide(current: seq<Level>, deltas: seq<Level>, key: string -> int): seq<Level>
  {
    SortLevels(ApplyDeltas(current, deltas), key)
  }

  /** `applyOrderbookUpdate(currentLevels, newLevels)`: each delta edits the
      side in place (splice, overwrite or push), then the side is sorted by
      numeric price. The result is sorted, holds the edited levels in some
      order, and keeps prices unique when they were. */
  method ApplyOrderbookUpdate(current: seq<Level>, deltas: seq<Level>, key: string -> int)
    returns (side: seq<Level>)
    ensures side == UpdatedSide(current, deltas, key)
    ensures SortedBy(side, key)
    ensures multiset(side) == multiset(ApplyDeltas(current, deltas))
    ensures UniquePrices(current) ==> UniquePrices(side)
  {
    side := current;
    var i := 0;
    while i < |deltas|
      invariant 0 <= i <= |deltas|
      invariant side == ApplyDeltas(current, deltas[..i])
    {
      assert deltas[..i + 1][..i] == deltas[..i];
      var price := deltas[i].price;
      var size := deltas[i].size;
      var index := FindPrice(side, price);
      if size == RemoveSize {
        if index != -1 {
          side := side[..index] + side[index + 1..];
        }
      } else if index != -1 {
        side := side[index := Level(side[index].price, size)];
      } else {
        side := side + [Level(price, size)];
      }
      i := i + 1;
    }
    assert deltas[..i] == deltas;
    var edited := side;
    side := SortLevels(edited, key);
    SortLevelsSorted(edited, key);
    SortLevelsPermutes(edited, key);
    if UniquePrices(current) {
      ApplyDeltasUnique(current, deltas);
      SortLevelsUnique(edited, key);
    }
  }

  /** Bids `[100, 1], [99, 2]` updated by `[99, '0'], [98, 5]`: the level at
      99 goes, 98 is pushed, and the sort puts 98 first. */
  lemma BidsExample(key: string -> int)
    requires key("100") == 100 && key("99") == 99 && key("98") == 98
    ensures UpdatedSide([Level("100", "1"), Level("99", "2")], [Level("99", "0"), Level("98", "5")], key)
      == [Level("98", "5"), Level("100", "1")]
  {
    var side := [Level("100", "1"), Level("99", "2")];
    var first := [Level("99", "0")];
    assert FindPrice(side, "99") == 1;
    assert ApplyDeltas(side, first) == [Level("100", "1")];
    var deltas := first + [Level("98", "5")];
    assert deltas[..1] == first;
    assert FindPrice([Level("100", "1")], "98") == -1;
    var edited := [Level("100", "1"), Level("98", "5")];
    assert ApplyDeltas(side, deltas) == edited;
    assert edited[..1] == [Level("100", "1")];
    assert SortLevels(edited[..1], key) == [Level("100", "1")];
  }

  // ---------------------------------------------------------------------------
  // Checksum string

  /** `level.join(':')` */
  function LevelText(l: Level): string
  {
    l.price + ":" + l.size
  }

  function LevelTexts(levels: seq<Level>): (r: seq<string>)
    ensures |r| == |levels|
    ensures forall i :: 0 <= i < |levels| ==> r[i] == LevelText(levels[i])
  {
    if levels == [] then [] else [LevelText(levels[0])] + LevelTexts(levels[1..])
  }

  /** `levels.slice(0, n)` */
  function Take(levels: seq<Level>, n: nat): (r: seq<Level>)
  {
    if |levels| <= n then levels else levels[..n]
  }

  /** `levels.slice(0, 10).map(l => l.join(':')).join(':')` */
  function SideText(levels: seq<Level>): string
  {
    JoinWith(LevelTexts(Take(levels, 10)), ":")
  }

  /** The string `verifyChecksum` hashes: the first ten asks, then `:`,
      then the first ten bids. */
  function ChecksumString(asks: seq<Level>, bids: seq<Level>): string
  {
    SideText(asks) + ":" + SideText(bids)
  }

  /** The texts of the levels in order, price then size. */
  function Fields(levels: seq<Level>): seq<string>
  {
    if levels == [] then [] else [levels[0].price, levels[0].size] + Fields(levels[1..])
  }

  /** What splitting a side's text on `:` gives back: one empty field for an
      empty side, else its fields. */
  function SideFields(levels: seq<Level>): seq<string>
  {
    if levels == [] then [""] else Fields(levels)
  }

  /** No price or size text of the first ten levels contains `:`. */
  predicate ColonFree(levels: seq<Level>)
  {
    forall l :: l in Take(levels, 10) ==> ':' !in l.price && ':' !in l.size
  }

  lemma {:induction false} SplitLevels(levels: seq<Level>)
    requires levels != []
    requires forall l :: l in levels ==> ':' !in l.price && ':' !in l.size
    ensures Split(JoinWith(LevelTexts(levels), ":"), ':') == Fields(levels)
  {
    var l := levels[0];
    SplitClean(l.price, ':');
    SplitClean(l.size, ':');
    SplitAppend(l.price, l.size, ':');
    assert LevelText(l) == l.price + [':'] + l.size;
    if |levels| == 1 {
      assert LevelTexts(levels) == [LevelText(l)];
    } else {
      var rest := levels[1..];
      assert LevelTexts(levels)[1..] == LevelTexts(rest);
      SplitLevels(rest);
      SplitAppend(LevelText(l), JoinWith(LevelTexts(rest), ":"), ':');
      assert JoinWith(LevelTexts(levels), ":") == LevelText(l) + [':'] + JoinWith(LevelTexts(rest), ":");
    }
  }

  lemma SideTextSplits(levels: seq<Level>)
    requires ColonFree(levels)
    ensures Split(SideText(levels), ':') == SideFields(Take(levels, 10))
  {
    if Take(levels, 10) != [] {
      SplitLevels(Take(levels, 10));
    }
  }

  /** Split on `:`, the checksum string gives back the price and size texts
      of the first ten asks, then those of the first ten bids. The boundary
      between the two sides is not part of it (`ChecksumStringBoundary`). */
  lemma ChecksumStringSplits(asks: seq<Level>, bids: seq<Level>)
    requires ColonFree(asks) && ColonFree(bids)
    ensures Split(ChecksumString(asks, bids), ':') == SideFields(Take(asks, 10)) + SideFields(Take(bids, 10))
  {
    SideTextSplits(asks);
    SideTextSplits(bids);
    SplitAppend(SideText(asks), SideText(bids), ':');
    assert ChecksumString(asks, bids) == SideText(asks) + [':'] + SideText(bids);
  }

  /** Moving a level from the head of the bids to the end of the asks gives
      the same checksum string: the string does not record where the asks
      end. */
  lemma ChecksumStringBoundary(a: Level, b: Level, c: Level)
    ensures ChecksumString([a], [b, c]) == ChecksumString([a, b], [c])
  {
    var ta, tb, tc := LevelText(a), LevelText(b), LevelText(c);
    assert Take([a], 10) == [a] && Take([c], 10) == [c];
    assert Take([b, c], 10) == [b, c] && Take([a, b], 10) == [a, b];
    assert SideText([a]) == ta by { assert LevelTexts([a]) == [ta]; }
    assert SideText([c]) == tc by { assert LevelTexts([c]) == [tc]; }
    assert SideText([b, c]) == tb + ":" + tc by {
      assert LevelTexts([b, c]) == [tb, tc];
      assert [tb, tc][1..] == [tc];
      assert JoinWith([tb, tc], ":") == tb + ":" + JoinWith([tc], ":");
    }
    assert SideText([a, b]) == ta + ":" + tb by {
      assert LevelTexts([a, b]) == [ta, tb];
      assert [ta, tb][1..] == [tb];
      assert JoinWith([ta, tb], ":") == ta + ":" + JoinWith([tb], ":");
    }
  }

  /** Equal field lists come from equal levels. */
  lemma {:induction false} FieldsInjective(x: seq<Level>, y: seq<Level>)
    requires Fields(x) == Fields(y)
    ensures x == y
  {
    if x != [] && y != [] {
      assert Fields(x)[0] == x[0].price && Fields(x)[1] == x[0].size;
      assert Fields(y)[0] == y[0].price && Fields(y)[1] == y[0].size;
      assert Fields(x)[2..] == Fields(x[1..]);
      assert Fields(y)[2..] == Fields(y[1..]);
      FieldsInjective(x[1..], y[1..]);
      assert x == [x[0]] + x[1..] && y == [y[0]] + y[1..];
    }
  }

  lemma {:induction false} FieldsLength(x: seq<Level>)
    ensures |Fields(x)| == 2 * |x|
  {
    if x != [] {
      FieldsLength(x[1..]);
    }
  }

  /** With colon-free texts, non-empty sides and the same number of asks
      among the first ten, books that hash the same string agree on their
      first ten asks and their first ten bids. */
  lemma ChecksumStringDetermines(asks: seq<Level>, bids: seq<Level>, asks': seq<Level>, bids': seq<Level>)
    requires ColonFree(asks) && ColonFree(bids) && ColonFree(asks') && ColonFree(bids')
    requires asks != [] && bids != [] && asks' != [] && bids' != []
    requires |Take(asks, 10)| == |Take(asks', 10)|
    requires ChecksumString(asks, bids) == ChecksumString(asks', bids')
    ensures Take(asks, 10) == Take(asks', 10) && Take(bids, 10) == Take(bids', 10)
  {
    ChecksumStringSplits(asks, bids);
    ChecksumStringSplits(asks', bids');
    var fa, fb := Fields(Take(asks, 10)), Fields(Take(bids, 10));
    var fa', fb' := Fields(Take(asks', 10)), Fields(Take(bids', 10));
    FieldsLength(Take(asks, 10));
    FieldsLength(Take(asks', 10));
    assert fa + fb == fa' + fb';
    assert fa == (fa + fb)[..|fa|] && fa' == (fa' + fb')[..|fa'|];
    assert fb == (fa + fb)[|fa|..] && fb' == (fa' + fb')[|fa'|..];
    FieldsInjective(Take(asks, 10), Take(asks', 10));
    FieldsInjective(Take(bids, 10), Take(bids', 10));
  }

  /** The CRC-32 of the checksum string, as an unsigned number, equals the
      checksum the exchange sent. */
  predicate ChecksumMatches(asks: seq<Level>, bids: seq<Level>, checksum: int)
  {
    Crc32.Crc(Crc32.Bytes(ChecksumString(asks, bids))) as int == checksum
  }

  /** `verifyChecksum`, computing the CRC with the table-driven `crc32`. */
  method VerifyChecksum(asks: seq<Level>, bids: seq<Level>, checksum: int) returns (ok: bool)
    ensures ok <==> ChecksumMatches(asks, bids, checksum)
  {
    var crc := Crc32.Crc32(ChecksumString(asks, bids));
    ok := crc as int == checksum;
  }
}
