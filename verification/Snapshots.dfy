// A book snapshot of at most fifty best-first levels a side: what `Validate`
// accepts, and how a feed of unknown direction is turned into one.
module Snapshots {

  const MAX_LEVELS := 50

  datatype Level = Level(price: real, qty: real)

  const NO_LEVEL := Level(0.0, 0.0)

  predicate Better(isBid: bool, a: real, b: real) {
    if isBid then a > b else a < b
  }

  /** No later level is better than an earlier one. */
  predicate BestFirst(isBid: bool, s: seq<Level>) {
    forall i, j :: 0 <= i < j < |s| ==> !Better(isBid, s[j].price, s[i].price)
  }

  predicate StrictlyBestFirst(isBid: bool, s: seq<Level>) {
    forall i, j :: 0 <= i < j < |s| ==> Better(isBid, s[i].price, s[j].price)
  }

  predicate WorstFirst(isBid: bool, s: seq<Level>) {
    forall i, j :: 0 <= i < j < |s| ==> !Better(isBid, s[i].price, s[j].price)
  }

  predicate AllPositive(s: seq<Level>) {
    forall i :: 0 <= i < |s| ==> s[i].price > 0.0 && s[i].qty > 0.0
  }

  predicate Sized(count: nat) {
    0 < count <= MAX_LEVELS
  }

  /** What a strategy may rely on in a book. */
  predicate WellFormed(bids: seq<Level>, asks: seq<Level>) {
    && Sized(|bids|) && Sized(|asks|)
    && AllPositive(bids) && AllPositive(asks)
    && BestFirst(true, bids) && BestFirst(false, asks)
    && bids[0].price < asks[0].price
  }

  datatype Verdict = Sound | EmptyOrOversized | InvalidLevel | BidsUnsorted | AsksUnsorted | Crossed

  // -------------------------------------------------------------- feed texts

  /** The outcome of reading one decimal text as a 64-bit float. */
  datatype Text = Garbage | NotANumber | Infinite(positive: bool) | Number(value: real)

  datatype Pair = Pair(price: Text, qty: Text)

  datatype Parsed = Accepted | InvalidPrice(level: nat) | InvalidQuantity(level: nat)

  predicate Usable(t: Text) {
    t.Number? && t.value > 0.0
  }

  predicate AllUsable(levels: seq<Pair>) {
    forall i :: 0 <= i < |levels| ==> Usable(levels[i].price) && Usable(levels[i].qty)
  }

  function Values(levels: seq<Pair>): (r: seq<Level>)
    requires AllUsable(levels)
    ensures |r| == |levels|
    ensures forall i :: 0 <= i < |r| ==> r[i] == Level(levels[i].price.value, levels[i].qty.value)
  {
    seq(|levels|, i requires 0 <= i < |levels| => Level(levels[i].price.value, levels[i].qty.value))
  }

  /** The price used to guess the feed's direction; unreadable text counts as zero. */
  function Guess(t: Text): Text {
    if t.Garbage? then Number(0.0) else t
  }

  /** IEEE order: nothing compares with a NaN. */
  predicate Greater(a: Text, b: Text) {
    && (a.Number? || a.Infinite?) && (b.Number? || b.Infinite?)
    && if a.Infinite? then a.positive && b != a
       else if b.Infinite? then !b.positive
       else a.value > b.value
  }

  predicate BetterText(isBid: bool, a: Text, b: Text) {
    if isBid then Greater(a, b) else Greater(b, a)
  }

  predicate BetterAtTheEnd(isBid: bool, levels: seq<Pair>) {
    |levels| > MAX_LEVELS && BetterText(isBid, Guess(levels[|levels| - 1].price), Guess(levels[0].price))
  }

  /** An oversized feed is cut to the end its first and last price point at. */
  function Source(isBid: bool, levels: seq<Pair>): (r: seq<Pair>)
    ensures |levels| <= MAX_LEVELS ==> r == levels
    ensures |levels| > MAX_LEVELS ==> |r| == MAX_LEVELS
  {
    if |levels| <= MAX_LEVELS then levels
    else if BetterAtTheEnd(isBid, levels) then levels[|levels| - MAX_LEVELS..]
    else levels[..MAX_LEVELS]
  }

  // ------------------------------------------------------------ stable sorting

  function Insert(isBid: bool, l: Level, s: seq<Level>): (r: seq<Level>)
    ensures |r| == |s| + 1
  {
    if s == [] || !Better(isBid, s[0].price, l.price) then [l] + s
    else [s[0]] + Insert(isBid, l, s[1..])
  }

  /** The standard library's stable sort, best price first. */
  function Sorted(isBid: bool, s: seq<Level>): (r: seq<Level>)
    ensures |r| == |s|
  {
    if s == [] then [] else Insert(isBid, s[0], Sorted(isBid, s[1..]))
  }

  function Reversed(s: seq<Level>): (r: seq<Level>)
    ensures |r| == |s|
    ensures forall i :: 0 <= i < |s| ==> r[i] == s[|s| - 1 - i]
  {
    if s == [] then [] else Reversed(s[1..]) + [s[0]]
  }

  /** The levels at one price, in order. */
  function AtPrice(s: seq<Level>, price: real): seq<Level> {
    if s == [] then []
    else (if s[0].price == price then [s[0]] else []) + AtPrice(s[1..], price)
  }

  lemma {:induction false} InsertKeeps(isBid: bool, l: Level, s: seq<Level>)
    requires BestFirst(isBid, s)
    ensures var r := Insert(isBid, l, s);
      BestFirst(isBid, r) && multiset(r) == multiset(s) + multiset{l}
  {
    if s == [] || !Better(isBid, s[0].price, l.price) {
    } else {
      var rest := Insert(isBid, l, s[1..]);
      InsertKeeps(isBid, l, s[1..]);
      assert s == [s[0]] + s[1..];
      assert multiset(rest) == multiset(s[1..]) + multiset{l};
      forall k | 0 <= k < |rest|
        ensures !Better(isBid, rest[k].price, s[0].price)
      {
        assert rest[k] in multiset(rest);
        if rest[k] != l {
          assert rest[k] in s[1..];
        }
      }
    }
  }

  lemma {:induction false} InsertIsStable(isBid: bool, l: Level, s: seq<Level>, price: real)
    ensures AtPrice(Insert(isBid, l, s), price) == (if l.price == price then [l] else []) + AtPrice(s, price)
  {
    var r := Insert(isBid, l, s);
    if s == [] || !Better(isBid, s[0].price, l.price) {
      assert r == [l] + s && r[1..] == s;
    } else {
      InsertIsStable(isBid, l, s[1..], price);
      assert r == [s[0]] + Insert(isBid, l, s[1..]) && r[1..] == Insert(isBid, l, s[1..]);
      assert !(s[0].price == price && l.price == price);
    }
  }

  /** Sorting is a best-first permutation that keeps the feed's order among equal
      prices. */
  lemma {:induction false} SortedIsStableSort(isBid: bool, s: seq<Level>, price: real)
    ensures var r := Sorted(isBid, s);
      BestFirst(isBid, r) && multiset(r) == multiset(s) && AtPrice(r, price) == AtPrice(s, price)
  {
    if s != [] {
      SortedIsStableSort(isBid, s[1..], price);
      InsertKeeps(isBid, s[0], Sorted(isBid, s[1..]));
      InsertIsStable(isBid, s[0], Sorted(isBid, s[1..]), price);
      assert s == [s[0]] + s[1..];
    }
  }

  lemma {:induction false} AlreadySorted(isBid: bool, s: seq<Level>)
    requires BestFirst(isBid, s)
    ensures Sorted(isBid, s) == s
  {
    if s != [] {
      AlreadySorted(isBid, s[1..]);
    }
  }

  lemma {:induction false} InsertWorst(isBid: bool, l: Level, s: seq<Level>)
    requires forall i :: 0 <= i < |s| ==> Better(isBid, s[i].price, l.price)
    ensures Insert(isBid, l, s) == s + [l]
  {
    if s != [] {
      InsertWorst(isBid, l, s[1..]);
    }
  }

  lemma {:induction false} ReversedIsSorted(isBid: bool, s: seq<Level>)
    requires forall i, j :: 0 <= i < j < |s| ==> Better(isBid, s[j].price, s[i].price)
    ensures Sorted(isBid, s) == Reversed(s)
  {
    if s != [] {
      ReversedIsSorted(isBid, s[1..]);
      InsertWorst(isBid, s[0], Reversed(s[1..]));
    }
  }

  /** What a usable feed leaves on its side of the book. */
  function Kept(isBid: bool, levels: seq<Pair>, maxLevels: nat): (r: seq<Level>)
    requires AllUsable(Source(isBid, levels))
    ensures |r| <= MAX_LEVELS
  {
    var best := Sorted(isBid, Values(Source(isBid, levels)));
    if |best| <= maxLevels then best else best[..maxLevels]
  }

  function Padded(s: seq<Level>): (r: seq<Level>)
    requires |s| <= MAX_LEVELS
    ensures |r| == MAX_LEVELS
  {
    s + seq(MAX_LEVELS - |s|, _ => NO_LEVEL)
  }

  // ------------------------------------------------------------- the snapshot

  class OrderbookSnapshot {
    const bids: array<Level>
    const asks: array<Level>
    var bidCount: nat
    var askCount: nat
    var sequence: nat
    var timestampNs: int

    ghost predicate Valid()
      reads this
    {
      bids.Length == MAX_LEVELS && asks.Length == MAX_LEVELS && bids != asks
    }

    constructor ()
      ensures Valid() && fresh(bids) && fresh(asks)
      ensures bidCount == 0 && askCount == 0 && sequence == 0 && timestampNs == 0
      ensures bids[..] == seq(MAX_LEVELS, _ => NO_LEVEL) && asks[..] == seq(MAX_LEVELS, _ => NO_LEVEL)
    {
      bids := new Level[MAX_LEVELS](_ => NO_LEVEL);
      asks := new Level[MAX_LEVELS](_ => NO_LEVEL);
      bidCount, askCount, sequence, timestampNs := 0, 0, 0, 0;
    }

    ghost predicate Accepted()
      requires Valid()
      reads this, bids, asks
    {
      Sized(bidCount) && Sized(askCount) && WellFormed(bids[..bidCount], asks[..askCount])
    }

    /** Accepts exactly the well-formed books, and otherwise names the first
        check that fails. */
    method Validate() returns (verdict: Verdict)
      requires Valid()
      ensures verdict.EmptyOrOversized? <==> !Sized(bidCount) || !Sized(askCount)
      ensures Sized(bidCount) && Sized(askCount) ==>
        var b, a := bids[..bidCount], asks[..askCount];
        && (verdict.Sound? <==> WellFormed(b, a))
        && (verdict.InvalidLevel? <==> !AllPositive(b) || !AllPositive(a))
        && (verdict.BidsUnsorted? ==> !BestFirst(true, b))
        && (verdict.AsksUnsorted? ==> BestFirst(true, b) && !BestFirst(false, a))
        && (verdict.Crossed? ==> BestFirst(true, b) && BestFirst(false, a) && b[0].price >= a[0].price)
    {
      if bidCount == 0 || askCount == 0 || bidCount > MAX_LEVELS || askCount > MAX_LEVELS {
        return EmptyOrOversized;
      }
      for n := 0 to bidCount
        invariant AllPositive(bids[..n])
      {
        if bids[n].price <= 0.0 || bids[n].qty <= 0.0 {
          assert bids[..bidCount][n] == bids[n];
          return InvalidLevel;
        }
      }
      for n := 0 to askCount
        invariant AllPositive(asks[..n])
      {
        if asks[n].price <= 0.0 || asks[n].qty <= 0.0 {
          assert asks[..askCount][n] == asks[n];
          return InvalidLevel;
        }
      }
      // The repeated positivity test inside these two loops can never fail.
      for n := 1 to bidCount
        invariant BestFirst(true, bids[..n])
      {
        if bids[n].price > bids[n - 1].price {
          assert bids[..bidCount][n] == bids[n] && bids[..bidCount][n - 1] == bids[n - 1];
          return BidsUnsorted;
        }
      }
      for n := 1 to askCount
        invariant BestFirst(false, asks[..n])
      {
        if asks[n].price < asks[n - 1].price {
          assert asks[..askCount][n] == asks[n] && asks[..askCount][n - 1] == asks[n - 1];
          return AsksUnsorted;
        }
      }
      if bids[0].price >= asks[0].price {
        return Crossed;
      }
      return Sound;
    }

    /** Replaces one side, or leaves the snapshot as it was and names the first
        level it could not use. */
    method SetLevelsFromStrings(isBid: bool, levels: seq<Pair>, maxLevels: nat) returns (parsed: Parsed)
      requires Valid()
      modifies `bidCount, `askCount, if isBid then bids else asks
      ensures parsed.Accepted? <==> AllUsable(Source(isBid, levels))
      ensures parsed.Accepted? ==>
        var kept := Kept(isBid, levels, maxLevels);
        if isBid then bids[..] == Padded(kept) && bidCount == |kept| && askCount == old(askCount)
        else asks[..] == Padded(kept) && askCount == |kept| && bidCount == old(bidCount)
      ensures !parsed.Accepted? ==>
        && bidCount == old(bidCount) && askCount == old(askCount)
        && bids[..] == old(bids[..]) && asks[..] == old(asks[..])
        && parsed.level < |Source(isBid, levels)| && AllUsable(Source(isBid, levels)[..parsed.level])
        && (parsed.InvalidPrice? ==> !Usable(Source(isBid, levels)[parsed.level].price))
        && (parsed.InvalidQuantity? ==>
              Usable(Source(isBid, levels)[parsed.level].price) && !Usable(Source(isBid, levels)[parsed.level].qty))
    {
      hide Sorted, Values, AllUsable, Usable;
      var take := if |levels| <= MAX_LEVELS then |levels| else MAX_LEVELS;
      var worstFirst := |levels| > MAX_LEVELS
        && BetterText(isBid, Guess(levels[|levels| - 1].price), Guess(levels[0].price));
      var source := if worstFirst then levels[|levels| - take..] else levels[..take];
      assert source == Source(isBid, levels);
      var read;
      parsed, read := ReadLevels(source);
      if !parsed.Accepted? {
        return;
      }
      read := Arrange(isBid, read);
      var count := if take <= maxLevels then take else maxLevels;
      Store(if isBid then bids else asks, read[..count]);
      if isBid {
        bidCount := count;
      } else {
        askCount := count;
      }
    }
  }

  method Store(out: array<Level>, s: seq<Level>)
    requires |s| <= out.Length == MAX_LEVELS
    modifies out
    ensures out[..] == Padded(s)
  {
    forall n | 0 <= n < |s| {
      out[n] := s[n];
    }
    forall n | |s| <= n < MAX_LEVELS {
      out[n] := NO_LEVEL;
    }
  }

  /** Reads every level, or stops at the first that is not a positive finite price
      with a positive finite quantity. */
  method ReadLevels(source: seq<Pair>) returns (parsed: Parsed, read: seq<Level>)
    ensures parsed.Accepted? <==> AllUsable(source)
    ensures parsed.Accepted? ==> read == Values(source)
    ensures !parsed.Accepted? ==>
      && parsed.level < |source| && AllUsable(source[..parsed.level])
      && (parsed.InvalidPrice? ==> !Usable(source[parsed.level].price))
      && (parsed.InvalidQuantity? ==> Usable(source[parsed.level].price) && !Usable(source[parsed.level].qty))
  {
    read := [];
    for n := 0 to |source|
      invariant AllUsable(source[..n]) && read == Values(source[..n])
    {
      if !Usable(source[n].price) {
        return InvalidPrice(n), [];
      }
      if !Usable(source[n].qty) {
        return InvalidQuantity(n), [];
      }
      read := read + [Level(source[n].price.value, source[n].qty.value)];
    }
    assert source[..|source|] == source;
    parsed := Accepted;
  }

  /** Reverse, keep or sort: all three are the stable sort. */
  method Arrange(isBid: bool, read: seq<Level>) returns (r: seq<Level>)
    ensures r == Sorted(isBid, read)
  {
    var strictlyWorstFirst := Neighbours(isBid, read, true);
    if strictlyWorstFirst {
      ReversedIsSorted(isBid, read);
      return Reversed(read);
    }
    var bestFirst := Neighbours(isBid, read, false);
    if bestFirst {
      AlreadySorted(isBid, read);
      return read;
    }
    return Sorted(isBid, read);
  }

  /** One pass over neighbouring pairs: is every level strictly better than the one
      before it, or is none? */
  method Neighbours(isBid: bool, s: seq<Level>, climbing: bool) returns (all: bool)
    ensures climbing ==> (all <==> forall i, j :: 0 <= i < j < |s| ==> Better(isBid, s[j].price, s[i].price))
    ensures !climbing ==> (all <==> BestFirst(isBid, s))
  {
    var n := 1;
    while n < |s|
      invariant n >= 1
      invariant climbing ==> forall i, j :: 0 <= i < j < n && j < |s| ==> Better(isBid, s[j].price, s[i].price)
      invariant !climbing ==> forall i, j :: 0 <= i < j < n && j < |s| ==> !Better(isBid, s[j].price, s[i].price)
    {
      if Better(isBid, s[n].price, s[n - 1].price) != climbing {
        return false;
      }
      n := n + 1;
    }
    return true;
  }

  // ------------------------------------------------------- the best selection

  /** `kept` is a selection of the best of `all`: nothing left behind beats
      anything kept. */
  ghost predicate BestSelection(isBid: bool, kept: multiset<Level>, all: multiset<Level>) {
    kept <= all && forall l: Level, m: Level :: l in kept && m in all - kept ==> !Better(isBid, m.price, l.price)
  }

  lemma PrefixIsBest(isBid: bool, a: seq<Level>, b: seq<Level>)
    requires BestFirst(isBid, a + b)
    ensures BestSelection(isBid, multiset(a), multiset(a + b))
  {
    assert multiset(a + b) - multiset(a) == multiset(b);
    forall l: Level, m: Level | l in multiset(a) && m in multiset(b)
      ensures !Better(isBid, m.price, l.price)
    {
      var i :| 0 <= i < |a| && a[i] == l;
      var j :| 0 <= j < |b| && b[j] == m;
      assert (a + b)[i] == l && (a + b)[|a| + j] == m;
    }
  }

  lemma KeptIsBestOfSource(isBid: bool, levels: seq<Pair>, maxLevels: nat)
    requires AllUsable(Source(isBid, levels))
    ensures var kept := Kept(isBid, levels, maxLevels);
      BestFirst(isBid, kept) && BestSelection(isBid, multiset(kept), multiset(Values(Source(isBid, levels))))
  {
    hide Values, Source, Sorted, BestSelection;
    var v := Values(Source(isBid, levels));
    var r, kept := Sorted(isBid, v), Kept(isBid, levels, maxLevels);
    SortedIsStableSort(isBid, v, 0.0);
    assert r == kept + r[|kept|..];
    PrefixIsBest(isBid, kept, r[|kept|..]);
  }

  /** Levels are usable when every price and quantity is a positive number. */
  lemma UsableIff(levels: seq<Pair>)
    ensures AllUsable(levels) <==>
      forall i :: 0 <= i < |levels| ==>
        match levels[i]
        case Pair(Number(price), Number(qty)) => price > 0.0 && qty > 0.0
        case _ => false
  {
  }

  /** Text `a` says a higher price than text `b`: unreadable text says zero, an
      infinity lies beyond every number, and nothing is above or below a NaN. */
  predicate Higher(a: Text, b: Text) {
    match (a, b)
    case (NotANumber, _) => false
    case (_, NotANumber) => false
    case (Infinite(up), Infinite(above)) => up && !above
    case (Infinite(up), _) => up
    case (_, Infinite(above)) => !above
    case (Number(x), Number(y)) => x > y
    case (Number(x), Garbage) => x > 0.0
    case (Garbage, Number(y)) => 0.0 > y
    case (Garbage, Garbage) => false
  }

  /** An oversized feed keeps its last fifty levels when its last bid is higher, or
      its last ask lower, than its first, and otherwise its first fifty. */
  lemma WhereCut(isBid: bool, levels: seq<Pair>)
    requires |levels| > 50
    ensures var first, last := levels[0].price, levels[|levels| - 1].price;
      var lastIsBetter := if isBid then Higher(last, first) else Higher(first, last);
      Source(isBid, levels) == if lastIsBetter then levels[|levels| - 50..] else levels[..50]
  {
  }

  /** What is left on a side of usable levels passes every check of a snapshot but
      those on emptiness and on crossing. */
  lemma UsableLevelsValidate(isBid: bool, levels: seq<Pair>, maxLevels: nat)
    requires AllUsable(Source(isBid, levels))
    ensures var kept, all := Kept(isBid, levels, maxLevels), |Source(isBid, levels)|;
      && AllPositive(kept) && BestFirst(isBid, kept)
      && |kept| == (if all <= maxLevels then all else maxLevels) && |kept| <= MAX_LEVELS
  {
    hide Sorted, Source, BestFirst, AllPositive;
    var v := Values(Source(isBid, levels));
    SortedIsStableSort(isBid, v, 0.0);
    ValuesPositive(Source(isBid, levels));
    hide Values, AllUsable;
    var r, kept := Sorted(isBid, v), Kept(isBid, levels, maxLevels);
    assert kept == r[..|kept|];
    BestFirstPrefix(isBid, r, |kept|);
    PositivePrefix(v, r, |kept|);
  }

  lemma ValuesPositive(levels: seq<Pair>)
    requires AllUsable(levels)
    ensures AllPositive(Values(levels))
  {
  }

  lemma PositivePrefix(v: seq<Level>, r: seq<Level>, n: nat)
    requires AllPositive(v) && multiset(r) == multiset(v) && n <= |r|
    ensures AllPositive(r[..n])
  {
    forall i | 0 <= i < n
      ensures r[i].price > 0.0 && r[i].qty > 0.0
    {
      assert r[i] in multiset(r);
    }
  }

  lemma BestFirstPrefix(isBid: bool, r: seq<Level>, n: nat)
    requires BestFirst(isBid, r) && n <= |r|
    ensures BestFirst(isBid, r[..n])
  {
  }

  /** Adding levels keeps a best selection exactly when none of them beats a kept one. */
  lemma UnreadMustNotBeat(isBid: bool, kept: multiset<Level>, seen: multiset<Level>, unread: multiset<Level>)
    requires BestSelection(isBid, kept, seen)
    ensures BestSelection(isBid, kept, seen + unread) <==> NoneBeats(isBid, unread, kept)
  {
    assert seen + unread - kept == (seen - kept) + unread;
  }

  ghost predicate NoneBeats(isBid: bool, unread: multiset<Level>, kept: multiset<Level>) {
    forall l: Level, m: Level :: l in kept && m in unread ==> !Better(isBid, m.price, l.price)
  }

  /** The levels of an oversized feed that are never looked at. */
  function Unread(isBid: bool, levels: seq<Pair>): seq<Pair> {
    if |levels| <= MAX_LEVELS then []
    else if BetterAtTheEnd(isBid, levels) then levels[..|levels| - MAX_LEVELS]
    else levels[MAX_LEVELS..]
  }

  lemma ValuesOfBoth(a: seq<Pair>, b: seq<Pair>)
    requires AllUsable(a + b)
    ensures AllUsable(a) && AllUsable(b) && Values(a + b) == Values(a) + Values(b)
  {
    assert forall i :: 0 <= i < |a| ==> a[i] == (a + b)[i];
    assert forall i :: 0 <= i < |b| ==> b[i] == (a + b)[|a| + i];
  }

  lemma CutInTwo(isBid: bool, levels: seq<Pair>)
    ensures var source, unread := Source(isBid, levels), Unread(isBid, levels);
      levels == source + unread || levels == unread + source
  {
  }

  lemma SourceAndUnread(isBid: bool, levels: seq<Pair>)
    requires AllUsable(levels)
    ensures var source, unread := Source(isBid, levels), Unread(isBid, levels);
      && AllUsable(source) && AllUsable(unread)
      && multiset(Values(source)) + multiset(Values(unread)) == multiset(Values(levels))
  {
    hide AllUsable, Values, Source, Unread;
    var source, unread := Source(isBid, levels), Unread(isBid, levels);
    CutInTwo(isBid, levels);
    if levels == source + unread {
      ValuesOfBoth(source, unread);
    } else {
      ValuesOfBoth(unread, source);
    }
  }

  /** What a usable feed leaves on its side of the book is a best selection of the
      whole feed exactly when no level beyond the cut beats a kept one. */
  lemma UnreadMustNotBeatKept(isBid: bool, levels: seq<Pair>, maxLevels: nat)
    requires AllUsable(levels)
    ensures AllUsable(Source(isBid, levels)) && AllUsable(Unread(isBid, levels))
    ensures var kept := multiset(Kept(isBid, levels, maxLevels));
      BestSelection(isBid, kept, multiset(Values(levels))) <==>
        NoneBeats(isBid, multiset(Values(Unread(isBid, levels))), kept)
  {
    SourceAndUnread(isBid, levels);
    KeptIsBestOfSource(isBid, levels, maxLevels);
    UnreadMustNotBeat(isBid, multiset(Kept(isBid, levels, maxLevels)), multiset(Values(Source(isBid, levels))),
                      multiset(Values(Unread(isBid, levels))));
  }

  /** How many levels are at least as good as a price. */
  function AsGood(isBid: bool, s: seq<Level>, price: real): (n: nat)
    ensures n <= |s|
  {
    if s == [] then 0 else (if Better(isBid, price, s[0].price) then 0 else 1) + AsGood(isBid, s[1..], price)
  }

  lemma {:induction false} InsertCounts(isBid: bool, l: Level, s: seq<Level>, price: real)
    ensures AsGood(isBid, Insert(isBid, l, s), price) == AsGood(isBid, [l] + s, price)
  {
    if s == [] || !Better(isBid, s[0].price, l.price) {
    } else {
      InsertCounts(isBid, l, s[1..], price);
      assert ([s[0]] + Insert(isBid, l, s[1..]))[1..] == Insert(isBid, l, s[1..]);
      assert ([l] + s[1..])[1..] == s[1..] && ([l] + s)[1..] == s;
    }
  }

  lemma {:induction false} SortedCounts(isBid: bool, s: seq<Level>, price: real)
    ensures AsGood(isBid, Sorted(isBid, s), price) == AsGood(isBid, s, price)
  {
    if s != [] {
      SortedCounts(isBid, s[1..], price);
      var rest := Sorted(isBid, s[1..]);
      InsertCounts(isBid, s[0], rest, price);
      assert ([s[0]] + rest)[1..] == rest;
    }
  }

  /** In best-first order the levels at least as good as a price come first, so
      the first `n` are such exactly when there are that many. */
  lemma {:induction false} FirstAreAsGoodIff(isBid: bool, r: seq<Level>, n: nat, price: real)
    requires BestFirst(isBid, r) && n <= |r|
    ensures (forall i :: 0 <= i < n ==> !Better(isBid, price, r[i].price)) <==> n <= AsGood(isBid, r, price)
  {
    if n == 0 {
    } else if Better(isBid, price, r[0].price) {
      NoneAsGood(isBid, r, price);
    } else {
      var rest := r[1..];
      FirstAreAsGoodIff(isBid, rest, n - 1, price);
      assert forall i :: 0 <= i < n - 1 ==> rest[i] == r[i + 1];
      if forall i :: 0 <= i < n - 1 ==> !Better(isBid, price, rest[i].price) {
        forall i | 0 <= i < n
          ensures !Better(isBid, price, r[i].price)
        {
          assert i > 0 ==> r[i] == rest[i - 1];
        }
      }
    }
  }

  lemma {:induction false} NoneAsGood(isBid: bool, r: seq<Level>, price: real)
    requires forall i :: 0 <= i < |r| ==> Better(isBid, price, r[i].price)
    ensures AsGood(isBid, r, price) == 0
  {
    if r != [] {
      NoneAsGood(isBid, r[1..], price);
    }
  }

  predicate Unbeaten(isBid: bool, kept: seq<Level>, price: real) {
    forall i :: 0 <= i < |kept| ==> !Better(isBid, price, kept[i].price)
  }

  lemma KeptAsGoodIff(isBid: bool, levels: seq<Pair>, maxLevels: nat, m: Level)
    requires AllUsable(Source(isBid, levels))
    ensures var kept := Kept(isBid, levels, maxLevels);
      Unbeaten(isBid, kept, m.price) <==> AsGood(isBid, Values(Source(isBid, levels)), m.price) >= |kept|
  {
    hide Source, Values, Sorted, AsGood, Better;
    var v := Values(Source(isBid, levels));
    var r, kept := Sorted(isBid, v), Kept(isBid, levels, maxLevels);
    SortedIsStableSort(isBid, v, 0.0);
    SortedCounts(isBid, v, m.price);
    FirstAreAsGoodIff(isBid, r, |kept|, m.price);
    assert forall i :: 0 <= i < |kept| ==> kept[i] == r[i];
  }

  lemma NoneBeatsIff(isBid: bool, unread: seq<Level>, kept: seq<Level>)
    ensures NoneBeats(isBid, multiset(unread), multiset(kept)) <==>
      forall m: Level :: m in unread ==> Unbeaten(isBid, kept, m.price)
  {
    hide Better;
    if NoneBeats(isBid, multiset(unread), multiset(kept)) {
      forall m: Level, i | m in unread && 0 <= i < |kept|
        ensures !Better(isBid, m.price, kept[i].price)
      {
        assert m in multiset(unread) && kept[i] in multiset(kept);
      }
    }
  }

  /** Which feeds are cut well: what a usable feed leaves on its side of the book is
      a best selection of the whole feed exactly when every level beyond the cut
      finds as many levels of the part looked at that are at least as good as it as
      will be kept. */
  lemma SelectsBestIff(isBid: bool, levels: seq<Pair>, maxLevels: nat)
    requires AllUsable(levels)
    ensures AllUsable(Source(isBid, levels)) && AllUsable(Unread(isBid, levels))
    ensures var source, unread := Values(Source(isBid, levels)), Values(Unread(isBid, levels));
      BestSelection(isBid, multiset(Kept(isBid, levels, maxLevels)), multiset(Values(levels))) <==>
        forall m: Level :: m in unread ==>
          AsGood(isBid, source, m.price) >= (if |source| <= maxLevels then |source| else maxLevels)
  {
    UnreadMustNotBeatKept(isBid, levels, maxLevels);
    var source, unread := Values(Source(isBid, levels)), Values(Unread(isBid, levels));
    var kept := Kept(isBid, levels, maxLevels);
    hide Values, AsGood, BestSelection, NoneBeats, Unbeaten, Unread, Source;
    NoneBeatsIff(isBid, unread, kept);
    forall m: Level
      ensures Unbeaten(isBid, kept, m.price) <==> AsGood(isBid, source, m.price) >= |kept|
    {
      KeptAsGoodIff(isBid, levels, maxLevels, m);
    }
  }

  /** In a monotone sequence, of two places the one nearer the better end is no worse. */
  lemma BetterEnd(isBid: bool, v: seq<Level>, i: nat, j: nat)
    requires i < j < |v| && (BestFirst(isBid, v) || WorstFirst(isBid, v))
    ensures if Better(isBid, v[|v| - 1].price, v[0].price) then !Better(isBid, v[i].price, v[j].price)
            else !Better(isBid, v[j].price, v[i].price)
  {
    var n := |v| - 1;
    assert !Better(isBid, v[j].price, v[i].price) || !Better(isBid, v[i].price, v[j].price);
    if WorstFirst(isBid, v) && !Better(isBid, v[n].price, v[0].price) {
      assert i > 0 ==> !Better(isBid, v[0].price, v[i].price);
      assert j < n ==> !Better(isBid, v[j].price, v[n].price);
    }
  }

  lemma CutAtTheRightEnd(isBid: bool, levels: seq<Pair>, i: nat, j: nat)
    requires AllUsable(levels) && |levels| > MAX_LEVELS
    requires BestFirst(isBid, Values(levels)) || WorstFirst(isBid, Values(levels))
    requires i < |Source(isBid, levels)| && j < |Unread(isBid, levels)|
    requires AllUsable(Source(isBid, levels)) && AllUsable(Unread(isBid, levels))
    ensures !Better(isBid, Values(Unread(isBid, levels))[j].price, Values(Source(isBid, levels))[i].price)
  {
    hide BestFirst, WorstFirst;
    var v, n := Values(levels), |levels|;
    assert v[0].price == levels[0].price.value && v[n - 1].price == levels[n - 1].price.value;
    if BetterAtTheEnd(isBid, levels) {
      BetterEnd(isBid, v, j, n - MAX_LEVELS + i);
    } else {
      BetterEnd(isBid, v, i, MAX_LEVELS + j);
    }
  }

  /** The direction of the feed does not matter: up to fifty levels in any order,
      or any number in monotone order either way. */
  lemma DirectionDoesNotMatter(isBid: bool, levels: seq<Pair>, maxLevels: nat)
    requires AllUsable(levels)
    requires |levels| <= MAX_LEVELS || BestFirst(isBid, Values(levels)) || WorstFirst(isBid, Values(levels))
    ensures AllUsable(Source(isBid, levels))
    ensures BestSelection(isBid, multiset(Kept(isBid, levels, maxLevels)), multiset(Values(levels)))
  {
    hide Kept, Values, BestFirst, WorstFirst, Better;
    UnreadMustNotBeatKept(isBid, levels, maxLevels);
    KeptIsBestOfSource(isBid, levels, maxLevels);
    var source, unread := Source(isBid, levels), Unread(isBid, levels);
    forall l: Level, m: Level | l in multiset(Kept(isBid, levels, maxLevels)) && m in multiset(Values(unread))
      ensures !Better(isBid, m.price, l.price)
    {
      assert l in multiset(Values(source));
      var i: nat :| i < |source| && Values(source)[i] == l;
      var j: nat :| j < |unread| && Values(unread)[j] == m;
      CutAtTheRightEnd(isBid, levels, i, j);
    }
  }

  /** Fifty equal levels, a better one, and one more: the better one is lost. */
  lemma OversizedUnsortedFeedLosesTheBest()
    ensures exists levels: seq<Pair> ::
      && |levels| == MAX_LEVELS + 2 && AllUsable(levels) && AllUsable(Source(true, levels))
      && !BestSelection(true, multiset(Kept(true, levels, 1)), multiset(Values(levels)))
  {
    hide Sorted;
    var low, high := Pair(Number(1.0), Number(1.0)), Pair(Number(2.0), Number(1.0));
    var levels := seq(MAX_LEVELS, _ => low) + [high, low];
    var source := Source(true, levels);
    assert source == levels[..MAX_LEVELS];
    UnreadMustNotBeatKept(true, levels, 1);
    KeptIsBestOfSource(true, levels, 1);
    var kept := Kept(true, levels, 1);
    assert kept[0] in multiset(kept);
    assert kept[0] in multiset(Values(source));
    assert kept[0] == Level(1.0, 1.0);
    assert Values(Unread(true, levels))[0] == Level(2.0, 1.0);
    assert Level(2.0, 1.0) in multiset(Values(Unread(true, levels)));
  }
}
