// The local replica of the exchange's book: a REST snapshot kept current by
// absolute-quantity deltas whose update ids must join up.
module Replica {
  import opened Orders
  import opened Snapshots
  import opened TopOfBook

  /** One depth event. Futures events carry the previous event's final id. */
  datatype Update = Update(first: nat, final: nat, prev: Option<nat>, bids: seq<Level>, asks: seq<Level>,
                           eventTime: nat)

  datatype RestDepth = RestDepth(lastUpdateId: nat, bids: seq<Level>, asks: seq<Level>)

  datatype Outcome = Applied | Skipped | SequenceGap(expected: nat, got: nat) | SequenceBreak(expected: nat, got: nat)

  datatype Book = Book(bids: Levels, asks: Levels, snapshotId: nat, lastId: nat, synced: bool, eventTime: nat)

  // --------------------------------------------------------------- functions

  /** Quantities are absolute; zero removes the level. */
  function Put(levels: Levels, l: Level): Levels {
    if l.qty == 0.0 then levels - {l.price} else levels[l.price := l.qty]
  }

  function PutAll(levels: Levels, deltas: seq<Level>): Levels {
    if deltas == [] then levels
    else Put(PutAll(levels, deltas[..|deltas| - 1]), deltas[|deltas| - 1])
  }

  /** A snapshot's own levels: those with a positive quantity. */
  function Load(levels: seq<Level>): Levels {
    if levels == [] then map[]
    else
      var rest := Load(levels[..|levels| - 1]);
      var l := levels[|levels| - 1];
      if l.qty > 0.0 then rest[l.price := l.qty] else rest
  }

  function Init(b: Book, d: RestDepth): Book {
    Book(Load(d.bids), Load(d.asks), d.lastUpdateId, d.lastUpdateId, false, b.eventTime)
  }

  /** The judgement of an update's ids, for a spot or a futures event. */
  function Judge(b: Book, u: Update): Outcome {
    if u.final < b.snapshotId then Skipped
    else if !b.synced then
      if u.prev.Some? then
        if u.first <= b.snapshotId && u.final >= b.snapshotId then Applied
        else if u.first > b.snapshotId then SequenceGap(b.snapshotId, u.first)
        else Skipped
      else
        if u.first <= b.snapshotId + 1 && u.final > b.snapshotId then Applied
        else if u.first > b.snapshotId + 1 then SequenceGap(b.snapshotId, u.first)
        else Skipped
    else if u.prev.Some? then
      if u.prev.value == b.lastId then Applied else SequenceBreak(b.lastId, u.prev.value)
    else
      if u.first == b.lastId + 1 then Applied else SequenceBreak(b.lastId + 1, u.first)
  }

  function Next(b: Book, u: Update): Book {
    if Judge(b, u) != Applied then b
    else Book(PutAll(b.bids, u.bids), PutAll(b.asks, u.asks), b.snapshotId, u.final, true, u.eventTime)
  }

  function After(b: Book, updates: seq<Update>): Book {
    if updates == [] then b else Next(After(b, updates[..|updates| - 1]), updates[|updates| - 1])
  }

  // ------------------------------------------------------------- the object

  class BinanceOrderbook {
    var bids: Levels
    var asks: Levels
    var snapshotUpdateId: nat
    var lastUpdateId: nat
    var isSynced: bool
    var lastEventTime: nat

    constructor ()
      ensures Model() == Book(map[], map[], 0, 0, false, 0)
    {
      bids, asks := map[], map[];
      snapshotUpdateId, lastUpdateId, isSynced, lastEventTime := 0, 0, false, 0;
    }

    ghost function Model(): Book
      reads this
    {
      Book(bids, asks, snapshotUpdateId, lastUpdateId, isSynced, lastEventTime)
    }

    method InitFromSnapshot(d: RestDepth)
      modifies this
      ensures Model() == Init(old(Model()), d)
    {
      bids, asks := map[], map[];
      for n := 0 to |d.bids|
        invariant bids == Load(d.bids[..n]) && asks == map[] && lastEventTime == old(lastEventTime)
      {
        assert d.bids[..n + 1][..n] == d.bids[..n];
        if d.bids[n].qty > 0.0 {
          bids := bids[d.bids[n].price := d.bids[n].qty];
        }
      }
      for n := 0 to |d.asks|
        invariant asks == Load(d.asks[..n]) && bids == Load(d.bids[..|d.bids|]) && lastEventTime == old(lastEventTime)
      {
        assert d.asks[..n + 1][..n] == d.asks[..n];
        if d.asks[n].qty > 0.0 {
          asks := asks[d.asks[n].price := d.asks[n].qty];
        }
      }
      assert d.bids[..|d.bids|] == d.bids && d.asks[..|d.asks|] == d.asks;
      snapshotUpdateId := d.lastUpdateId;
      lastUpdateId := d.lastUpdateId;
      isSynced := false;
    }

    method ApplyUpdate(u: Update) returns (outcome: Outcome)
      modifies this
      ensures outcome == Judge(old(Model()), u)
      ensures Model() == Next(old(Model()), u)
    {
      if u.final < snapshotUpdateId {
        return Skipped;
      }
      if !isSynced {
        var syncOk := if u.prev.Some?
          then u.first <= snapshotUpdateId && u.final >= snapshotUpdateId
          else u.first <= snapshotUpdateId + 1 && u.final > snapshotUpdateId;
        if syncOk {
          isSynced := true;
        } else if u.prev.Some? {
          if u.first > snapshotUpdateId {
            return SequenceGap(snapshotUpdateId, u.first);
          }
          return Skipped;
        } else {
          if u.first > snapshotUpdateId + 1 {
            return SequenceGap(snapshotUpdateId, u.first);
          }
          return Skipped;
        }
      } else {
        match u.prev {
          case Some(pu) =>
            if pu != lastUpdateId {
              return SequenceBreak(lastUpdateId, pu);
            }
          case None =>
            if u.first != lastUpdateId + 1 {
              return SequenceBreak(lastUpdateId + 1, u.first);
            }
        }
      }
      label checked:
      for n := 0 to |u.bids|
        modifies `bids
        invariant bids == PutAll(old@checked(bids), u.bids[..n])
      {
        assert u.bids[..n + 1][..n] == u.bids[..n];
        if u.bids[n].qty == 0.0 {
          bids := bids - {u.bids[n].price};
        } else {
          bids := bids[u.bids[n].price := u.bids[n].qty];
        }
      }
      for n := 0 to |u.asks|
        modifies `asks
        invariant asks == PutAll(old@checked(asks), u.asks[..n])
      {
        assert u.asks[..n + 1][..n] == u.asks[..n];
        if u.asks[n].qty == 0.0 {
          asks := asks - {u.asks[n].price};
        } else {
          asks := asks[u.asks[n].price := u.asks[n].qty];
        }
      }
      assert u.bids[..|u.bids|] == u.bids && u.asks[..|u.asks|] == u.asks;
      lastUpdateId := u.final;
      lastEventTime := u.eventTime;
      outcome := Applied;
    }

    /** The fifty best levels of each side, for the strategy. */
    method ToSnapshot() returns (snapshot: OrderbookSnapshot)
      ensures fresh(snapshot) && snapshot.Valid()
      ensures snapshot.bidCount <= MAX_LEVELS && snapshot.askCount <= MAX_LEVELS
      ensures IsTop(true, bids, snapshot.bids[..snapshot.bidCount])
      ensures IsTop(false, asks, snapshot.asks[..snapshot.askCount])
      ensures forall n :: snapshot.bidCount <= n < MAX_LEVELS ==> snapshot.bids[n] == NO_LEVEL
      ensures forall n :: snapshot.askCount <= n < MAX_LEVELS ==> snapshot.asks[n] == NO_LEVEL
      ensures snapshot.sequence == lastUpdateId && snapshot.timestampNs == lastEventTime * 1_000_000
    {
      hide IsTop, Picks;
      snapshot := new OrderbookSnapshot();
      snapshot.sequence := lastUpdateId;
      snapshot.timestampNs := lastEventTime * 1_000_000;
      label blank:
      var bidCount := CopyTop(true, bids, snapshot.bids);
      assert forall n :: bidCount <= n < MAX_LEVELS ==> snapshot.bids[n] == snapshot.bids[bidCount..][n - bidCount];
      snapshot.bidCount := bidCount;
      var askCount := CopyTop(false, asks, snapshot.asks);
      assert forall n :: askCount <= n < MAX_LEVELS ==> snapshot.asks[n] == snapshot.asks[askCount..][n - askCount];
      snapshot.askCount := askCount;
    }
  }

  // ---------------------------------------------------- the exchange's book

  /** What each update id, from 1 on, did to one side. */
  type History = seq<seq<Level>>

  /** That side after update `n`. */
  function SideAt(h: History, n: nat): Levels
    requires n <= |h|
  {
    if n == 0 then map[] else PutAll(SideAt(h, n - 1), h[n - 1])
  }

  function QtyAt(levels: Levels, price: real): real {
    if price in levels then levels[price] else 0.0
  }

  predicate Mentions(deltas: seq<Level>, price: real) {
    exists i :: 0 <= i < |deltas| && deltas[i].price == price
  }

  predicate Touched(h: History, lo: nat, hi: nat, price: real)
    requires lo <= hi <= |h|
  {
    exists n :: lo <= n < hi && Mentions(h[n], price)
  }

  /** An honest side of an event for the ids after `lo` up to `hi`: it lists the
      final quantity of every price it lists, and lists every price touched. */
  ghost predicate HonestSide(h: History, lo: nat, hi: nat, deltas: seq<Level>) {
    && lo <= hi <= |h|
    && (forall i :: 0 <= i < |deltas| ==> deltas[i].qty == QtyAt(SideAt(h, hi), deltas[i].price))
    && (forall price :: Touched(h, lo, hi, price) ==> Mentions(deltas, price))
  }

  /** A spot event covers its own ids; a futures event everything after the
      previous event. */
  function CoveredFrom(u: Update): nat
    requires u.first >= 1
  {
    if u.prev.Some? then u.prev.value else u.first - 1
  }

  ghost predicate Honest(bidHistory: History, askHistory: History, u: Update) {
    && 1 <= u.first <= u.final
    && (u.prev.Some? ==> u.prev.value < u.first)
    && HonestSide(bidHistory, CoveredFrom(u), u.final, u.bids)
    && HonestSide(askHistory, CoveredFrom(u), u.final, u.asks)
  }

  predicate AgreesAt(levels: Levels, h: History, n: nat, price: real)
    requires n <= |h|
  {
    QtyAt(levels, price) == QtyAt(SideAt(h, n), price)
  }

  // ---------------------------------------------------------------- pointwise

  lemma {:induction false} PutAllElsewhere(levels: Levels, deltas: seq<Level>, price: real)
    requires !Mentions(deltas, price)
    ensures QtyAt(PutAll(levels, deltas), price) == QtyAt(levels, price)
  {
    if deltas != [] {
      var shorter := deltas[..|deltas| - 1];
      assert forall i :: 0 <= i < |shorter| ==> shorter[i] == deltas[i];
      PutAllElsewhere(levels, shorter, price);
      assert deltas[|deltas| - 1].price != price;
    }
  }

  lemma {:induction false} PutAllAt(levels: Levels, deltas: seq<Level>, price: real, qty: real)
    requires Mentions(deltas, price)
    requires forall i :: 0 <= i < |deltas| && deltas[i].price == price ==> deltas[i].qty == qty
    ensures QtyAt(PutAll(levels, deltas), price) == qty
  {
    var shorter := deltas[..|deltas| - 1];
    assert forall i :: 0 <= i < |shorter| ==> shorter[i] == deltas[i];
    if deltas[|deltas| - 1].price != price {
      PutAllAt(levels, shorter, price, qty);
    }
  }

  lemma {:induction false} Untouched(h: History, lo: nat, hi: nat, price: real)
    requires lo <= hi <= |h| && !Touched(h, lo, hi, price)
    ensures QtyAt(SideAt(h, lo), price) == QtyAt(SideAt(h, hi), price)
    decreases hi
  {
    if lo < hi {
      assert !Touched(h, lo, hi - 1, price);
      Untouched(h, lo, hi - 1, price);
      PutAllElsewhere(SideAt(h, hi - 1), h[hi - 1], price);
    }
  }

  /** The heart of the refinement: an event that starts no later than where the
      replica stands, and ends no earlier, brings every price it starts right at,
      or mentions, hi the exchange's value at the event's end. */
  lemma EventCatchesUp(h: History, levels: Levels, at: nat, lo: nat, hi: nat, deltas: seq<Level>, price: real)
    requires HonestSide(h, lo, hi, deltas) && lo <= at <= hi
    requires AgreesAt(levels, h, at, price) || Mentions(deltas, price)
    ensures AgreesAt(PutAll(levels, deltas), h, hi, price)
  {
    if Mentions(deltas, price) {
      PutAllAt(levels, deltas, price, QtyAt(SideAt(h, hi), price));
    } else {
      PutAllElsewhere(levels, deltas, price);
      assert !Touched(h, at, hi, price);
      Untouched(h, at, hi, price);
    }
  }

  // ------------------------------------------------------------- whole runs

  predicate InSequence(b: Book) {
    b.snapshotId <= b.lastId && (!b.synced ==> b.lastId == b.snapshotId)
  }

  lemma AppliedJoinsUp(b: Book, u: Update)
    requires InSequence(b) && 1 <= u.first <= u.final && (u.prev.Some? ==> u.prev.value < u.first)
    requires Judge(b, u) == Applied
    ensures CoveredFrom(u) <= b.lastId <= u.final && InSequence(Next(b, u))
  {
  }

  predicate WellNumbered(updates: seq<Update>) {
    forall i :: 0 <= i < |updates| ==>
      1 <= updates[i].first <= updates[i].final && (updates[i].prev.Some? ==> updates[i].prev.value < updates[i].first)
  }

  lemma {:induction false} StaysInSequence(b: Book, updates: seq<Update>)
    requires InSequence(b) && WellNumbered(updates)
    ensures InSequence(After(b, updates))
  {
    if updates != [] {
      var last := updates[|updates| - 1];
      StaysInSequence(b, updates[..|updates| - 1]);
      if Judge(After(b, updates[..|updates| - 1]), last) == Applied {
        AppliedJoinsUp(After(b, updates[..|updates| - 1]), last);
      }
    }
  }

  /** At any price where the snapshot was right, the replica equals the exchange's
      book at the last applied id after any honest events, spot or futures, in
      any order, with any of them missing or repeated. */
  lemma {:induction false} ReplicaRefinesAt(bidHistory: History, askHistory: History, b: Book, updates: seq<Update>,
                                            price: real)
    requires InSequence(b) && b.lastId <= |bidHistory| && b.lastId <= |askHistory|
    requires forall i :: 0 <= i < |updates| ==> Honest(bidHistory, askHistory, updates[i])
    ensures var r := After(b, updates);
      && r.lastId <= |bidHistory| && r.lastId <= |askHistory|
      && (AgreesAt(b.bids, bidHistory, b.lastId, price) ==> AgreesAt(r.bids, bidHistory, r.lastId, price))
      && (AgreesAt(b.asks, askHistory, b.lastId, price) ==> AgreesAt(r.asks, askHistory, r.lastId, price))
  {
    if updates != [] {
      var last := updates[|updates| - 1];
      var p := After(b, updates[..|updates| - 1]);
      ReplicaRefinesAt(bidHistory, askHistory, b, updates[..|updates| - 1], price);
      StaysInSequence(b, updates[..|updates| - 1]);
      assert Honest(bidHistory, askHistory, last);
      if Judge(p, last) == Applied {
        AppliedJoinsUp(p, last);
        if AgreesAt(b.bids, bidHistory, b.lastId, price) {
          EventCatchesUp(bidHistory, p.bids, p.lastId, CoveredFrom(last), last.final, last.bids, price);
        }
        if AgreesAt(b.asks, askHistory, b.lastId, price) {
          EventCatchesUp(askHistory, p.asks, p.lastId, CoveredFrom(last), last.final, last.asks, price);
        }
      }
    }
  }

  predicate NoZeros(levels: Levels) {
    forall p :: p in levels ==> levels[p] != 0.0
  }

  lemma {:induction false} PutAllNoZeros(levels: Levels, deltas: seq<Level>)
    requires NoZeros(levels)
    ensures NoZeros(PutAll(levels, deltas))
  {
    if deltas != [] {
      PutAllNoZeros(levels, deltas[..|deltas| - 1]);
    }
  }

  lemma {:induction false} SideAtNoZeros(h: History, n: nat)
    requires n <= |h|
    ensures NoZeros(SideAt(h, n))
  {
    if n > 0 {
      SideAtNoZeros(h, n - 1);
      PutAllNoZeros(SideAt(h, n - 1), h[n - 1]);
    }
  }

  lemma {:induction false} AfterNoZeros(b: Book, updates: seq<Update>)
    requires NoZeros(b.bids) && NoZeros(b.asks)
    ensures NoZeros(After(b, updates).bids) && NoZeros(After(b, updates).asks)
  {
    if updates != [] {
      var p := After(b, updates[..|updates| - 1]);
      AfterNoZeros(b, updates[..|updates| - 1]);
      PutAllNoZeros(p.bids, updates[|updates| - 1].bids);
      PutAllNoZeros(p.asks, updates[|updates| - 1].asks);
    }
  }

  lemma SameQuantities(a: Levels, b: Levels)
    requires NoZeros(a) && NoZeros(b) && forall p :: QtyAt(a, p) == QtyAt(b, p)
    ensures a == b
  {
    forall p
      ensures p in a <==> p in b
    {
      assert QtyAt(a, p) == QtyAt(b, p);
    }
    forall p | p in a
      ensures a[p] == b[p]
    {
      assert QtyAt(a, p) == QtyAt(b, p);
    }
  }

  /** With a complete snapshot the local maps are exactly the exchange's book. */
  lemma ReplicaRefines(bidHistory: History, askHistory: History, b: Book, updates: seq<Update>)
    requires InSequence(b) && b.lastId <= |bidHistory| && b.lastId <= |askHistory|
    requires b.bids == SideAt(bidHistory, b.lastId) && b.asks == SideAt(askHistory, b.lastId)
    requires forall i :: 0 <= i < |updates| ==> Honest(bidHistory, askHistory, updates[i])
    ensures var r := After(b, updates);
      && r.lastId <= |bidHistory| && r.lastId <= |askHistory|
      && r.bids == SideAt(bidHistory, r.lastId) && r.asks == SideAt(askHistory, r.lastId)
  {
    var r := After(b, updates);
    ReplicaRefinesAt(bidHistory, askHistory, b, updates, 0.0);
    SideAtNoZeros(bidHistory, b.lastId);
    SideAtNoZeros(askHistory, b.lastId);
    SideAtNoZeros(bidHistory, r.lastId);
    SideAtNoZeros(askHistory, r.lastId);
    AfterNoZeros(b, updates);
    forall price
      ensures QtyAt(r.bids, price) == QtyAt(SideAt(bidHistory, r.lastId), price)
      ensures QtyAt(r.asks, price) == QtyAt(SideAt(askHistory, r.lastId), price)
    {
      ReplicaRefinesAt(bidHistory, askHistory, b, updates, price);
    }
    SameQuantities(r.bids, SideAt(bidHistory, r.lastId));
    SameQuantities(r.asks, SideAt(askHistory, r.lastId));
  }

  /** A REST side that lists the exchange's side after update `n`, all of it. */
  ghost predicate HonestDepth(h: History, n: nat, levels: seq<Level>) {
    && n <= |h|
    && (forall i :: 0 <= i < |levels| ==> levels[i].qty == QtyAt(SideAt(h, n), levels[i].price))
    && (forall p :: p in SideAt(h, n) ==> SideAt(h, n)[p] > 0.0 && Mentions(levels, p))
  }

  lemma {:induction false} LoadKeeps(levels: seq<Level>, price: real, qty: real)
    requires qty >= 0.0 && (forall i :: 0 <= i < |levels| && levels[i].price == price ==> levels[i].qty == qty)
    ensures NoZeros(Load(levels)) && QtyAt(Load(levels), price) == if Mentions(levels, price) then qty else 0.0
  {
    if levels != [] {
      var n := |levels| - 1;
      var shorter := levels[..n];
      assert forall i :: 0 <= i < n ==> shorter[i] == levels[i];
      LoadKeeps(shorter, price, qty);
      assert Mentions(levels, price) <==> Mentions(shorter, price) || levels[n].price == price;
    }
  }

  lemma LoadsWholeSide(h: History, n: nat, levels: seq<Level>)
    requires HonestDepth(h, n, levels)
    ensures Load(levels) == SideAt(h, n)
  {
    forall p
      ensures NoZeros(Load(levels)) && QtyAt(Load(levels), p) == QtyAt(SideAt(h, n), p)
    {
      LoadKeeps(levels, p, QtyAt(SideAt(h, n), p));
    }
    assert QtyAt(Load(levels), 0.0) == QtyAt(SideAt(h, n), 0.0);
    SideAtNoZeros(h, n);
    SameQuantities(Load(levels), SideAt(h, n));
  }

  /** End to end: whatever the replica held before, loading an honest complete
      snapshot and then applying honest events gives the exchange's book at the
      last applied id. */
  lemma ReplicaFollowsSnapshot(bidHistory: History, askHistory: History, b: Book, d: RestDepth, updates: seq<Update>)
    requires HonestDepth(bidHistory, d.lastUpdateId, d.bids) && HonestDepth(askHistory, d.lastUpdateId, d.asks)
    requires forall i :: 0 <= i < |updates| ==> Honest(bidHistory, askHistory, updates[i])
    ensures var r := After(Init(b, d), updates);
      && d.lastUpdateId <= r.lastId <= |bidHistory| && r.lastId <= |askHistory|
      && r.bids == SideAt(bidHistory, r.lastId) && r.asks == SideAt(askHistory, r.lastId)
  {
    LoadsWholeSide(bidHistory, d.lastUpdateId, d.bids);
    LoadsWholeSide(askHistory, d.lastUpdateId, d.asks);
    ReplicaRefines(bidHistory, askHistory, Init(b, d), updates);
    StaysInSequence(Init(b, d), updates);
    SameSnapshot(Init(b, d), updates);
  }

  lemma {:induction false} SameSnapshot(b: Book, updates: seq<Update>)
    ensures After(b, updates).snapshotId == b.snapshotId
  {
    if updates != [] {
      SameSnapshot(b, updates[..|updates| - 1]);
    }
  }

  // ------------------------------------------------------------ the verdicts

  /** The event carries something the snapshot does not. */
  predicate Reaches(snapshotId: nat, u: Update) {
    if u.prev.Some? then u.final >= snapshotId else u.final > snapshotId
  }

  /** It starts no later than the first id after the snapshot; futures events
      must start inside it. */
  predicate Overlaps(snapshotId: nat, u: Update) {
    u.first <= if u.prev.Some? then snapshotId else snapshotId + 1
  }

  /** The event follows directly on what the replica holds. */
  predicate JoinsUp(lastId: nat, u: Update) {
    if u.prev.Some? then u.prev.value == lastId else u.first == lastId + 1
  }

  /** Which verdict an event gets, and what the refusals report. */
  lemma VerdictIs(b: Book, u: Update)
    requires u.first <= u.final
    ensures Judge(b, u) ==
      if (if b.synced then u.final < b.snapshotId else !Reaches(b.snapshotId, u)) then Skipped
      else if !b.synced then
        if Overlaps(b.snapshotId, u) then Applied else SequenceGap(b.snapshotId, u.first)
      else if JoinsUp(b.lastId, u) then Applied
      else if u.prev.Some? then SequenceBreak(b.lastId, u.prev.value)
      else SequenceBreak(b.lastId + 1, u.first)
  {
  }

  /** Nothing new is ever skipped: a skipped event ends where the replica already is. */
  lemma SkippedIsOld(b: Book, u: Update)
    requires InSequence(b) && Judge(b, u) == Skipped
    ensures u.final <= b.lastId
  {
  }

  /** No event is refused: each is applied or skipped. */
  ghost predicate Clean(b: Book, updates: seq<Update>) {
    forall k :: 0 <= k < |updates| ==>
      Accepted(Judge(After(b, updates[..k]), updates[k]))
  }

  predicate Accepted(v: Outcome) {
    v == Applied || v == Skipped
  }

  lemma AcceptedReaches(p: Book, u: Update)
    requires InSequence(p) && 1 <= u.first <= u.final && (u.prev.Some? ==> u.prev.value < u.first)
    requires Accepted(Judge(p, u))
    ensures u.final <= Next(p, u).lastId && p.lastId <= Next(p, u).lastId
  {
    hide PutAll;
    if Judge(p, u) == Applied {
      AppliedJoinsUp(p, u);
    } else {
      SkippedIsOld(p, u);
    }
  }

  /** So while nothing is refused the replica is as far as every event it was given. */
  lemma {:induction false} CleanMeansCurrent(b: Book, updates: seq<Update>, k: nat)
    requires InSequence(b) && Clean(b, updates) && k < |updates| && WellNumbered(updates)
    ensures updates[k].final <= After(b, updates).lastId
  {
    hide Judge, Next, InSequence;
    var n := |updates| - 1;
    var shorter := updates[..n];
    StaysInSequence(b, shorter);
    assert Accepted(Judge(After(b, shorter), updates[n]));
    AcceptedReaches(After(b, shorter), updates[n]);
    if k < n {
      forall i | 0 <= i < n
        ensures Accepted(Judge(After(b, shorter[..i]), shorter[i]))
      {
        assert shorter[..i] == updates[..i];
      }
      CleanMeansCurrent(b, shorter, k);
    }
  }

  // ------------------------------------------------------------ ordered streams

  /** The events come in order, though some may be missing. */
  predicate Ordered(updates: seq<Update>) {
    && (forall i :: 0 <= i < |updates| ==> updates[i].first <= updates[i].final)
    && (forall i :: 0 < i < |updates| ==> updates[i - 1].final < updates[i].first)
  }

  predicate OneMarket(updates: seq<Update>) {
    forall i, j :: 0 <= i < j < |updates| ==> (updates[i].prev.Some? <==> updates[j].prev.Some?)
  }

  predicate FirstReach(snapshotId: nat, updates: seq<Update>, i: nat)
    requires i < |updates|
  {
    Reaches(snapshotId, updates[i]) && (i > 0 ==> !Reaches(snapshotId, updates[i - 1]))
  }

  predicate FirstReachingOverlaps(snapshotId: nat, updates: seq<Update>) {
    forall i: nat :: i < |updates| && FirstReach(snapshotId, updates, i) ==> Overlaps(snapshotId, updates[i])
  }

  /** From the first event past the snapshot on, each follows directly on the one before. */
  predicate JoinedFromThere(snapshotId: nat, updates: seq<Update>) {
    forall i :: 0 < i < |updates| && Reaches(snapshotId, updates[i - 1]) ==> JoinsUp(updates[i - 1].final, updates[i])
  }

  lemma {:induction false} ReachesStays(snapshotId: nat, updates: seq<Update>, i: nat, j: nat)
    requires Ordered(updates) && OneMarket(updates)
    requires i <= j < |updates| && Reaches(snapshotId, updates[i])
    ensures Reaches(snapshotId, updates[j])
  {
    if i < j {
      ReachesStays(snapshotId, updates, i, j - 1);
      assert updates[j - 1].prev.Some? <==> updates[j].prev.Some?;
    }
  }

  /** The state a followed stream leaves behind: untouched until an event reaches
      past the snapshot, then level with the latest event. */
  ghost predicate KeptUp(b: Book, updates: seq<Update>, r: Book) {
    if updates != [] && Reaches(b.snapshotId, updates[|updates| - 1])
    then
      var last := updates[|updates| - 1];
      r.synced && r.snapshotId == b.snapshotId && r.lastId == last.final && r.eventTime == last.eventTime
    else r == b
  }

  /** The next event is accepted exactly when it need not overlap or does, and need
      not join up or does; the replica then stays level. */
  lemma StreamStep(b: Book, updates: seq<Update>, n: nat, r: Book)
    requires !b.synced && b.lastId == b.snapshotId && Ordered(updates) && OneMarket(updates)
    requires n < |updates| && KeptUp(b, updates[..n], r)
    ensures Accepted(Judge(r, updates[n])) <==>
      && (FirstReach(b.snapshotId, updates, n) ==> Overlaps(b.snapshotId, updates[n]))
      && (n > 0 && Reaches(b.snapshotId, updates[n - 1]) ==> JoinsUp(updates[n - 1].final, updates[n]))
    ensures Accepted(Judge(r, updates[n])) ==> KeptUp(b, updates[..n + 1], Next(r, updates[n]))
  {
    hide PutAll;
    var u := updates[n];
    assert updates[..n + 1][n] == u;
    if n > 0 {
      var p := updates[n - 1];
      assert p == updates[..n][n - 1];
      assert p.prev.Some? <==> u.prev.Some?;
      assert p.final < u.first <= u.final;
    }
    VerdictIs(r, u);
    hide Judge;
  }

  lemma {:induction false} CleanKeepsUp(b: Book, updates: seq<Update>, n: nat)
    requires !b.synced && b.lastId == b.snapshotId && Ordered(updates) && OneMarket(updates)
    requires n <= |updates| && forall k :: 0 <= k < n ==> Accepted(Judge(After(b, updates[..k]), updates[k]))
    ensures KeptUp(b, updates[..n], After(b, updates[..n]))
  {
    if n > 0 {
      CleanKeepsUp(b, updates, n - 1);
      assert updates[..n][..n - 1] == updates[..n - 1];
      StreamStep(b, updates, n - 1, After(b, updates[..n - 1]));
    }
  }

  lemma {:induction false} FollowedKeepsUp(b: Book, updates: seq<Update>, n: nat)
    requires !b.synced && b.lastId == b.snapshotId && Ordered(updates) && OneMarket(updates)
    requires FirstReachingOverlaps(b.snapshotId, updates) && JoinedFromThere(b.snapshotId, updates)
    requires n <= |updates|
    ensures KeptUp(b, updates[..n], After(b, updates[..n]))
    ensures n < |updates| ==> Accepted(Judge(After(b, updates[..n]), updates[n]))
  {
    hide Judge, Next;
    if n > 0 {
      FollowedKeepsUp(b, updates, n - 1);
      assert updates[..n][..n - 1] == updates[..n - 1];
      StreamStep(b, updates, n - 1, After(b, updates[..n - 1]));
    }
    if n < |updates| {
      StreamStep(b, updates, n, After(b, updates[..n]));
    }
  }

  /** A stream in order, however many of its events are missing, is followed without
      a gap or break exactly when its first event past the snapshot overlaps the
      snapshot and each later one follows directly on the one before; so every lost
      event that matters is noticed. When it is followed the replica ends level with
      the stream. A futures snapshot whose id falls between two events therefore
      always costs a new snapshot. */
  lemma OrderedStreamIsCleanIff(b: Book, d: RestDepth, updates: seq<Update>)
    requires Ordered(updates) && OneMarket(updates)
    ensures var b0 := Init(b, d);
      && (Clean(b0, updates) <==>
            FirstReachingOverlaps(d.lastUpdateId, updates) && JoinedFromThere(d.lastUpdateId, updates))
      && (Clean(b0, updates) ==> KeptUp(b0, updates, After(b0, updates)))
  {
    var b0 := Init(b, d);
    hide Judge, Next, Init, Load, Overlaps, Reaches, JoinsUp;
    assert !b0.synced && b0.lastId == b0.snapshotId == d.lastUpdateId by {
      InitIs(b, d);
    }
    assert updates[..|updates|] == updates;
    if FirstReachingOverlaps(d.lastUpdateId, updates) && JoinedFromThere(d.lastUpdateId, updates) {
      forall k | 0 <= k < |updates|
        ensures Accepted(Judge(After(b0, updates[..k]), updates[k]))
      {
        FollowedKeepsUp(b0, updates, k);
      }
      FollowedKeepsUp(b0, updates, |updates|);
    }
    if Clean(b0, updates) {
      forall k: nat | k < |updates|
        ensures FirstReach(d.lastUpdateId, updates, k) ==> Overlaps(d.lastUpdateId, updates[k])
        ensures k > 0 && Reaches(d.lastUpdateId, updates[k - 1]) ==> JoinsUp(updates[k - 1].final, updates[k])
      {
        CleanKeepsUp(b0, updates, k);
        StreamStep(b0, updates, k, After(b0, updates[..k]));
      }
    }
  }

  lemma InitIs(b: Book, d: RestDepth)
    ensures var b0 := Init(b, d);
      !b0.synced && b0.lastId == b0.snapshotId == d.lastUpdateId && b0.eventTime == b.eventTime
  {
    hide Load;
  }

  /** Consecutive events of one stream, none missing. */
  predicate Gapless(updates: seq<Update>) {
    Ordered(updates) && forall i :: 0 < i < |updates| ==> JoinsUp(updates[i - 1].final, updates[i])
  }

  /** With none missing only the overlap is left to ask for. */
  lemma GaplessStreamIsCleanIff(b: Book, d: RestDepth, updates: seq<Update>)
    requires Gapless(updates) && OneMarket(updates)
    ensures Clean(Init(b, d), updates) <==> FirstReachingOverlaps(d.lastUpdateId, updates)
    ensures Clean(Init(b, d), updates) ==> KeptUp(Init(b, d), updates, After(Init(b, d), updates))
  {
    hide Init, Clean, KeptUp, FirstReachingOverlaps;
    OrderedStreamIsCleanIff(b, d, updates);
  }
}
