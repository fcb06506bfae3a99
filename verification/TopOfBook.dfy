// The best fifty levels of one side of a price-to-quantity map.
module TopOfBook {
  import opened Snapshots

  type Levels = map<real, real>

  /** `top` lists the best `min(50, |levels|)` levels, strictly best first, and
      everything it omits is worse than everything it lists. */
  ghost predicate IsTop(isBid: bool, levels: Levels, top: seq<Level>) {
    && |top| == (if |levels| <= MAX_LEVELS then |levels| else MAX_LEVELS)
    && Picks(isBid, levels, top)
  }

  ghost predicate Picks(isBid: bool, levels: Levels, top: seq<Level>) {
    && StrictlyBestFirst(isBid, top)
    && (forall i :: 0 <= i < |top| ==> top[i].price in levels && levels[top[i].price] == top[i].qty)
    && (forall i, p :: 0 <= i < |top| && p in levels && !Lists(top, p) ==> Better(isBid, top[i].price, p))
  }

  predicate Lists(top: seq<Level>, price: real) {
    exists i :: 0 <= i < |top| && top[i].price == price
  }

  predicate IsBest(isBid: bool, prices: set<real>, p: real) {
    p in prices && forall q :: q in prices ==> !Better(isBid, q, p)
  }

  lemma {:induction false} BestExists(isBid: bool, prices: set<real>) returns (best: real)
    requires prices != {}
    ensures IsBest(isBid, prices, best)
    decreases |prices|
  {
    assert (forall p :: p !in prices) ==> prices == {};
    var p :| p in prices;
    var rest := prices - {p};
    assert prices == rest + {p};
    if rest == {} {
      best := p;
    } else {
      best := BestExists(isBid, rest);
      best := if Better(isBid, p, best) then p else best;
    }
  }

  lemma {:induction false} ListedCount(isBid: bool, levels: Levels, top: seq<Level>, rest: set<real>)
    requires Picks(isBid, levels, top)
    requires forall p :: p in rest <==> p in levels && !Lists(top, p)
    ensures |rest| + |top| == |levels|
  {
    var listed := set i | 0 <= i < |top| :: top[i].price;
    ListedSize(isBid, top);
    forall p
      ensures p in levels <==> p in rest || p in listed
      ensures p in listed ==> p !in rest
    {
      assert p in listed <==> Lists(top, p);
      if Lists(top, p) {
        var i :| 0 <= i < |top| && top[i].price == p;
      }
    }
    assert levels.Keys == rest + listed && rest !! listed;
  }

  lemma {:induction false} ListedSize(isBid: bool, top: seq<Level>)
    requires StrictlyBestFirst(isBid, top)
    ensures |set i | 0 <= i < |top| :: top[i].price| == |top|
  {
    var listed := set i | 0 <= i < |top| :: top[i].price;
    if top == [] {
      assert listed == {};
    } else {
      var n := |top| - 1;
      ListedSize(isBid, top[..n]);
      var fewer := set i | 0 <= i < n :: top[..n][i].price;
      assert listed == fewer + {top[n].price} && top[n].price !in fewer;
    }
  }

  lemma NoneAhead(isBid: bool, levels: Levels, s: seq<Level>, t: seq<Level>, k: nat)
    requires IsTop(isBid, levels, s) && IsTop(isBid, levels, t)
    requires k < |s| && s[..k] == t[..k]
    ensures !Better(isBid, s[k].price, t[k].price)
  {
    if Lists(t, s[k].price) {
      var j :| 0 <= j < |t| && t[j].price == s[k].price;
      assert j < k ==> s[..k][j] == t[..k][j];
    }
  }

  /** There is only one such list. */
  lemma {:induction false} TopIsUnique(isBid: bool, levels: Levels, s: seq<Level>, t: seq<Level>, k: nat)
    requires IsTop(isBid, levels, s) && IsTop(isBid, levels, t)
    requires k <= |s|
    ensures s[..k] == t[..k]
  {
    if k > 0 {
      TopIsUnique(isBid, levels, s, t, k - 1);
      NoneAhead(isBid, levels, s, t, k - 1);
      NoneAhead(isBid, levels, t, s, k - 1);
    }
  }

  /** Writes the top of `levels` to the front of `out` and returns how many. */
  method CopyTop(isBid: bool, levels: Levels, out: array<Level>) returns (count: nat)
    requires out.Length == MAX_LEVELS
    modifies out
    ensures count <= MAX_LEVELS && IsTop(isBid, levels, out[..count])
    ensures out[count..] == old(out[count..])
  {
    count := 0;
    var rest := levels.Keys;
    while rest != {}
      invariant count <= MAX_LEVELS
      invariant Picks(isBid, levels, out[..count])
      invariant forall p :: p in rest <==> p in levels && !Lists(out[..count], p)
      invariant out[count..] == old(out[count..])
      decreases |rest|
    {
      if count >= MAX_LEVELS {
        break;
      }
      ghost var best := BestExists(isBid, rest);
      var p :| p in rest && forall q :: q in rest ==> !Better(isBid, q, p);
      ghost var before := out[..count];
      out[count] := Level(p, levels[p]);
      assert out[..count + 1] == before + [Level(p, levels[p])];
      PickNext(isBid, levels, before, rest, p);
      rest := rest - {p};
      count := count + 1;
    }
    ListedCount(isBid, levels, out[..count], rest);
  }

  lemma PickNext(isBid: bool, levels: Levels, top: seq<Level>, rest: set<real>, p: real)
    requires Picks(isBid, levels, top)
    requires forall q :: q in rest <==> q in levels && !Lists(top, q)
    requires p in rest && forall q :: q in rest ==> !Better(isBid, q, p)
    ensures var next := top + [Level(p, levels[p])];
      Picks(isBid, levels, next) && forall q :: q in rest - {p} <==> q in levels && !Lists(next, q)
  {
    var next := top + [Level(p, levels[p])];
    forall q
      ensures Lists(next, q) <==> Lists(top, q) || q == p
    {
      if Lists(top, q) {
        var i :| 0 <= i < |top| && top[i].price == q;
        assert next[i].price == q;
      }
      if q == p {
        assert next[|top|].price == q;
      }
    }
  }

  predicate NotCrossed(bids: Levels, asks: Levels) {
    forall b, a :: b in bids && a in asks ==> b < a
  }

  /** The top of a book passes validation exactly when both sides have levels, the
      listed ones are positive, and no bid in the whole book reaches an ask. */
  lemma TopIsWellFormedIff(bids: Levels, asks: Levels, topBids: seq<Level>, topAsks: seq<Level>)
    requires IsTop(true, bids, topBids) && IsTop(false, asks, topAsks)
    ensures WellFormed(topBids, topAsks) <==>
      bids != map[] && asks != map[] && AllPositive(topBids) && AllPositive(topAsks) && NotCrossed(bids, asks)
  {
    assert topBids != [] ==> topBids[0].price in bids && forall p :: p in bids ==> p <= topBids[0].price by {
      if topBids != [] {
        Foremost(true, bids, topBids);
      }
    }
    assert topAsks != [] ==> topAsks[0].price in asks && forall p :: p in asks ==> p >= topAsks[0].price by {
      if topAsks != [] {
        Foremost(false, asks, topAsks);
      }
    }
    assert |bids| == 0 <==> bids == map[];
    assert |asks| == 0 <==> asks == map[];
  }

  lemma Foremost(isBid: bool, levels: Levels, top: seq<Level>)
    requires Picks(isBid, levels, top) && top != []
    ensures top[0].price in levels && forall p :: p in levels ==> !Better(isBid, p, top[0].price)
  {
    forall p | p in levels
      ensures !Better(isBid, p, top[0].price)
    {
      if Lists(top, p) {
        var i :| 0 <= i < |top| && top[i].price == p;
      }
    }
  }
}
