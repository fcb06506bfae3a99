// Quote geometry: from book, volatility, alpha and position to prices on the
// tick grid.
module Quotes {
  import opened Orders

  /** Strategy settings after validation. */
  datatype Settings = Settings(
    tick: real,
    lot: real,
    volToHalfSpread: real,
    halfSpreadBps: real,
    halfSpread: real,
    minHalfSpreadBps: real,
    levelMultiplier: real,
    skew: real,
    c1: real,
    c1Ticks: real,
    orderLevels: nat,
    maxOrderQtyDollar: Option<real>)

  predicate ValidSettings(s: Settings) {
    && s.tick > 0.0 && s.lot > 0.0
    && s.volToHalfSpread >= 0.0 && s.halfSpreadBps >= 0.0 && s.halfSpread >= 0.0
    && s.minHalfSpreadBps >= 0.0
    && s.levelMultiplier > 1.0
    && s.skew >= 0.0 && s.c1 >= 0.0 && s.c1Ticks >= 0.0
    && 1 <= s.orderLevels <= MAX_ORDER_LEVELS
  }

  /** What one quote is computed from. `limit` is the position limit in dollars,
      or the largest float while none is known. */
  datatype Market = Market(bestBid: real, bestAsk: real, volatility: real, alpha: real, position: real, limit: real,
                           orderQtyDollar: real)

  predicate ValidMarket(m: Market) {
    0.0 < m.bestBid < m.bestAsk && m.volatility >= 0.0 && m.limit > 0.0
  }

  function Mid(m: Market): real {
    (m.bestBid + m.bestAsk) / 2.0
  }

  function Multiplier(s: Settings, level: nat): real {
    if level == 0 then 1.0 else s.levelMultiplier
  }

  /** Half-spread in price units: by volatility, else by basis points, else fixed,
      else one tick. */
  function HalfSpread(s: Settings, m: Market): real {
    if s.volToHalfSpread > 0.0 && m.volatility > 0.0 then m.volatility * s.volToHalfSpread
    else if s.halfSpreadBps > 0.0 then Mid(m) * (s.halfSpreadBps / 10000.0)
    else if s.halfSpread > 0.0 then s.halfSpread
    else s.tick
  }

  function Fair(s: Settings, m: Market): real {
    Mid(m) + (if s.c1 > 0.0 then s.c1 else s.c1Ticks * s.tick) * m.alpha
  }

  function Clamp(x: real): real {
    Max(-1.0, Min(x, 1.0))
  }

  function Share(position: real, mid: real, limit: real): real
    requires limit > 0.0
  {
    position * mid / limit
  }

  /** The share of the limit in use, in [-1, 1]. */
  function Lean(m: Market): real
    requires m.limit > 0.0
  {
    Clamp(Share(m.position, Mid(m), m.limit))
  }

  /** Distance of a side's raw price from fair: more when a fill would add to the
      position, less when it would reduce it, never negative. */
  function Depth(s: Settings, m: Market, side: Side, level: nat): real
    requires m.limit > 0.0
  {
    Max(HalfSpread(s, m) * Multiplier(s, level) * (1.0 + Sign(side) * s.skew * Lean(m)), 0.0)
  }

  /** The nearest allowed distance from mid at a level, if there is one. */
  function Nearest(s: Settings, m: Market, side: Side, level: nat): real {
    Mid(m) * (1.0 - Sign(side) * (s.minHalfSpreadBps * Multiplier(s, level)) / 10000.0)
  }

  // ------------------------------------------------------------------ the grid

  function OnGrid(k: int, tick: real): real {
    k as real * tick
  }

  function SnapDown(x: real, tick: real): real
    requires tick > 0.0
  {
    OnGrid((x / tick).Floor, tick)
  }

  function Ceiling(x: real): int {
    -((-x).Floor)
  }

  function SnapUp(x: real, tick: real): real
    requires tick > 0.0
  {
    OnGrid(Ceiling(x / tick), tick)
  }

  lemma GridOrder(k: int, x: real, tick: real)
    requires tick > 0.0
    ensures OnGrid(k, tick) <= x <==> k as real <= x / tick
    ensures OnGrid(k, tick) >= x <==> k as real >= x / tick
  {
    assert x == x / tick * tick;
    if k as real <= x / tick {
      assert k as real * tick <= x / tick * tick;
    }
    if k as real >= x / tick {
      assert k as real * tick >= x / tick * tick;
    }
    if k as real < x / tick {
      assert k as real * tick < x / tick * tick;
    }
    if k as real > x / tick {
      assert k as real * tick > x / tick * tick;
    }
  }

  /** Snapping down gives the largest grid price not above. */
  lemma SnapDownIsLargest(k: int, x: real, tick: real)
    requires tick > 0.0
    ensures OnGrid(k, tick) <= SnapDown(x, tick) <==> OnGrid(k, tick) <= x
    ensures SnapDown(x, tick) <= x
  {
    var f := (x / tick).Floor;
    GridOrder(k, x, tick);
    GridOrder(f, x, tick);
    GridOrder(k, SnapDown(x, tick), tick);
    assert SnapDown(x, tick) / tick == f as real;
  }

  /** Snapping up gives the smallest grid price not below. */
  lemma SnapUpIsSmallest(k: int, x: real, tick: real)
    requires tick > 0.0
    ensures OnGrid(k, tick) >= SnapUp(x, tick) <==> OnGrid(k, tick) >= x
    ensures SnapUp(x, tick) >= x
  {
    assert (-x) / tick == -(x / tick);
    assert SnapUp(x, tick) == -SnapDown(-x, tick);
    assert OnGrid(-k, tick) == -OnGrid(k, tick);
    SnapDownIsLargest(-k, -x, tick);
  }

  // ------------------------------------------------------------------- prices

  /** The tightest of the limits on a side's price: its raw price, the book's own
      best price, and the nearest allowed distance from mid. */
  ghost predicate WithinLimits(s: Settings, m: Market, side: Side, level: nat, price: real)
    requires m.limit > 0.0
  {
    && Sign(side) * price <= Sign(side) * (Fair(s, m) - Sign(side) * Depth(s, m, side, level))
    && Sign(side) * price <= Sign(side) * (if side == Buy then m.bestBid else m.bestAsk)
    && (s.minHalfSpreadBps > 0.0 ==> Sign(side) * price <= Sign(side) * Nearest(s, m, side, level))
  }

  /** The price is on the grid, and is the most aggressive grid price that respects
      every limit. */
  ghost predicate IsPrice(s: Settings, m: Market, side: Side, level: nat, price: real)
    requires m.limit > 0.0
  {
    && (exists k: int :: price == OnGrid(k, s.tick))
    && WithinLimits(s, m, side, level, price)
    && (forall k: int :: WithinLimits(s, m, side, level, OnGrid(k, s.tick)) ==>
          Sign(side) * OnGrid(k, s.tick) <= Sign(side) * price)
  }

  /** Dollars to spend on each order. */
  function Budget(s: Settings, orderQtyDollar: real): real {
    if s.maxOrderQtyDollar.Some? then Min(orderQtyDollar, s.maxOrderQtyDollar.value) else orderQtyDollar
  }

  /** A quote for this market: each active level is priced, the rest are zero, and
      the quantity is the largest whole number of lots the budget pays for. */
  ghost predicate IsQuote(s: Settings, m: Market, q: Quote)
    requires m.limit > 0.0
  {
    && QuoteShape(q) && q.numLevels == s.orderLevels && q.mid == Mid(m)
    && (exists k: int :: q.quantity == OnGrid(k, s.lot))
    && q.quantity * Mid(m) <= Budget(s, m.orderQtyDollar)
    && (forall k: int :: OnGrid(k, s.lot) * Mid(m) <= Budget(s, m.orderQtyDollar) ==> OnGrid(k, s.lot) <= q.quantity)
    && (forall side, level: nat :: level < MAX_ORDER_LEVELS ==>
          if level < q.numLevels then IsPrice(s, m, side, level, QuotePrice(q, side, level))
          else QuotePrice(q, side, level) == 0.0)
  }

  method CalculateQuote(s: Settings, m: Market, validForTrading: bool) returns (quote: Option<Quote>)
    requires ValidSettings(s) && ValidMarket(m)
    ensures quote.None? <==> Budget(s, m.orderQtyDollar) <= 0.0
    ensures quote.Some? ==> IsQuote(s, m, quote.value) && quote.value.validForTrading == validForTrading
  {
    hide OnGrid, IsPrice, WithinLimits, Depth, Nearest, Fair, HalfSpread, Lean;
    var orderQtyDollar := m.orderQtyDollar;
    if s.maxOrderQtyDollar.Some? {
      orderQtyDollar := Min(orderQtyDollar, s.maxOrderQtyDollar.value);
    }
    if orderQtyDollar <= 0.0 {
      return None;
    }
    var numLevels := if s.orderLevels <= MAX_ORDER_LEVELS then s.orderLevels else MAX_ORDER_LEVELS;
    var bidPrices := new real[MAX_ORDER_LEVELS](_ => 0.0);
    var askPrices := new real[MAX_ORDER_LEVELS](_ => 0.0);
    for level := 0 to numLevels
      invariant forall l: nat :: l < level ==>
        IsPrice(s, m, Buy, l, bidPrices[l]) && IsPrice(s, m, Sell, l, askPrices[l])
      invariant forall l: nat :: level <= l < MAX_ORDER_LEVELS ==> bidPrices[l] == 0.0 && askPrices[l] == 0.0
    {
      bidPrices[level] := BidPrice(s, m, level);
      askPrices[level] := AskPrice(s, m, level);
    }
    var quantity := LotsFor(orderQtyDollar, Mid(m), s.lot);
    quote := Some(Quote(bidPrices[..], askPrices[..], numLevels, quantity, Mid(m), validForTrading));
  }

  method BidPrice(s: Settings, m: Market, level: nat) returns (price: real)
    requires ValidSettings(s) && ValidMarket(m)
    ensures IsPrice(s, m, Buy, level, price)
  {
    hide OnGrid, SnapDown, Depth, Nearest, Fair;
    var rawBid := Fair(s, m) - Depth(s, m, Buy, level);
    var bid := Min(rawBid, m.bestBid);
    if s.minHalfSpreadBps > 0.0 && bid > Nearest(s, m, Buy, level) {
      bid := Nearest(s, m, Buy, level);
    }
    price := SnapDown(bid, s.tick);
    SnapDownIsOnGrid(bid, s.tick);
    forall k: int | WithinLimits(s, m, Buy, level, OnGrid(k, s.tick))
      ensures OnGrid(k, s.tick) <= price
    {
      SnapDownIsLargest(k, bid, s.tick);
    }
    SnapDownIsLargest(0, bid, s.tick);
  }

  method AskPrice(s: Settings, m: Market, level: nat) returns (price: real)
    requires ValidSettings(s) && ValidMarket(m)
    ensures IsPrice(s, m, Sell, level, price)
  {
    hide OnGrid, SnapUp, Depth, Nearest, Fair;
    var rawAsk := Fair(s, m) + Depth(s, m, Sell, level);
    var ask := Max(rawAsk, m.bestAsk);
    if s.minHalfSpreadBps > 0.0 && ask < Nearest(s, m, Sell, level) {
      ask := Nearest(s, m, Sell, level);
    }
    price := SnapUp(ask, s.tick);
    SnapUpIsOnGrid(ask, s.tick);
    forall k: int | WithinLimits(s, m, Sell, level, OnGrid(k, s.tick))
      ensures OnGrid(k, s.tick) >= price
    {
      SnapUpIsSmallest(k, ask, s.tick);
    }
    SnapUpIsSmallest(0, ask, s.tick);
  }

  lemma SnapDownIsOnGrid(x: real, tick: real)
    requires tick > 0.0
    ensures exists k: int :: SnapDown(x, tick) == OnGrid(k, tick)
  {
    var k := (x / tick).Floor;
    assert SnapDown(x, tick) == OnGrid(k, tick);
  }

  lemma SnapUpIsOnGrid(x: real, tick: real)
    requires tick > 0.0
    ensures exists k: int :: SnapUp(x, tick) == OnGrid(k, tick)
  {
    var k := Ceiling(x / tick);
    assert SnapUp(x, tick) == OnGrid(k, tick);
  }

  /** The largest whole number of lots worth no more than `dollars` at `mid`. */
  method LotsFor(dollars: real, mid: real, lot: real) returns (quantity: real)
    requires mid > 0.0 && lot > 0.0
    ensures exists k: int :: quantity == OnGrid(k, lot)
    ensures quantity * mid <= dollars
    ensures forall k: int :: OnGrid(k, lot) * mid <= dollars ==> OnGrid(k, lot) <= quantity
  {
    hide OnGrid, SnapDown;
    quantity := SnapDown(dollars / mid, lot);
    SnapDownIsOnGrid(dollars / mid, lot);
    SnapDownIsLargest(0, dollars / mid, lot);
    Worth(quantity, mid, dollars);
    forall k: int | OnGrid(k, lot) * mid <= dollars
      ensures OnGrid(k, lot) <= quantity
    {
      Worth(OnGrid(k, lot), mid, dollars);
      SnapDownIsLargest(k, dollars / mid, lot);
    }
  }

  lemma Worth(quantity: real, mid: real, dollars: real)
    requires mid > 0.0
    ensures quantity <= dollars / mid <==> quantity * mid <= dollars
  {
    assert dollars == dollars / mid * mid;
    if quantity <= dollars / mid {
      assert quantity * mid <= dollars / mid * mid;
    } else {
      assert quantity * mid > dollars / mid * mid;
    }
  }

  // ----------------------------------------------------------------- geometry

  /** Whatever moves every limit outward moves the price outward. */
  lemma LimitsOrderPrices(s: Settings, m: Market, n: Market, side: Side, l: nat, k: nat, inner: real, outer: real)
    requires m.limit > 0.0 && n.limit > 0.0
    requires IsPrice(s, m, side, l, inner) && IsPrice(s, n, side, k, outer)
    requires WithinLimits(s, n, side, k, outer) ==> WithinLimits(s, m, side, l, outer)
    ensures Sign(side) * outer <= Sign(side) * inner
  {
    var g: int :| outer == OnGrid(g, s.tick);
  }

  /** Prices never cross the book, keep the level's least distance from mid, and so
      bids stay strictly below asks. */
  lemma QuoteStaysOutside(s: Settings, m: Market, level: nat, bid: real, ask: real)
    requires ValidSettings(s) && ValidMarket(m)
    requires IsPrice(s, m, Buy, level, bid) && IsPrice(s, m, Sell, level, ask)
    ensures bid <= m.bestBid < m.bestAsk <= ask
    ensures bid <= Mid(m) * (1.0 - s.minHalfSpreadBps * Multiplier(s, level) / 10000.0)
    ensures ask >= Mid(m) * (1.0 + s.minHalfSpreadBps * Multiplier(s, level) / 10000.0)
  {
    hide Depth, Fair;
    if s.minHalfSpreadBps == 0.0 {
      assert s.minHalfSpreadBps * Multiplier(s, level) == 0.0;
    }
  }

  /** The depth before it is cut off at zero. */
  function Unclamped(base: real, skew: real, lean: real): real {
    base * (1.0 + skew * lean)
  }

  lemma DepthIs(s: Settings, m: Market, side: Side, level: nat, base: real)
    requires ValidSettings(s) && ValidMarket(m)
    requires base == HalfSpread(s, m) * Multiplier(s, level)
    ensures Depth(s, m, side, level) == Max(Unclamped(base, Sign(side) * s.skew, Lean(m)), 0.0)
    ensures base >= 0.0
  {
    HalfSpreadIsPositive(s, m);
    hide HalfSpread, Lean;
    ScaleBy(HalfSpread(s, m), 0.0, Multiplier(s, level));
  }

  lemma HalfSpreadIsPositive(s: Settings, m: Market)
    requires ValidSettings(s) && ValidMarket(m)
    ensures HalfSpread(s, m) > 0.0
  {
  }

  lemma WiderBase(a: real, b: real, skew: real, lean: real)
    requires 0.0 <= a <= b
    ensures Max(Unclamped(a, skew, lean), 0.0) <= Max(Unclamped(b, skew, lean), 0.0)
  {
    var w := 1.0 + skew * lean;
    if w >= 0.0 {
      assert a * w <= b * w;
    } else {
      assert a * w <= 0.0;
    }
  }

  lemma MoreLean(base: real, skew: real, lean: real, lean': real)
    requires base >= 0.0 && lean <= lean'
    ensures skew >= 0.0 ==> Unclamped(base, skew, lean) <= Unclamped(base, skew, lean')
    ensures skew <= 0.0 ==> Unclamped(base, skew, lean) >= Unclamped(base, skew, lean')
  {
    if skew >= 0.0 {
      assert skew * lean <= skew * lean';
    }
    if skew <= 0.0 {
      assert skew * lean >= skew * lean';
    }
    ScaleBy(base, 1.0 + skew * lean, 1.0 + skew * lean');
    ScaleBy(base, 1.0 + skew * lean', 1.0 + skew * lean);
  }

  lemma ScaleBy(base: real, a: real, b: real)
    requires base >= 0.0
    ensures a <= b ==> base * a <= base * b
  {
  }

  lemma DepthGrowsByLevel(s: Settings, m: Market, side: Side)
    requires ValidSettings(s) && ValidMarket(m)
    ensures Depth(s, m, side, 0) <= Depth(s, m, side, 1)
  {
    hide Depth, Unclamped, HalfSpread, Lean;
    HalfSpreadIsPositive(s, m);
    var a, b := HalfSpread(s, m) * Multiplier(s, 0), HalfSpread(s, m) * Multiplier(s, 1);
    DepthIs(s, m, side, 0, a);
    DepthIs(s, m, side, 1, b);
    ScaleBy(HalfSpread(s, m), Multiplier(s, 0), Multiplier(s, 1));
    WiderBase(a, b, Sign(side) * s.skew, Lean(m));
  }

  lemma NearestMovesOut(s: Settings, m: Market, side: Side)
    requires ValidSettings(s) && ValidMarket(m)
    ensures Sign(side) * Nearest(s, m, side, 1) <= Sign(side) * Nearest(s, m, side, 0)
  {
    ScaleBy(s.minHalfSpreadBps, 1.0, s.levelMultiplier);
    var near, far := s.minHalfSpreadBps * 1.0 / 10000.0, s.minHalfSpreadBps * s.levelMultiplier / 10000.0;
    ScaleBy(Mid(m), 1.0 - far, 1.0 - near);
    ScaleBy(Mid(m), 1.0 + near, 1.0 + far);
  }

  /** Level one is never inside level zero. */
  lemma OuterLevelIsOutside(s: Settings, m: Market, side: Side, inner: real, outer: real)
    requires ValidSettings(s) && ValidMarket(m)
    requires IsPrice(s, m, side, 0, inner) && IsPrice(s, m, side, 1, outer)
    ensures Sign(side) * outer <= Sign(side) * inner
  {
    hide Depth, Fair, IsPrice, Nearest;
    DepthGrowsByLevel(s, m, side);
    NearestMovesOut(s, m, side);
    LimitsOrderPrices(s, m, m, side, 0, 1, inner, outer);
  }

  lemma LeanGrows(m: Market, n: Market)
    requires ValidMarket(m) && n == m.(position := n.position) && m.position <= n.position
    ensures -1.0 <= Lean(m) <= Lean(n) <= 1.0
  {
    hide Share;
    ShareGrows(m.position, n.position, Mid(m), m.limit);
  }

  lemma ShareGrows(p: real, q: real, mid: real, limit: real)
    requires p <= q && mid > 0.0 && limit > 0.0
    ensures Share(p, mid, limit) <= Share(q, mid, limit)
  {
    ScaleBy(mid, p, q);
    DivideBy(p * mid, q * mid, limit);
  }

  lemma DivideBy(a: real, b: real, c: real)
    requires a <= b && c > 0.0
    ensures a / c <= b / c
  {
  }

  lemma DepthFollowsPosition(s: Settings, m: Market, n: Market, side: Side, level: nat)
    requires ValidSettings(s) && ValidMarket(m) && n == m.(position := n.position) && m.position <= n.position
    ensures Sign(side) * Depth(s, m, side, level) <= Sign(side) * Depth(s, n, side, level)
  {
    hide Depth, Unclamped, Lean;
    LeanGrows(m, n);
    var base := HalfSpread(s, m) * Multiplier(s, level);
    DepthIs(s, m, side, level, base);
    DepthIs(s, n, side, level, base);
    MoreLean(base, Sign(side) * s.skew, Lean(m), Lean(n));
  }

  /** A larger position moves neither price up: it makes buying less and selling
      more eager. */
  lemma LargerPositionLowersPrices(s: Settings, m: Market, n: Market, side: Side, level: nat, price: real, price': real)
    requires ValidSettings(s) && ValidMarket(m) && n == m.(position := n.position) && m.position <= n.position
    requires IsPrice(s, m, side, level, price) && IsPrice(s, n, side, level, price')
    ensures price' <= price
  {
    hide Depth, IsPrice, Fair;
    DepthFollowsPosition(s, m, n, side, level);
    assert Fair(s, m) == Fair(s, n) by {
      FairIgnoresPosition(s, m, n);
    }
    if side == Buy {
      LimitsOrderPrices(s, m, n, side, level, level, price, price');
    } else {
      LimitsOrderPrices(s, n, m, side, level, level, price', price);
    }
  }

  lemma FairIgnoresPosition(s: Settings, m: Market, n: Market)
    requires n == m.(position := n.position)
    ensures Fair(s, m) == Fair(s, n)
  {
  }

  // ------------------------------------------------- what moves a price, and how far

  /** What one unit of alpha is worth. */
  function PerAlpha(s: Settings): real {
    if s.c1 > 0.0 then s.c1 else s.c1Ticks * s.tick
  }

  lemma FairMoves(s: Settings, m: Market, n: Market)
    requires n == m.(alpha := n.alpha)
    ensures Fair(s, n) == Fair(s, m) + PerAlpha(s) * (n.alpha - m.alpha)
  {
  }

  lemma AlphaMovesOnlyFair(s: Settings, m: Market, n: Market, side: Side, level: nat)
    requires m.limit > 0.0 && n == m.(alpha := n.alpha)
    ensures Depth(s, n, side, level) == Depth(s, m, side, level)
    ensures Nearest(s, n, side, level) == Nearest(s, m, side, level)
  {
  }

  lemma PerAlphaIsPositive(s: Settings)
    requires ValidSettings(s)
    ensures PerAlpha(s) >= 0.0
  {
  }

  /** A higher alpha moves neither price down. */
  lemma HigherAlphaRaisesPrices(s: Settings, m: Market, n: Market, side: Side, level: nat, price: real, price': real)
    requires ValidSettings(s) && ValidMarket(m) && n == m.(alpha := n.alpha) && m.alpha <= n.alpha
    requires IsPrice(s, m, side, level, price) && IsPrice(s, n, side, level, price')
    ensures price <= price'
  {
    hide Fair, Depth, Nearest, IsPrice, PerAlpha;
    FairMoves(s, m, n);
    PerAlphaIsPositive(s);
    ScaleBy(PerAlpha(s), 0.0, n.alpha - m.alpha);
    AlphaMovesOnlyFair(s, m, n, side, level);
    if side == Buy {
      LimitsOrderPrices(s, n, m, side, level, level, price', price);
    } else {
      LimitsOrderPrices(s, m, n, side, level, level, price, price');
    }
  }

  lemma DepthFollowsVolatility(s: Settings, m: Market, n: Market, side: Side, level: nat)
    requires ValidSettings(s) && ValidMarket(m) && ValidMarket(n) && n == m.(volatility := n.volatility)
    requires s.volToHalfSpread > 0.0 && 0.0 < m.volatility <= n.volatility
    ensures Depth(s, m, side, level) <= Depth(s, n, side, level)
  {
    hide Depth, Unclamped, HalfSpread, Lean;
    SpreadFollowsVolatility(s, m, n);
    HalfSpreadIsPositive(s, m);
    var a, b := HalfSpread(s, m) * Multiplier(s, level), HalfSpread(s, n) * Multiplier(s, level);
    DepthIs(s, m, side, level, a);
    DepthIs(s, n, side, level, b);
    ScaleBy(Multiplier(s, level), HalfSpread(s, m), HalfSpread(s, n));
    WiderBase(a, b, Sign(side) * s.skew, Lean(m));
  }

  lemma SpreadFollowsVolatility(s: Settings, m: Market, n: Market)
    requires ValidMarket(m) && n == m.(volatility := n.volatility)
    requires s.volToHalfSpread > 0.0 && 0.0 < m.volatility <= n.volatility
    ensures HalfSpread(s, m) <= HalfSpread(s, n) && Lean(m) == Lean(n)
  {
    ScaleBy(s.volToHalfSpread, m.volatility, n.volatility);
  }

  /** Where volatility prices the spread, more of it moves both prices outward. */
  lemma HigherVolatilityWidens(s: Settings, m: Market, n: Market, side: Side, level: nat, price: real, price': real)
    requires ValidSettings(s) && ValidMarket(m) && ValidMarket(n) && n == m.(volatility := n.volatility)
    requires s.volToHalfSpread > 0.0 && 0.0 < m.volatility <= n.volatility
    requires IsPrice(s, m, side, level, price) && IsPrice(s, n, side, level, price')
    ensures Sign(side) * price' <= Sign(side) * price
  {
    hide Depth, IsPrice, Fair, Nearest;
    DepthFollowsVolatility(s, m, n, side, level);
    VolatilityMovesOnlyDepth(s, m, n, side, level);
    LimitsOrderPrices(s, m, n, side, level, level, price, price');
  }

  lemma VolatilityMovesOnlyDepth(s: Settings, m: Market, n: Market, side: Side, level: nat)
    requires n == m.(volatility := n.volatility)
    ensures Fair(s, m) == Fair(s, n) && Nearest(s, m, side, level) == Nearest(s, n, side, level)
  {
  }

  /** Neither the book nor the least distance from mid holds the side's price back. */
  predicate Free(s: Settings, m: Market, side: Side, level: nat)
    requires m.limit > 0.0
  {
    var raw := Fair(s, m) - Sign(side) * Depth(s, m, side, level);
    && Sign(side) * raw <= Sign(side) * (if side == Buy then m.bestBid else m.bestAsk)
    && (s.minHalfSpreadBps > 0.0 ==> Sign(side) * raw <= Sign(side) * Nearest(s, m, side, level))
  }

  lemma FreePriceIs(s: Settings, m: Market, side: Side, level: nat, price: real, k: int)
    requires m.limit > 0.0 && Free(s, m, side, level) && IsPrice(s, m, side, level, price)
    ensures var raw := Fair(s, m) - Sign(side) * Depth(s, m, side, level);
      Sign(side) * OnGrid(k, s.tick) <= Sign(side) * price <==> Sign(side) * OnGrid(k, s.tick) <= Sign(side) * raw
  {
    hide Fair, Depth, Nearest;
  }

  /** An alpha worth a whole number of ticks moves a free price by exactly those. */
  lemma AlphaMovesByTicks(s: Settings, m: Market, n: Market, side: Side, level: nat, price: real, price': real,
                          ticks: int)
    requires ValidSettings(s) && ValidMarket(m) && n == m.(alpha := n.alpha)
    requires (if s.c1 > 0.0 then s.c1 else s.c1Ticks * s.tick) * (n.alpha - m.alpha) == OnGrid(ticks, s.tick)
    requires Free(s, m, side, level) && Free(s, n, side, level)
    requires IsPrice(s, m, side, level, price) && IsPrice(s, n, side, level, price')
    ensures price' == price + OnGrid(ticks, s.tick)
  {
    hide Fair, Depth, Nearest, Free, OnGrid, PerAlpha;
    var t := OnGrid(ticks, s.tick);
    assert Fair(s, n) == Fair(s, m) + t by {
      FairMovesBy(s, m, n, t);
    }
    AlphaMovesOnlyFair(s, m, n, side, level);
    var j: int :| price == OnGrid(j, s.tick);
    var k: int :| price' == OnGrid(k, s.tick);
    GridAdds(j, ticks, s.tick);
    GridAdds(k - ticks, ticks, s.tick);
    hide IsPrice;
    FreePriceIs(s, m, side, level, price, j);
    FreePriceIs(s, m, side, level, price, k - ticks);
    FreePriceIs(s, n, side, level, price', k);
    FreePriceIs(s, n, side, level, price', j + ticks);
  }

  lemma FairMovesBy(s: Settings, m: Market, n: Market, t: real)
    requires n == m.(alpha := n.alpha)
    requires (if s.c1 > 0.0 then s.c1 else s.c1Ticks * s.tick) * (n.alpha - m.alpha) == t
    ensures Fair(s, n) == Fair(s, m) + t
  {
    FairMoves(s, m, n);
    hide Fair;
  }

  lemma GridAdds(a: int, b: int, tick: real)
    ensures OnGrid(a + b, tick) == OnGrid(a, tick) + OnGrid(b, tick)
    ensures OnGrid(0, tick) == 0.0
  {
  }

  // ---------------------------------------------------- the prices, in full

  /** The half-spread from the settings, the first that applies. */
  predicate SpreadIs(s: Settings, m: Market, spread: real) {
    && (s.volToHalfSpread > 0.0 && m.volatility > 0.0 ==> spread == s.volToHalfSpread * m.volatility)
    && (s.volToHalfSpread <= 0.0 || m.volatility <= 0.0 ==>
          && (s.halfSpreadBps > 0.0 ==> spread == (m.bestBid + m.bestAsk) / 2.0 * s.halfSpreadBps / 10000.0)
          && (s.halfSpreadBps <= 0.0 ==> spread == if s.halfSpread > 0.0 then s.halfSpread else s.tick))
  }

  /** The used share of the limit, never beyond all of it either way. */
  predicate LeanIs(m: Market, lean: real)
    requires m.limit > 0.0
  {
    var used := m.position * ((m.bestBid + m.bestAsk) / 2.0);
    && (used >= m.limit ==> lean == 1.0) && (used <= -m.limit ==> lean == -1.0)
    && (-m.limit < used < m.limit ==> lean * m.limit == used)
  }

  /** Everything that holds a bid down, in the market's own figures. */
  predicate BidMayBe(s: Settings, m: Market, widening: real, spread: real, lean: real, price: real) {
    var mid := (m.bestBid + m.bestAsk) / 2.0;
    var fair := mid + m.alpha * (if s.c1 > 0.0 then s.c1 else s.c1Ticks * s.tick);
    && price <= fair && price <= fair - spread * widening * (1.0 + s.skew * lean)
    && price <= m.bestBid
    && (s.minHalfSpreadBps > 0.0 ==> price <= mid - mid * s.minHalfSpreadBps * widening / 10000.0)
  }

  predicate AskMayBe(s: Settings, m: Market, widening: real, spread: real, lean: real, price: real) {
    var mid := (m.bestBid + m.bestAsk) / 2.0;
    var fair := mid + m.alpha * (if s.c1 > 0.0 then s.c1 else s.c1Ticks * s.tick);
    && price >= fair && price >= fair + spread * widening * (1.0 - s.skew * lean)
    && price >= m.bestAsk
    && (s.minHalfSpreadBps > 0.0 ==> price >= mid + mid * s.minHalfSpreadBps * widening / 10000.0)
  }

  lemma ClampIs(used: real, limit: real, lean: real)
    requires limit > 0.0
    requires (used >= limit ==> lean == 1.0) && (used <= -limit ==> lean == -1.0)
    requires -limit < used < limit ==> lean * limit == used
    ensures Clamp(used / limit) == lean
  {
    WholeQuotients(limit);
    if used >= limit {
      DivideBy(limit, used, limit);
    } else if used <= -limit {
      DivideBy(used, -limit, limit);
    } else {
      DivideBy(used, limit, limit);
      DivideBy(-limit, used, limit);
      QuotientIs(used, limit, lean);
    }
  }

  lemma LeanLaw(m: Market, lean: real)
    requires ValidMarket(m) && LeanIs(m, lean)
    ensures Lean(m) == lean
  {
    hide Clamp;
    var used := m.position * Mid(m);
    assert Share(m.position, Mid(m), m.limit) == used / m.limit;
    ClampIs(used, m.limit, lean);
  }

  lemma QuotientIs(a: real, b: real, q: real)
    requires b > 0.0 && q * b == a
    ensures a / b == q
  {
  }

  lemma WholeQuotients(b: real)
    requires b > 0.0
    ensures b / b == 1.0 && -b / b == -1.0
  {
  }

  lemma PerTenThousand(x: real, bps: real)
    ensures x * (bps / 10000.0) == x * bps / 10000.0
  {
    assert bps == bps / 10000.0 * 10000.0;
    assert x * bps == x * (bps / 10000.0) * 10000.0;
  }

  lemma SpreadLaw(s: Settings, m: Market, spread: real)
    requires SpreadIs(s, m, spread)
    ensures HalfSpread(s, m) == spread
  {
    PerTenThousand((m.bestBid + m.bestAsk) / 2.0, s.halfSpreadBps);
    assert s.volToHalfSpread * m.volatility == m.volatility * s.volToHalfSpread;
  }

  lemma BidWithinIs(s: Settings, m: Market, level: nat, widening: real, spread: real, lean: real, price: real)
    requires ValidSettings(s) && ValidMarket(m) && SpreadIs(s, m, spread) && LeanIs(m, lean)
    requires widening == (if level == 0 then 1.0 else s.levelMultiplier)
    ensures WithinLimits(s, m, Buy, level, price) <==> BidMayBe(s, m, widening, spread, lean, price)
  {
    hide Lean, HalfSpread, SpreadIs, LeanIs, Nearest, Depth, Fair;
    LeanLaw(m, lean);
    SpreadLaw(s, m, spread);
    NearestIs(s, m, level, widening);
    DepthsAre(s, m, level, widening, spread, lean);
    FairIs(s, m);
  }

  lemma AskWithinIs(s: Settings, m: Market, level: nat, widening: real, spread: real, lean: real, price: real)
    requires ValidSettings(s) && ValidMarket(m) && SpreadIs(s, m, spread) && LeanIs(m, lean)
    requires widening == (if level == 0 then 1.0 else s.levelMultiplier)
    ensures WithinLimits(s, m, Sell, level, price) <==> AskMayBe(s, m, widening, spread, lean, price)
  {
    hide Lean, HalfSpread, SpreadIs, LeanIs, Nearest, Depth, Fair;
    LeanLaw(m, lean);
    SpreadLaw(s, m, spread);
    NearestIs(s, m, level, widening);
    DepthsAre(s, m, level, widening, spread, lean);
    FairIs(s, m);
  }

  lemma FairIs(s: Settings, m: Market)
    ensures Fair(s, m) == (m.bestBid + m.bestAsk) / 2.0 + m.alpha * (if s.c1 > 0.0 then s.c1 else s.c1Ticks * s.tick)
  {
  }

  lemma NearestIs(s: Settings, m: Market, level: nat, widening: real)
    requires widening == (if level == 0 then 1.0 else s.levelMultiplier)
    ensures var mid := (m.bestBid + m.bestAsk) / 2.0;
      && Nearest(s, m, Buy, level) == mid - mid * s.minHalfSpreadBps * widening / 10000.0
      && Nearest(s, m, Sell, level) == mid + mid * s.minHalfSpreadBps * widening / 10000.0
  {
    var part := s.minHalfSpreadBps * widening;
    assert Mid(m) * s.minHalfSpreadBps * widening == Mid(m) * part;
    Portions(Mid(m), part);
  }

  lemma Portions(mid: real, part: real)
    ensures mid * (1.0 - 1.0 * part / 10000.0) == mid - mid * part / 10000.0
    ensures mid * (1.0 - -1.0 * part / 10000.0) == mid + mid * part / 10000.0
  {
  }

  lemma DepthsAre(s: Settings, m: Market, level: nat, widening: real, spread: real, lean: real)
    requires m.limit > 0.0 && HalfSpread(s, m) == spread && Lean(m) == lean
    requires widening == (if level == 0 then 1.0 else s.levelMultiplier)
    ensures Depth(s, m, Buy, level) == Max(spread * widening * (1.0 + s.skew * lean), 0.0)
    ensures Depth(s, m, Sell, level) == Max(spread * widening * (1.0 - s.skew * lean), 0.0)
  {
    hide HalfSpread, Lean;
    assert 1.0 + Sign(Buy) * s.skew * lean == 1.0 + s.skew * lean;
    assert 1.0 + Sign(Sell) * s.skew * lean == 1.0 - s.skew * lean;
  }

  /** A quoted bid is the highest grid price that nothing holds down further, and a
      quoted ask the lowest that nothing pushes up. */
  lemma PriceLaw(s: Settings, m: Market, level: nat, widening: real, spread: real, lean: real, bid: real, ask: real,
                 k: int)
    requires ValidSettings(s) && ValidMarket(m) && SpreadIs(s, m, spread) && LeanIs(m, lean)
    requires widening == (if level == 0 then 1.0 else s.levelMultiplier)
    requires IsPrice(s, m, Buy, level, bid) && IsPrice(s, m, Sell, level, ask)
    ensures OnGrid(k, s.tick) <= bid <==> BidMayBe(s, m, widening, spread, lean, OnGrid(k, s.tick))
    ensures OnGrid(k, s.tick) >= ask <==> AskMayBe(s, m, widening, spread, lean, OnGrid(k, s.tick))
    ensures exists j: int :: bid == OnGrid(j, s.tick)
    ensures exists j: int :: ask == OnGrid(j, s.tick)
  {
    hide WithinLimits, BidMayBe, AskMayBe, OnGrid, SpreadIs, LeanIs;
    BidWithinIs(s, m, level, widening, spread, lean, OnGrid(k, s.tick));
    AskWithinIs(s, m, level, widening, spread, lean, OnGrid(k, s.tick));
    if OnGrid(k, s.tick) <= bid {
      WithinDown(s, m, Buy, level, bid, OnGrid(k, s.tick));
    }
    if OnGrid(k, s.tick) >= ask {
      WithinDown(s, m, Sell, level, ask, OnGrid(k, s.tick));
    }
  }

  /** Moving away from the market stays within the limits. */
  lemma WithinDown(s: Settings, m: Market, side: Side, level: nat, price: real, further: real)
    requires m.limit > 0.0 && WithinLimits(s, m, side, level, price) && Sign(side) * further <= Sign(side) * price
    ensures WithinLimits(s, m, side, level, further)
  {
    hide Fair, Depth, Nearest;
  }

  /** The quantity is the most lots that the dollars, and their cap if any, buy at mid. */
  lemma QuantityLaw(s: Settings, m: Market, q: Quote, k: int)
    requires ValidSettings(s) && ValidMarket(m) && IsQuote(s, m, q)
    ensures var cost := k as real * s.lot * ((m.bestBid + m.bestAsk) / 2.0);
      k as real * s.lot <= q.quantity <==>
        cost <= m.orderQtyDollar && (s.maxOrderQtyDollar.Some? ==> cost <= s.maxOrderQtyDollar.value)
  {
    hide IsPrice;
    assert OnGrid(k, s.lot) == k as real * s.lot;
    ScaleBy(Mid(m), OnGrid(k, s.lot), q.quantity);
  }
}
