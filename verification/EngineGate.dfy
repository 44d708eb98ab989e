/** The liquidity gate and what it is for, as limits on the book without a division. */
module EngineGate {
  import opened Options
  import opened Ratios
  import opened EngineSpec

  // A leg is no wider than its share of mid or an absolute floor that is switched
  // on; a leg without both quotes has no width to speak of.
  predicate NarrowEnough(g: GateConfig, bid: real, ask: real, tickUsd: real) {
    || bid <= 0.0 || ask <= 0.0
    || 2.0 * (ask - bid) <= g.maxLegSpreadPct * (bid + ask)
    || (g.spreadAbsUsd > 0.0 && ask - bid <= g.spreadAbsUsd)
    || (g.spreadAbsTicks > 0.0 && tickUsd > 0.0 && ask - bid <= g.spreadAbsTicks * tickUsd)
  }

  // The debit exceeds the mid spread, if that is positive, by no more than the
  // allowed share of it.
  predicate CheapEnough(g: GateConfig, q: Quotes) {
    var near := if q.nearBid > 0.0 && q.nearAsk > 0.0 then (q.nearBid + q.nearAsk) / 2.0 else 0.0;
    var far := if q.farBid > 0.0 && q.farAsk > 0.0 then (q.farBid + q.farAsk) / 2.0 else 0.0;
    far <= near || q.netDebit - (far - near) <= g.maxEntryPremium * (far - near)
  }

  // A quoted size that is known reaches the floor and what is needed; no size where
  // one is expected fails.
  predicate DeepEnough(g: GateConfig, size: Option<real>, floor: real, needed: real) {
    size.None? || if size.value > 0.0 then size.value >= floor && size.value >= needed else !g.sizeData
  }

  // The near bid is sold into and, unless it is a roll, the far ask bought from.
  predicate Tradable(g: GateConfig, q: Quotes, qty: real, isRoll: bool) {
    && NarrowEnough(g, q.nearBid, q.nearAsk, q.tickUsd) && NarrowEnough(g, q.farBid, q.farAsk, q.tickUsd)
    && CheapEnough(g, q)
    && (q.nearSizes.Some? ==>
          && DeepEnough(g, Some(q.nearSizes.value.0), g.minBidSize, if g.sizeForQty then qty else 0.0)
          && DeepEnough(g, Some(q.nearSizes.value.1), g.minAskSize, 0.0))
    && (q.farSizes.Some? ==>
          && DeepEnough(g, Some(q.farSizes.value.0), g.minBidSize, 0.0)
          && DeepEnough(g, Some(q.farSizes.value.1), g.minAskSize, if g.sizeForQty && !isRoll then qty else 0.0))
  }

  lemma WidthExactly(g: GateConfig, bid: real, ask: real, tickUsd: real)
    ensures TooWide(g, bid, ask, tickUsd) <==> !NarrowEnough(g, bid, ask, tickUsd)
  {
    if bid > 0.0 && ask > 0.0 {
      Share(ask - bid, (bid + ask) / 2.0, g.maxLegSpreadPct);
      assert g.maxLegSpreadPct * ((bid + ask) / 2.0) == g.maxLegSpreadPct * (bid + ask) / 2.0;
    }
  }

  lemma PremiumExactly(g: GateConfig, q: Quotes)
    ensures Overpriced(g, q) <==> !CheapEnough(g, q)
  {
    var mid := Mid(q.farBid, q.farAsk) - Mid(q.nearBid, q.nearAsk);
    if mid > 0.0 { Share(q.netDebit - mid, mid, g.maxEntryPremium); }
  }

  // The gate passes a book exactly when it is within all these limits.
  lemma GateExactly(g: GateConfig, q: Quotes, qty: real, isRoll: bool)
    ensures PassesLiquidityGate(g, q, qty, isRoll) <==> Tradable(g, q, qty, isRoll)
  {
    WidthExactly(g, q.nearBid, q.nearAsk, q.tickUsd);
    WidthExactly(g, q.farBid, q.farAsk, q.tickUsd);
    PremiumExactly(g, q);
  }

  // A candidate worth entering, room for it apart.
  predicate Worthy(cfg: Config, c: Candidate) {
    c.ev >= cfg.minEv && c.qty > 0.0 && c.marginOk && Tradable(cfg.gate, c.quotes, c.qty, false)
  }

  lemma ApprovedExactly(cfg: Config, c: Candidate, open: nat)
    ensures Approved(cfg, c, open) <==> Worthy(cfg, c) && open < cfg.maxPositions
  {
    GateExactly(cfg.gate, c.quotes, c.qty, false);
  }

  // A near leg that may be rolled to: another one, far enough before the far leg
  // where that can be told, and within the limits.
  predicate MayRollTo(cfg: Config, held: Option<string>, qty: real, c: RollCandidate) {
    && held != Some(c.near) && c.marginOk && (c.gapDays.None? || c.gapDays.value >= cfg.minRollGap)
    && Tradable(cfg.gate, c.quotes, qty, true)
  }

  lemma RollableExactly(cfg: Config, held: Option<string>, qty: real, c: RollCandidate)
    ensures Rollable(cfg, held, qty, c) <==> MayRollTo(cfg, held, qty, c)
  {
    GateExactly(cfg.gate, c.quotes, qty, true);
  }
}
