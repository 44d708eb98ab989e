/**
 Portfolio reconciliation: when a mismatch between the exchange's margin and the
 table's is escalated to the operator, and how per-currency account figures are
 added up.
 */
module Tracker {
  import opened Histories
  import opened Options
  import opened Ratios

  const RECONCILE_THRESHOLD := 0.10

  datatype Settings = Settings(requireEvidence: bool, escalateAfter: int, hasNotifier: bool)

  // One reconcile cycle: both margins, what is open on the exchange in words, and
  // whether an alert sent now would get through.
  datatype Cycle = Cycle(dbMargin: real, apiMargin: real, open: string, delivers: bool)

  datatype Verdict = NoMargin | Matching | CollateralOnly | Mismatch

  function Judge(s: Settings, c: Cycle): Verdict {
    if c.dbMargin <= 0.0 && c.apiMargin <= 0.0 then NoMargin
    else
      var larger := if c.dbMargin > c.apiMargin then c.dbMargin else c.apiMargin;
      var apart := if c.apiMargin > c.dbMargin then c.apiMargin - c.dbMargin else c.dbMargin - c.apiMargin;
      if apart / larger <= RECONCILE_THRESHOLD then Matching
      else if s.requireEvidence && c.dbMargin <= 0.0 && c.open == "" then CollateralOnly
      else Mismatch
  }

  // What each verdict means, without the division.
  lemma VerdictsExactly(s: Settings, c: Cycle)
    ensures var larger := if c.dbMargin > c.apiMargin then c.dbMargin else c.apiMargin;
            var some := c.dbMargin > 0.0 || c.apiMargin > 0.0;
            var close := c.dbMargin - c.apiMargin <= 0.10 * larger && c.apiMargin - c.dbMargin <= 0.10 * larger;
            var collateral := s.requireEvidence && c.dbMargin <= 0.0 && c.open == "";
            && (Judge(s, c).NoMargin? <==> !some) && (Judge(s, c).Matching? <==> some && close)
            && (Judge(s, c).CollateralOnly? <==> some && !close && collateral)
            && (Judge(s, c).Mismatch? <==> some && !close && !collateral)
  {
    var larger := if c.dbMargin > c.apiMargin then c.dbMargin else c.apiMargin;
    var apart := if c.apiMargin > c.dbMargin then c.apiMargin - c.dbMargin else c.dbMargin - c.apiMargin;
    if larger > 0.0 { Share(apart, larger, RECONCILE_THRESHOLD); }
  }

  // Hundredths, a half going to the even one.
  function Cents(x: real): int {
    var f := (x * 100.0).Floor;
    var rest := x * 100.0 - f as real;
    if rest < 0.5 || (rest == 0.5 && f % 2 == 0) then f else f + 1
  }

  lemma CentsAreNearest(x: real)
    ensures var d := x * 100.0 - Cents(x) as real;
            -0.5 <= d <= 0.5 && (d == 0.5 || d == -0.5 ==> Cents(x) % 2 == 0)
  {
  }

  type Fingerprint = (string, int)

  function Print(c: Cycle): Fingerprint {
    (c.open, Cents(c.dbMargin))
  }

  // The specification, on the history alone.

  // How many mismatches with this fingerprint the history ends in, cycles with
  // no margin on either side not interrupting them.
  function RunLength(s: Settings, h: History<Cycle>, p: Fingerprint): nat {
    if h.Nothing? then 0
    else match Judge(s, h.last)
         case NoMargin => RunLength(s, h.past, p)
         case Mismatch => if Print(h.last) == p then 1 + RunLength(s, h.past, p) else 0
         case _ => 0
  }

  // Whether that run has been escalated.
  function RunEscalated(s: Settings, h: History<Cycle>, p: Fingerprint): bool
    decreases h, 1
  {
    if h.Nothing? then false
    else match Judge(s, h.last)
         case NoMargin => RunEscalated(s, h.past, p)
         case Mismatch => Print(h.last) == p && (RunEscalated(s, h.past, p) || Sends(s, h))
         case _ => false
  }

  // Whether the last cycle of the history sends an alert.
  function Sends(s: Settings, h: History<Cycle>): bool
    requires h.Then?
    decreases h, 0
  {
    var c := h.last;
    && Judge(s, c).Mismatch? && s.hasNotifier && c.delivers
    && RunLength(s, h, Print(c)) >= s.escalateAfter && !RunEscalated(s, h.past, Print(c))
  }

  class Reconciler {
    const settings: Settings
    var fingerprint: Option<Fingerprint>
    var repeatCount: nat
    var escalated: bool
    var collateralOnlyLogged: bool
    ghost var history: History<Cycle>

    ghost predicate Valid()
      reads this
    {
      && (fingerprint.None? ==> repeatCount == 0 && !escalated)
      && (fingerprint.Some? ==> repeatCount > 0)
      && forall p ::
           && RunLength(settings, history, p) == (if fingerprint == Some(p) then repeatCount else 0)
           && RunEscalated(settings, history, p) == (fingerprint == Some(p) && escalated)
    }

    constructor (s: Settings)
      ensures Valid() && settings == s && history.Nothing?
    {
      settings := s;
      fingerprint, repeatCount, escalated, collateralOnlyLogged := None, 0, false, false;
      history := Nothing;
    }

    method ResetEscalation()
      modifies `fingerprint, `repeatCount, `escalated
      ensures fingerprint == None && repeatCount == 0 && !escalated
    {
      fingerprint, repeatCount, escalated := None, 0, false;
    }

    // One cycle; reports whether an alert went out.
    method Reconcile(c: Cycle) returns (alerted: bool)
      requires Valid()
      modifies this
      ensures Valid() && history == Then(old(history), c)
      ensures alerted == Sends(settings, history)
    {
      history := Then(history, c);
      alerted := false;
      if c.dbMargin <= 0.0 && c.apiMargin <= 0.0 { return; }
      var larger := if c.dbMargin > c.apiMargin then c.dbMargin else c.apiMargin;
      var apart := if c.apiMargin > c.dbMargin then c.apiMargin - c.dbMargin else c.dbMargin - c.apiMargin;
      if apart / larger > RECONCILE_THRESHOLD {
        if settings.requireEvidence && c.dbMargin <= 0.0 && c.open == "" {
          collateralOnlyLogged := true;
          ResetEscalation();
          return;
        }
        collateralOnlyLogged := false;
        if fingerprint == Some(Print(c)) {
          repeatCount := repeatCount + 1;
        } else {
          fingerprint, repeatCount, escalated := Some(Print(c)), 1, false;
        }
        if repeatCount >= settings.escalateAfter && !escalated && settings.hasNotifier {
          if c.delivers {
            escalated := true;
            alerted := true;
          }
        }
      } else {
        ResetEscalation();
        collateralOnlyLogged := false;
      }
    }
  }

  // ---- One alert a run ----------------------------------------------------

  predicate Working(s: Settings, h: History<Cycle>) {
    s.hasNotifier && (h.Nothing? || (h.last.delivers && Working(s, h.past)))
  }

  function AtLeastOne(n: int): nat {
    if n > 1 then n else 1
  }

  lemma {:induction false} EscalatedOnceLongEnough(s: Settings, h: History<Cycle>, p: Fingerprint)
    requires Working(s, h)
    ensures RunEscalated(s, h, p) <==> RunLength(s, h, p) >= AtLeastOne(s.escalateAfter)
  {
    if h.Then? { EscalatedOnceLongEnough(s, h.past, p); }
  }

  // With a working notifier the alert goes out at the N-th cycle of a run of
  // mismatches with one fingerprint, at no other, and not at all in a shorter run.
  lemma AlertsAtTheNthCycle(s: Settings, h: History<Cycle>)
    requires h.Then? && Working(s, h)
    ensures Sends(s, h) <==>
            Judge(s, h.last).Mismatch? && RunLength(s, h, Print(h.last)) == AtLeastOne(s.escalateAfter)
  {
    EscalatedOnceLongEnough(s, h.past, Print(h.last));
  }

  // The cycles since `past` keep a run of p going.
  predicate Unbroken(s: Settings, past: History<Cycle>, h: History<Cycle>, p: Fingerprint) {
    h == past ||
    (h.Then? && (Judge(s, h.last).NoMargin? || (Judge(s, h.last).Mismatch? && Print(h.last) == p))
     && Unbroken(s, past, h.past, p))
  }

  function MismatchesSince(s: Settings, past: History<Cycle>, h: History<Cycle>): nat {
    if h == past || h.Nothing? then 0
    else MismatchesSince(s, past, h.past) + if Judge(s, h.last).Mismatch? then 1 else 0
  }

  predicate SentSince(s: Settings, past: History<Cycle>, h: History<Cycle>) {
    h != past && h.Then? && (Sends(s, h) || SentSince(s, past, h.past))
  }

  // The cycle that ends a run of p: margins that match, collateral only, or a
  // mismatch with another fingerprint.
  predicate EndsRun(s: Settings, c: Cycle, p: Fingerprint) {
    Judge(s, c).Matching? || Judge(s, c).CollateralOnly? || (Judge(s, c).Mismatch? && Print(c) != p)
  }

  // The run of p a history ends in reaches back to the last cycle that ends one; its
  // length is the mismatches since, and it is escalated when an alert was sent since.
  lemma {:induction false} RunReachesBack(s: Settings, h: History<Cycle>, p: Fingerprint) returns (past: History<Cycle>)
    ensures Unbroken(s, past, h, p) && Continues(past, h) && (past.Then? ==> EndsRun(s, past.last, p))
    ensures RunLength(s, h, p) == MismatchesSince(s, past, h)
    ensures RunEscalated(s, h, p) <==> SentSince(s, past, h)
  {
    if h.Nothing? || EndsRun(s, h.last, p) {
      past := h;
    } else {
      past := RunReachesBack(s, h.past, p);
      NeverLonger(past, h.past);
    }
  }

  // When a cycle sends an alert: it is a mismatch, the notifier is there and
  // delivers, the run is long enough, and none has been sent since the run began.
  lemma SendsExactly(s: Settings, h: History<Cycle>) returns (past: History<Cycle>)
    requires h.Then?
    ensures Continues(past, h.past) && Unbroken(s, past, h.past, Print(h.last))
    ensures past.Then? ==> EndsRun(s, past.last, Print(h.last))
    ensures Sends(s, h) <==>
            && Judge(s, h.last).Mismatch? && s.hasNotifier && h.last.delivers
            && MismatchesSince(s, past, h.past) + 1 >= s.escalateAfter && !SentSince(s, past, h.past)
  {
    past := RunReachesBack(s, h.past, Print(h.last));
  }

  lemma {:induction false} EscalationSticks(s: Settings, past: History<Cycle>, h: History<Cycle>, p: Fingerprint)
    requires Unbroken(s, past, h, p) && RunEscalated(s, past, p)
    ensures RunEscalated(s, h, p)
  {
    if h != past { EscalationSticks(s, past, h.past, p); }
  }

  // Two alerts with one fingerprint are always separated by a cycle that ended
  // the run, whatever the notifier does.
  lemma NoSecondAlertInARun(s: Settings, past: History<Cycle>, h: History<Cycle>)
    requires past.Then? && h.Then? && h != past && Continues(past, h)
    requires Sends(s, past) && Sends(s, h) && Print(past.last) == Print(h.last)
    ensures !Unbroken(s, past, h, Print(h.last))
  {
    var p := Print(h.last);
    if Unbroken(s, past, h, p) {
      EscalationSticks(s, past, h.past, p);
      assert false;
    }
  }

  // ---- Drift --------------------------------------------------------------

  // Same instruments, table margin and verdicts, whatever the exchange's margin.
  predicate AlikeButForDrift(s: Settings, g: History<Cycle>, h: History<Cycle>) {
    if g.Nothing? then h.Nothing?
    else
      && h.Then? && g.last == h.last.(apiMargin := g.last.apiMargin) && Judge(s, g.last) == Judge(s, h.last)
      && AlikeButForDrift(s, g.past, h.past)
  }

  lemma {:induction false} DriftLeavesRuns(s: Settings, g: History<Cycle>, h: History<Cycle>, p: Fingerprint)
    requires AlikeButForDrift(s, g, h)
    ensures RunLength(s, g, p) == RunLength(s, h, p) && RunEscalated(s, g, p) == RunEscalated(s, h, p)
  {
    if g.Then? { DriftLeavesRuns(s, g.past, h.past, p); }
  }

  // The exchange's mark-to-market margin drifting never re-arms the alert.
  lemma DriftLeavesAlerts(s: Settings, g: History<Cycle>, h: History<Cycle>)
    requires AlikeButForDrift(s, g, h) && g.Then?
    ensures Sends(s, g) == Sends(s, h)
  {
    DriftLeavesRuns(s, g, h, Print(g.last));
    DriftLeavesRuns(s, g.past, h.past, Print(g.last));
  }

  // ---- Account aggregation ------------------------------------------------

  datatype Summary = Summary(
    equity: real, available: real, margin: real, maintenance: real, floating: seq<real>, cross: bool, spot: real)

  datatype Account = Account(equity: real, available: real, margin: real, maintenance: real, unrealized: real)

  function Total(xs: seq<real>): real {
    if xs == [] then 0.0 else Total(xs[..|xs| - 1]) + xs[|xs| - 1]
  }

  function Largest(xs: seq<real>): real {
    if xs == [] then 0.0
    else if |xs| == 1 then xs[0]
    else
      var rest := Largest(xs[..|xs| - 1]);
      if xs[|xs| - 1] > rest then xs[|xs| - 1] else rest
  }

  lemma {:induction false} LargestIsGreatest(xs: seq<real>)
    requires xs != []
    ensures Largest(xs) in xs && forall k :: 0 <= k < |xs| ==> xs[k] <= Largest(xs)
  {
    if |xs| > 1 { LargestIsGreatest(xs[..|xs| - 1]); }
  }

  datatype Figure = Equity | Available | Margin | Maintenance | Floating

  function Of(s: Summary, f: Figure): real {
    match f
    case Equity => s.equity
    case Available => s.available
    case Margin => s.margin
    case Maintenance => s.maintenance
    case Floating => Total(s.floating)
  }

  function Usd(s: Summary, f: Figure): real {
    Of(s, f) * s.spot
  }

  // One figure of the first n currencies.
  function InUsd(ss: seq<Summary>, n: nat, f: Figure): seq<real>
    requires n <= |ss|
  {
    if n == 0 then [] else InUsd(ss, n - 1, f) + [Usd(ss[n - 1], f)]
  }

  lemma {:induction false} FigureAt(ss: seq<Summary>, n: nat, k: nat, f: Figure)
    requires k < n <= |ss|
    ensures |InUsd(ss, n, f)| == n && InUsd(ss, n, f)[k] == Usd(ss[k], f)
  {
    if n > 1 { FigureAt(ss, n - 1, if k < n - 1 then k else 0, f); }
  }

  // What each figure is, in USD at the currency's own spot.
  lemma FiguresInUsd(ss: seq<Summary>, k: nat, f: Figure)
    requires k < |ss|
    ensures |InUsd(ss, |ss|, f)| == |ss|
    ensures InUsd(ss, |ss|, f)[k] ==
            ss[k].spot * match f
                         case Equity => ss[k].equity
                         case Available => ss[k].available
                         case Margin => ss[k].margin
                         case Maintenance => ss[k].maintenance
                         case Floating => Total(ss[k].floating)
  {
    FigureAt(ss, |ss|, k, f);
  }

  predicate AnyCross(ss: seq<Summary>, n: nat)
    requires n <= |ss|
  {
    exists k :: 0 <= k < n && ss[k].cross
  }

  function Overall(xs: seq<real>, once: bool): real {
    if once then Largest(xs) else Total(xs)
  }

  method SumFloating(floating: seq<real>, spot: real) returns (usd: real)
    ensures usd == Total(floating) * spot
  {
    usd := 0.0;
    for k := 0 to |floating|
      invariant usd == Total(floating[..k]) * spot
    {
      assert floating[..k + 1][..k] == floating[..k];
      usd := usd + floating[k] * spot;
    }
    assert floating[..|floating|] == floating;
  }

  // One account summary per currency: equity and floating P&L add up, the other
  // figures are counted once when they describe the whole account.
  method Aggregate(ss: seq<Summary>, singleCount: bool) returns (a: Account)
    ensures var n, once := |ss|, singleCount && AnyCross(ss, |ss|);
            && a.equity == Total(InUsd(ss, n, Equity)) && a.unrealized == Total(InUsd(ss, n, Floating))
            && a.margin == Overall(InUsd(ss, n, Margin), once)
            && a.maintenance == Overall(InUsd(ss, n, Maintenance), once)
            && var cash := Overall(InUsd(ss, n, Available), once); a.available == if cash > 0.0 then cash else 0.0
  {
    var equity, unrealized, cross := 0.0, 0.0, false;
    var available, margin, maintenance := [], [], [];
    for k := 0 to |ss|
      invariant equity == Total(InUsd(ss, k, Equity)) && unrealized == Total(InUsd(ss, k, Floating))
      invariant available == InUsd(ss, k, Available) && margin == InUsd(ss, k, Margin)
      invariant maintenance == InUsd(ss, k, Maintenance) && cross == AnyCross(ss, k)
    {
      TotalNext(ss, k, Equity);
      TotalNext(ss, k, Floating);
      var floating := SumFloating(ss[k].floating, ss[k].spot);
      equity, unrealized := equity + Usd(ss[k], Equity), unrealized + floating;
      available := available + [Usd(ss[k], Available)];
      margin := margin + [Usd(ss[k], Margin)];
      maintenance := maintenance + [Usd(ss[k], Maintenance)];
      if ss[k].cross { cross := true; }
      assert AnyCross(ss, k + 1) <==> AnyCross(ss, k) || ss[k].cross;
    }
    var once := cross && singleCount;
    var cash := Overall(available, once);
    a := Account(equity, if cash > 0.0 then cash else 0.0,
                 Overall(margin, once), Overall(maintenance, once), unrealized);
  }

  lemma TotalNext(ss: seq<Summary>, k: nat, f: Figure)
    requires k < |ss|
    ensures Total(InUsd(ss, k + 1, f)) == Total(InUsd(ss, k, f)) + Usd(ss[k], f)
  {
    assert InUsd(ss, k + 1, f)[..|InUsd(ss, k, f)|] == InUsd(ss, k, f);
  }

  // How many currencies report the figure.
  function Reporting(xs: seq<real>, a: real): nat {
    if xs == [] then 0 else Reporting(xs[..|xs| - 1], a) + if xs[|xs| - 1] == a then 1 else 0
  }

  // A cross-collateral account repeats one figure for every currency that reports
  // it: counting it once gives that figure, adding it up multiplies it.
  lemma {:induction false} RepeatedFigure(xs: seq<real>, a: real)
    requires a > 0.0 && forall k :: 0 <= k < |xs| ==> xs[k] == 0.0 || xs[k] == a
    ensures Overall(xs, false) == Reporting(xs, a) as real * a
    ensures Overall(xs, true) == if Reporting(xs, a) > 0 then a else 0.0
  {
    if xs != [] {
      var init, last := xs[..|xs| - 1], xs[|xs| - 1];
      RepeatedFigure(init, a);
      assert last == xs[|xs| - 1];
      if init == [] { assert Reporting(init, a) == 0; }
      assert (Reporting(init, a) + 1) as real * a == Reporting(init, a) as real * a + a;
    }
  }
}
