/** The monthly cost ledger: reservations and settlements in integer nano-dollars, tiered unit
    prices, several reservations outstanding at once. */
module CostLedger {
  import opened Wrappers

  datatype Provider = OpenAi | Soniox | Google

  datatype Sku = PlacesTextSearch | PlacesDetails | RouteMatrixPro | RouteMatrixEssentials | TimeZone
               | Geocoding | Weather | AirQuality | Pollen

  type Period = nat

  const NANO_PER_USD: real := 1_000_000_000.0

  /** Units of a month that cost nothing. */
  function FreeUnits(sku: Sku): nat {
    match sku
    case PlacesTextSearch => 1_000
    case PlacesDetails => 1_000
    case RouteMatrixPro => 5_000
    case Pollen => 5_000
    case _ => 10_000
  }

  /** Every listed price is a whole number of nano-dollars per unit. */
  function UnitPrice(sku: Sku): nat {
    match sku
    case PlacesTextSearch => 35_000_000
    case PlacesDetails => 20_000_000
    case RouteMatrixPro => 10_000_000
    case Pollen => 10_000_000
    case Weather => 150_000
    case _ => 5_000_000
  }

  /** Rounds half up, as the source's rounding does for non-negative amounts. */
  function ToNano(usd: real): int {
    (usd * NANO_PER_USD + 0.5).Floor
  }

  function Paid(sku: Sku, units: int): int {
    Max(0, units - FreeUnits(sku))
  }

  /** What the paid units between two counts cost. */
  function StepCost(sku: Sku, before: int, after: int): int {
    (Paid(sku, after) - Paid(sku, before)) * UnitPrice(sku)
  }

  /** The tier price of a month's units. */
  function Tier(sku: Sku, units: int): int {
    Paid(sku, units) * UnitPrice(sku)
  }

  // ----- Months and reservations -----

  datatype Month = Month(openAi: int, soniox: int, google: int, units: map<Sku, int>) {
    function Spend(p: Provider): int {
      match p
      case OpenAi => openAi
      case Soniox => soniox
      case Google => google
    }

    function WithSpend(p: Provider, nano: int): Month {
      match p
      case OpenAi => this.(openAi := nano)
      case Soniox => this.(soniox := nano)
      case Google => this.(google := nano)
    }

    function Total(): int {
      openAi + soniox + google
    }

    function Units(sku: Sku): int {
      if sku in units then units[sku] else 0
    }
  }

  const BLANK := Month(0, 0, 0, map[])

  /** A reservation is the closure handed out; `actual` is set once it has been settled. */
  datatype Reservation =
    | Amount(period: Period, provider: Provider, nano: int, actual: Option<int>)
    | Units(period: Period, sku: Sku, units: int, after: int, reserved: int, actual: Option<int>)

  datatype Limits = Limits(openAi: int, soniox: int, google: int, total: int) {
    function Of(p: Provider): int {
      match p
      case OpenAi => openAi
      case Soniox => soniox
      case Google => google
    }
  }

  /** `base` is what the months held when the process started. */
  datatype Ledger = Ledger(limits: Limits, months: map<Period, Month>, open: seq<Reservation>,
                           base: map<Period, Month>) {
    function MonthOf(p: Period): Month {
      if p in months then months[p] else BLANK
    }

    function BaseOf(p: Period): Month {
      if p in base then base[p] else BLANK
    }
  }

  datatype Error = InvalidReservation | BudgetExceeded(provider: Provider) | InvalidSettlement | PeriodMissing

  // ----- Operations -----

  predicate Fits(limits: Limits, m: Month, p: Provider, nano: int) {
    m.Spend(p) + nano <= limits.Of(p) && m.Total() + nano <= limits.total
  }

  function ReservedNano(usd: real): int {
    Max(1, ToNano(usd))
  }

  function Reserved(l: Ledger, period: Period, p: Provider, usd: real): Result<Ledger, Error> {
    if usd <= 0.0 then Err(InvalidReservation)
    else
      var nano, m := ReservedNano(usd), l.MonthOf(period);
      if !Fits(l.limits, m, p, nano) then Err(BudgetExceeded(p))
      else Ok(l.(months := l.months[period := m.WithSpend(p, m.Spend(p) + nano)],
                 open := l.open + [Amount(period, p, nano, None)]))
  }

  predicate CanReserve(l: Ledger, period: Period, p: Provider, usd: real) {
    usd > 0.0 && Fits(l.limits, l.MonthOf(period), p, ReservedNano(usd))
  }

  function GooglePrice(m: Month, sku: Sku, units: int): int {
    StepCost(sku, m.Units(sku), m.Units(sku) + units)
  }

  function ReservedGoogle(l: Ledger, period: Period, sku: Sku, units: int): Result<Ledger, Error> {
    if units < 1 then Err(InvalidReservation)
    else
      var m := l.MonthOf(period);
      var after, nano := m.Units(sku) + units, GooglePrice(m, sku, units);
      if !Fits(l.limits, m, Google, nano) then Err(BudgetExceeded(Google))
      else Ok(l.(months := l.months[period := m.(units := m.units[sku := after], google := m.google + nano)],
                 open := l.open + [Reservation.Units(period, sku, units, after, nano, None)]))
  }

  function Closed(r: Reservation, actual: int): Reservation {
    match r
    case Amount(period, provider, nano, _) => Amount(period, provider, nano, Some(actual))
    case Units(period, sku, units, after, reserved, _) =>
      Reservation.Units(period, sku, units, after, reserved, Some(actual))
  }

  /** A second settlement of the same reservation does nothing. */
  function SettledAmount(l: Ledger, i: nat, usd: real): Result<Ledger, Error>
    requires i < |l.open| && l.open[i].Amount?
  {
    var r := l.open[i];
    if r.actual.Some? then Ok(l)
    else if usd < 0.0 || ToNano(usd) > r.nano then Err(InvalidSettlement)
    else if r.period !in l.months then Err(PeriodMissing)
    else
      var m := l.months[r.period];
      Ok(l.(months := l.months[r.period := m.WithSpend(r.provider, Max(0, m.Spend(r.provider) - r.nano + ToNano(usd)))],
            open := l.open[i := Closed(r, ToNano(usd))]))
  }

  function FinalUnits(m: Month, r: Reservation, actual: int): int
    requires r.Units?
  {
    Max(0, (if r.sku in m.units then m.units[r.sku] else r.units) - (r.units - actual))
  }

  function Released(m: Month, r: Reservation, actual: int): int
    requires r.Units?
  {
    StepCost(r.sku, FinalUnits(m, r, actual), if r.sku in m.units then m.units[r.sku] else r.units)
  }

  function SettledGoogle(l: Ledger, i: nat, actual: int): Result<Ledger, Error>
    requires i < |l.open| && l.open[i].Units?
  {
    var r := l.open[i];
    if r.actual.Some? then Ok(l)
    else if actual < 0 || actual > r.units then Err(InvalidSettlement)
    else if r.period !in l.months then Err(PeriodMissing)
    else
      var m := l.months[r.period];
      Ok(l.(months := l.months[r.period := m.(units := m.units[r.sku := FinalUnits(m, r, actual)],
                                              google := Max(0, m.google - Min(r.reserved, Released(m, r, actual))))],
            open := l.open[i := Closed(r, actual)]))
  }

  /** A restart loses the closures and keeps what was spent. */
  function Restarted(l: Ledger): Ledger {
    l.(open := [], base := l.months)
  }

  // ----- Runs -----

  datatype Event =
    | Reserve(period: Period, provider: Provider, usd: real)
    | ReserveUnits(period: Period, sku: Sku, units: int)
    | Settle(i: nat, usd: real)
    | SettleUnits(i: nat, actual: int)
    | Restart

  predicate Possible(l: Ledger, e: Event) {
    match e
    case Settle(i, _) => i < |l.open| && l.open[i].Amount?
    case SettleUnits(i, _) => i < |l.open| && l.open[i].Units?
    case _ => true
  }

  function Outcome(l: Ledger, e: Event): Result<Ledger, Error>
    requires Possible(l, e)
  {
    match e
    case Reserve(period, p, usd) => Reserved(l, period, p, usd)
    case ReserveUnits(period, sku, units) => ReservedGoogle(l, period, sku, units)
    case Settle(i, usd) => SettledAmount(l, i, usd)
    case SettleUnits(i, actual) => SettledGoogle(l, i, actual)
    case Restart => Ok(Restarted(l))
  }

  function Step(l: Ledger, e: Event): Ledger
    requires Possible(l, e)
  {
    match Outcome(l, e)
    case Ok(next) => next
    case Err(_) => l
  }

  predicate ValidRun(l: Ledger, events: seq<Event>)
    decreases |events|
  {
    events == [] || (Possible(l, events[0]) && ValidRun(Step(l, events[0]), events[1..]))
  }

  function Run(l: Ledger, events: seq<Event>): Ledger
    requires ValidRun(l, events)
    decreases |events|
  {
    if events == [] then l else Run(Step(l, events[0]), events[1..])
  }

  // ----- Sums over the reservations of this process -----

  /** What an amount reservation accounts for: its maximum, then its actual cost. */
  function Charge(r: Reservation, period: Period, p: Provider): int {
    if r.Amount? && r.period == period && r.provider == p then r.actual.Or(r.nano) else 0
  }

  function ChargeSum(open: seq<Reservation>, period: Period, p: Provider): int {
    if open == [] then 0 else ChargeSum(open[..|open| - 1], period, p) + Charge(open[|open| - 1], period, p)
  }

  function UnitShare(r: Reservation, period: Period, sku: Sku): int {
    if r.Units? && r.period == period && r.sku == sku then r.actual.Or(r.units) else 0
  }

  function UnitSum(open: seq<Reservation>, period: Period, sku: Sku): int {
    if open == [] then 0 else UnitSum(open[..|open| - 1], period, sku) + UnitShare(open[|open| - 1], period, sku)
  }

  lemma ChargeAppended(open: seq<Reservation>, r: Reservation, period: Period, p: Provider)
    ensures ChargeSum(open + [r], period, p) == ChargeSum(open, period, p) + Charge(r, period, p)
  {
  }

  lemma UnitsAppended(open: seq<Reservation>, r: Reservation, period: Period, sku: Sku)
    ensures UnitSum(open + [r], period, sku) == UnitSum(open, period, sku) + UnitShare(r, period, sku)
  {
  }

  lemma {:induction false} ChargeUpdated(open: seq<Reservation>, i: nat, r: Reservation, period: Period, p: Provider)
    requires i < |open|
    ensures ChargeSum(open[i := r], period, p)
            == ChargeSum(open, period, p) - Charge(open[i], period, p) + Charge(r, period, p)
  {
    var n := |open| - 1;
    if i == n {
      assert open[i := r][..n] == open[..n];
    } else {
      ChargeUpdated(open[..n], i, r, period, p);
      assert open[i := r][..n] == open[..n][i := r];
    }
  }

  lemma {:induction false} UnitsUpdated(open: seq<Reservation>, i: nat, r: Reservation, period: Period, sku: Sku)
    requires i < |open|
    ensures UnitSum(open[i := r], period, sku)
            == UnitSum(open, period, sku) - UnitShare(open[i], period, sku) + UnitShare(r, period, sku)
  {
    var n := |open| - 1;
    if i == n {
      assert open[i := r][..n] == open[..n];
    } else {
      UnitsUpdated(open[..n], i, r, period, sku);
      assert open[i := r][..n] == open[..n][i := r];
    }
  }

  ghost predicate Sane(r: Reservation) {
    match r
    case Amount(_, _, nano, actual) => 0 <= nano && (actual.Some? ==> 0 <= actual.value <= nano)
    case Units(_, sku, units, after, reserved, actual) =>
      && 1 <= units && reserved == Tier(sku, after) - Tier(sku, after - units)
      && (actual.Some? ==> 0 <= actual.value <= units)
  }

  ghost predicate AllSane(open: seq<Reservation>) {
    forall i :: 0 <= i < |open| ==> Sane(open[i])
  }

  lemma {:induction false} ChargeSumIsNatural(open: seq<Reservation>, period: Period, p: Provider)
    requires AllSane(open)
    ensures 0 <= ChargeSum(open, period, p)
  {
    if open != [] {
      assert Sane(open[|open| - 1]);
      ChargeSumIsNatural(open[..|open| - 1], period, p);
    }
  }

  /** One reservation never accounts for more than all of them together. */
  lemma {:induction false} ChargeInSum(open: seq<Reservation>, i: nat, period: Period, p: Provider)
    requires i < |open| && AllSane(open)
    ensures 0 <= Charge(open[i], period, p) <= ChargeSum(open, period, p)
  {
    assert Sane(open[i]);
    var n := |open| - 1;
    if i < n {
      ChargeInSum(open[..n], i, period, p);
      assert Sane(open[n]);
    } else {
      ChargeSumIsNatural(open[..n], period, p);
    }
  }

  lemma {:induction false} UnitSumIsNatural(open: seq<Reservation>, period: Period, sku: Sku)
    requires AllSane(open)
    ensures 0 <= UnitSum(open, period, sku)
  {
    if open != [] {
      assert Sane(open[|open| - 1]);
      UnitSumIsNatural(open[..|open| - 1], period, sku);
    }
  }

  lemma {:induction false} UnitsInSum(open: seq<Reservation>, i: nat, period: Period, sku: Sku)
    requires i < |open| && AllSane(open)
    ensures 0 <= UnitShare(open[i], period, sku) <= UnitSum(open, period, sku)
  {
    assert Sane(open[i]);
    var n := |open| - 1;
    if i < n {
      UnitsInSum(open[..n], i, period, sku);
      assert Sane(open[n]);
    } else {
      UnitSumIsNatural(open[..n], period, sku);
    }
  }

  // ----- The tier price of a month -----

  function TierTotal(m: Month): int {
    Tier(PlacesTextSearch, m.Units(PlacesTextSearch)) + Tier(PlacesDetails, m.Units(PlacesDetails))
    + Tier(RouteMatrixPro, m.Units(RouteMatrixPro)) + Tier(RouteMatrixEssentials, m.Units(RouteMatrixEssentials))
    + Tier(TimeZone, m.Units(TimeZone)) + Tier(Geocoding, m.Units(Geocoding)) + Tier(Weather, m.Units(Weather))
    + Tier(AirQuality, m.Units(AirQuality)) + Tier(Pollen, m.Units(Pollen))
  }

  lemma TierTotalUpdated(m: Month, n: Month, sku: Sku)
    requires forall s :: s != sku ==> n.Units(s) == m.Units(s)
    ensures TierTotal(n) == TierTotal(m) - Tier(sku, m.Units(sku)) + Tier(sku, n.Units(sku))
  {
    hide Tier;
    match sku
    case PlacesTextSearch =>
    case _ =>
  }

  lemma TierIsNatural(sku: Sku, units: int)
    ensures 0 <= Tier(sku, units)
  {
  }

  lemma TierInTotal(m: Month, sku: Sku)
    ensures 0 <= Tier(sku, m.Units(sku)) <= TierTotal(m)
  {
    forall s ensures 0 <= Tier(s, m.Units(s)) { TierIsNatural(s, m.Units(s)); }
    hide Tier;
  }

  /** Tiers are convex: giving back units later in the month is never cheaper. */
  lemma TierIsConvex(sku: Sku, low: int, high: int, drop: int)
    requires low <= high && 0 <= drop
    ensures Tier(sku, low) - Tier(sku, low - drop) <= Tier(sku, high) - Tier(sku, high - drop)
    ensures 0 <= Tier(sku, low) - Tier(sku, low - drop)
  {
  }

  // ----- Conservation -----

  ghost predicate MonthSound(m: Month) {
    0 <= m.openAi && 0 <= m.soniox && TierTotal(m) <= m.google && forall sku :: 0 <= m.Units(sku)
  }

  /** What Google was charged beyond the tier price of the recorded units. */
  function Surplus(l: Ledger, period: Period): int {
    l.MonthOf(period).google - ChargeSum(l.open, period, Google) - TierTotal(l.MonthOf(period))
  }

  /** The books of one month: amounts and units balance exactly, Google never undercharges. */
  ghost predicate Balanced(l: Ledger, period: Period) {
    var m, b := l.MonthOf(period), l.BaseOf(period);
    && MonthSound(b)
    && m.openAi == b.openAi + ChargeSum(l.open, period, OpenAi)
    && m.soniox == b.soniox + ChargeSum(l.open, period, Soniox)
    && (forall sku :: m.Units(sku) == b.Units(sku) + UnitSum(l.open, period, sku))
    && b.google - TierTotal(b) <= Surplus(l, period)
  }

  /** A handed-out reservation has its month, and its row in it. */
  ghost predicate Known(l: Ledger, r: Reservation) {
    r.period in l.months && (r.Units? ==> r.sku in l.months[r.period].units)
  }

  ghost predicate Inv(l: Ledger) {
    && AllSane(l.open)
    && (forall i :: 0 <= i < |l.open| ==> Known(l, l.open[i]))
    && (forall period :: Balanced(l, period))
  }

  predicate WithinMonth(limits: Limits, m: Month) {
    m.openAi <= limits.openAi && m.soniox <= limits.soniox && m.google <= limits.google && m.Total() <= limits.total
  }

  ghost predicate Within(l: Ledger) {
    forall period :: WithinMonth(l.limits, l.MonthOf(period))
  }

  /** A month that is balanced is itself a sound starting point. */
  lemma BalancedIsSound(l: Ledger, period: Period)
    requires AllSane(l.open) && Balanced(l, period)
    ensures MonthSound(l.MonthOf(period))
    ensures 0 <= Surplus(l, period)
  {
    hide TierTotal;
    ChargeSumIsNatural(l.open, period, OpenAi);
    ChargeSumIsNatural(l.open, period, Soniox);
    ChargeSumIsNatural(l.open, period, Google);
    forall sku ensures 0 <= l.MonthOf(period).Units(sku) { UnitSumIsNatural(l.open, period, sku); }
  }

  lemma ToNanoIsNatural(usd: real)
    ensures usd >= 0.0 ==> ToNano(usd) >= 0
  {
  }

  lemma InvAt(l: Ledger, q: Period)
    requires Inv(l)
    ensures AllSane(l.open) && Balanced(l, q) && MonthSound(l.MonthOf(q)) && 0 <= Surplus(l, q)
  {
    assert Balanced(l, q);
    hide Balanced, MonthSound, Surplus;
    BalancedIsSound(l, q);
  }

  /** Books stay balanced when the month moves exactly as the sums do. */
  lemma BooksFollow(l: Ledger, next: Ledger, q: Period)
    requires Balanced(l, q) && next.base == l.base
    requires next.MonthOf(q).openAi - l.MonthOf(q).openAi
             == ChargeSum(next.open, q, OpenAi) - ChargeSum(l.open, q, OpenAi)
    requires next.MonthOf(q).soniox - l.MonthOf(q).soniox
             == ChargeSum(next.open, q, Soniox) - ChargeSum(l.open, q, Soniox)
    requires forall sku :: next.MonthOf(q).Units(sku) - l.MonthOf(q).Units(sku)
                           == UnitSum(next.open, q, sku) - UnitSum(l.open, q, sku)
    requires Surplus(l, q) <= Surplus(next, q)
    ensures Balanced(next, q)
  {
    hide Surplus, ChargeSum, UnitSum, TierTotal;
  }

  lemma SameUnitsSameTiers(m: Month, n: Month)
    requires forall sku :: n.Units(sku) == m.Units(sku)
    ensures TierTotal(n) == TierTotal(m)
  {
    hide Tier;
  }

  lemma ReservedBalanced(l: Ledger, period: Period, p: Provider, usd: real, q: Period)
    requires Inv(l) && Reserved(l, period, p, usd).Ok?
    ensures Balanced(Reserved(l, period, p, usd).value, q)
    ensures Surplus(Reserved(l, period, p, usd).value, q) == Surplus(l, q)
  {
    hide Inv, Balanced, TierTotal, ChargeSum, UnitSum, ReservedNano, Fits;
    InvAt(l, q);
    var next, r := Reserved(l, period, p, usd).value, Amount(period, p, ReservedNano(usd), None);
    ChargeAppended(l.open, r, q, OpenAi);
    ChargeAppended(l.open, r, q, Soniox);
    ChargeAppended(l.open, r, q, Google);
    forall sku { UnitsAppended(l.open, r, q, sku); }
    SameUnitsSameTiers(l.MonthOf(q), next.MonthOf(q));
    BooksFollow(l, next, q);
  }

  /** An amount never leaves less than nothing behind: the clamp at zero does not bind. */
  lemma SettlementNeverClamps(l: Ledger, i: nat, usd: real)
    requires Inv(l) && i < |l.open| && l.open[i].Amount? && l.open[i].actual.None?
    requires usd >= 0.0
    ensures l.open[i].period in l.months
    ensures 0 <= l.months[l.open[i].period].Spend(l.open[i].provider) - l.open[i].nano + ToNano(usd)
  {
    var r := l.open[i];
    assert Known(l, r);
    hide Inv, TierTotal, ChargeSum, ToNano, UnitSum;
    InvAt(l, r.period);
    TierInTotal(l.MonthOf(r.period), Pollen);
    ChargeInSum(l.open, i, r.period, r.provider);
    ToNanoIsNatural(usd);
  }

  lemma SettledAmountBalanced(l: Ledger, i: nat, usd: real, q: Period)
    requires Inv(l) && i < |l.open| && l.open[i].Amount? && l.open[i].actual.None? && SettledAmount(l, i, usd).Ok?
    ensures Balanced(SettledAmount(l, i, usd).value, q)
    ensures Surplus(SettledAmount(l, i, usd).value, q) == Surplus(l, q)
  {
    hide Inv, Balanced, TierTotal, ChargeSum, UnitSum, ToNano;
    InvAt(l, q);
    SettlementNeverClamps(l, i, usd);
    var next, r := SettledAmount(l, i, usd).value, l.open[i];
    var s := Amount(r.period, r.provider, r.nano, Some(ToNano(usd)));
    ChargeUpdated(l.open, i, s, q, OpenAi);
    ChargeUpdated(l.open, i, s, q, Soniox);
    ChargeUpdated(l.open, i, s, q, Google);
    forall sku { UnitsUpdated(l.open, i, s, q, sku); }
    SameUnitsSameTiers(l.MonthOf(q), next.MonthOf(q));
    BooksFollow(l, next, q);
  }

  lemma GooglePriceIsStep(m: Month, sku: Sku, units: int)
    ensures GooglePrice(m, sku, units) == Tier(sku, m.Units(sku) + units) - Tier(sku, m.Units(sku))
  {
  }

  lemma ReleasedIsStep(m: Month, r: Reservation, actual: int)
    requires r.Units? && r.sku in m.units
    ensures Released(m, r, actual) == Tier(r.sku, m.units[r.sku]) - Tier(r.sku, FinalUnits(m, r, actual))
  {
  }

  lemma ReservedGoogleBalanced(l: Ledger, period: Period, sku: Sku, units: int, q: Period)
    requires Inv(l) && ReservedGoogle(l, period, sku, units).Ok?
    ensures Balanced(ReservedGoogle(l, period, sku, units).value, q)
    ensures Surplus(ReservedGoogle(l, period, sku, units).value, q) == Surplus(l, q)
  {
    hide Inv, Balanced, TierTotal, ChargeSum, UnitSum, Fits, Tier, GooglePrice, MonthSound;
    hide UnitPrice, FreeUnits, Paid;
    var next, m := ReservedGoogle(l, period, sku, units).value, l.MonthOf(period);
    GooglePriceIsStep(m, sku, units);
    InvAt(l, q);
    var r := Reservation.Units(period, sku, units, m.Units(sku) + units, GooglePrice(m, sku, units), None);
    ChargeAppended(l.open, r, q, OpenAi);
    ChargeAppended(l.open, r, q, Soniox);
    ChargeAppended(l.open, r, q, Google);
    forall z { UnitsAppended(l.open, r, q, z); }
    TierTotalUpdated(l.MonthOf(q), next.MonthOf(q), sku);
    BooksFollow(l, next, q);
  }

  /** Unit counts and Google spend never reach their clamps at zero. */
  lemma GoogleSettlementNeverClamps(l: Ledger, i: nat, actual: int)
    requires Inv(l) && i < |l.open| && l.open[i].Units? && l.open[i].actual.None? && 0 <= actual <= l.open[i].units
    ensures Known(l, l.open[i])
    ensures var m, r := l.months[l.open[i].period], l.open[i];
            && 0 <= FinalUnits(m, r, actual) == m.units[r.sku] - (r.units - actual)
            && 0 <= Released(m, r, actual) == Tier(r.sku, m.units[r.sku]) - Tier(r.sku, FinalUnits(m, r, actual))
            && 0 <= m.google - Min(r.reserved, Released(m, r, actual))
  {
    hide ChargeSum, UnitSum, TierTotal, Tier, Released;
    var r := l.open[i];
    assert Known(l, r) && Sane(r);
    var m := l.months[r.period];
    InvAt(l, r.period);
    hide Inv;
    UnitsInSum(l.open, i, r.period, r.sku);
    ReleasedIsStep(m, r, actual);
    TierInTotal(m, r.sku);
    TierIsNatural(r.sku, FinalUnits(m, r, actual));
    TierIsConvex(r.sku, m.units[r.sku], m.units[r.sku], r.units - actual);
    ChargeSumIsNatural(l.open, r.period, Google);
  }

  /** Settling unit counts: the units balance, and what the minimum withholds stays charged. */
  lemma SettledGoogleBalanced(l: Ledger, i: nat, actual: int, q: Period)
    requires Inv(l) && i < |l.open| && l.open[i].Units? && l.open[i].actual.None? && SettledGoogle(l, i, actual).Ok?
    ensures Balanced(SettledGoogle(l, i, actual).value, q)
    ensures var r := l.open[i];
            r.period in l.months
            && Surplus(SettledGoogle(l, i, actual).value, q)
               == Surplus(l, q) + if q == r.period then Max(0, Released(l.months[q], r, actual) - r.reserved) else 0
  {
    hide Inv, Balanced, TierTotal, ChargeSum, UnitSum, Tier, Paid, Released, FinalUnits;
    InvAt(l, q);
    GoogleSettlementNeverClamps(l, i, actual);
    var next, r := SettledGoogle(l, i, actual).value, l.open[i];
    var s := Reservation.Units(r.period, r.sku, r.units, r.after, r.reserved, Some(actual));
    ChargeUpdated(l.open, i, s, q, OpenAi);
    ChargeUpdated(l.open, i, s, q, Soniox);
    ChargeUpdated(l.open, i, s, q, Google);
    forall z { UnitsUpdated(l.open, i, s, q, z); }
    TierTotalUpdated(l.MonthOf(q), next.MonthOf(q), r.sku);
    BooksFollow(l, next, q);
  }

  // ----- Every step -----

  lemma ReservedSane(l: Ledger, period: Period, p: Provider, usd: real)
    requires Inv(l) && Reserved(l, period, p, usd).Ok?
    ensures var next := Reserved(l, period, p, usd).value;
            AllSane(next.open) && forall i :: 0 <= i < |next.open| ==> Known(next, next.open[i])
  {
  }

  lemma ReservedGoogleSane(l: Ledger, period: Period, sku: Sku, units: int)
    requires Inv(l) && ReservedGoogle(l, period, sku, units).Ok?
    ensures var next := ReservedGoogle(l, period, sku, units).value;
            AllSane(next.open) && forall i :: 0 <= i < |next.open| ==> Known(next, next.open[i])
  {
    hide Balanced, Fits, Tier, GooglePrice;
    var next := ReservedGoogle(l, period, sku, units).value;
    GooglePriceIsStep(l.MonthOf(period), sku, units);
    forall i | 0 <= i < |next.open| ensures Sane(next.open[i]) && Known(next, next.open[i]) {
      assert i < |l.open| ==> Sane(l.open[i]) && Known(l, l.open[i]);
    }
  }

  lemma SettledSane(l: Ledger, next: Ledger, i: nat, r: Reservation)
    requires Inv(l) && i < |l.open| && next.open == l.open[i := r] && Sane(r) && Known(next, r)
    requires forall q :: q in l.months ==> q in next.months && l.months[q].units.Keys <= next.months[q].units.Keys
    ensures AllSane(next.open) && forall j :: 0 <= j < |next.open| ==> Known(next, next.open[j])
  {
  }

  lemma SettleKeepsInv(l: Ledger, i: nat, usd: real)
    requires Inv(l) && i < |l.open| && l.open[i].Amount? && SettledAmount(l, i, usd).Ok?
    ensures Inv(SettledAmount(l, i, usd).value)
  {
    hide Balanced, ToNano;
    if l.open[i].actual.None? {
      var next := SettledAmount(l, i, usd).value;
      assert Sane(l.open[i]);
      ToNanoIsNatural(usd);
      SettledSane(l, next, i, next.open[i]);
      forall q ensures Balanced(next, q) { SettledAmountBalanced(l, i, usd, q); }
    }
  }

  lemma SettleUnitsKeepsInv(l: Ledger, i: nat, actual: int)
    requires Inv(l) && i < |l.open| && l.open[i].Units? && SettledGoogle(l, i, actual).Ok?
    ensures Inv(SettledGoogle(l, i, actual).value)
  {
    hide Balanced, Tier, Released, FinalUnits;
    if l.open[i].actual.None? {
      var next := SettledGoogle(l, i, actual).value;
      assert Sane(l.open[i]);
      SettledSane(l, next, i, next.open[i]);
      forall q ensures Balanced(next, q) { SettledGoogleBalanced(l, i, actual, q); }
    }
  }

  lemma RestartedBalanced(l: Ledger, q: Period)
    requires MonthSound(l.MonthOf(q))
    ensures Balanced(Restarted(l), q)
  {
    hide TierTotal;
    assert forall p :: ChargeSum([], q, p) == 0;
    assert forall sku :: UnitSum([], q, sku) == 0;
  }

  lemma RestartKeepsInv(l: Ledger)
    requires Inv(l)
    ensures Inv(Restarted(l))
  {
    hide Balanced, MonthSound;
    forall q ensures Balanced(Restarted(l), q) {
      InvAt(l, q);
      RestartedBalanced(l, q);
    }
  }

  lemma StepKeepsInv(l: Ledger, e: Event)
    requires Inv(l) && Possible(l, e)
    ensures Inv(Step(l, e))
  {
    match e
    case Reserve(period, p, usd) =>
      var r := Reserved(l, period, p, usd);
      if r.Ok? {
        ReservedSane(l, period, p, usd);
        forall q ensures Balanced(r.value, q) { ReservedBalanced(l, period, p, usd, q); }
      }
      hide Reserved, Balanced, Known, AllSane;
    case ReserveUnits(period, sku, units) =>
      var r := ReservedGoogle(l, period, sku, units);
      if r.Ok? {
        ReservedGoogleSane(l, period, sku, units);
        forall q ensures Balanced(r.value, q) { ReservedGoogleBalanced(l, period, sku, units, q); }
      }
      hide ReservedGoogle, Balanced, Known, AllSane;
    case Settle(i, usd) => if SettledAmount(l, i, usd).Ok? { SettleKeepsInv(l, i, usd); }
      hide SettledAmount, Inv;
    case SettleUnits(i, actual) => if SettledGoogle(l, i, actual).Ok? { SettleUnitsKeepsInv(l, i, actual); }
      hide SettledGoogle, Inv;
    case Restart => RestartKeepsInv(l);
      hide Restarted, Inv;
  }

  /** Conservation over every interleaving: OpenAI and Soniox spend is exactly what is
      outstanding plus what was settled, units balance the same way, and Google's spend is
      never below the tier price of the recorded units. */
  lemma {:induction false} RunKeepsInv(l: Ledger, events: seq<Event>)
    requires Inv(l) && ValidRun(l, events)
    ensures Inv(Run(l, events))
    decreases |events|
  {
    hide Inv, Step, Possible;
    if events != [] {
      StepKeepsInv(l, events[0]);
      RunKeepsInv(Step(l, events[0]), events[1..]);
    }
  }

  /** A settlement never misses the month it was reserved in. */
  lemma MonthIsNeverMissing(l: Ledger, events: seq<Event>, e: Event)
    requires Inv(l) && ValidRun(l, events) && Possible(Run(l, events), e)
    ensures Outcome(Run(l, events), e) != Err(PeriodMissing)
  {
    RunKeepsInv(l, events);
    var end := Run(l, events);
    match e
    case Settle(i, _) => assert Known(end, end.open[i]);
    case SettleUnits(i, _) => assert Known(end, end.open[i]);
    case _ =>
  }

  /** The same, spelled out for one month of any run. */
  lemma {:induction false} SpendIsConserved(l: Ledger, events: seq<Event>, period: Period)
    requires Inv(l) && ValidRun(l, events)
    ensures var u := Run(l, events);
            var m, b := u.MonthOf(period), u.BaseOf(period);
            && m.openAi == b.openAi + ChargeSum(u.open, period, OpenAi)
            && m.soniox == b.soniox + ChargeSum(u.open, period, Soniox)
            && (forall sku :: m.Units(sku) == b.Units(sku) + UnitSum(u.open, period, sku))
            && TierTotal(m) <= m.google - ChargeSum(u.open, period, Google)
  {
    hide Inv, Run, ValidRun, TierTotal, ChargeSum, UnitSum;
    RunKeepsInv(l, events);
    InvAt(Run(l, events), period);
  }

  lemma GoogleNeverUndercharged(l: Ledger, period: Period)
    requires Inv(l)
    ensures TierTotal(l.MonthOf(period)) <= l.MonthOf(period).google - ChargeSum(l.open, period, Google)
  {
    InvAt(l, period);
  }

  // ----- Dollars -----

  /** The nearest whole number of nano-dollars, halves upwards. */
  ghost predicate Rounds(n: int, usd: real) {
    n as real - 0.5 <= usd * 1_000_000_000.0 < n as real + 0.5
  }

  /** What a reservation of `usd` books: the nearest amount, but never nothing. */
  ghost predicate Booked(n: int, usd: real) {
    n >= 1 && (Rounds(n, usd) || (n == 1 && usd * 1_000_000_000.0 < 0.5))
  }

  /** In one month one provider's spend moved by `n`, and nothing else did. */
  ghost predicate Moved(l: Ledger, next: Ledger, period: Period, p: Provider, n: int) {
    var m, k := l.MonthOf(period), next.MonthOf(period);
    && k.openAi == m.openAi + (if p == OpenAi then n else 0)
    && k.soniox == m.soniox + (if p == Soniox then n else 0)
    && k.google == m.google + (if p == Google then n else 0)
    && k.units == m.units && next.limits == l.limits
    && forall q :: q != period ==> next.MonthOf(q) == l.MonthOf(q)
  }

  lemma RoundingExists(usd: real) returns (n: int)
    ensures Rounds(n, usd) && n == ToNano(usd)
  {
    n := ToNano(usd);
  }

  lemma BookingExists(usd: real) returns (n: int)
    ensures Booked(n, usd) && n == ReservedNano(usd)
  {
    n := RoundingExists(usd);
    n := Max(1, n);
  }

  lemma RoundingIsUnique(n: int, k: int, usd: real)
    requires Rounds(n, usd) && Rounds(k, usd)
    ensures n == k
  {
  }

  lemma BookingIsUnique(n: int, k: int, usd: real)
    requires Booked(n, usd) && Booked(k, usd)
    ensures n == k
  {
  }

  /** A reservation of positive dollars books their amount in nano-dollars when that fits the limit of the
      provider and the total, and is refused exactly when it does not. */
  lemma ReservationIsInDollars(l: Ledger, period: Period, p: Provider, usd: real, n: int)
    requires Booked(n, usd)
    ensures var r, m := Outcome(l, Reserve(period, p, usd)), l.MonthOf(period);
            var (spend, limit) := match p
                                  case OpenAi => (m.openAi, l.limits.openAi)
                                  case Soniox => (m.soniox, l.limits.soniox)
                                  case Google => (m.google, l.limits.google);
            && (r.Ok? <==> usd > 0.0 && spend + n <= limit && m.openAi + m.soniox + m.google + n <= l.limits.total)
            && (r.Ok? ==> Moved(l, r.value, period, p, n) && r.value.open == l.open + [Amount(period, p, n, None)])
            && (r.Err? ==> r.error == if usd <= 0.0 then InvalidReservation else BudgetExceeded(p))
  {
    hide Booked, ReservedNano;
    var k := BookingExists(usd);
    BookingIsUnique(n, k, usd);
  }

  predicate NoRestart(events: seq<Event>) {
    forall e :: e in events ==> !e.Restart?
  }

  lemma AmountMayBeSettled(l: Ledger, e: Event, i: nat)
    requires Possible(l, e) && !e.Restart? && i < |l.open| && l.open[i].Amount?
    ensures var next := Step(l, e);
            && i < |next.open| && next.open[i].Amount?
            && next.open[i].period == l.open[i].period && next.open[i].provider == l.open[i].provider
            && next.open[i].nano == l.open[i].nano && (l.open[i].actual.Some? ==> next.open[i] == l.open[i])
  {
    hide ToNano, ReservedNano, GooglePrice, Released, FinalUnits, Fits;
  }

  /** Until the process restarts a handed-out amount stays what it is, or is settled for good. */
  lemma {:induction false} AmountStays(l: Ledger, events: seq<Event>, i: nat)
    requires ValidRun(l, events) && NoRestart(events) && i < |l.open| && l.open[i].Amount?
    ensures var end := Run(l, events);
            && i < |end.open| && end.open[i].Amount?
            && end.open[i].period == l.open[i].period && end.open[i].provider == l.open[i].provider
            && end.open[i].nano == l.open[i].nano && (l.open[i].actual.Some? ==> end.open[i] == l.open[i])
    decreases |events|
  {
    if events != [] {
      var e, rest := events[0], events[1..];
      assert e in events && NoRestart(rest);
      AmountMayBeSettled(l, e, i);
      hide Step, Possible;
      AmountStays(Step(l, e), rest, i);
    }
  }

  lemma OutstandingSettlement(l: Ledger, i: nat, n: int, actual: real, k: int)
    requires Inv(l) && i < |l.open| && l.open[i].Amount? && l.open[i].actual.None? && l.open[i].nano == n
    requires Rounds(k, actual)
    ensures var r := Outcome(l, Settle(i, actual));
            && (r.Ok? <==> 0.0 <= actual && k <= n) && (r.Err? ==> r.error == InvalidSettlement)
            && (r.Ok? ==> Moved(l, r.value, l.open[i].period, l.open[i].provider, k - n))
  {
    var rounded := RoundingExists(actual);
    RoundingIsUnique(k, rounded, actual);
    if actual >= 0.0 { SettlementNeverClamps(l, i, actual); }
    hide Inv, Rounds, ToNano;
  }

  /** The life of a reservation in dollars. As long as the process lives and it is not settled, whatever happens
      to the others, a settlement at any part of the reserved dollars is accepted: it takes the booked amount
      back and charges the actual one, rounded once each. At other amounts it is refused exactly when the
      rounding exceeds what was booked. */
  lemma SettlementIsInDollars(l: Ledger, period: Period, p: Provider, usd: real, n: int, events: seq<Event>,
                              actual: real, k: int)
    requires Inv(l) && Booked(n, usd) && Rounds(k, actual) && Outcome(l, Reserve(period, p, usd)).Ok?
    requires var start := Step(l, Reserve(period, p, usd));
             && ValidRun(start, events) && NoRestart(events)
             && |l.open| < |Run(start, events).open| && Run(start, events).open[|l.open|].actual.None?
    ensures var end, e := Run(Step(l, Reserve(period, p, usd)), events), Settle(|l.open|, actual);
            && Possible(end, e)
            && var r := Outcome(end, e);
            && (0.0 <= actual <= usd ==> r.Ok?)
            && (r.Ok? <==> 0.0 <= actual && k <= n) && (r.Err? ==> r.error == InvalidSettlement)
            && (r.Ok? ==> Moved(end, r.value, period, p, k - n))
  {
    var e := Reserve(period, p, usd);
    var start := Step(l, e);
    ReservationIsInDollars(l, period, p, usd, n);
    StepKeepsInv(l, e);
    assert start.open[|l.open|] == Amount(period, p, n, None);
    RunKeepsInv(start, events);
    AmountStays(start, events, |l.open|);
    var end := Run(start, events);
    assert 0.0 <= actual <= usd ==> k <= n;
    hide Inv, Moved, Booked, Rounds, Run, ValidRun, Outcome, Step;
    OutstandingSettlement(end, |l.open|, n, actual, k);
  }

  /** The price list as published: units free in a month, then dollars for a thousand. */
  function Listed(sku: Sku): (nat, real) {
    match sku
    case Geocoding => (10_000, 5.0)
    case PlacesDetails => (1_000, 20.0)
    case PlacesTextSearch => (1_000, 35.0)
    case RouteMatrixPro => (5_000, 10.0)
    case RouteMatrixEssentials => (10_000, 5.0)
    case TimeZone => (10_000, 5.0)
    case Weather => (10_000, 0.15)
    case AirQuality => (10_000, 5.0)
    case Pollen => (5_000, 10.0)
  }

  /** The dollars of the units between two counts, free units left out, by the list. */
  function ListedDollars(sku: Sku, before: int, after: int): real {
    var (free, usd) := Listed(sku);
    var paid := (if after > free then after - free else 0) - (if before > free then before - free else 0);
    paid as real * usd / 1000.0
  }

  /** In whole nano-dollars a step costs the listed dollars exactly: nothing is lost in rounding. */
  lemma StepIsListed(sku: Sku, before: int, after: int)
    ensures StepCost(sku, before, after) as real == ListedDollars(sku, before, after) * 1_000_000_000.0
  {
  }

  lemma PriceIsListed(m: Month, sku: Sku, units: int, before: int, n: int)
    requires before == if sku in m.units then m.units[sku] else 0
    requires n as real == ListedDollars(sku, before, before + units) * 1_000_000_000.0
    ensures GooglePrice(m, sku, units) == n
  {
    hide StepCost, ListedDollars;
    StepIsListed(sku, before, before + units);
  }

  lemma FitsGoogle(limits: Limits, m: Month, n: int)
    ensures Fits(limits, m, Google, n) <==>
              m.google + n <= limits.google && m.openAi + m.soniox + m.google + n <= limits.total
  {
  }

  lemma UnitsAreBooked(l: Ledger, period: Period, sku: Sku, units: int, before: int, n: int)
    requires before == (if sku in l.MonthOf(period).units then l.MonthOf(period).units[sku] else 0)
    requires GooglePrice(l.MonthOf(period), sku, units) == n
    ensures var r, m := Outcome(l, ReserveUnits(period, sku, units)), l.MonthOf(period);
            && (r.Ok? <==> units >= 1 && m.google + n <= l.limits.google
                           && m.openAi + m.soniox + m.google + n <= l.limits.total)
            && (r.Ok? ==>
                  && r.value.MonthOf(period) == Month(m.openAi, m.soniox, m.google + n, m.units[sku := before + units])
                  && forall q :: q != period ==> r.value.MonthOf(q) == l.MonthOf(q))
            && (r.Err? ==> r.error == if units < 1 then InvalidReservation else BudgetExceeded(Google))
  {
    hide GooglePrice, Fits;
    FitsGoogle(l.limits, l.MonthOf(period), n);
  }

  /** A unit reservation costs the listed price of its units at the month's count, and is refused exactly when
      that does not fit. */
  lemma UnitsAreListed(l: Ledger, period: Period, sku: Sku, units: int, before: int, n: int)
    requires before == if sku in l.MonthOf(period).units then l.MonthOf(period).units[sku] else 0
    requires n as real == ListedDollars(sku, before, before + units) * 1_000_000_000.0
    ensures var r, m := Outcome(l, ReserveUnits(period, sku, units)), l.MonthOf(period);
            && (r.Ok? <==> units >= 1 && m.google + n <= l.limits.google
                           && m.openAi + m.soniox + m.google + n <= l.limits.total)
            && (r.Ok? ==>
                  && r.value.MonthOf(period) == Month(m.openAi, m.soniox, m.google + n, m.units[sku := before + units])
                  && forall q :: q != period ==> r.value.MonthOf(q) == l.MonthOf(q))
            && (r.Err? ==> r.error == if units < 1 then InvalidReservation else BudgetExceeded(Google))
  {
    hide *;
    PriceIsListed(l.MonthOf(period), sku, units, before, n);
    UnitsAreBooked(l, period, sku, units, before, n);
  }

  // ----- Limits -----

  lemma OneMonthWithin(l: Ledger, next: Ledger, period: Period)
    requires Within(l) && next.limits == l.limits && WithinMonth(l.limits, next.MonthOf(period))
    requires forall q :: q != period ==> next.MonthOf(q) == l.MonthOf(q)
    ensures Within(next)
  {
  }

  lemma FittingStaysWithin(limits: Limits, m: Month, p: Provider, nano: int, units: map<Sku, int>)
    requires WithinMonth(limits, m) && Fits(limits, m, p, nano)
    ensures WithinMonth(limits, m.WithSpend(p, m.Spend(p) + nano))
    ensures p.Google? ==> WithinMonth(limits, m.(units := units, google := m.google + nano))
  {
  }

  lemma WithinAt(l: Ledger, period: Period)
    requires Within(l)
    ensures WithinMonth(l.limits, l.MonthOf(period))
  {
  }

  lemma ReserveKeepsWithin(l: Ledger, period: Period, p: Provider, usd: real)
    requires Within(l) && Reserved(l, period, p, usd).Ok?
    ensures Within(Reserved(l, period, p, usd).value)
  {
    hide ReservedNano, Within, WithinMonth, Fits, Month.Spend, Month.WithSpend;
    WithinAt(l, period);
    FittingStaysWithin(l.limits, l.MonthOf(period), p, ReservedNano(usd), map[]);
    OneMonthWithin(l, Reserved(l, period, p, usd).value, period);
  }

  lemma ReserveUnitsKeepsWithin(l: Ledger, period: Period, sku: Sku, units: int)
    requires Within(l) && ReservedGoogle(l, period, sku, units).Ok?
    ensures Within(ReservedGoogle(l, period, sku, units).value)
  {
    hide GooglePrice, Within, WithinMonth, Fits, Month.Units;
    WithinAt(l, period);
    var m, next := l.MonthOf(period), ReservedGoogle(l, period, sku, units).value;
    FittingStaysWithin(l.limits, m, Google, GooglePrice(m, sku, units), next.months[period].units);
    OneMonthWithin(l, next, period);
  }

  /** Settling lowers one spend, so it cannot leave the limits. */
  lemma SettleKeepsWithin(l: Ledger, i: nat, usd: real)
    requires Inv(l) && Within(l) && i < |l.open| && l.open[i].Amount?
    ensures Within(Step(l, Settle(i, usd)))
  {
    hide ToNano, Within, Inv;
    var r := l.open[i];
    if r.actual.None? && SettledAmount(l, i, usd).Ok? {
      SettlementNeverClamps(l, i, usd);
      WithinAt(l, r.period);
      OneMonthWithin(l, Step(l, Settle(i, usd)), r.period);
    }
  }

  lemma TierStepIsNatural(r: Reservation)
    requires r.Units? && Sane(r)
    ensures 0 <= r.reserved
  {
  }

  lemma SettleUnitsKeepsWithin(l: Ledger, i: nat, actual: int)
    requires Inv(l) && Within(l) && i < |l.open| && l.open[i].Units?
    ensures Within(Step(l, SettleUnits(i, actual)))
  {
    var r := l.open[i];
    assert 0 <= r.reserved by { assert Sane(r); TierStepIsNatural(r); }
    hide Within, Inv, Tier, Released, FinalUnits;
    if r.actual.None? && SettledGoogle(l, i, actual).Ok? {
      GoogleSettlementNeverClamps(l, i, actual);
      WithinAt(l, r.period);
      OneMonthWithin(l, Step(l, SettleUnits(i, actual)), r.period);
    }
  }

  lemma RestartKeepsWithin(l: Ledger)
    requires Within(l)
    ensures Within(Step(l, Restart))
  {
    hide WithinMonth;
    forall q ensures WithinMonth(l.limits, Restarted(l).MonthOf(q)) { assert WithinMonth(l.limits, l.MonthOf(q)); }
  }

  lemma StepKeepsWithin(l: Ledger, e: Event)
    requires Inv(l) && Within(l) && Possible(l, e)
    ensures Within(Step(l, e))
  {
    hide Inv, Within, Reserved, ReservedGoogle, SettledAmount, SettledGoogle, Restarted;
    match e
    case Reserve(period, p, usd) => if Reserved(l, period, p, usd).Ok? { ReserveKeepsWithin(l, period, p, usd); }
    case ReserveUnits(period, sku, units) =>
      if ReservedGoogle(l, period, sku, units).Ok? { ReserveUnitsKeepsWithin(l, period, sku, units); }
    case Settle(i, usd) => SettleKeepsWithin(l, i, usd);
    case SettleUnits(i, actual) => SettleUnitsKeepsWithin(l, i, actual);
    case Restart => RestartKeepsWithin(l);
  }

  lemma {:induction false} RunKeepsWithin(l: Ledger, events: seq<Event>)
    requires Inv(l) && Within(l) && ValidRun(l, events)
    ensures Within(Run(l, events))
    decreases |events|
  {
    hide Inv, Within, Step, Possible;
    if events != [] {
      StepKeepsInv(l, events[0]);
      StepKeepsWithin(l, events[0]);
      RunKeepsWithin(Step(l, events[0]), events[1..]);
    }
  }

  /** When the provider limits add up to at most the total, the total check decides nothing. */
  lemma TotalCheckIsImplied(l: Ledger, period: Period, p: Provider, nano: int)
    requires Within(l) && l.limits.openAi + l.limits.soniox + l.limits.google <= l.limits.total
    ensures Fits(l.limits, l.MonthOf(period), p, nano) <==> l.MonthOf(period).Spend(p) + nano <= l.limits.Of(p)
  {
  }

  /** The advisory check and the reservation agree. */
  lemma CanReserveAgrees(l: Ledger, period: Period, p: Provider, usd: real)
    ensures CanReserve(l, period, p, usd) <==> Reserved(l, period, p, usd).Ok?
  {
  }

  // ----- When Google's charge is exact -----

  /** Settling is exact when no more than the reserved amount would be released. */
  lemma SettlementIsExactIff(l: Ledger, i: nat, actual: int)
    requires Inv(l) && i < |l.open| && l.open[i].Units? && l.open[i].actual.None? && 0 <= actual <= l.open[i].units
    ensures SettledGoogle(l, i, actual).Ok? && l.open[i].period in l.months
    ensures var r, next := l.open[i], SettledGoogle(l, i, actual).value;
            Surplus(next, r.period) == Surplus(l, r.period)
            <==> Released(l.months[r.period], r, actual) <= r.reserved
  {
    GoogleSettlementNeverClamps(l, i, actual);
    SettledGoogleBalanced(l, i, actual, l.open[i].period);
    hide Inv, Surplus, Released, Tier, FinalUnits, Balanced;
  }

  /** That is always so when the month's units have not grown past the reservation. */
  lemma ExactWhenUnitsHaveNotGrown(l: Ledger, i: nat, actual: int)
    requires Inv(l) && i < |l.open| && l.open[i].Units? && l.open[i].actual.None? && 0 <= actual <= l.open[i].units
    requires Known(l, l.open[i]) && l.months[l.open[i].period].units[l.open[i].sku] <= l.open[i].after
    ensures Released(l.months[l.open[i].period], l.open[i], actual) <= l.open[i].reserved
  {
  }

  /** No unit reservation of this month and SKU is outstanding. */
  predicate Outstanding(r: Reservation, period: Period, sku: Sku) {
    r.Units? && r.period == period && r.sku == sku && r.actual.None?
  }

  predicate Rivals(r: Reservation, s: Reservation) {
    s.Units? && s.actual.None? && Outstanding(r, s.period, s.sku)
  }

  ghost predicate Alone(l: Ledger, period: Period, sku: Sku) {
    forall i :: 0 <= i < |l.open| ==> !Outstanding(l.open[i], period, sku)
  }

  /** An outstanding unit reservation still sees the unit count it left behind. */
  ghost predicate Undisturbed(l: Ledger) {
    && (forall i :: 0 <= i < |l.open| && l.open[i].Units? && l.open[i].actual.None? ==>
          Known(l, l.open[i]) && l.months[l.open[i].period].units[l.open[i].sku] == l.open[i].after)
    && (forall i, j :: 0 <= i < |l.open| && 0 <= j < |l.open| && Rivals(l.open[i], l.open[j]) ==> i == j)
  }

  ghost predicate Sequential(l: Ledger, events: seq<Event>)
    requires ValidRun(l, events)
    decreases |events|
  {
    events == []
    || (&& !events[0].Restart?
        && (events[0].ReserveUnits? ==> Alone(l, events[0].period, events[0].sku))
        && Sequential(Step(l, events[0]), events[1..]))
  }

  lemma ReserveUnitsUndisturbed(l: Ledger, period: Period, sku: Sku, units: int)
    requires Undisturbed(l) && Alone(l, period, sku) && ReservedGoogle(l, period, sku, units).Ok?
    ensures Undisturbed(ReservedGoogle(l, period, sku, units).value)
  {
    hide GooglePrice, Fits;
    var next := ReservedGoogle(l, period, sku, units).value;
    forall i | 0 <= i < |l.open| && l.open[i].Units? && l.open[i].actual.None?
      ensures Known(next, l.open[i]) && next.months[l.open[i].period].units[l.open[i].sku] == l.open[i].after
    {
      assert !Outstanding(l.open[i], period, sku);
    }
    forall i, j | 0 <= i < |next.open| && 0 <= j < |next.open| && Rivals(next.open[i], next.open[j])
      ensures i == j
    {
      assert i < |l.open| ==> next.open[i] == l.open[i] && !Outstanding(l.open[i], period, sku);
      assert j < |l.open| ==> next.open[j] == l.open[j] && !Outstanding(l.open[j], period, sku);
    }
  }

  lemma SettleUnitsUndisturbed(l: Ledger, i: nat, actual: int)
    requires Undisturbed(l) && i < |l.open| && l.open[i].Units? && l.open[i].actual.None?
    requires SettledGoogle(l, i, actual).Ok?
    ensures Undisturbed(SettledGoogle(l, i, actual).value)
  {
  }

  /** Unit reservations and unit counts are out of reach of amount reservations. */
  lemma AmountsUndisturbed(l: Ledger, next: Ledger)
    requires Undisturbed(l)
    requires forall i :: 0 <= i < |next.open| && next.open[i].Units? ==> i < |l.open| && next.open[i] == l.open[i]
    requires forall q :: q in l.months ==> q in next.months && next.months[q].units == l.months[q].units
    ensures Undisturbed(next)
  {
    forall i | 0 <= i < |next.open| && next.open[i].Units? && next.open[i].actual.None?
      ensures Known(next, next.open[i])
      ensures next.months[next.open[i].period].units[next.open[i].sku] == next.open[i].after
    {
      assert Known(l, l.open[i]);
    }
    forall a, b | 0 <= a < |next.open| && 0 <= b < |next.open| && Rivals(next.open[a], next.open[b])
      ensures a == b
    {
      assert Rivals(l.open[a], l.open[b]);
    }
  }

  lemma ReserveUndisturbed(l: Ledger, period: Period, p: Provider, usd: real)
    requires Undisturbed(l) && Reserved(l, period, p, usd).Ok?
    ensures Undisturbed(Reserved(l, period, p, usd).value)
  {
    hide Undisturbed, ReservedNano, Fits;
    AmountsUndisturbed(l, Reserved(l, period, p, usd).value);
  }

  lemma SettledUndisturbed(l: Ledger, i: nat, usd: real)
    requires Undisturbed(l) && i < |l.open| && l.open[i].Amount? && SettledAmount(l, i, usd).Ok?
    ensures Undisturbed(SettledAmount(l, i, usd).value)
  {
    hide Undisturbed, ToNano;
    AmountsUndisturbed(l, SettledAmount(l, i, usd).value);
  }

  lemma SequentialStepIsExact(l: Ledger, e: Event, q: Period)
    requires Inv(l) && Undisturbed(l) && Possible(l, e) && !e.Restart?
    requires e.ReserveUnits? ==> Alone(l, e.period, e.sku)
    ensures Undisturbed(Step(l, e)) && Surplus(Step(l, e), q) == Surplus(l, q)
  {
    match e
    case Reserve(period, p, usd) =>
      hide Undisturbed, Reserved, Surplus, Inv;
      if Reserved(l, period, p, usd).Ok? {
        ReserveUndisturbed(l, period, p, usd);
        ReservedBalanced(l, period, p, usd, q);
      }
    case ReserveUnits(period, sku, units) =>
      hide Undisturbed, ReservedGoogle, Surplus, Inv, Alone;
      if ReservedGoogle(l, period, sku, units).Ok? {
        ReserveUnitsUndisturbed(l, period, sku, units);
        ReservedGoogleBalanced(l, period, sku, units, q);
      }
    case Settle(i, usd) =>
      hide Undisturbed, Surplus, Inv, ToNano;
      if l.open[i].actual.None? && SettledAmount(l, i, usd).Ok? {
        SettledUndisturbed(l, i, usd);
        SettledAmountBalanced(l, i, usd, q);
      }
    case SettleUnits(i, actual) =>
      if l.open[i].actual.None? && SettledGoogle(l, i, actual).Ok? {
        ExactWhenUnitsHaveNotGrown(l, i, actual);
        hide Undisturbed, Surplus, Inv, Released, FinalUnits, Tier;
        SettleUnitsUndisturbed(l, i, actual);
        SettledGoogleBalanced(l, i, actual, q);
      }
  }

  /** In a run where no two reservations of one SKU and month overlap, Google's spend moves
      exactly with the tier price of the recorded units. */
  lemma {:induction false} SequentialRunsAreExact(l: Ledger, events: seq<Event>, q: Period)
    requires Inv(l) && Undisturbed(l) && ValidRun(l, events) && Sequential(l, events)
    ensures Surplus(Run(l, events), q) == Surplus(l, q)
    decreases |events|
  {
    hide Inv, Undisturbed, Surplus, Step, Possible;
    if events != [] {
      StepKeepsInv(l, events[0]);
      SequentialStepIsExact(l, events[0], q);
      SequentialRunsAreExact(Step(l, events[0]), events[1..], q);
    }
  }

  const DEFAULT_LIMITS := Limits(50_000_000_000, 20_000_000_000, 10_000_000_000, 80_000_000_000)

  /** A ledger whose only month holds `units` searches and `google` nano-dollars. */
  function Searches(units: int, google: int, open: seq<Reservation>): Ledger {
    Ledger(DEFAULT_LIMITS, map[0 := Month(0, 0, google, map[PlacesTextSearch := units])], open,
           map[0 := Month(0, 0, 0, map[PlacesTextSearch := 999])])
  }

  lemma TierOfFreeUnits(sku: Sku, units: int)
    requires units <= FreeUnits(sku)
    ensures Tier(sku, units) == 0
  {
  }

  lemma OnlySearches(m: Month, units: int)
    requires m.units == map[PlacesTextSearch := units] && units <= 1000
    ensures TierTotal(m) == 0
  {
    hide Tier;
    forall sku ensures Tier(sku, m.Units(sku)) == 0 { TierOfFreeUnits(sku, m.Units(sku)); }
  }

  lemma NoSearches(m: Month)
    requires m.units == map[]
    ensures TierTotal(m) == 0
  {
  }

  lemma SearchesBalance()
    ensures Inv(Searches(999, 0, [])) && Surplus(Searches(999, 0, []), 0) == 0
  {
    hide TierTotal, Tier;
    var l := Searches(999, 0, []);
    OnlySearches(l.MonthOf(0), 999);
    NoSearches(BLANK);
    assert forall q, p :: ChargeSum([], q, p) == 0;
    assert forall q, sku :: UnitSum([], q, sku) == 0;
    forall q ensures Balanced(l, q) {}
  }

  lemma FirstSearch()
    ensures Step(Searches(999, 0, []), ReserveUnits(0, PlacesTextSearch, 1))
            == Searches(1000, 0, [Reservation.Units(0, PlacesTextSearch, 1, 1000, 0, None)])
  {
    assert map[PlacesTextSearch := 999][PlacesTextSearch := 1000] == map[PlacesTextSearch := 1000];
  }

  lemma SecondSearch(a: Reservation)
    ensures Step(Searches(1000, 0, [a]), ReserveUnits(0, PlacesTextSearch, 1))
            == Searches(1001, 35_000_000, [a, Reservation.Units(0, PlacesTextSearch, 1, 1001, 35_000_000, None)])
  {
    assert map[PlacesTextSearch := 1000][PlacesTextSearch := 1001] == map[PlacesTextSearch := 1001];
  }

  lemma CancelFirstSearch(b: Reservation)
    ensures var x, y := Reservation.Units(0, PlacesTextSearch, 1, 1000, 0, None),
                        Reservation.Units(0, PlacesTextSearch, 1, 1000, 0, Some(0));
            Step(Searches(1001, 35_000_000, [x, b]), SettleUnits(0, 0)) == Searches(1000, 35_000_000, [y, b])
  {
    var x, y := Reservation.Units(0, PlacesTextSearch, 1, 1000, 0, None),
                Reservation.Units(0, PlacesTextSearch, 1, 1000, 0, Some(0));
    assert map[PlacesTextSearch := 1001][PlacesTextSearch := 1000] == map[PlacesTextSearch := 1000];
    assert [x, b][0 := y] == [y, b];
  }

  lemma SurplusAfterCancelling(y: Reservation, b: Reservation)
    requires y.Units? && b.Units?
    ensures Surplus(Searches(1000, 35_000_000, [y, b]), 0) == UnitPrice(PlacesTextSearch)
  {
    hide TierTotal, Tier;
    var l := Searches(1000, 35_000_000, [y, b]);
    OnlySearches(l.MonthOf(0), 1000);
    assert [y, b][..1] == [y] && [y][..0] == [];
    assert ChargeSum([y], 0, Google) == 0;
  }

  lemma Prepend(l: Ledger, e: Event, events: seq<Event>)
    requires Possible(l, e) && ValidRun(Step(l, e), events)
    ensures ValidRun(l, [e] + events) && Run(l, [e] + events) == Run(Step(l, e), events)
  {
  }

  lemma OpenOf(units: int, google: int, open: seq<Reservation>)
    ensures Searches(units, google, open).open == open
  {
  }

  /** Two overlapping reservations of one unit at the edge of the free tier: cancelling the
      first one releases the second one's price, but only its own is given back. */
  lemma OverlapOvercharges()
    ensures exists l, events ::
              Inv(l) && l.open == [] && ValidRun(l, events) && Surplus(l, 0) == 0
              && Surplus(Run(l, events), 0) == UnitPrice(PlacesTextSearch)
  {
    hide Inv, Surplus, Step, Searches, UnitPrice;
    var a, b := Reservation.Units(0, PlacesTextSearch, 1, 1000, 0, None),
                Reservation.Units(0, PlacesTextSearch, 1, 1001, 35_000_000, None);
    SearchesBalance();
    FirstSearch();
    SecondSearch(a);
    CancelFirstSearch(b);
    SurplusAfterCancelling(Reservation.Units(0, PlacesTextSearch, 1, 1000, 0, Some(0)), b);
    var l, e, f := Searches(999, 0, []), ReserveUnits(0, PlacesTextSearch, 1), SettleUnits(0, 0);
    assert Searches(1001, 35_000_000, [a, b]).open == [a, b] by { OpenOf(1001, 35_000_000, [a, b]); }
    OpenOf(999, 0, []);
    var end := Step(Searches(1001, 35_000_000, [a, b]), f);
    assert ValidRun(end, []) && Run(end, []) == end;
    Prepend(Searches(1001, 35_000_000, [a, b]), f, []);
    Prepend(Searches(1000, 0, [a]), e, [f] + []);
    Prepend(l, e, [e] + ([f] + []));
  }

  // ----- The ledger object -----

  class Books {
    const limits: Limits
    var months: map<Period, Month>
    var open: seq<Reservation>
    ghost var base: map<Period, Month>

    ghost function Contents(): Ledger
      reads this
    {
      Ledger(limits, months, open, base)
    }

    constructor (limits: Limits, months: map<Period, Month>)
      ensures Contents() == Ledger(limits, months, [], months)
    {
      this.limits, this.months, open, base := limits, months, [], months;
    }

    /** The month's record, created blank when it is not there yet. */
    method MonthFor(period: Period) returns (m: Month)
      modifies this`months
      ensures m == old(Contents()).MonthOf(period) && months == old(months)[period := m]
    {
      if period !in months { months := months[period := BLANK]; }
      m := months[period];
      assert months == old(months)[period := m];
    }

    method Reserve(period: Period, p: Provider, usd: real) returns (r: Result<nat, Error>)
      modifies this
      ensures match Reserved(old(Contents()), period, p, usd)
              case Ok(next) => r == Ok(|old(open)|) && Contents() == next
              case Err(error) => r == Err(error) && open == old(open) && base == old(base)
                                 && (|| months == old(months)
                                     || months == old(months)[period := old(Contents()).MonthOf(period)])
    {
      hide ReservedNano, Month.Total, Month.Spend, Month.WithSpend, Limits.Of;
      if usd <= 0.0 { return Err(InvalidReservation); }
      var nano := ReservedNano(usd);
      var m := MonthFor(period);
      if m.Spend(p) + nano > limits.Of(p) || m.Total() + nano > limits.total { return Err(BudgetExceeded(p)); }
      months := months[period := m.WithSpend(p, m.Spend(p) + nano)];
      open := open + [Amount(period, p, nano, None)];
      assert months == old(months)[period := months[period]];
      r := Ok(|open| - 1);
    }

    method ChargeGoogle(period: Period, m: Month, closure: Reservation)
      requires closure.Units? && period in months && months[period] == m
      modifies this
      ensures base == old(base) && open == old(open) + [closure]
      ensures months == old(months)[period := m.(units := m.units[closure.sku := closure.after],
                                                 google := m.google + closure.reserved)]
    {
      months := months[period := m.(units := m.units[closure.sku := closure.after],
                                    google := m.google + closure.reserved)];
      open := open + [closure];
    }

    method ReserveGoogle(period: Period, sku: Sku, units: int) returns (r: Result<nat, Error>)
      modifies this
      ensures match ReservedGoogle(old(Contents()), period, sku, units)
              case Ok(next) => r == Ok(|old(open)|) && Contents() == next
              case Err(error) => r == Err(error) && open == old(open) && base == old(base)
                                 && (|| months == old(months)
                                     || months == old(months)[period := old(Contents()).MonthOf(period)])
    {
      hide StepCost, Month.Units, Month.Total;
      if units < 1 { return Err(InvalidReservation); }
      var m := MonthFor(period);
      var before := m.Units(sku);
      var after := before + units;
      var reserved := StepCost(sku, before, after);
      if m.google + reserved > limits.google || m.Total() + reserved > limits.total {
        return Err(BudgetExceeded(Google));
      }
      ChargeGoogle(period, m, Reservation.Units(period, sku, units, after, reserved, None));
      r := Ok(|open| - 1);
    }

    /** The reservation counts as settled before its month is looked up. */
    method Settle(i: nat, usd: real) returns (r: Result<(), Error>)
      requires i < |open| && open[i].Amount?
      modifies this
      ensures match SettledAmount(old(Contents()), i, usd)
              case Ok(next) => r == Ok(()) && Contents() == next
              case Err(error) => r == Err(error) && Contents() == if error.PeriodMissing?
                then old(Contents()).(open := old(open)[i := Closed(old(open)[i], ToNano(usd))])
                else old(Contents())
    {
      hide ToNano;
      var closure := open[i];
      if closure.actual.Some? { return Ok(()); }
      if usd < 0.0 || ToNano(usd) > closure.nano { return Err(InvalidSettlement); }
      open := open[i := Closed(closure, ToNano(usd))];
      if closure.period !in months { return Err(PeriodMissing); }
      var m := months[closure.period];
      months := months[closure.period :=
        m.WithSpend(closure.provider, Max(0, m.Spend(closure.provider) - closure.nano + ToNano(usd)))];
      r := Ok(());
    }

    method SettleGoogle(i: nat, actual: int) returns (r: Result<(), Error>)
      requires i < |open| && open[i].Units?
      modifies this
      ensures match SettledGoogle(old(Contents()), i, actual)
              case Ok(next) => r == Ok(()) && Contents() == next
              case Err(error) => r == Err(error) && Contents() == if error.PeriodMissing?
                then old(Contents()).(open := old(open)[i := Closed(old(open)[i], actual)])
                else old(Contents())
    {
      hide StepCost;
      var closure := open[i];
      if closure.actual.Some? { return Ok(()); }
      if actual < 0 || actual > closure.units { return Err(InvalidSettlement); }
      open := open[i := Closed(closure, actual)];
      if closure.period !in months { return Err(PeriodMissing); }
      var m := months[closure.period];
      var current := if closure.sku in m.units then m.units[closure.sku] else closure.units;
      var final := Max(0, current - (closure.units - actual));
      var released := StepCost(closure.sku, final, current);
      assert final == FinalUnits(m, closure, actual) && released == Released(m, closure, actual);
      months := months[closure.period := m.(units := m.units[closure.sku := final],
                                            google := Max(0, m.google - Min(closure.reserved, released)))];
      r := Ok(());
    }
  }
}
