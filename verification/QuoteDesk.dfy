/** The quote endpoint: price a request, hold room for it in the exposure book, sign, journal,
    reply. Other requests run while it waits for the signature or the journal, so those parts are
    methods of their own, each proved to be one step of the life of quotes in ExposureState. */
module QuoteDesk {
  import opened ExposureBook
  import EC = ExposureCaps
  import ES = ExposureState
  import opened NonLinear
  import opened Prelude
  import opened Pricing

  datatype Config = Config(edgeBps: nat, legEdgeBps: nat, minPremiumBps: nat, ttlMs: nat,
                           perMarketCap: nat, inPlayCapBps: Bps, perClusterCap: nat, perKeyCap: nat)

  /** A leg as it was priced: its market and the price of the side taken. `placeholder` says the
      price is only what Core shows for an empty book. */
  datatype LegPrice = LegPrice(vault: Address, priceWad: nat, placeholder: bool)

  /** A validated request: legs of distinct markets, a stake, the account asking. */
  datatype Request = Request(legs: seq<LegPrice>, stake: nat, account: nat)

  datatype Reply =
    | Ok(quoteId: nat, premium: nat, maxPayout: nat)
    | Error(status: nat, reason: string)
    | NoRoom(reason: string, maxStake: nat)

  function Prices(legs: seq<LegPrice>): seq<nat> {
    seq(|legs|, i requires 0 <= i < |legs| => legs[i].priceWad)
  }

  function Vaults(legs: seq<LegPrice>): seq<Address> {
    seq(|legs|, i requires 0 <= i < |legs| => legs[i].vault)
  }

  function EdgeOf(cfg: Config, legs: seq<LegPrice>): nat {
    cfg.edgeBps + cfg.legEdgeBps * Monus(|legs|, 1)
  }

  function MarketCap(cfg: Config, inPlay: bool): nat {
    if inPlay then cfg.perMarketCap * cfg.inPlayCapBps / BPS else cfg.perMarketCap
  }

  function OrderOf(cfg: Config, req: Request, risk: nat, allowance: nat, inPlay: bool): ES.Order {
    ES.Order(risk, Vaults(req.legs), req.account, allowance, MarketCap(cfg, inPlay), cfg.perClusterCap, cfg.perKeyCap)
  }

  function ReservationOf(cfg: Config, req: Request, maxPayout: nat, now: nat): ES.Reservation {
    ES.Reservation(Monus(maxPayout, req.stake), Vaults(req.legs), now + cfg.ttlMs, req.account)
  }

  function CapsOf(cfg: Config): ES.Caps {
    ES.Caps(cfg.perMarketCap, cfg.perClusterCap, cfg.perKeyCap)
  }

  // ------------------------------------------------------------------ price

  /** The parlay pays more than the leg alone would. */
  predicate Beats(maxPayout: nat, stake: nat, priceWad: nat) {
    priceWad > 0 ==> maxPayout > stake * WAD / priceWad
  }

  /** pricing.ts dominatingLeg: the first leg that alone pays as much. */
  method DominatingLeg(prices: seq<nat>, stake: nat, maxPayout: nat) returns (leg: int)
    ensures -1 <= leg < |prices|
    ensures leg >= 0 ==> !Beats(maxPayout, stake, prices[leg])
    ensures forall i :: 0 <= i < (if leg < 0 then |prices| else leg) ==> Beats(maxPayout, stake, prices[i])
  {
    for i := 0 to |prices|
      invariant forall j :: 0 <= j < i ==> Beats(maxPayout, stake, prices[j])
    {
      if prices[i] > 0 && maxPayout <= stake * WAD / prices[i] {
        return i;
      }
    }
    return -1;
  }

  /** The payout the request is priced at. */
  predicate PricedAt(cfg: Config, req: Request, maxPayout: nat)
    requires cfg.minPremiumBps > 0
    ensures PricedAt(cfg, req, maxPayout) ==> req.stake < maxPayout
  {
    PriceParlay(JointProbWad(Prices(req.legs)), req.stake, EdgeOf(cfg, req.legs), cfg.minPremiumBps)
    == Priced(req.stake, maxPayout)
  }

  /** What the endpoint reads: the settled legs, whether every book could be read (the prices are in
      the request), the allowance. None is a read that failed. */
  datatype Readings = Readings(settled: Option<set<Address>>, booksRead: bool, allowance: Option<nat>)

  /** A request that can be quoted: everything read, no leg settled, every leg really priced, a payout
      at the joint probability, and a payout worth more than any leg alone. */
  ghost predicate Quotable(cfg: Config, req: Request, r: Readings)
    requires cfg.minPremiumBps > 0
  {
    && r.settled.Some? && r.booksRead && r.allowance.Some?
    && (forall leg <- req.legs :: leg.vault !in r.settled.value)
    && (forall leg <- req.legs :: !leg.placeholder)
    && var o := PriceParlay(JointProbWad(Prices(req.legs)), req.stake, EdgeOf(cfg, req.legs), cfg.minPremiumBps);
       o.Priced? && forall p <- Prices(req.legs) :: Beats(o.maxPayout, req.stake, p)
  }

  /** Why a request is not quoted: the first of the reasons, in the order they are looked for. */
  ghost function Refusal(cfg: Config, req: Request, r: Readings): Option<Reply>
    requires cfg.minPremiumBps > 0
  {
    var o := PriceParlay(JointProbWad(Prices(req.legs)), req.stake, EdgeOf(cfg, req.legs), cfg.minPremiumBps);
    if r.settled.None? then Some(Error(503, "rpc-down")) else
    if exists leg <- req.legs :: leg.vault in r.settled.value then Some(Error(409, "leg-settled")) else
    if !r.booksRead then Some(Error(503, "stale-book")) else
    if exists leg <- req.legs :: leg.placeholder then Some(Error(503, "unpriced-leg")) else
    if r.allowance.None? then Some(Error(503, "rpc-down")) else
    if o.Refused? then Some(Error(400, o.reason)) else
    if exists p <- Prices(req.legs) :: !Beats(o.maxPayout, req.stake, p) then Some(Error(400, "dominated")) else None
  }

  /** server.ts price. */
  method Price(cfg: Config, req: Request, r: Readings) returns (reply: Option<Reply>, maxPayout: nat)
    requires cfg.minPremiumBps > 0
    ensures reply.None? <==> Quotable(cfg, req, r)
    ensures reply == Refusal(cfg, req, r)
    ensures reply.None? ==> PricedAt(cfg, req, maxPayout)
  {
    maxPayout := 0;
    if r.settled.None? {
      return Some(Error(503, "rpc-down")), 0;
    }
    for i := 0 to |req.legs|
      invariant forall j :: 0 <= j < i ==> req.legs[j].vault !in r.settled.value
    {
      if req.legs[i].vault in r.settled.value {
        return Some(Error(409, "leg-settled")), 0;
      }
    }
    if !r.booksRead {
      return Some(Error(503, "stale-book")), 0;
    }
    for i := 0 to |req.legs|
      invariant forall j :: 0 <= j < i ==> !req.legs[j].placeholder
    {
      if req.legs[i].placeholder {
        return Some(Error(503, "unpriced-leg")), 0;
      }
    }
    if r.allowance.None? {
      return Some(Error(503, "rpc-down")), 0;
    }
    var joint := IndependentJointProbWad(Prices(req.legs));
    var priced := PriceParlay(joint, req.stake, EdgeOf(cfg, req.legs), cfg.minPremiumBps);
    if priced.Refused? {
      return Some(Error(400, priced.reason)), 0;
    }
    var leg := DominatingLeg(Prices(req.legs), req.stake, priced.maxPayout);
    if leg != -1 {
      assert Prices(req.legs)[leg] in Prices(req.legs);
      return Some(Error(400, "dominated")), 0;
    }
    return None, priced.maxPayout;
  }

  // ------------------------------------------------------- a suggestion fits

  lemma {:induction false} FullNamesTheMarket(p: ES.Policy, b: ES.Book, o: ES.Order, vaults: seq<Address>, now: nat)
    ensures var answer := ES.CheckMarkets(p, b, o, vaults, now);
      answer.Full? ==>
        && answer.reason == "market-cap" && answer.market.Some?
        && answer.headroom == Monus(o.perMarketCap, ES.PerMarket(p, b, answer.market.value, now))
        && o.risk + ES.PerMarket(p, b, answer.market.value, now) > o.perMarketCap
    decreases |vaults|
  {
    if vaults != [] {
      FullNamesTheMarket(p, b, o, vaults[1..], now);
    }
  }

  lemma {:induction false} LessRiskFits(p: ES.Policy, b: ES.Book, o: ES.Order, risk: nat,
      vaults: seq<Address>, clusters: seq<nat>, now: nat)
    requires risk <= o.risk
    ensures ES.CheckMarkets(p, b, o, vaults, now).Fits? ==> ES.CheckMarkets(p, b, o.(risk := risk), vaults, now).Fits?
    ensures ES.CheckClusters(p, b, o, clusters, now).Fits? ==> ES.CheckClusters(p, b, o.(risk := risk), clusters, now).Fits?
    decreases |vaults| + |clusters|
  {
    if vaults != [] {
      LessRiskFits(p, b, o, risk, vaults[1..], clusters, now);
    } else if clusters != [] {
      LessRiskFits(p, b, o, risk, vaults, clusters[1..], now);
    }
  }

  lemma {:induction false} ClusterFullSaysSo(p: ES.Policy, b: ES.Book, o: ES.Order, clusters: seq<nat>, now: nat)
    ensures var answer := ES.CheckClusters(p, b, o, clusters, now);
      answer.Full? ==> answer.reason == "cluster-cap" && answer.market.None?
    decreases |clusters|
  {
    if clusters != [] {
      ClusterFullSaysSo(p, b, o, clusters[1..], now);
    }
  }

  /** Where the caps stand in the order they are tried. */
  function Rank(reason: string): nat {
    if reason == "at-capacity" then 0 else if reason == "market-cap" then 1 else
    if reason == "cluster-cap" then 2 else 3
  }

  /** An order cut to the headroom a cap left passes every cap before that one, and passes the one
      that turned it down: what can turn it down now is a later cap, or the same kind of cap on
      another market or group. */
  lemma CutToHeadroomGetsFurther(p: ES.Policy, b: ES.Book, o: ES.Order, now: nat, risk: nat)
    requires ES.Check(p, b, o, now).Full? && 0 < risk <= ES.Check(p, b, o, now).headroom
    ensures var full := ES.Check(p, b, o, now);
      var again := ES.Check(p, b, o.(risk := risk), now);
      again.Full? ==> Rank(again.reason) >= Rank(full.reason)
                      && (again.reason == full.reason ==> full.reason in {"market-cap", "cluster-cap"})
                      && (again.reason == full.reason == "market-cap" ==> again.market != full.market)
  {
    var o' := o.(risk := risk);
    var clusters := ES.Clusters(p, o.vaults);
    FullNamesTheMarket(p, b, o, o.vaults, now);
    FullNamesTheMarket(p, b, o', o.vaults, now);
    ClusterFullSaysSo(p, b, o, clusters, now);
    ClusterFullSaysSo(p, b, o', clusters, now);
    FullLeavesLess(p, b, o, now);
    LessRiskFits(p, b, o, risk, o.vaults, clusters, now);
  }

  /** A cap only says no to more than it has left. */
  lemma FullLeavesLess(p: ES.Policy, b: ES.Book, o: ES.Order, now: nat)
    ensures ES.Check(p, b, o, now).Full? ==> ES.Check(p, b, o, now).headroom < Max(o.risk, 1)
  {
    FullNamesTheMarket(p, b, o, o.vaults, now);
    ClusterHeadroom(p, b, o, ES.Clusters(p, o.vaults), now);
  }

  lemma {:induction false} ClusterHeadroom(p: ES.Policy, b: ES.Book, o: ES.Order, clusters: seq<nat>, now: nat)
    ensures var answer := ES.CheckClusters(p, b, o, clusters, now);
      answer.Full? ==> answer.headroom < Max(o.risk, 1)
    decreases |clusters|
  {
    if clusters != [] {
      ClusterHeadroom(p, b, o, clusters[1..], now);
    }
  }

  // ------------------------------------------------------ the terms of a quote

  /** What being priced at a payout means, in the request's own terms: the edge grows with every leg
      after the first, and the payout is the most the price with that edge and the minimum premium
      allow (Pricing.QuotesPayTheMostThePriceAllows). */
  lemma PricedTerms(cfg: Config, req: Request, payout: nat)
    requires cfg.minPremiumBps > 0
    ensures
      var joint := JointProbWad(Prices(req.legs));
      var edgeBps := cfg.edgeBps + (if req.legs == [] then 0 else cfg.legEdgeBps * (|req.legs| - 1));
      var price := joint + joint * (WAD - joint) * edgeBps / (WAD * 10_000);
      PricedAt(cfg, req, payout) <==>
        (&& req.stake > 0 && 0 < joint < WAD && price < WAD
         && req.stake < payout <= MAX_U96
         && payout * price <= req.stake * WAD && payout * cfg.minPremiumBps <= req.stake * 10_000
         && (req.stake * WAD < (payout + 1) * price || req.stake * 10_000 < (payout + 1) * cfg.minPremiumBps))
  {
    var edgeBps := cfg.edgeBps + (if req.legs == [] then 0 else cfg.legEdgeBps * (|req.legs| - 1));
    assert EdgeOf(cfg, req.legs) == edgeBps;
    QuotesPayTheMostThePriceAllows(JointProbWad(Prices(req.legs)), req.stake, edgeBps, cfg.minPremiumBps, req.stake, payout);
  }

  /** A quotable request was read in full, none of its legs has settled or lacks a real price, and it
      pays strictly more than its stake would on any one of its legs alone, at the leg's fair odds. */
  lemma QuotedBeatsEveryLeg(cfg: Config, req: Request, r: Readings, payout: nat, leg: LegPrice)
    requires cfg.minPremiumBps > 0 && Quotable(cfg, req, r) && PricedAt(cfg, req, payout) && leg in req.legs
    ensures r.settled.Some? && r.booksRead && r.allowance.Some?
    ensures !leg.placeholder && leg.vault !in r.settled.value
    ensures leg.priceWad > 0 ==> req.stake * WAD < payout * leg.priceWad
  {
    var i :| 0 <= i < |req.legs| && req.legs[i] == leg;
    assert Prices(req.legs)[i] == leg.priceWad && Prices(req.legs)[i] in Prices(req.legs);
    assert Beats(payout, req.stake, leg.priceWad);
    if leg.priceWad > 0 {
      DivGalois(req.stake * WAD, leg.priceWad, payout);
    }
  }

  /** There is room for a quote exactly when what the house stands to lose on it fits beside all that
      is reserved into the allowance, beside each of its markets' risk into the market cap or, in
      play, the in-play share of it, beside each of its groups' risk into the group cap, and
      beside what the account has reserved into the account's. */
  lemma RoomTerms(p: ES.Policy, cfg: Config, b: ES.Book, req: Request, payout: nat, allowance: nat, inPlay: bool, now: nat)
    requires req.stake < payout
    ensures
      var risk := payout - req.stake;
      Room(p, cfg, b, req, payout, allowance, inPlay, now) <==>
        (&& risk + ES.ReservedGlobal(p, b, now) <= allowance
         && (forall leg <- req.legs :: MarketHolds(cfg, inPlay, risk + ES.PerMarket(p, b, leg.vault, now)))
         && (forall leg <- req.legs :: leg.vault in p.clusterOf ==>
               risk + ES.PerCluster(p, b, p.clusterOf[leg.vault], now) <= cfg.perClusterCap)
         && risk + ES.ReservedByKey(p, b, req.account, now) <= cfg.perKeyCap)
  {
    var risk := payout - req.stake;
    var o := OrderOf(cfg, req, risk, allowance, inPlay);
    EC.FitsByVaults(p, b, o, now);
    RoomByLeg(p, cfg, b, req, risk, allowance, inPlay, now);
  }

  lemma RoomByLeg(p: ES.Policy, cfg: Config, b: ES.Book, req: Request, risk: nat, allowance: nat, inPlay: bool, now: nat)
    ensures var o := OrderOf(cfg, req, risk, allowance, inPlay);
      && ((forall v <- o.vaults :: EC.RoomInMarket(p, b, o, v, now)) <==>
          (forall leg <- req.legs :: MarketHolds(cfg, inPlay, risk + ES.PerMarket(p, b, leg.vault, now))))
      && ((forall v <- o.vaults :: EC.RoomInGroupOf(p, b, o, v, now)) <==>
          (forall leg <- req.legs :: leg.vault in p.clusterOf ==>
             risk + ES.PerCluster(p, b, p.clusterOf[leg.vault], now) <= cfg.perClusterCap))
  {
    var o := OrderOf(cfg, req, risk, allowance, inPlay);
    forall leg <- req.legs
      ensures leg.vault in o.vaults
      ensures EC.RoomInMarket(p, b, o, leg.vault, now) == MarketHolds(cfg, inPlay, risk + ES.PerMarket(p, b, leg.vault, now))
    {
      var i :| 0 <= i < |req.legs| && req.legs[i] == leg;
      assert o.vaults[i] == leg.vault;
      DivGalois(cfg.perMarketCap * cfg.inPlayCapBps, BPS, risk + ES.PerMarket(p, b, leg.vault, now));
    }
    forall v <- o.vaults ensures exists leg <- req.legs :: leg.vault == v {
      var i :| 0 <= i < |o.vaults| && o.vaults[i] == v;
      assert req.legs[i] in req.legs && req.legs[i].vault == v;
    }
  }

  /** `risk` is within the cap of one market. */
  predicate MarketHolds(cfg: Config, inPlay: bool, risk: nat) {
    if inPlay then risk * 10_000 <= cfg.perMarketCap * cfg.inPlayCapBps else risk <= cfg.perMarketCap
  }

  // -------------------------------------------------------- reserve and sign

  /** The suggested stake, priced again, asks the cap that said no for no more than it has left. */
  ghost predicate FitsAfterwards(cfg: Config, req: Request, maxStake: nat, headroom: nat)
    requires cfg.minPremiumBps > 0
  {
    var again := PriceParlay(JointProbWad(Prices(req.legs)), maxStake, EdgeOf(cfg, req.legs), cfg.minPremiumBps);
    again.Priced? ==> again.maxPayout - again.premium <= headroom
  }

  lemma MarketCapShrinks(cfg: Config, inPlay: bool)
    ensures MarketCap(cfg, inPlay) <= cfg.perMarketCap
  {
    if inPlay {
      PortionWithin(cfg.inPlayCapBps, cfg.perMarketCap, BPS);
    }
  }

  lemma QuotingIsAStep(p: ES.Policy, cfg: Config, d: ES.Desk, req: Request, maxPayout: nat, allowance: nat, inPlay: bool,
      id: nat, now: nat)
    requires d.clock <= now && id !in d.phase
    ensures var order := OrderOf(cfg, req, Monus(maxPayout, req.stake), allowance, inPlay);
      var step := ES.Quote(id, order, cfg.ttlMs, now);
      && ES.Admissible(p, CapsOf(cfg), d, step)
      && ES.Next(p, d, step).book == if ES.Check(p, d.book, order, now).Full? then d.book
                                     else ES.Reserve(d.book, id, ReservationOf(cfg, req, maxPayout, now))
  {
    MarketCapShrinks(cfg, inPlay);
  }

  lemma SuggestionFits(p: ES.Policy, cfg: Config, b: ES.Book, req: Request, maxPayout: nat, order: ES.Order, now: nat)
    requires cfg.minPremiumBps > 0 && PricedAt(cfg, req, maxPayout)
    requires order.risk == maxPayout - req.stake && ES.Check(p, b, order, now).Full?
    ensures var headroom := ES.Check(p, b, order, now).headroom;
      FitsAfterwards(cfg, req, FitStake(req.stake, headroom, maxPayout - req.stake), headroom)
  {
    var headroom := ES.Check(p, b, order, now).headroom;
    FullLeavesLess(p, b, order, now);
    SuggestedStakeFits(JointProbWad(Prices(req.legs)), req.stake, EdgeOf(cfg, req.legs), cfg.minPremiumBps, headroom);
  }

  /** server.ts reserveAndSign up to the signature: one synchronous check and reserve. */
  method TryReserve(book: ExposureBook, cfg: Config, req: Request, maxPayout: nat, allowance: nat, inPlay: bool,
      id: nat, now: nat, ghost d: ES.Desk) returns (reply: Option<Reply>)
    requires book.Valid() && d.book == book.View() && book.clock <= d.clock <= now && id !in d.phase
    requires cfg.minPremiumBps > 0
    requires PricedAt(cfg, req, maxPayout)
    modifies book
    ensures book.Valid() && book.clock == now
    ensures book.View() == if reply.Some? then d.book else ES.Reserve(d.book, id, ReservationOf(cfg, req, maxPayout, now))
    ensures var step := ES.Quote(id, OrderOf(cfg, req, Monus(maxPayout, req.stake), allowance, inPlay), cfg.ttlMs, now);
      && ES.Admissible(book.policy, CapsOf(cfg), d, step)
      && book.View() == ES.Next(book.policy, d, step).book
    ensures var answer := ES.Check(book.policy, d.book, OrderOf(cfg, req, Monus(maxPayout, req.stake), allowance, inPlay), now);
      && (reply.None? <==> answer.Fits?)
      && (reply.Some? ==> reply.value == NoRoom(answer.reason, FitStake(req.stake, answer.headroom, maxPayout - req.stake))
                          && FitsAfterwards(cfg, req, reply.value.maxStake, answer.headroom))
  {
    QuotingIsAStep(book.policy, cfg, d, req, maxPayout, allowance, inPlay, id, now);
    var risk := maxPayout - req.stake;
    var order := OrderOf(cfg, req, risk, allowance, inPlay);
    var answer := book.Check(order, now);
    if answer.Full? {
      SuggestionFits(book.policy, cfg, d.book, req, maxPayout, order, now);
      return Some(NoRoom(answer.reason, FitStake(req.stake, answer.headroom, risk)));
    }
    book.Reserve(id, risk, Vaults(req.legs), now + cfg.ttlMs, req.account);
    return None;
  }

  /** What follows the signature or the journal: the reply, or the reservation is given back. */
  method Conclude(book: ExposureBook, cfg: Config, req: Request, maxPayout: nat, id: nat, signed: bool, journalled: bool,
      ghost d: ES.Desk) returns (reply: Reply)
    requires book.Valid() && d.book == book.View() && id in d.phase && d.phase[id].Reserved?
    modifies book`reservations, book`all
    ensures book.Valid()
    ensures reply == if signed && journalled then Ok(id, req.stake, maxPayout)
                     else Error(503, if signed then "journal-failed" else "sign-failed")
    ensures book.View() == if signed && journalled then d.book else ES.Release(d.book, id)
    ensures var step := if signed && journalled then ES.Replies(id) else ES.SignOrJournalFails(id);
      && ES.Admissible(book.policy, CapsOf(cfg), d, step)
      && book.View() == ES.Next(book.policy, d, step).book
  {
    if !signed {
      book.Release(id);
      return Error(503, "sign-failed");
    }
    if !journalled {
      book.Release(id);
      return Error(503, "journal-failed");
    }
    return Ok(id, req.stake, maxPayout);
  }

  lemma GivenBack(b: ES.Book, id: nat, r: ES.Reservation)
    requires id !in b.reservations
    ensures ES.Release(ES.Reserve(b, id, r), id) == b
  {
    assert b.reservations[id := r] - {id} == b.reservations;
  }

  /** No cap stands against the quote. */
  ghost predicate Room(p: ES.Policy, cfg: Config, b: ES.Book, req: Request, maxPayout: nat, allowance: nat, inPlay: bool, now: nat) {
    ES.Check(p, b, OrderOf(cfg, req, Monus(maxPayout, req.stake), allowance, inPlay), now).Fits?
  }

  /** Reserve, sign, journal, with nothing in between: unless it all succeeds the book counts just
      what it did before, and if it does it counts the quote too. */
  method ReserveAndSign(book: ExposureBook, cfg: Config, req: Request, maxPayout: nat, allowance: nat, inPlay: bool,
      id: nat, now: nat, signed: bool, journalled: bool, ghost d: ES.Desk) returns (reply: Reply)
    requires book.Valid() && d.book == book.View() && book.clock <= d.clock <= now && id !in d.phase && ES.AccountedFor(d, id)
    requires cfg.minPremiumBps > 0
    requires PricedAt(cfg, req, maxPayout)
    modifies book
    ensures book.Valid()
    ensures !reply.Ok? ==> book.View() == old(book.View())
    ensures reply.Ok? <==> Room(book.policy, cfg, d.book, req, maxPayout, allowance, inPlay, now) && signed && journalled
    ensures reply.Ok? ==>
      && reply == Ok(id, req.stake, maxPayout)
      && book.View() == ES.Reserve(old(book.View()), id, ReservationOf(cfg, req, maxPayout, now))
  {
    var noRoom := TryReserve(book, cfg, req, maxPayout, allowance, inPlay, id, now, d);
    if noRoom.Some? {
      return noRoom.value;
    }
    ghost var r := ReservationOf(cfg, req, maxPayout, now);
    GivenBack(d.book, id, r);
    ghost var reserved := ES.Desk(book.View(), now, d.terms[id := r], d.phase[id := ES.Reserved]);
    reply := Conclude(book, cfg, req, maxPayout, id, signed, journalled, reserved);
  }

  /** One request from start to reply. `gate` is the reply of an earlier check that turned it away:
      readiness, rate limit, admission, validation. Whatever goes wrong, only a 200 leaves a
      reservation; and a request that comes through, can be quoted, has room and is signed and
      journalled does get its quote. */
  method HandleQuote(book: ExposureBook, cfg: Config, gate: Option<Reply>, req: Request, r: Readings, inPlay: bool,
      id: nat, now: nat, signed: bool, journalled: bool, ghost d: ES.Desk) returns (reply: Reply)
    requires book.Valid() && d.book == book.View() && book.clock <= d.clock <= now && id !in d.phase && ES.Accounted(d)
    requires cfg.minPremiumBps > 0 && (gate.Some? ==> gate.value.Error?)
    modifies book
    ensures book.Valid()
    ensures !reply.Ok? ==> book.View() == old(book.View())
    ensures gate.Some? ==> reply == gate.value
    ensures gate.None? && Refusal(cfg, req, r).Some? ==> Some(reply) == Refusal(cfg, req, r)
    ensures forall m :: gate.None? && Quotable(cfg, req, r) && PricedAt(cfg, req, m) ==>
      (reply.Ok? <==> Room(book.policy, cfg, d.book, req, m, r.allowance.value, inPlay, now) && signed && journalled)
    ensures reply.Ok? ==>
      && Quotable(cfg, req, r) && PricedAt(cfg, req, reply.maxPayout)
      && reply.quoteId == id && reply.premium == req.stake
      && book.View() == old(book.View()).(reservations := old(book.View()).reservations[
           id := ES.Reservation(reply.maxPayout - req.stake, Vaults(req.legs), now + cfg.ttlMs, req.account)])
  {
    if gate.Some? {
      return gate.value;
    }
    var refusal, maxPayout := Price(cfg, req, r);
    if refusal.Some? {
      return refusal.value;
    }
    assert ES.AccountedFor(d, id);
    reply := ReserveAndSign(book, cfg, req, maxPayout, r.allowance.value, inPlay, id, now, signed, journalled, d);
  }
}
