/** The writer's exposure book as a value, and the life of quotes around it. Here reservations are
    never pruned, only filtered by the clock; the class in ExposureBook prunes lazily and is proved
    to answer the same. */
module ExposureState {
  import opened Prelude
  import opened Sums

  /** `quotaKey` is the account the reservation counts against. */
  datatype Reservation = Reservation(risk: nat, vaults: seq<Address>, expiresAt: nat, quotaKey: nat)

  datatype OpenParlay = OpenParlay(risk: nat, vaults: seq<Address>)

  datatype Book = Book(reservations: map<nat, Reservation>, open: map<nat, OpenParlay>)

  /** Exposure group of each vault that is in one, and how long past its expiry a reservation
      still counts. */
  datatype Policy = Policy(clusterOf: map<Address, nat>, graceMs: nat)

  predicate IsActive(p: Policy, r: Reservation, now: nat) {
    now < r.expiresAt + p.graceMs
  }

  /** The reservations that count at `now`. */
  function Active(p: Policy, rs: map<nat, Reservation>, now: nat): map<nat, Reservation> {
    map id | id in rs && IsActive(p, rs[id], now) :: rs[id]
  }

  // ------------------------------------------------------------------- sums

  predicate Touches(vaults: seq<Address>, v: Address) {
    v in vaults
  }

  predicate InCluster(p: Policy, vaults: seq<Address>, c: nat) {
    exists v <- vaults :: v in p.clusterOf && p.clusterOf[v] == c
  }

  function AllRisk(): Reservation -> nat {
    (r: Reservation) => r.risk
  }

  function MarketRisk(v: Address): Reservation -> nat {
    (r: Reservation) => if Touches(r.vaults, v) then r.risk else 0
  }

  function MarketOpenRisk(v: Address): OpenParlay -> nat {
    (o: OpenParlay) => if Touches(o.vaults, v) then o.risk else 0
  }

  function ClusterRisk(p: Policy, c: nat): Reservation -> nat {
    (r: Reservation) => if InCluster(p, r.vaults, c) then r.risk else 0
  }

  function ClusterOpenRisk(p: Policy, c: nat): OpenParlay -> nat {
    (o: OpenParlay) => if InCluster(p, o.vaults, c) then o.risk else 0
  }

  function KeyRisk(key: nat): Reservation -> nat {
    (r: Reservation) => if r.quotaKey == key then r.risk else 0
  }

  ghost function ReservedGlobal(p: Policy, b: Book, now: nat): nat {
    Sum(Active(p, b.reservations, now), AllRisk())
  }

  ghost function PerMarket(p: Policy, b: Book, v: Address, now: nat): nat {
    Sum(Active(p, b.reservations, now), MarketRisk(v)) + Sum(b.open, MarketOpenRisk(v))
  }

  ghost function PerCluster(p: Policy, b: Book, c: nat, now: nat): nat {
    Sum(Active(p, b.reservations, now), ClusterRisk(p, c)) + Sum(b.open, ClusterOpenRisk(p, c))
  }

  ghost function ReservedByKey(p: Policy, b: Book, key: nat, now: nat): nat {
    Sum(Active(p, b.reservations, now), KeyRisk(key))
  }

  // ------------------------------------------------------------------ check

  datatype Order = Order(risk: nat, vaults: seq<Address>, quotaKey: nat,
                         allowance: nat, perMarketCap: nat, perClusterCap: nat, perKeyCap: nat)

  datatype Answer = Fits | Full(reason: string, headroom: nat, market: Option<Address>)

  /** The groups a ticket touches, in the order its vaults name them, each once. */
  function Clusters(p: Policy, vaults: seq<Address>): seq<nat>
    decreases |vaults|
  {
    if vaults == [] then [] else
    var n := |vaults| - 1;
    var init := Clusters(p, vaults[..n]);
    if vaults[n] in p.clusterOf && p.clusterOf[vaults[n]] !in init then init + [p.clusterOf[vaults[n]]] else init
  }

  ghost function CheckMarkets(p: Policy, b: Book, o: Order, vaults: seq<Address>, now: nat): Answer
    decreases |vaults|
  {
    if vaults == [] then Fits else
    var used := PerMarket(p, b, vaults[0], now);
    if o.risk + used > o.perMarketCap then Full("market-cap", Monus(o.perMarketCap, used), Some(vaults[0])) else
    CheckMarkets(p, b, o, vaults[1..], now)
  }

  ghost function CheckClusters(p: Policy, b: Book, o: Order, clusters: seq<nat>, now: nat): Answer
    decreases |clusters|
  {
    if clusters == [] then Fits else
    var used := PerCluster(p, b, clusters[0], now);
    if o.risk + used > o.perClusterCap then Full("cluster-cap", Monus(o.perClusterCap, used), None) else
    CheckClusters(p, b, o, clusters[1..], now)
  }

  /** exposure.ts check. The caps are tried in order; the first without room answers. */
  ghost function Check(p: Policy, b: Book, o: Order, now: nat): Answer {
    var reserved := ReservedGlobal(p, b, now);
    if o.risk + reserved > o.allowance then Full("at-capacity", Monus(o.allowance, reserved), None) else
    var markets := CheckMarkets(p, b, o, o.vaults, now);
    if markets.Full? then markets else
    var clusters := CheckClusters(p, b, o, Clusters(p, o.vaults), now);
    if clusters.Full? then clusters else
    var used := ReservedByKey(p, b, o.quotaKey, now);
    if o.risk + used > o.perKeyCap then Full("quota-cap", Monus(o.perKeyCap, used), None) else
    Fits
  }

  lemma {:induction false} ClustersComplete(p: Policy, vaults: seq<Address>, c: nat)
    ensures c in Clusters(p, vaults) <==> InCluster(p, vaults, c)
    decreases |vaults|
  {
    if vaults != [] {
      var n := |vaults| - 1;
      assert vaults == vaults[..n] + [vaults[n]];
      ClustersComplete(p, vaults[..n], c);
    }
  }

  lemma {:induction false} MarketsFit(p: Policy, b: Book, o: Order, vaults: seq<Address>, now: nat, v: Address)
    requires CheckMarkets(p, b, o, vaults, now).Fits? && v in vaults
    ensures o.risk + PerMarket(p, b, v, now) <= o.perMarketCap
    decreases |vaults|
  {
    if v != vaults[0] {
      MarketsFit(p, b, o, vaults[1..], now, v);
    }
  }

  lemma {:induction false} ClustersFit(p: Policy, b: Book, o: Order, clusters: seq<nat>, now: nat, c: nat)
    requires CheckClusters(p, b, o, clusters, now).Fits? && c in clusters
    ensures o.risk + PerCluster(p, b, c, now) <= o.perClusterCap
    decreases |clusters|
  {
    if c != clusters[0] {
      ClustersFit(p, b, o, clusters[1..], now, c);
    }
  }

  // ---------------------------------------------------------------- updates

  function Reserve(b: Book, id: nat, r: Reservation): Book {
    b.(reservations := b.reservations[id := r])
  }

  function Release(b: Book, id: nat): Book {
    b.(reservations := b.reservations - {id})
  }

  function OnMinted(b: Book, id: nat, parlayId: nat, risk: nat, vaults: seq<Address>): Book {
    Book(b.reservations - {id}, b.open[parlayId := OpenParlay(risk, vaults)])
  }

  function OnResolved(b: Book, parlayId: nat): Book {
    b.(open := b.open - {parlayId})
  }

  // ------------------------------------------------- the life of the quotes

  /** A quote is reserved while it is being signed and journalled; then it is issued with a 200
      reply, or refused; an issued one may be minted, and its parlay resolved. */
  datatype Phase = Reserved | Issued | Refused | MintedAs(parlayId: nat) | ResolvedAs(parlayId: nat)

  datatype Caps = Caps(perMarket: nat, perCluster: nat, perKey: nat)

  /** `terms` are the reservations as they were made, by quote id. */
  datatype Desk = Desk(book: Book, clock: nat, terms: map<nat, Reservation>, phase: map<nat, Phase>)

  datatype Step =
    | Quote(id: nat, order: Order, ttlMs: nat, now: nat)
    | SignOrJournalFails(id: nat)
    | Replies(id: nat)
    | MintSeen(id: nat, parlayId: nat, risk: nat, vaults: seq<Address>, now: nat)
    | ResolveSeen(parlayId: nat)
    | TimePasses(now: nat)

  /** The mint of an issued quote, on its terms, seen while its reservation counts. */
  predicate FirstSight(p: Policy, d: Desk, id: nat, parlayId: nat, o: OpenParlay, now: nat) {
    && id in d.phase && d.phase[id].Issued? && id in d.terms && IsActive(p, d.terms[id], now)
    && o == OpenParlay(d.terms[id].risk, d.terms[id].vaults)
    && parlayId !in d.book.open && (forall j :: j in d.phase ==> d.phase[j] != ResolvedAs(parlayId))
  }

  /** A mint delivered again, after a tick that failed half way or of a ticket the seed found: the
      parlay counts already, on the same terms. */
  predicate SeenBefore(d: Desk, id: nat, parlayId: nat, o: OpenParlay) {
    parlayId in d.book.open && d.book.open[parlayId] == o && id !in d.book.reservations
  }

  predicate Sighted(p: Policy, d: Desk, id: nat, parlayId: nat, o: OpenParlay, now: nat) {
    FirstSight(p, d, id, parlayId, o, now) || SeenBefore(d, id, parlayId, o)
  }

  /** What the environment guarantees: a monotone clock, fresh ids, configured caps (a market cap
      only ever shrunk, as it is in play), and mints seen while they count, or seen again. */
  predicate Admissible(p: Policy, caps: Caps, d: Desk, step: Step) {
    match step
    case Quote(id, o, _, now) =>
      d.clock <= now && id !in d.phase && o.perMarketCap <= caps.perMarket
      && o.perClusterCap <= caps.perCluster && o.perKeyCap <= caps.perKey
    case SignOrJournalFails(id) => id in d.phase && d.phase[id].Reserved?
    case Replies(id) => id in d.phase && d.phase[id].Reserved?
    case MintSeen(id, parlayId, risk, vaults, now) =>
      d.clock <= now && Sighted(p, d, id, parlayId, OpenParlay(risk, vaults), now)
    case ResolveSeen(_) => true
    case TimePasses(now) => d.clock <= now
  }

  function MarkResolved(phase: map<nat, Phase>, parlayId: nat): map<nat, Phase> {
    map id | id in phase :: if phase[id] == MintedAs(parlayId) then ResolvedAs(parlayId) else phase[id]
  }

  ghost function Next(p: Policy, d: Desk, step: Step): Desk {
    match step
    case Quote(id, o, ttlMs, now) =>
      if Check(p, d.book, o, now).Fits? then
        var r := Reservation(o.risk, o.vaults, now + ttlMs, o.quotaKey);
        Desk(Reserve(d.book, id, r), now, d.terms[id := r], d.phase[id := Reserved])
      else d.(clock := now, phase := d.phase[id := Refused])
    case SignOrJournalFails(id) => d.(book := Release(d.book, id), phase := d.phase[id := Refused])
    case Replies(id) => d.(phase := d.phase[id := Issued])
    case MintSeen(id, parlayId, risk, vaults, now) =>
      d.(book := OnMinted(d.book, id, parlayId, risk, vaults), clock := now,
         phase := if id in d.phase && d.phase[id].Issued? then d.phase[id := MintedAs(parlayId)] else d.phase)
    case ResolveSeen(parlayId) =>
      d.(book := OnResolved(d.book, parlayId), phase := MarkResolved(d.phase, parlayId))
    case TimePasses(now) => d.(clock := now)
  }

  ghost function Run(p: Policy, d: Desk, steps: seq<Step>): Desk
    decreases |steps|
  {
    if steps == [] then d else Run(p, Next(p, d, steps[0]), steps[1..])
  }

  ghost predicate AdmissibleRun(p: Policy, caps: Caps, d: Desk, steps: seq<Step>)
    decreases |steps|
  {
    steps == [] || (Admissible(p, caps, d, steps[0]) && AdmissibleRun(p, caps, Next(p, d, steps[0]), steps[1..]))
  }

  ghost predicate WithinCaps(p: Policy, caps: Caps, d: Desk) {
    && (forall v :: PerMarket(p, d.book, v, d.clock) <= caps.perMarket)
    && (forall c :: PerCluster(p, d.book, c, d.clock) <= caps.perCluster)
    && (forall k :: ReservedByKey(p, d.book, k, d.clock) <= caps.perKey)
  }

  /** A quote is where its phase says, on the terms it was reserved on; a reservation that is
      nobody's does not exist. */
  predicate AccountedFor(d: Desk, id: nat) {
    if id !in d.phase then id !in d.book.reservations else
    match d.phase[id]
    case Reserved => id in d.terms && id in d.book.reservations && d.book.reservations[id] == d.terms[id]
    case Issued => id in d.terms && id in d.book.reservations && d.book.reservations[id] == d.terms[id]
    case Refused => id !in d.book.reservations
    case MintedAs(parlayId) =>
      id in d.terms && id !in d.book.reservations && parlayId in d.book.open
      && d.book.open[parlayId] == OpenParlay(d.terms[id].risk, d.terms[id].vaults)
    case ResolvedAs(_) => id !in d.book.reservations
  }

  ghost predicate Accounted(d: Desk) {
    forall id :: AccountedFor(d, id)
  }
}
