/** The token service as calls that interleave at their accesses to the shared key-value store.

    Times are nanoseconds of one clock that never goes back; expiry claims are whole seconds. A
    signature only verifies on what the service minted, so clients can present no other token. The
    fields of `State` after `calls` are history: the service never reads them, except that
    signing puts the payload of a minted pair into its tokens. */
module TokenProtocol {
  import opened Wrappers

  type User = nat
  type Device = nat
  type CallId = nat
  type PairId = nat

  const SECOND: nat := 1_000_000_000

  datatype Kind = Access | Refresh

  /** The claims of a token. The key ids `<id>` and `refresh_<id>` differ by kind. */
  datatype Token = Token(kind: Kind, id: PairId, user: User, device: Option<Device>, issuedNs: nat, exp: nat)

  datatype Jti = Jti(kind: Kind, id: PairId)

  /** A minted pair with its place in history: the login call it goes back to, the number of
      rotations since, and the pair it replaces. */
  datatype Pair = Pair(user: User, device: Option<Device>, issuedNs: nat, accessExp: nat, refreshExp: nat,
                       family: CallId, generation: nat, parent: Option<PairId>)
  {
    function Signed(kind: Kind, id: PairId): Token {
      Token(kind, id, user, device, issuedNs, if kind == Access then accessExp else refreshExp)
    }
  }

  /** A refresh record in the store, with the time at which the store drops it. */
  datatype Record = Record(user: User, expires: nat)

  /** The SCAN loop of one user-wide revocation. `queue` is the rest of the current batch. The live
      keys at the start and the keys returned so far describe what SCAN owes its caller. */
  datatype Scan = Scan(user: User, marker: nat, atStart: set<PairId>, covered: set<PairId>,
                       queue: seq<PairId>, deleted: set<PairId>, count: nat)

  /** What a validation is for: a caller with an expected kind, or a rotation. */
  datatype Goal = ForCaller(expected: Kind, verify: bool) | ForRotation(device: Option<Device>)

  datatype Outcome =
    | Unavailable
    | Refused(token: Token)
    | Accepted(token: Token, verified: bool)
    | Issued(id: PairId)
    | Revoked(token: Token, ok: bool)
    | RevokedAll(scan: Scan)

  /** A call in progress, named after the access it makes next. */
  datatype Call =
    | Decoding(token: Token, goal: Goal)
    | CheckingBlacklist(token: Token, goal: Goal)
    | CheckingMarker(token: Token, goal: Goal)
    | Consuming(token: Token, device: Option<Device>)
    | Minting(user: User, device: Option<Device>, family: CallId, generation: nat, parent: Option<PairId>)
    | Storing(id: PairId)
    | ReadingExpiry(token: Token)
    | Blacklisting(token: Token, ttl: nat)
    | DeletingRecord(token: Token)
    | ReadingBoundary(user: User)
    | MarkingUser(user: User, marker: nat)
    | Scanning(scan: Scan)
    | DeletingScanned(scan: Scan)
    | Done(outcome: Outcome)

  datatype Config = Config(accessSeconds: nat, refreshSeconds: nat)

  datatype State = State(
    config: Config, clock: nat, refresh: map<PairId, Record>, blacklist: map<Jti, nat>, markers: map<User, nat>,
    calls: map<CallId, Call>,
    minted: map<PairId, Pair>, stored: set<PairId>, returned: set<Token>)
  {
    predicate Live(id: PairId) {
      id in refresh && clock < refresh[id].expires
    }

    predicate Blacklisted(t: Token) {
      Jti(t.kind, t.id) in blacklist && clock < blacklist[Jti(t.kind, t.id)]
    }

    /** The user-wide boundary check on a token. */
    predicate PastBoundary(t: Token) {
      t.user in markers && t.issuedNs <= markers[t.user]
    }

    function To(p: CallId, c: Call): State {
      this.(calls := calls[p := c])
    }

    function LiveIds(): set<PairId> {
      set id | id in refresh && Live(id)
    }
  }

  datatype Request =
    | Login(user: User, device: Option<Device>)
    | Validate(token: Token, expected: Kind, verify: bool)
    | Rotate(token: Token, device: Option<Device>)
    | Revoke(token: Token)
    | RevokeAll(user: User)

  /** What the store, the random id generator and the clock decide for one access. A failing access
      may still have been applied. */
  datatype Choice =
    | Proceed | Fails(applied: bool) | MintAs(id: PairId, created: nat) | Batch(keys: seq<PairId>) | ScanEnds

  datatype Event = Tick(ns: nat) | Start(call: CallId, request: Request) | Go(call: CallId, choice: Choice)

  /** What one access changes in the store, in the set of minted pairs, or in what clients hold. */
  datatype Effect =
    | Nothing
    | Drop(id: PairId)
    | Blacklist(token: Token, ttl: nat)
    | Mark(user: User, marker: nat)
    | Mint(id: PairId, pair: Pair)
    | Store(id: PairId, handOut: bool)

  /** Whole seconds left until `exp`, rounded down as `int(ttl)` does. */
  function SecondsLeft(exp: nat, clock: nat): nat {
    if exp * SECOND <= clock then 0 else (exp * SECOND - clock) / SECOND
  }

  /** The call that a request starts. Clients can present only tokens they were handed. */
  function Begin(s: State, p: CallId, r: Request): Option<Call> {
    match r
    case Login(u, d) => Some(Minting(u, d, p, 0, None))
    case Validate(t, k, v) => if t in s.returned then Some(Decoding(t, ForCaller(k, v))) else None
    case Rotate(t, d) => if t in s.returned then Some(Decoding(t, ForRotation(d))) else None
    case Revoke(t) => if t in s.returned then Some(ReadingExpiry(t)) else None
    case RevokeAll(u) => Some(ReadingBoundary(u))
  }

  /** Decoding and the local checks of `validate_token`. */
  function DecodeStep(s: State, c: Call): Call
    requires c.Decoding?
  {
    var t := c.token;
    if s.clock >= t.exp * SECOND then Done(Refused(t))
    else match c.goal
      case ForCaller(expected, verify) =>
        if t.kind != expected then Done(Refused(t))
        else if verify then CheckingBlacklist(t, c.goal)
        else Done(Accepted(t, false))
      case ForRotation(_) =>
        if t.kind != Refresh then Done(Refused(t)) else CheckingBlacklist(t, c.goal)
  }

  /** The blacklist check and the boundary check of `validate_token`, then the device check of
      `refresh_tokens`. */
  function CheckStep(s: State, c: Call): Call
    requires c.CheckingBlacklist? || c.CheckingMarker?
  {
    var t := c.token;
    if c.CheckingBlacklist? then
      if s.Blacklisted(t) then Done(Refused(t)) else CheckingMarker(t, c.goal)
    else if s.PastBoundary(t) then Done(Refused(t))
    else match c.goal
      case ForCaller(_, _) => Done(Accepted(t, true))
      case ForRotation(d) => if d.Some? && t.device != d then Done(Refused(t)) else Consuming(t, d)
  }

  /** GETDEL: whoever gets the record mints its family's next pair. */
  function ConsumeStep(s: State, c: Call): (Call, Effect)
    requires c.Consuming?
  {
    var t := c.token;
    if s.Live(t.id) && t.id in s.minted then
      var rotated := s.minted[t.id];
      var device := if c.device.Some? then c.device else t.device;
      (Minting(t.user, device, rotated.family, rotated.generation + 1, Some(t.id)), Drop(t.id))
    else (Done(Refused(t)), Nothing)
  }

  /** `int(ttl)` whole seconds of blacklisting, from the clock read before the access. SETEX refuses
      a lifetime of zero seconds, and the call reports failure. */
  function RevokeStep(s: State, c: Call): (Call, Effect)
    requires c.ReadingExpiry? || c.Blacklisting? || c.DeletingRecord?
  {
    var t := c.token;
    match c
    case ReadingExpiry(_) => (Blacklisting(t, SecondsLeft(t.exp, s.clock)), Nothing)
    case Blacklisting(_, ttl) =>
      if ttl == 0 then (Done(Revoked(t, false)), Nothing)
      else (if t.kind == Refresh then DeletingRecord(t) else Done(Revoked(t, true)), Blacklist(t, ttl))
    case DeletingRecord(_) => (Done(Revoked(t, true)), Drop(t.id))
  }

  /** The SCAN loop. SCAN may return any keys, repeated or gone, but it may end only when every key
      that has been live throughout was returned. */
  function ScanStep(s: State, c: Call, choice: Choice): (Call, Effect)
    requires c.Scanning?
  {
    var scan := c.scan;
    if scan.queue == [] then
      match choice
      case Batch(keys) => (Scanning(scan.(queue := keys, covered := scan.covered + set k | k in keys)), Nothing)
      case ScanEnds =>
        if forall id :: id in scan.atStart && s.Live(id) ==> id in scan.covered
        then (Done(RevokedAll(scan)), Nothing) else (c, Nothing)
      case _ => (c, Nothing)
    else if choice.Proceed? then
      var id := scan.queue[0];
      if s.Live(id) && s.refresh[id].user == scan.user then (DeletingScanned(scan), Nothing)
      else (Scanning(scan.(queue := scan.queue[1..])), Nothing)
    else (c, Nothing)
  }

  /** The next access of call `c` when the store answers: the rest of the call and what changes. */
  function Proceeding(s: State, c: Call, choice: Choice): (Call, Effect) {
    match c
    case Decoding(_, _) => (DecodeStep(s, c), Nothing)
    case CheckingBlacklist(_, _) => (CheckStep(s, c), Nothing)
    case CheckingMarker(_, _) => (CheckStep(s, c), Nothing)
    case Consuming(_, _) => ConsumeStep(s, c)
    case Minting(u, d, family, generation, parent) =>
      if choice.MintAs? && choice.id !in s.minted && choice.created <= s.clock then
        var created := choice.created / SECOND;
        (Storing(choice.id),
         Mint(choice.id, Pair(u, d, s.clock, created + s.config.accessSeconds, created + s.config.refreshSeconds,
                              family, generation, parent)))
      else (c, Nothing)
    case Storing(id) => (Done(Issued(id)), Store(id, true))
    case ReadingExpiry(_) => RevokeStep(s, c)
    case Blacklisting(_, _) => RevokeStep(s, c)
    case DeletingRecord(_) => RevokeStep(s, c)
    case ReadingBoundary(u) => (MarkingUser(u, s.clock), Nothing)
    case MarkingUser(u, m) => (Scanning(Scan(u, m, s.LiveIds(), {}, [], {}, 0)), Mark(u, m))
    case Scanning(_) => ScanStep(s, c, choice)
    case DeletingScanned(scan) =>
      if scan.queue == [] then (c, Nothing)
      else
        (Scanning(scan.(queue := scan.queue[1..], deleted := scan.deleted + {scan.queue[0]}, count := scan.count + 1)),
         Drop(scan.queue[0]))
    case Done(_) => (c, Nothing)
  }

  /** The store raises: `revoke_token` reports failure, every other call raises in turn. A write
      that raised may have been applied. Decoding and minting touch no store. */
  function Failing(c: Call, applied: bool): (Call, Effect) {
    match c
    case Decoding(_, _) => (c, Nothing)
    case Minting(_, _, _, _, _) => (c, Nothing)
    case ReadingExpiry(_) => (c, Nothing)
    case ReadingBoundary(_) => (c, Nothing)
    case Done(_) => (c, Nothing)
    case Consuming(t, _) => (Done(Unavailable), if applied then Drop(t.id) else Nothing)
    case Storing(id) => (Done(Unavailable), if applied then Store(id, false) else Nothing)
    case Blacklisting(t, ttl) => (Done(Revoked(t, false)), if applied then Blacklist(t, ttl) else Nothing)
    case DeletingRecord(t) => (Done(Revoked(t, false)), if applied then Drop(t.id) else Nothing)
    case MarkingUser(u, m) => (Done(Unavailable), if applied then Mark(u, m) else Nothing)
    case DeletingScanned(scan) =>
      (Done(Unavailable), if applied && scan.queue != [] then Drop(scan.queue[0]) else Nothing)
    case _ => (Done(Unavailable), Nothing)
  }

  function Advance(s: State, c: Call, choice: Choice): (Call, Effect) {
    if choice.Fails? then Failing(c, choice.applied) else Proceeding(s, c, choice)
  }

  function Apply(s: State, e: Effect): State {
    match e
    case Nothing => s
    case Drop(id) => s.(refresh := s.refresh - {id})
    case Blacklist(t, ttl) => s.(blacklist := s.blacklist[Jti(t.kind, t.id) := s.clock + ttl * SECOND])
    case Mark(u, m) => s.(markers := s.markers[u := m])
    case Mint(id, pair) => s.(minted := s.minted[id := pair])
    case Store(id, handOut) =>
      if id !in s.minted then s
      else
        var pair := s.minted[id];
        s.(refresh := s.refresh[id := Record(pair.user, s.clock + s.config.refreshSeconds * SECOND)],
           stored := s.stored + {id},
           returned := if handOut then s.returned + {pair.Signed(Access, id), pair.Signed(Refresh, id)} else s.returned)
  }

  /** One event. An event that is not possible now leaves the state as it is. */
  function Step(s: State, e: Event): State {
    match e
    case Tick(ns) => s.(clock := s.clock + ns)
    case Start(p, r) =>
      if p !in s.calls && Begin(s, p, r).Some? then s.To(p, Begin(s, p, r).value) else s
    case Go(p, choice) =>
      if p in s.calls then
        var (c, effect) := Advance(s, s.calls[p], choice);
        Apply(s, effect).To(p, c)
      else s
  }

  function Initial(config: Config): State {
    State(config, 0, map[], map[], map[], map[], map[], {}, {})
  }

  function Exec(s: State, es: seq<Event>): State {
    if es == [] then s else Step(Exec(s, es[..|es| - 1]), es[|es| - 1])
  }

  /** Some interleaving leads to `s`. */
  ghost predicate Reachable(s: State) {
    exists config, es :: s == Exec(Initial(config), es)
  }
}
