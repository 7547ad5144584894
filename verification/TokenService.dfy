/** The token service as the imperative object it is: methods over the store, each run from start to
    end without interleaving. Every access is also an event of the protocol, so whatever holds of
    every reachable protocol state holds of this object. */
module TokenService {
  import opened Wrappers
  import opened TokenProtocol
  import opened TokenInvariants
  import opened TokenRuns
  import opened TokenRevocation
  import opened TokenAcceptance

  class JwtService {
    const config: Config
    var clock: nat
    var refresh: map<PairId, Record>
    var blacklist: map<Jti, nat>
    var markers: map<User, nat>
    /** The protocol state this object is in. */
    ghost var history: State

    constructor (config: Config)
      ensures Valid() && this.config == config && history == Initial(config)
    {
      this.config := config;
      clock, refresh, blacklist, markers := 0, map[], map[], map[];
      history := Initial(config);
      new;
      LeadsReflexive(Initial(config));
    }

    ghost predicate Matches(s: State)
      reads this
    {
      s.config == config && s.clock == clock && s.refresh == refresh && s.blacklist == blacklist && s.markers == markers
    }

    /** The object is in a reachable protocol state. */
    ghost predicate Valid()
      reads this
    {
      Leads(Initial(config), history) && Matches(history)
    }

    /** The protocol takes the accesses that the object has made. */
    ghost method Happen(next: State)
      requires Leads(Initial(config), history) && Leads(history, next)
      modifies `history
      ensures Leads(Initial(config), history) && history == next
    {
      LeadsTransitive(Initial(config), history, next);
      history := next;
    }

    /** Time passes between calls. */
    method Wait(ns: nat)
      requires Valid()
      modifies this
      ensures Valid() && clock == old(clock) + ns && history == old(history).(clock := clock)
      ensures refresh == old(refresh) && blacklist == old(blacklist) && markers == old(markers)
    {
      StepLeads(history, Tick(ns));
      Happen(Step(history, Tick(ns)));
      clock := clock + ns;
    }

    /** Mints and stores a pair for call `p`, which is a login or past its GETDEL. */
    method GenerateTokenPair(user: User, device: Option<Device>, id: PairId, created: nat, ghost p: CallId)
      returns (access: Token, refreshToken: Token)
      requires Valid() && p in history.calls && id !in history.minted && created <= clock
      requires var c := history.calls[p]; c.Minting? && c.user == user && c.device == device
      modifies this
      ensures Valid() && Leads(old(history), history)
      ensures Mints(old(history), history, p, MintedPair(old(history), old(history).calls[p], created), id)
      ensures clock == old(clock) && blacklist == old(blacklist) && markers == old(markers)
      ensures refresh == old(refresh)[id := Record(user, clock + config.refreshSeconds * SECOND)]
      ensures access == Token(Access, id, user, device, clock, created / SECOND + config.accessSeconds)
      ensures refreshToken == Token(Refresh, id, user, device, clock, created / SECOND + config.refreshSeconds)
      ensures access in history.returned && refreshToken in history.returned
    {
      ghost var next := MintRun(history, p, history.calls[p], id, created);
      access := Token(Access, id, user, device, clock, created / SECOND + config.accessSeconds);
      refreshToken := Token(Refresh, id, user, device, clock, created / SECOND + config.refreshSeconds);
      Happen(next);
      refresh := refresh[id := Record(user, clock + config.refreshSeconds * SECOND)];
    }

    /** The checks of `validate_token`, in order. */
    method Check(t: Token, expected: Kind, verify: bool) returns (ok: bool)
      requires Valid()
      ensures ok <==> Passes(history, t, expected, verify)
    {
      if clock >= t.exp * SECOND { return false; }
      if t.kind != expected { return false; }
      if verify {
        var jti := Jti(t.kind, t.id);
        if jti in blacklist && clock < blacklist[jti] { return false; }
        if t.user in markers && t.issuedNs <= markers[t.user] { return false; }
      }
      ok := true;
    }

    /** Accepts exactly the unexpired tokens of the expected kind that are neither on the blacklist
        nor behind their user's marker, and changes nothing in the store. */
    method ValidateToken(t: Token, expected: Kind, verify: bool, ghost p: CallId) returns (ok: bool)
      requires Valid() && p !in history.calls && t in history.returned
      modifies `history
      ensures Valid() && Leads(old(history), history)
      ensures ok <==> Passes(old(history), t, expected, verify)
      ensures ok <==> && clock < t.exp * SECOND && t.kind == expected
                      && (verify ==>
                            && (Jti(t.kind, t.id) in blacklist ==> blacklist[Jti(t.kind, t.id)] <= clock)
                            && (t.user in markers ==> markers[t.user] < t.issuedNs))
      ensures history == old(history).To(p, Done(if ok then Accepted(t, verify) else Refused(t)))
    {
      ok := Check(t, expected, verify);
      ghost var next := ValidateRun(history, p, t, expected, verify);
      Happen(next);
    }

    /** What the store must hold for a refresh with `t` to go through. */
    predicate Redeemable(t: Token, device: Option<Device>)
      reads this
    {
      && clock < t.exp * SECOND && t.kind == Refresh
      && (Jti(Refresh, t.id) in blacklist ==> blacklist[Jti(Refresh, t.id)] <= clock)
      && (t.user in markers ==> markers[t.user] < t.issuedNs)
      && (device == None || device == t.device)
      && t.id in refresh && clock < refresh[t.id].expires
    }

    /** The part of a refresh up to its GETDEL. */
    method Redeem(t: Token, device: Option<Device>, ghost p: CallId) returns (ok: bool)
      requires Valid() && p !in history.calls && t in history.returned && t.id in history.minted
      modifies `history, `refresh
      ensures Valid() && Leads(old(history), history)
      ensures ok <==> MayRotate(old(history), t, device)
      ensures ok <==> old(Redeemable(t, device))
      ensures history == if ok then Apply(old(history), Drop(t.id)).To(p, Successor(old(history), t, device))
                         else old(history).To(p, Done(Refused(t)))
    {
      var valid := Check(t, Refresh, true);
      ghost var next := RotateRun(history, p, t, device);
      Happen(next);
      if !valid { return false; }
      if device.Some? && t.device != device { return false; }
      if !(t.id in refresh && clock < refresh[t.id].expires) { return false; }
      refresh := refresh - {t.id};
      ok := true;
    }

    /** Redeems a refresh token: exactly the valid ones on their device with a live record go through.
        The record goes, and the new pair, for the same user, gets one of its own. */
    method RefreshTokens(t: Token, device: Option<Device>, id: PairId, created: nat, ghost p: CallId)
      returns (pair: Option<(Token, Token)>)
      requires Valid() && p !in history.calls && t in history.returned
      requires id !in history.minted && created <= clock
      modifies this
      ensures Valid() && Leads(old(history), history)
      ensures pair.Some? <==> MayRotate(old(history), t, device)
      ensures pair.Some? <==> old(Redeemable(t, device))
      ensures clock == old(clock) && blacklist == old(blacklist) && markers == old(markers)
      ensures refresh == if pair.None? then old(refresh)
                         else (old(refresh) - {t.id})[id := Record(t.user, clock + config.refreshSeconds * SECOND)]
      ensures pair.Some? ==>
                var d := if device.Some? then device else t.device;
                && pair.value.0 == Token(Access, id, t.user, d, clock, created / SECOND + config.accessSeconds)
                && pair.value.1 == Token(Refresh, id, t.user, d, clock, created / SECOND + config.refreshSeconds)
                && pair.value.0 in history.returned && pair.value.1 in history.returned
                && id in history.minted && history.minted[id].parent == Some(t.id)
    {
      LeadsIsReachable(config, history);
      var ok := Redeem(t, device, p);
      if !ok { return None; }
      ghost var redeemed := history;
      var access, refreshToken := GenerateTokenPair(t.user, if device.Some? then device else t.device, id, created, p);
      LeadsTransitive(old(history), redeemed, history);
      pair := Some((access, refreshToken));
    }

    method Login(user: User, device: Option<Device>, id: PairId, created: nat, ghost p: CallId)
      returns (access: Token, refreshToken: Token)
      requires Valid() && p !in history.calls && id !in history.minted && created <= clock
      modifies this
      ensures Valid() && Leads(old(history), history)
      ensures refresh == old(refresh)[id := Record(user, clock + config.refreshSeconds * SECOND)]
      ensures clock == old(clock) && blacklist == old(blacklist) && markers == old(markers)
      ensures access == Token(Access, id, user, device, clock, created / SECOND + config.accessSeconds)
      ensures refreshToken == Token(Refresh, id, user, device, clock, created / SECOND + config.refreshSeconds)
      ensures access in history.returned && refreshToken in history.returned
      ensures id in history.minted && history.minted[id].parent == None
      ensures history.minted.Keys == old(history).minted.Keys + {id}
      ensures history.calls == old(history).calls[p := Done(Issued(id))]
    {
      ghost var started := LoginStarts(history, p, user, device);
      Happen(started);
      access, refreshToken := GenerateTokenPair(user, device, id, created, p);
      LeadsTransitive(old(history), started, history);
    }

    /** True exactly when a whole second is left to blacklist: then the token is on the blacklist for
        the rest of its lifetime rounded down, and the record of a refresh token is gone. */
    method RevokeToken(t: Token, ghost p: CallId) returns (ok: bool)
      requires Valid() && p !in history.calls && t in history.returned
      modifies this
      ensures Valid() && Leads(old(history), history)
      ensures ok <==> clock + SECOND <= t.exp * SECOND
      ensures history.calls == old(history).calls[p := Done(Revoked(t, ok))]
      ensures clock == old(clock) && markers == old(markers)
      ensures blacklist == if ok then old(blacklist)[Jti(t.kind, t.id) := clock + SecondsLeft(t.exp, clock) * SECOND]
                           else old(blacklist)
      ensures refresh == if ok && t.kind == Refresh then old(refresh) - {t.id} else old(refresh)
    {
      ghost var next := RevokeRun(history, p, t);
      Happen(next);
      var ttl := SecondsLeft(t.exp, clock);
      if ttl == 0 { return false; }
      blacklist := blacklist[Jti(t.kind, t.id) := clock + ttl * SECOND];
      if t.kind == Refresh { refresh := refresh - {t.id}; }
      ok := true;
    }

    /** Call `p` is between two keys of its scan: the sessions of the user among the keys `seen` are
        deleted from what the store held at the start, and `count` of them there were. */
    ghost predicate Sweeping(p: CallId, scan: Scan, start: map<PairId, Record>, seen: set<PairId>, count: nat)
      reads this
    {
      && Valid() && p in history.calls && history.calls[p] == Scanning(scan)
      && Swept(start, Sessions(start, clock, scan.user), seen, refresh, scan.deleted, count)
    }

    /** One key of a SCAN batch: GET, and DEL when the record is the user's. */
    method DeleteIfOwned(user: User, key: PairId, ghost p: CallId, ghost scan: Scan)
      returns (deleted: bool, ghost after: Scan)
      requires Valid() && p in history.calls && history.calls[p] == Scanning(scan)
      requires scan.queue != [] && scan.queue[0] == key && scan.user == user
      modifies `history, `refresh
      ensures Valid() && Leads(old(history), history) && p in history.calls && history.calls[p] == Scanning(after)
      ensures deleted <==> key in Sessions(old(refresh), clock, user)
      ensures refresh == if deleted then old(refresh) - {key} else old(refresh)
      ensures after == if deleted
                       then scan.(queue := scan.queue[1..], deleted := scan.deleted + {key}, count := scan.count + 1)
                       else scan.(queue := scan.queue[1..])
    {
      if key in refresh && clock < refresh[key].expires && refresh[key].user == user {
        ghost var next := DeleteRun(history, p, scan);
        Happen(next);
        refresh := refresh - {key};
        deleted := true;
        after := scan.(queue := scan.queue[1..], deleted := scan.deleted + {key}, count := scan.count + 1);
      } else {
        ghost var next := SkipRun(history, p, scan);
        Happen(next);
        deleted, after := false, scan.(queue := scan.queue[1..]);
      }
    }

    method SweepKey(user: User, key: PairId, before: nat, ghost p: CallId, ghost scan: Scan,
                    ghost start: map<PairId, Record>, ghost seen: set<PairId>)
      returns (count: nat, ghost after: Scan)
      requires Sweeping(p, scan, start, seen, before)
      requires scan.queue != [] && scan.queue[0] == key && scan.user == user
      modifies `history, `refresh
      ensures Sweeping(p, after, start, seen + {key}, count) && Leads(old(history), history)
      ensures after.user == user && after.atStart == scan.atStart && after.covered == scan.covered
      ensures after.queue == scan.queue[1..]
    {
      var deleted: bool;
      StillOwned(start, clock, user, scan.deleted, key);
      deleted, after := DeleteIfOwned(user, key, p, scan);
      count := if deleted then before + 1 else before;
      SweptNext(start, Sessions(start, clock, user), seen, scan.deleted, before, key, deleted);
    }

    /** SCAN returns a batch of keys. */
    ghost method ReceiveBatch(keys: seq<PairId>, before: nat, p: CallId, scan: Scan,
                              start: map<PairId, Record>, seen: set<PairId>)
      returns (after: Scan)
      requires Sweeping(p, scan, start, seen, before) && scan.queue == []
      modifies `history
      ensures Sweeping(p, after, start, seen, before) && Leads(old(history), history)
      ensures after == scan.(queue := keys, covered := scan.covered + Elements(keys))
    {
      var next := BatchRun(history, p, scan, keys);
      Happen(next);
      after := scan.(queue := keys, covered := scan.covered + Elements(keys));
    }

    /** The keys of one batch, one after the other. */
    method SweepKeys(user: User, keys: seq<PairId>, before: nat, ghost p: CallId, ghost scan: Scan,
                     ghost start: map<PairId, Record>, ghost seen: set<PairId>)
      returns (count: nat, ghost after: Scan)
      requires Sweeping(p, scan, start, seen, before) && scan.queue == keys && scan.user == user
      modifies `history, `refresh
      ensures Sweeping(p, after, start, seen + Elements(keys), count) && Leads(old(history), history)
      ensures after.user == user && after.atStart == scan.atStart && after.covered == scan.covered && after.queue == []
    {
      count, after := before, scan;
      var i := 0;
      ghost var now := seen;
      LeadsReflexive(history);
      while i < |keys|
        invariant 0 <= i <= |keys| && Leads(old(history), history)
        invariant now == seen + Elements(keys[..i])
        invariant Sweeping(p, after, start, now, count)
        invariant after.user == user && after.atStart == scan.atStart && after.covered == scan.covered
        invariant after.queue == keys[i..]
      {
        ghost var h := history;
        count, after := SweepKey(user, keys[i], count, p, after, start, now);
        LeadsTransitive(old(history), h, history);
        ElementsNext(keys, i, seen);
        now := now + {keys[i]};
        i := i + 1;
      }
      assert keys[..|keys|] == keys;
    }

    /** One batch: SCAN returns it and its keys are swept. */
    method SweepBatch(user: User, keys: seq<PairId>, before: nat, ghost p: CallId, ghost scan: Scan,
                      ghost start: map<PairId, Record>, ghost seen: set<PairId>)
      returns (count: nat, ghost after: Scan)
      requires Sweeping(p, scan, start, seen, before) && scan.queue == [] && scan.user == user
      modifies `history, `refresh
      ensures Sweeping(p, after, start, seen + Elements(keys), count) && Leads(old(history), history)
      ensures after.user == user && after.atStart == scan.atStart && after.queue == []
      ensures after.covered == scan.covered + Elements(keys)
    {
      ghost var received := ReceiveBatch(keys, before, p, scan, start, seen);
      ghost var h := history;
      count, after := SweepKeys(user, keys, before, p, received, start, seen);
      LeadsTransitive(old(history), h, history);
    }

    /** The whole SCAN loop. */
    method SweepBatches(user: User, batches: seq<seq<PairId>>, ghost p: CallId, ghost scan: Scan,
                        ghost start: map<PairId, Record>)
      returns (count: nat, ghost after: Scan)
      requires Sweeping(p, scan, start, {}, 0) && scan.queue == [] && scan.user == user && scan.covered == {}
      modifies `history, `refresh
      ensures Sweeping(p, after, start, Covered(batches), count) && Leads(old(history), history)
      ensures after.user == user && after.atStart == scan.atStart && after.queue == []
      ensures after.covered == Covered(batches)
    {
      count, after := 0, scan;
      var i := 0;
      ghost var seen: set<PairId> := {};
      LeadsReflexive(history);
      while i < |batches|
        invariant 0 <= i <= |batches| && Leads(old(history), history)
        invariant seen == Covered(batches[..i])
        invariant Sweeping(p, after, start, seen, count)
        invariant after.user == user && after.atStart == scan.atStart && after.queue == [] && after.covered == seen
      {
        ghost var h := history;
        count, after := SweepBatch(user, batches[i], count, p, after, start, seen);
        LeadsTransitive(old(history), h, history);
        CoveredNext(batches, i);
        seen := seen + Elements(batches[i]);
        i := i + 1;
      }
      assert batches[..|batches|] == batches;
    }

    ghost method BeginSweep(user: User, p: CallId) returns (scan: Scan)
      requires Valid() && p !in history.calls
      modifies `history
      ensures Leads(Initial(config), history) && Leads(old(history), history)
      ensures p in history.calls && history.calls[p] == Scanning(scan)
      ensures scan == Scan(user, clock, old(history).LiveIds(), {}, [], {}, 0)
      ensures history.config == config && history.clock == clock && history.refresh == refresh
      ensures history.blacklist == blacklist && history.markers == markers[user := clock]
    {
      var next := MarkRun(history, p, user);
      scan := Scan(user, clock, history.LiveIds(), {}, [], {}, 0);
      Happen(next);
    }

    ghost method EndSweep(p: CallId, scan: Scan)
      requires Valid() && p in history.calls && history.calls[p] == Scanning(scan) && scan.queue == []
      requires forall id :: id in scan.atStart ==> id in scan.covered
      modifies `history
      ensures Valid() && Leads(old(history), history)
      ensures history.calls == old(history).calls[p := Done(RevokedAll(scan))]
    {
      var next := EndRun(history, p, scan);
      Happen(next);
    }

    /** The marker, the SCAN loop and its end. */
    method MarkAndSweep(user: User, batches: seq<seq<PairId>>, ghost p: CallId) returns (count: nat)
      requires Valid() && p !in history.calls
      requires forall id :: id in history.LiveIds() ==> id in Covered(batches)
      modifies this
      ensures Valid() && Leads(old(history), history)
      ensures clock == old(clock) && blacklist == old(blacklist) && markers == old(markers)[user := clock]
      ensures exists deleted ::
                Swept(old(refresh), Sessions(old(refresh), clock, user), Covered(batches), refresh, deleted, count)
    {
      ghost var scan := BeginSweep(user, p);
      markers := markers[user := clock];
      ghost var begun := history;
      SweepOfNothing(refresh, Sessions(refresh, clock, user));
      count, scan := SweepBatches(user, batches, p, scan, refresh);
      LeadsTransitive(old(history), begun, history);
      ghost var swept := history;
      EndSweep(p, scan);
      LeadsTransitive(old(history), swept, history);
    }

    /** Stores the marker, then sweeps every batch that SCAN returns. SCAN owes a caller every key that
        is there throughout; here that is every live record of another user, and the user's own until
        they are swept. The marker is the current time, the user's sessions are gone, every other
        record stays, and the result counts the sessions that were live. */
    method RevokeAllUserTokens(user: User, batches: seq<seq<PairId>>, ghost p: CallId) returns (count: nat)
      requires Valid() && p !in history.calls
      requires forall id :: id in history.LiveIds() ==> id in Covered(batches)
      modifies this
      ensures Valid() && Leads(old(history), history)
      ensures clock == old(clock) && blacklist == old(blacklist) && markers == old(markers)[user := clock]
      ensures refresh == old(refresh) - Sessions(old(refresh), clock, user)
      ensures count == |Sessions(old(refresh), clock, user)|
    {
      SessionsAreLive(history, user);
      count := MarkAndSweep(user, batches, p);
      AllSwept(old(refresh), Sessions(old(refresh), clock, user), Covered(batches), refresh, count);
    }
  }

  /** The keys in the batches. */
  function Covered(batches: seq<seq<PairId>>): set<PairId> {
    if batches == [] then {} else Covered(batches[..|batches| - 1]) + Elements(batches[|batches| - 1])
  }

  lemma CoveredNext(batches: seq<seq<PairId>>, i: nat)
    requires i < |batches|
    ensures Covered(batches[..i + 1]) == Covered(batches[..i]) + Elements(batches[i])
  {
    assert batches[..i + 1][..i] == batches[..i];
  }

  /** The live refresh records of `user`. */
  function Sessions(refresh: map<PairId, Record>, clock: nat, user: User): set<PairId> {
    set id | id in refresh && clock < refresh[id].expires && refresh[id].user == user
  }

  function Elements(keys: seq<PairId>): set<PairId> {
    set k | k in keys
  }

  lemma ElementsNext(keys: seq<PairId>, i: nat, seen: set<PairId>)
    requires i < |keys|
    ensures seen + Elements(keys[..i + 1]) == seen + Elements(keys[..i]) + {keys[i]}
  {
    assert keys[..i + 1] == keys[..i] + [keys[i]];
  }

  /** Of the records `owned` at the start, those among `seen` have been deleted, `count` in all. */
  ghost predicate Swept(start: map<PairId, Record>, owned: set<PairId>, seen: set<PairId>,
                        refresh: map<PairId, Record>, deleted: set<PairId>, count: nat)
  {
    deleted == owned * seen && refresh == start - deleted && count == |deleted|
  }

  lemma SweepOfNothing(start: map<PairId, Record>, owned: set<PairId>)
    ensures Swept(start, owned, {}, start, {}, 0)
  {
    assert start - {} == start && owned * {} == {};
  }

  lemma SessionsAreLive(s: State, user: User)
    ensures Sessions(s.refresh, s.clock, user) <= s.LiveIds()
  {
  }

  /** When every owned record has been seen, all of them are gone and counted. */
  lemma AllSwept(start: map<PairId, Record>, owned: set<PairId>, seen: set<PairId>, refresh: map<PairId, Record>,
                 count: nat)
    requires owned <= seen && exists deleted :: Swept(start, owned, seen, refresh, deleted, count)
    ensures refresh == start - owned && count == |owned|
  {
    assert owned * seen == owned;
  }

  lemma StillOwned(start: map<PairId, Record>, clock: nat, user: User, deleted: set<PairId>, key: PairId)
    ensures key in Sessions(start - deleted, clock, user) <==> key in Sessions(start, clock, user) && key !in deleted
  {
  }

  lemma SweptNext(start: map<PairId, Record>, owned: set<PairId>, seen: set<PairId>, deleted: set<PairId>, count: nat,
                  key: PairId, now: bool)
    requires Swept(start, owned, seen, start - deleted, deleted, count)
    requires now <==> key in owned && key !in deleted
    ensures Swept(start, owned, seen + {key}, if now then start - deleted - {key} else start - deleted,
                  if now then deleted + {key} else deleted, if now then count + 1 else count)
  {
    if now {
      assert owned * (seen + {key}) == deleted + {key};
      assert start - deleted - {key} == start - (deleted + {key});
    } else {
      assert owned * (seen + {key}) == deleted;
    }
  }

  /** A user can log in again as soon as time has passed since the last user-wide revocation: the new access
      token is accepted and the new refresh token redeemed after any rest, until each expires. */
  method UseFreshLogin(service: JwtService, user: User, device: Option<Device>, id: PairId, created: nat, rest: nat,
                       nextId: PairId, nextCreated: nat, ghost p: CallId, ghost q: CallId, ghost r: CallId)
    returns (accepted: bool, redeemed: bool)
    requires service.Valid() && (user in service.markers ==> service.markers[user] < service.clock)
    requires id !in service.history.minted && nextId !in service.history.minted && id != nextId
    requires p !in service.history.calls && q !in service.history.calls && r !in service.history.calls
    requires p != q && p != r && q != r && created <= service.clock && nextCreated <= service.clock + rest
    modifies service
    ensures service.Valid() && service.clock == old(service.clock) + rest
    ensures accepted <==> service.clock < (created / SECOND + service.config.accessSeconds) * SECOND
    ensures redeemed <==> service.clock < (created / SECOND + service.config.refreshSeconds) * SECOND
  {
    NewIdIsNotBlacklisted(service, id);
    var access, refreshToken := service.Login(user, device, id, created, p);
    service.Wait(rest);
    accepted := service.ValidateToken(access, Access, true, q);
    WholeSeconds(created, service.clock - rest, service.config.refreshSeconds);
    var pair := service.RefreshTokens(refreshToken, device, nextId, nextCreated, r);
    redeemed := pair.Some?;
  }

  lemma NewIdIsNotBlacklisted(service: JwtService, id: PairId)
    requires service.Valid() && id !in service.history.minted
    ensures Jti(Access, id) !in service.blacklist && Jti(Refresh, id) !in service.blacklist
  {
    LeadsIsReachable(service.config, service.history);
    ReachableIsBlacklistOk(service.history);
  }

  /** Whatever holds of every interleaving holds of the object. */
  lemma ServiceIsReachable(service: JwtService)
    requires service.Valid()
    ensures Reachable(service.history) && WellFormed(service.history)
  {
    LeadsIsReachable(service.config, service.history);
  }

  /** A record that is gone never comes back, so a redeemed or revoked refresh token is refused from
      then on, in every continuation by any calls. */
  lemma RedeemedStaysRedeemed(s: State, es: seq<Event>, t: Token, device: Option<Device>)
    requires WellFormed(s) && t in s.returned && t.id !in s.refresh
    ensures !MayRotate(Exec(s, es), t, device)
  {
    assert t.id in s.stored;
    ExecKeepsWellFormed(s, es);
    assert Later(s, Exec(s, es));
  }
}
