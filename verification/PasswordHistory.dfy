/** The bounded password history kept in a Redis list. Verifying a password against a hash is a
    parameter. */
module PasswordHistory {
  import opened Wrappers

  datatype HistoryError = StoreUnavailable

  /** What LTRIM with start 0 and stop `limit - 1` keeps: a negative stop counts from the end. */
  function Trimmed(list: seq<string>, limit: int): seq<string> {
    var stop := limit - 1;
    var end := if stop < 0 then |list| + stop else stop;
    if end < 0 || list == [] then []
    else if end >= |list| then list
    else list[..end + 1]
  }

  /** The list after storing `hashes` in order, from an empty one. */
  function Stored(limit: int, hashes: seq<string>): seq<string> {
    if hashes == [] then []
    else Trimmed([hashes[|hashes| - 1]] + Stored(limit, hashes[..|hashes| - 1]), limit)
  }

  lemma StoredNext(limit: int, hashes: seq<string>, hash: string)
    ensures Stored(limit, hashes + [hash]) == Trimmed([hash] + Stored(limit, hashes), limit)
  {
    assert (hashes + [hash])[..|hashes|] == hashes;
  }

  /** The last `n` of `hashes`, newest first. */
  function Newest(hashes: seq<string>, n: nat): seq<string> {
    if n == 0 || hashes == [] then []
    else [hashes[|hashes| - 1]] + Newest(hashes[..|hashes| - 1], n - 1)
  }

  /** `Newest` reads the history backwards. */
  lemma {:induction false} NewestAt(hashes: seq<string>, n: nat)
    ensures |Newest(hashes, n)| == if n <= |hashes| then n else |hashes|
    ensures forall k :: 0 <= k < |Newest(hashes, n)| ==> Newest(hashes, n)[k] == hashes[|hashes| - 1 - k]
  {
    if n == 0 || hashes == [] {
    } else {
      var front, rest := hashes[..|hashes| - 1], Newest(hashes[..|hashes| - 1], n - 1);
      NewestAt(front, n - 1);
      forall k | 0 < k < |Newest(hashes, n)| ensures Newest(hashes, n)[k] == hashes[|hashes| - 1 - k] {
        assert Newest(hashes, n)[k] == rest[k - 1] == front[|front| - 1 - (k - 1)];
      }
    }
  }

  lemma NewestPrefix(hashes: seq<string>, n: nat, k: nat)
    requires k <= n
    ensures |Newest(hashes, n)| <= n
    ensures Newest(hashes, k) == if k <= |Newest(hashes, n)| then Newest(hashes, n)[..k] else Newest(hashes, n)
  {
    NewestAt(hashes, n);
    NewestAt(hashes, k);
  }

  lemma NewestPush(hashes: seq<string>, n: nat, hash: string)
    ensures Newest(hashes + [hash], n + 1) == [hash] + Newest(hashes, n)
  {
    assert (hashes + [hash])[..|hashes|] == hashes;
  }

  lemma NewestTrim(limit: int, hashes: seq<string>, n: nat)
    requires 1 <= limit <= n
    ensures Trimmed(Newest(hashes, n), limit) == Newest(hashes, limit)
  {
    NewestPrefix(hashes, n, limit);
  }

  lemma {:induction false} StoredUnfolds(limit: int, hashes: seq<string>)
    requires limit >= 1
    ensures Stored(limit, hashes) == Newest(hashes, limit)
  {
    if hashes == [] {
    } else {
      var n := |hashes| - 1;
      StoredUnfolds(limit, hashes[..n]);
      assert hashes[..n] + [hashes[n]] == hashes;
      NewestPush(hashes[..n], limit, hashes[n]);
      NewestTrim(limit, hashes, limit + 1);
    }
  }

  /** For a limit of at least 1 the list is exactly the newest `limit` hashes, newest first. */
  lemma StoredIsNewest(limit: int, hashes: seq<string>)
    requires limit >= 1
    ensures Stored(limit, hashes) == Newest(hashes, limit)
    ensures |Stored(limit, hashes)| == if limit <= |hashes| then limit else |hashes|
    ensures forall k :: 0 <= k < |Stored(limit, hashes)| ==> Stored(limit, hashes)[k] == hashes[|hashes| - 1 - k]
  {
    StoredUnfolds(limit, hashes);
    NewestAt(hashes, limit);
  }

  /** A limit of 0 keeps everything, because LTRIM reads the stop -1 as the last element. */
  lemma {:induction false} ZeroKeepsEverything(hashes: seq<string>)
    ensures Stored(0, hashes) == Newest(hashes, |hashes|)
  {
    if hashes == [] {
    } else {
      ZeroKeepsEverything(hashes[..|hashes| - 1]);
    }
  }

  lemma {:induction false} NegativeKeepsNothing(limit: int, hashes: seq<string>)
    requires limit < 0
    ensures Stored(limit, hashes) == []
  {
    if hashes == [] {
    } else {
      NegativeKeepsNothing(limit, hashes[..|hashes| - 1]);
    }
  }

  /** The stored list is the newest `limit` hashes, none for a negative limit, for every history,
      exactly when the limit is not 0. */
  lemma HistoryIsBoundedIff(limit: int)
    ensures (forall hashes :: Stored(limit, hashes) == Newest(hashes, if limit < 0 then 0 else limit)) <==> limit != 0
  {
    if limit == 0 {
      ZeroKeepsEverything([""]);
      assert Stored(0, [""]) != Newest([""], 0);
    } else {
      forall hashes ensures Stored(limit, hashes) == Newest(hashes, if limit < 0 then 0 else limit) {
        if limit < 0 { NegativeKeepsNothing(limit, hashes); } else { StoredIsNewest(limit, hashes); }
      }
    }
  }

  // ---- Interleaved additions ----

  /** The list accesses of an addition: its LPUSH, and later its LTRIM. */
  datatype Access = Push(call: nat, hash: string) | Trim(call: nat)

  /** The list of one user after accesses in any order. */
  function AfterAccesses(limit: int, accesses: seq<Access>): seq<string> {
    if accesses == [] then []
    else
      var before := AfterAccesses(limit, accesses[..|accesses| - 1]);
      match accesses[|accesses| - 1]
      case Push(_, hash) => [hash] + before
      case Trim(_) => Trimmed(before, limit)
  }

  function Pushed(accesses: seq<Access>): seq<string> {
    if accesses == [] then []
    else
      var last := accesses[|accesses| - 1];
      Pushed(accesses[..|accesses| - 1]) + (if last.Push? then [last.hash] else [])
  }

  /** How many hashes were pushed after the last LTRIM. */
  function PushedSinceTrim(accesses: seq<Access>): nat {
    if accesses == [] || accesses[|accesses| - 1].Trim? then 0
    else PushedSinceTrim(accesses[..|accesses| - 1]) + 1
  }

  /** Every addition that pushed has trimmed afterwards. */
  ghost predicate AllTrimmed(accesses: seq<Access>) {
    forall i :: 0 <= i < |accesses| && accesses[i].Push? ==>
      exists j :: i < j < |accesses| && accesses[j] == Trim(accesses[i].call)
  }

  /** However additions for one user interleave, the list is the newest hashes in the order of their LPUSH,
      longer than the limit only by those pushed since the last LTRIM. */
  lemma {:induction false} InterleavedIsNewest(limit: int, accesses: seq<Access>)
    requires limit >= 1
    ensures AfterAccesses(limit, accesses) == Newest(Pushed(accesses), limit + PushedSinceTrim(accesses))
  {
    if accesses == [] {
    } else {
      var before := accesses[..|accesses| - 1];
      InterleavedIsNewest(limit, before);
      var pushed, n := Pushed(before), limit + PushedSinceTrim(before);
      match accesses[|accesses| - 1] {
        case Push(_, hash) => NewestPush(pushed, n, hash);
        case Trim(_) =>
          NewestTrim(limit, pushed, n);
          assert pushed + [] == pushed;
      }
    }
  }

  lemma LastIsTrim(accesses: seq<Access>)
    requires accesses != [] && AllTrimmed(accesses)
    ensures accesses[|accesses| - 1].Trim?
  {
  }

  /** When all of them are done it is exactly the newest `limit`. */
  lemma FinishedAdditionsKeepNewest(limit: int, accesses: seq<Access>)
    requires limit >= 1 && AllTrimmed(accesses)
    ensures AfterAccesses(limit, accesses) == Newest(Pushed(accesses), limit)
  {
    InterleavedIsNewest(limit, accesses);
    if accesses != [] { LastIsTrim(accesses); }
  }

  /** Additions that do not interleave do what `Stored` says. */
  lemma {:induction false} SequentialAdditions(limit: int, hashes: seq<string>, calls: seq<nat>)
    requires |calls| == |hashes|
    ensures AfterAccesses(limit, OneByOne(hashes, calls)) == Stored(limit, hashes)
  {
    if hashes == [] {
    } else {
      var n := |hashes| - 1;
      var before := OneByOne(hashes[..n], calls[..n]);
      SequentialAdditions(limit, hashes[..n], calls[..n]);
      var pushed := before + [Push(calls[n], hashes[n])];
      assert pushed[..|before|] == before;
      assert (pushed + [Trim(calls[n])])[..|pushed|] == pushed;
    }
  }

  function OneByOne(hashes: seq<string>, calls: seq<nat>): seq<Access>
    requires |calls| == |hashes|
  {
    if hashes == [] then []
    else
      var n := |hashes| - 1;
      OneByOne(hashes[..n], calls[..n]) + [Push(calls[n], hashes[n])] + [Trim(calls[n])]
  }

  // ---- The service ----

  /** How long an untouched list is kept, in seconds. */
  const YEAR: nat := 365 * 24 * 3600

  /** A list in the store, until it expires. */
  datatype Kept = Kept(hashes: seq<string>, expires: nat)

  function LiveIn(kept: map<string, Kept>, clock: nat, user: string): seq<string> {
    if user in kept && clock < kept[user].expires then kept[user].hashes else []
  }

  class PasswordService {
    const limit: int
    const verify: (string, string) -> bool
    /** Whether a Redis client was injected. */
    const hasStore: bool
    var clock: nat
    var lists: map<string, Kept>
    /** Every hash added for a user since its list last expired, oldest first. */
    ghost var added: map<string, Kept>
    /** When a hash was last added for a user. */
    ghost var addedAt: map<string, nat>

    constructor (limit: int, verify: (string, string) -> bool, hasStore: bool)
      ensures Valid() && this.limit == limit && this.verify == verify && this.hasStore == hasStore
      ensures forall user :: AddedFor(user) == []
    {
      this.limit, this.verify, this.hasStore := limit, verify, hasStore;
      clock, lists, added, addedAt := 0, map[], map[], map[];
    }

    function ListOf(user: string): seq<string>
      reads this
    {
      LiveIn(lists, clock, user)
    }

    ghost function AddedFor(user: string): seq<string>
      reads this
    {
      LiveIn(added, clock, user)
    }

    /** The list of the hashes added, both kept for a year from the last addition. */
    ghost predicate Tracked(list: Kept, hashes: Kept, at: nat)
      reads this
    {
      && at <= clock && list.expires == at + YEAR && hashes.expires == at + YEAR
      && list.hashes == Stored(limit, hashes.hashes)
    }

    ghost predicate Valid()
      reads this
    {
      && lists.Keys == added.Keys == addedAt.Keys
      && forall user :: user in lists ==> Tracked(lists[user], added[user], addedAt[user])
    }

    lemma ValidLists(user: string)
      requires Valid()
      ensures ListOf(user) == Stored(limit, AddedFor(user))
    {
    }

    /** Something was added for `user` within the last year. */
    ghost predicate AddedWithinYear(user: string)
      reads this
    {
      user in addedAt && clock < addedAt[user] + YEAR
    }

    /** Time passes; a list is gone exactly when nothing was added to it for a year. */
    method Wait(seconds: nat)
      requires Valid()
      modifies `clock
      ensures Valid() && clock == old(clock) + seconds
      ensures forall user :: ListOf(user) == if AddedWithinYear(user) then old(ListOf(user)) else []
      ensures forall user :: AddedFor(user) == if AddedWithinYear(user) then old(AddedFor(user)) else []
    {
      clock := clock + seconds;
    }

    /** The list is in the store for another year. */
    method Keep(user: string, list: seq<string>, ghost hashes: seq<string>)
      requires Valid() && list == Stored(limit, hashes)
      modifies `lists, `added, `addedAt
      ensures Valid() && AddedFor(user) == hashes && ListOf(user) == list
      ensures addedAt == old(addedAt)[user := clock]
      ensures forall other :: other != user ==>
                ListOf(other) == old(ListOf(other)) && AddedFor(other) == old(AddedFor(other))
    {
      lists := lists[user := Kept(list, clock + YEAR)];
      added := added[user := Kept(hashes, clock + YEAR)];
      addedAt := addedAt[user := clock];
    }

    /** Stores one more hash for a user and keeps the list for another year. */
    method AddToPasswordHistory(user: string, hash: string) returns (r: Result<(), HistoryError>)
      requires Valid()
      modifies `lists, `added, `addedAt
      ensures Valid()
      ensures r == if hasStore then Ok(()) else Err(StoreUnavailable)
      ensures hasStore ==> AddedFor(user) == old(AddedFor(user)) + [hash]
      ensures hasStore ==> ListOf(user) == Stored(limit, AddedFor(user))
      ensures addedAt == if hasStore then old(addedAt)[user := clock] else old(addedAt)
      ensures !hasStore ==> added == old(added) && lists == old(lists)
      ensures forall other :: other != user ==>
                ListOf(other) == old(ListOf(other)) && AddedFor(other) == old(AddedFor(other))
    {
      if !hasStore { return Err(StoreUnavailable); }
      ghost var after := AddedFor(user) + [hash];
      ValidLists(user);
      StoredNext(limit, AddedFor(user), hash);
      var pushed := [hash] + ListOf(user);
      var trimmed := Trimmed(pushed, limit);
      Keep(user, trimmed, after);
      r := Ok(());
    }

    /** True exactly when the password verifies against a stored hash, and for a limit of at least 1
        that is one of the newest `limit` hashes added for the user. */
    method CheckPasswordHistory(user: string, password: string) returns (r: Result<bool, HistoryError>)
      requires Valid()
      ensures !hasStore ==> r == Err(StoreUnavailable)
      ensures hasStore ==> r.Ok? && (r.value <==> exists h :: h in ListOf(user) && verify(password, h))
      ensures hasStore && limit >= 1 ==>
                (r.value <==> exists h :: h in Newest(AddedFor(user), limit) && verify(password, h))
    {
      if !hasStore { return Err(StoreUnavailable); }
      var history := ListOf(user);
      ValidLists(user);
      if limit >= 1 { StoredIsNewest(limit, AddedFor(user)); }
      for k := 0 to |history|
        invariant forall j :: 0 <= j < k ==> !verify(password, history[j])
      {
        if verify(password, history[k]) {
          assert history[k] in history;
          return Ok(true);
        }
      }
      r := Ok(false);
    }
  }
}
