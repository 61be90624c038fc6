/** The timing of login refresh: how often the store is polled, and how long a turn may be. */
module Login {

  /** Seconds: the life of a fresh token, the margin and the slack every reader adds. */
  datatype Settings = Settings(lifetime: nat, margin: nat, slack: nat)

  function Max(a: int, b: int): int {
    if a < b then b else a
  }

  /** The longest time between two polls. */
  function Cadence(s: Settings): nat {
    Max(1, s.lifetime / 2 - 1)
  }

  /** The longest turn that is allowed. */
  function MaxTurn(s: Settings): nat {
    Max(1, s.lifetime - Cadence(s) - s.margin - s.slack - 1)
  }

  /** A poll refreshes when no more than this is left. */
  function Threshold(s: Settings): nat {
    Cadence(s) + MaxTurn(s) + s.margin + s.slack
  }

  /** The reader's test for handing out a token for a turn. */
  predicate IsGranted(s: Settings, expiry: int, now: int, timeout: nat) {
    !(expiry < now + timeout + s.margin + s.slack)
  }

  /** The poll's own test that a turn of any allowed length would be granted now. */
  predicate MeetsFloor(s: Settings, expiry: int, now: int) {
    expiry - now >= MaxTurn(s) + s.margin + s.slack
  }

  /**
   * One poll: when it reads the store, when the provider issues the token it fetches, and when that
   * token is in the store and the poll is over.
   */
  datatype Poll = Poll(at: int, issued: int, stored: int)

  predicate IsRefreshed(s: Settings, expiry: int, p: Poll) {
    !(expiry - p.at > Threshold(s))
  }

  /** The expiry the store holds once a poll is over. */
  function AfterPoll(s: Settings, expiry: int, p: Poll): int {
    if IsRefreshed(s, expiry, p) then p.issued + s.lifetime else expiry
  }

  function Expiry(s: Settings, first: int, polls: seq<Poll>): int {
    if polls == [] then first else AfterPoll(s, Expiry(s, first, polls[..|polls| - 1]), polls[|polls| - 1])
  }

  /** The expiry a reader finds: until the last poll is over, the one from before it. */
  function Held(s: Settings, first: int, polls: seq<Poll>, now: int): int
    requires polls != []
  {
    Expiry(s, first, if now < polls[|polls| - 1].stored then polls[..|polls| - 1] else polls)
  }

  /** When the poll after one starts at the latest: a cadence later, or when that one is over. */
  function LatestNext(s: Settings, p: Poll): int {
    Max(p.at + Cadence(s), p.stored)
  }

  /** Polls run one at a time, no further apart than that, each over within the delay. */
  ghost predicate IsSchedule(s: Settings, delay: nat, polls: seq<Poll>) {
    && (forall k | 0 <= k < |polls| :: polls[k].at <= polls[k].issued <= polls[k].stored <= polls[k].at + delay)
    && (forall k | 0 < k < |polls| :: polls[k - 1].stored <= polls[k].at <= LatestNext(s, polls[k - 1]))
  }

  /** An instant after the end of the first poll at which the last one of the schedule is the latest. */
  predicate IsCovered(s: Settings, polls: seq<Poll>, now: int) {
    && polls != [] && polls[0].stored <= now
    && polls[|polls| - 1].at <= now <= LatestNext(s, polls[|polls| - 1])
  }

  /** The store as the refresher keeps it. */
  class Store {
    const settings: Settings
    var expiry: int

    constructor (s: Settings, first: int)
      ensures settings == s && expiry == first
    {
      settings, expiry := s, first;
    }

    /** One run of the refresher; after a refresh it says whether the store then meets the floor. */
    method Refresh(p: Poll) returns (ok: bool)
      modifies this`expiry
      ensures expiry == AfterPoll(settings, old(expiry), p)
      ensures IsRefreshed(settings, old(expiry), p) ==> (ok <==> MeetsFloor(settings, expiry, p.stored))
      ensures !IsRefreshed(settings, old(expiry), p) ==> ok && MeetsFloor(settings, expiry, p.at + Cadence(settings))
    {
      if expiry - p.at > Threshold(settings) {
        return true;
      }
      expiry := p.issued + settings.lifetime;
      ok := MeetsFloor(settings, expiry, p.stored);
    }
  }

  // --- how long a token must do -----------------------------------------------------------------

  /** The longest time from a poll during which the store may hold nothing newer than it left. */
  function Longest(s: Settings, delay: nat): nat {
    Max(Cadence(s), delay) + Max(0, delay - 1)
  }

  /** The token of a poll lasts for a turn of this length all that time: a test on the settings alone. */
  predicate LeavesTime(s: Settings, delay: nat, timeout: nat) {
    Longest(s, delay) + timeout + s.margin + s.slack <= s.lifetime
  }

  /** Once a poll is over, the token lasts that long, even one the poll left in place. */
  lemma PollCoversTheWait(s: Settings, delay: nat, timeout: nat, expiry: int, p: Poll)
    requires LeavesTime(s, delay, timeout) && p.at <= p.issued
    ensures AfterPoll(s, expiry, p) >= p.at + Longest(s, delay) + timeout + s.margin + s.slack
  {
  }

  /** The instants at which the store holds no more than a given poll left lie within that time. */
  lemma HeldSince(s: Settings, delay: nat, first: int, polls: seq<Poll>, now: int) returns (k: nat)
    requires IsSchedule(s, delay, polls) && IsCovered(s, polls, now)
    ensures k < |polls| && now <= polls[k].at + Longest(s, delay)
    ensures Held(s, first, polls, now) == AfterPoll(s, Expiry(s, first, polls[..k]), polls[k])
  {
    var last := |polls| - 1;
    if now < polls[last].stored {
      k := last - 1;
      assert polls[..last][..k] == polls[..k] && polls[..last][k] == polls[k];
    } else {
      k := last;
    }
  }

  /** A turn that leaves time for the polls is granted at every instant after the first of them. */
  lemma EveryTurnIsGranted(s: Settings, delay: nat, timeout: nat, first: int, polls: seq<Poll>, now: int)
    requires LeavesTime(s, delay, timeout) && IsSchedule(s, delay, polls) && IsCovered(s, polls, now)
    ensures IsGranted(s, Held(s, first, polls, now), now, timeout)
  {
    var k := HeldSince(s, delay, first, polls, now);
    PollCoversTheWait(s, delay, timeout, Expiry(s, first, polls[..k]), polls[k]);
  }

  /** Two polls, each taking all the delay it may, and the last instant before the second is over. */
  function SlowPolls(s: Settings, delay: nat): seq<Poll> {
    var next := Max(Cadence(s), delay);
    if delay == 0 then [Poll(0, 0, 0)] else [Poll(0, 0, delay), Poll(next, next, next + delay)]
  }

  /** Where a turn leaves no time, slow polls of an expired store have it refused. */
  lemma SlowPollsRefuse(s: Settings, delay: nat, timeout: nat)
    requires !LeavesTime(s, delay, timeout)
    ensures
      var polls, now := SlowPolls(s, delay), Longest(s, delay);
      && IsSchedule(s, delay, polls) && IsCovered(s, polls, now)
      && !IsGranted(s, Held(s, 0, polls, now), now, timeout)
  {
    var polls := SlowPolls(s, delay);
    assert polls[..1][..0] == [] && polls[..0] == [];
    assert polls[..1] == [polls[0]] && (delay == 0 ==> polls == polls[..1]);
    assert Expiry(s, 0, polls[..1]) == AfterPoll(s, Expiry(s, 0, []), polls[0]) == s.lifetime;
  }

  ghost predicate AlwaysGrants(s: Settings, delay: nat, timeout: nat) {
    forall first: int, polls: seq<Poll>, now: int | IsSchedule(s, delay, polls) && IsCovered(s, polls, now) ::
      IsGranted(s, Held(s, first, polls, now), now, timeout)
  }

  /**
   * With polls that take up to a delay, a turn is granted on every schedule, from every store and at
   * every instant, exactly when it leaves time for them.
   */
  lemma GuaranteeHoldsIff(s: Settings, delay: nat, timeout: nat)
    ensures AlwaysGrants(s, delay, timeout) <==> LeavesTime(s, delay, timeout)
  {
    if LeavesTime(s, delay, timeout) {
      forall first: int, polls: seq<Poll>, now: int | IsSchedule(s, delay, polls) && IsCovered(s, polls, now)
        ensures IsGranted(s, Held(s, first, polls, now), now, timeout)
      {
        EveryTurnIsGranted(s, delay, timeout, first, polls, now);
      }
    } else {
      SlowPollsRefuse(s, delay, timeout);
    }
  }

  // --- the longest turn the settings derive -----------------------------------------------------

  /** Seconds the lifetime has beyond the cadence, the longest turn and both margins. */
  function ToSpare(s: Settings): int {
    s.lifetime - Cadence(s) - MaxTurn(s) - s.margin - s.slack
  }

  /** It is one when the longest turn was derived, and none or less when it had to be raised to a second. */
  lemma OneSecondToSpare(s: Settings)
    ensures s.lifetime - Cadence(s) - s.margin - s.slack - 1 >= 1 ==> ToSpare(s) == 1
    ensures s.lifetime - Cadence(s) - s.margin - s.slack - 1 < 1 ==> ToSpare(s) <= 0
  {
  }

  /** The longest turn is always granted exactly when refreshes take no longer than the seconds to spare allow. */
  lemma LongestTurnIsGrantedIff(s: Settings, delay: nat)
    ensures AlwaysGrants(s, delay, MaxTurn(s)) <==> Max(0, delay - Cadence(s)) + Max(0, delay - 1) <= ToSpare(s)
  {
    GuaranteeHoldsIff(s, delay, MaxTurn(s));
  }

  /** What a longest turn asks of the store, and the poll's own test, are the same at every instant. */
  lemma FloorIsTheLongestTurn(s: Settings, expiry: int, now: int)
    ensures MeetsFloor(s, expiry, now) <==> IsGranted(s, expiry, now, MaxTurn(s))
  {
  }

  /**
   * The shipped settings, an hour, five minutes and ten minutes: the longest turn is granted while a
   * refresh takes two seconds at most; with the two minutes one provider command may take, turns of up
   * to 782 seconds are.
   */
  lemma DefaultsAllow(delay: nat, timeout: nat)
    ensures var s := Settings(3600, 300, 600);
      && Cadence(s) == 1799 && MaxTurn(s) == 900
      && (AlwaysGrants(s, delay, MaxTurn(s)) <==> delay <= 2)
      && (AlwaysGrants(s, 120, timeout) <==> timeout <= 782)
  {
    var s := Settings(3600, 300, 600);
    LongestTurnIsGrantedIff(s, delay);
    GuaranteeHoldsIff(s, 120, timeout);
  }

  /** A refresh of two minutes under the shipped settings: meanwhile a longest turn is refused. */
  lemma SlowRefreshRefusesATurn()
    ensures
      var s, polls := Settings(3600, 300, 600), [Poll(0, 0, 0), Poll(1799, 1919, 1919)];
      && IsSchedule(s, 120, polls) && IsCovered(s, polls, 1850)
      && !IsGranted(s, Held(s, 0, polls, 1850), 1850, 900)
  {
    var s, polls := Settings(3600, 300, 600), [Poll(0, 0, 0), Poll(1799, 1919, 1919)];
    assert polls[..1] == [polls[0]] && polls[..1][..0] == [];
    assert Expiry(s, 0, polls[..1]) == AfterPoll(s, Expiry(s, 0, []), polls[0]) == 3600;
  }
}
