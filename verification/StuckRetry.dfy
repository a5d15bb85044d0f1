// Automatic rebroadcast of a channel stuck in pending open. The reconcile loop is the
// only caller and is serial: each tick lists the rows, then works through them. Anything
// else may write a row, any number of times, after it was listed and before the retry is
// recorded. Times are nanoseconds on one clock.
module StuckRetry {
  import opened Prelude
  import opened Session

  const SECOND := 1_000_000_000
  const MINUTE := 60 * SECOND
  const STUCK_AFTER := 20 * MINUTE
  const RETRY_COOLDOWN := 10 * MINUTE

  // What does not change while a channel is pending: the role, whether the session is
  // dual-funded, and whether its stored transaction appears signed.
  datatype Terms = Terms(role: Role, dual: bool, signed: bool)

  // What LND and the external mempool report about the pending channel.
  datatype Sighting = Sighting(confirmationHeight: int, confirmationsLeft: int, opening: bool, point: string,
                               externalChecked: bool, externalSeen: bool)

  // The fields of the row that the check reads and writes.
  datatype Watch = Watch(state: State, updatedAt: int, notedPoint: string, retryPoint: string, retryUnix: int)

  // A write by anyone else: a guarded transition at some time.
  datatype OtherWrite = OtherWrite(next: State, at: int)

  predicate IsStuck(seen: Watch, s: Sighting, now: int) {
    && seen.state == PendingOpen
    && s.confirmationHeight <= 0 && s.confirmationsLeft != 0 && s.opening
    && now - seen.updatedAt >= STUCK_AFTER
    && s.point != ""
  }

  predicate CoolingDown(seen: Watch, s: Sighting, now: int) {
    seen.retryPoint == s.point && seen.retryUnix > 0 && now - seen.retryUnix * SECOND < RETRY_COOLDOWN
  }

  // Each retry is at least twenty minutes after the one before.
  ghost predicate Spaced(times: seq<int>) {
    forall i :: 0 <= i < |times| - 1 ==> times[i + 1] - times[i] >= 1_200_000_000_000
  }

  lemma {:induction false} SpacedTimesSpan(times: seq<int>)
    requires Spaced(times) && times != []
    ensures times[|times| - 1] - times[0] >= (|times| - 1) * 1_200_000_000_000
  {
    if |times| > 1 {
      var init := times[..|times| - 1];
      forall i | 0 <= i < |init| - 1
        ensures init[i + 1] - init[i] >= 1_200_000_000_000
      {
        assert times[i + 1] - times[i] >= 1_200_000_000_000;
      }
      SpacedTimesSpan(init);
      assert times[|times| - 2 + 1] - times[|times| - 2] >= 1_200_000_000_000;
    }
  }

  class PendingSession {
    const terms: Terms
    var watch: Watch
    ghost var clock: int
    ghost var retries: seq<int>

    ghost predicate Valid()
      reads this
    {
      && watch.updatedAt <= clock
      && Spaced(retries)
      && (IsTerminal(watch.state) ||
          (watch.retryUnix * SECOND <= watch.updatedAt && (retries != [] ==> retries[|retries| - 1] <= watch.updatedAt)))
    }

    // In every history of a session k automatic rebroadcasts span at least k - 1 times
    // twenty minutes, which is 1.2e12 nanoseconds: twice the written cooldown.
    lemma RetriesSpan(i: nat, j: nat)
      requires Valid() && i <= j < |retries|
      ensures retries[j] - retries[i] >= (j - i) * 1_200_000_000_000
    {
      var times := retries[i..j + 1];
      forall k | 0 <= k < |times| - 1
        ensures times[k + 1] - times[k] >= 1_200_000_000_000
      {
        assert retries[i + k + 1] - retries[i + k] >= 1_200_000_000_000;
      }
      SpacedTimesSpan(times);
    }

    // So within twenty minutes there is never a second one.
    lemma OneRetryPerWindow(i: nat, j: nat)
      requires Valid() && i < |retries| && j < |retries|
      requires -1_200_000_000_000 < retries[j] - retries[i] < 1_200_000_000_000
      ensures i == j
    {
      if i < j {
        RetriesSpan(i, j);
      } else if j < i {
        RetriesSpan(j, i);
      }
    }

    // Every retry resets the age of the state, so the written cooldown never decides: a
    // channel seen as stuck, at any time after it was listed, is past it twice over.
    lemma CooldownNeverDecides(s: Sighting, now: int)
      requires Valid() && IsStuck(watch, s, now)
      ensures !CoolingDown(watch, s, now) && now - watch.retryUnix * 1_000_000_000 >= 1_200_000_000_000
    {
    }

    constructor (terms: Terms, state: State, at: int)
      requires at >= 0
      ensures Valid() && retries == [] && clock == at && this.terms == terms
    {
      this.terms := terms;
      watch := Watch(state, at, "", "", 0);
      clock := at;
      retries := [];
    }

    // Any other transition of the row, as Session.TransitionIsGuarded has it.
    method Write(next: State, at: int)
      requires Valid() && clock <= at
      modifies this
      ensures Valid() && clock == at && retries == old(retries)
      ensures watch == if Admits(old(watch.state), next) then old(watch).(state := next, updatedAt := at) else old(watch)
    {
      if Admits(watch.state, next) {
        watch := watch.(state := next, updatedAt := at);
      }
      clock := at;
    }

    // Others write, in order, between these times.
    method Others(writes: seq<OtherWrite>, since: int, until: int)
      requires Valid() && clock <= since <= until
      modifies this
      ensures Valid() && clock == until && retries == old(retries)
      ensures IsTerminal(old(watch.state)) ==> IsTerminal(watch.state)
      ensures watch.retryPoint == old(watch.retryPoint) && watch.retryUnix == old(watch.retryUnix) && watch.notedPoint == old(watch.notedPoint)
    {
      var at := since;
      for i := 0 to |writes|
        invariant Valid() && clock <= at <= until && retries == old(retries)
        invariant IsTerminal(old(watch.state)) ==> IsTerminal(watch.state)
        invariant watch.retryPoint == old(watch.retryPoint) && watch.retryUnix == old(watch.retryUnix) && watch.notedPoint == old(watch.notedPoint)
      {
        at := if writes[i].at < at then at else if writes[i].at > until then until else writes[i].at;
        Write(writes[i].next, at);
      }
      clock := until;
    }

    // One tick: the row is listed, others write, maybeMarkPendingOpenStuck looks at the
    // listed row at this time, others write, the retry is recorded. Every write the check
    // makes carries the state that was listed; a row closed meanwhile refuses it. It
    // retries exactly for the initiator of a signed dual-funded session whose channel, for
    // at least twenty minutes since the row was last written, has been opening without a
    // confirmation and not seen outside; the written cooldown adds nothing to that.
    method CheckStuck(listedAt: int, before: seq<OtherWrite>, s: Sighting, now: int, between: seq<OtherWrite>, publishedAt: int)
      returns (retried: bool)
      requires Valid() && clock <= listedAt <= now <= publishedAt
      modifies this
      ensures Valid() && clock == publishedAt
      ensures retried <==>
                && terms.role == Initiator && terms.dual && terms.signed
                && old(watch.state) == PendingOpen && now - old(watch.updatedAt) >= 1_200_000_000_000
                && s.confirmationHeight <= 0 && s.confirmationsLeft != 0 && s.opening && s.point != ""
                && !(s.externalChecked && s.externalSeen)
      ensures retries == old(retries) + (if retried then [now] else [])
      ensures retried && !IsTerminal(watch.state) ==> watch.retryPoint == s.point && watch.retryUnix == now / 1_000_000_000
      ensures !retried ==> watch.retryPoint == old(watch.retryPoint) && watch.retryUnix == old(watch.retryUnix)
      ensures !IsTerminal(watch.state) ==> watch.notedPoint == if IsStuck(old(watch), s, now) then s.point else old(watch.notedPoint)
    {
      hide Spaced;
      if IsStuck(watch, s, now) {
        CooldownNeverDecides(s, now);
      }
      var listed := watch;
      retried := false;
      Others(before, listedAt, now);
      if IsStuck(listed, s, now) && listed.notedPoint != s.point {
        Note(listed.state, s.point, now);
      }
      Others(between, now, publishedAt);
      if !IsStuck(listed, s, now) {
        return;
      }
      var cooling := CoolingDown(listed, s, now);
      if terms.role != Initiator || !terms.dual || (s.externalChecked && s.externalSeen) || !terms.signed || cooling {
        return;
      }
      retried := true;
      Retry(listed, s.point, now, publishedAt);
    }

    // The same-state transition that notes the stuck channel.
    method Note(state: State, point: string, at: int)
      requires Valid() && clock <= at && !IsTerminal(state)
      modifies this
      ensures Valid() && clock == at && retries == old(retries)
      ensures watch == if Admits(old(watch.state), state) then old(watch).(state := state, updatedAt := at, notedPoint := point) else old(watch)
    {
      if Admits(watch.state, state) {
        watch := watch.(state := state, updatedAt := at, notedPoint := point);
      }
      clock := at;
    }

    // The publish and the same-state transition that records it.
    method Retry(listed: Watch, point: string, now: int, at: int)
      requires Valid() && now <= clock <= at && !IsTerminal(listed.state)
      requires retries != [] ==> now - retries[|retries| - 1] >= 1_200_000_000_000
      modifies this
      ensures Valid() && clock == at && retries == old(retries) + [now]
      ensures watch == if Admits(old(watch.state), listed.state)
                       then Watch(listed.state, at, old(watch.notedPoint), point, now / 1_000_000_000)
                       else old(watch)
    {
      retries := retries + [now];
      if Admits(watch.state, listed.state) {
        watch := Watch(listed.state, at, watch.notedPoint, point, now / SECOND);
      }
      clock := at;
    }
  }
}
