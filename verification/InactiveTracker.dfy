// Since when each channel has been inactive: a map the client updates at every listing of
// its channels, which is a function of all listings so far.
module InactiveTracker {
  import opened Prelude

  // A listed channel by its normalised point.
  datatype Channel = Channel(point: string, active: bool)

  datatype Listing = Listing(channels: seq<Option<Channel>>, now: int)

  function Lookup(m: map<string, int>, key: string): Option<int> {
    if key in m then Some(m[key]) else None
  }

  predicate ListedAs(channels: seq<Option<Channel>>, key: string, active: bool) {
    exists i :: 0 <= i < |channels| && channels[i] == Some(Channel(key, active))
  }

  predicate Listed(channels: seq<Option<Channel>>, key: string) {
    ListedAs(channels, key, true) || ListedAs(channels, key, false)
  }

  // No channel is listed twice.
  predicate Distinct(channels: seq<Option<Channel>>) {
    forall i, j :: 0 <= i < j < |channels| && channels[i].Some? && channels[j].Some? ==> channels[i].value.point != channels[j].value.point
  }

  // ---- What the map should hold ------------------------------------------------------------

  predicate InactiveIn(l: Listing, key: string) {
    key != "" && ListedAs(l.channels, key, false)
  }

  predicate InactiveAt(history: seq<Listing>, key: string, i: int) {
    0 <= i < |history| && InactiveIn(history[i], key)
  }

  // The listings from the i-th on all show the channel inactive, and the one before does not.
  predicate UnbrokenSince(history: seq<Listing>, key: string, i: nat) {
    && i < |history|
    && (forall j :: i <= j < |history| ==> InactiveIn(history[j], key))
    && (i > 0 ==> !InactiveIn(history[i - 1], key))
  }

  ghost predicate InactiveSince(history: seq<Listing>, key: string, since: int) {
    exists i: nat :: UnbrokenSince(history, key, i) && history[i].now == since
  }

  // The map of a history: exactly the channels inactive in the last listing, each with the
  // time of the first listing of its present unbroken run of inactive listings.
  ghost predicate Reflects(m: map<string, int>, history: seq<Listing>) {
    && (forall key :: key in m <==> history != [] && InactiveIn(history[|history| - 1], key))
    && (forall key :: key in m ==> InactiveSince(history, key, m[key]))
  }

  // There is at most one such map.
  lemma ReflectionIsUnique(m: map<string, int>, n: map<string, int>, history: seq<Listing>)
    requires Reflects(m, history) && Reflects(n, history)
    ensures m == n
  {
    hide InactiveIn, InactiveSince;
    assert forall key :: key in m <==> key in n;
    forall key | key in m
      ensures m[key] == n[key]
    {
      SinceIsUnique(history, key, m[key], n[key]);
    }
  }

  lemma SinceIsUnique(history: seq<Listing>, key: string, s: int, t: int)
    requires InactiveSince(history, key, s) && InactiveSince(history, key, t)
    ensures s == t
  {
    hide InactiveIn;
    var i: nat :| UnbrokenSince(history, key, i) && history[i].now == s;
    var j: nat :| UnbrokenSince(history, key, j) && history[j].now == t;
    assert i < j ==> InactiveAt(history, key, j - 1);
    assert j < i ==> InactiveAt(history, key, i - 1);
  }

  // ---- The update ----------------------------------------------------------------------------

  // What one listed channel does to the map.
  function Note(m: map<string, int>, c: Option<Channel>, now: int): map<string, int> {
    if c.None? || c.value.point == "" then m
    else if c.value.active then m - {c.value.point}
    else if c.value.point in m then m
    else m[c.value.point := now]
  }

  function NoteAll(m: map<string, int>, channels: seq<Option<Channel>>, now: int): map<string, int> {
    if channels == [] then m
    else Note(NoteAll(m, channels[..|channels| - 1], now), channels[|channels| - 1], now)
  }

  // The map after a listing: noted, and forgotten what is not listed.
  function Updated(m: map<string, int>, l: Listing): map<string, int> {
    map key | key in NoteAll(m, l.channels, l.now) && key != "" && Listed(l.channels, key) :: NoteAll(m, l.channels, l.now)[key]
  }

  // The last word of a listing on a channel: that it is inactive.
  predicate InactiveLast(channels: seq<Option<Channel>>, key: string) {
    exists i :: 0 <= i < |channels| && channels[i] == Some(Channel(key, false)) && forall j :: i < j < |channels| ==> channels[j] != Some(Channel(key, true))
  }

  // What a listing makes of an entry, repeated channels included: the last word on it
  // decides, and any mention as active starts its time anew.
  lemma {:induction false} NotedInTurn(m: map<string, int>, channels: seq<Option<Channel>>, now: int, key: string)
    requires key != ""
    ensures Lookup(NoteAll(m, channels, now), key) ==
            if InactiveLast(channels, key) then Some(if key in m && !ListedAs(channels, key, true) then m[key] else now)
            else if ListedAs(channels, key, true) then None else Lookup(m, key)
  {
    if channels != [] {
      var n := |channels| - 1;
      var init, last := channels[..n], channels[n];
      NotedInTurn(m, init, now, key);
      assert forall i :: 0 <= i < n ==> init[i] == channels[i];
      assert ListedAs(channels, key, true) <==> ListedAs(init, key, true) || last == Some(Channel(key, true)) by {
        assert channels[n] == last;
      }
      assert InactiveLast(channels, key) <==> last == Some(Channel(key, false)) || (InactiveLast(init, key) && last != Some(Channel(key, true))) by {
        assert channels[n] == last;
      }
    }
  }

  // With every channel listed at most once, its own entry alone decides.
  lemma {:induction false} NotedAlone(m: map<string, int>, channels: seq<Option<Channel>>, now: int, key: string)
    requires Distinct(channels) && key != ""
    ensures ListedAs(channels, key, true) ==> Lookup(NoteAll(m, channels, now), key) == None
    ensures ListedAs(channels, key, false) ==> Lookup(NoteAll(m, channels, now), key) == Some(if key in m then m[key] else now)
    ensures !Listed(channels, key) ==> Lookup(NoteAll(m, channels, now), key) == Lookup(m, key)
  {
    if channels != [] {
      var init, last := channels[..|channels| - 1], channels[|channels| - 1];
      NotedAlone(m, init, now, key);
      assert forall active :: ListedAs(init, key, active) ==> ListedAs(channels, key, active);
      assert forall active :: ListedAs(channels, key, active) ==> ListedAs(init, key, active) || last == Some(Channel(key, active));
      if last.Some? && last.value.point == key {
        assert channels[|channels| - 1] == Some(Channel(key, last.value.active));
        assert !Listed(init, key);
      }
    }
  }

  // One listing takes the map of a history to the map of the longer history.
  lemma UpdateReflects(m: map<string, int>, history: seq<Listing>, l: Listing)
    requires Reflects(m, history) && Distinct(l.channels)
    ensures Reflects(Updated(m, l), history + [l])
  {
    var m', h' := Updated(m, l), history + [l];
    forall key
      ensures key in m' <==> InactiveIn(l, key)
      ensures key in m' ==> InactiveSince(h', key, m'[key])
    {
      UpdatedEntry(m, l, key);
      hide Updated, InactiveIn, InactiveSince;
      if key in m' {
        SinceContinues(m, history, l, key);
      }
    }
  }

  // What a listing makes of one entry.
  lemma UpdatedEntry(m: map<string, int>, l: Listing, key: string)
    requires Distinct(l.channels)
    ensures Lookup(Updated(m, l), key) == if InactiveIn(l, key) then Some(if key in m then m[key] else l.now) else None
  {
    if key != "" {
      NotedAlone(m, l.channels, l.now, key);
      NotBoth(l.channels, key);
    }
    hide NoteAll, ListedAs;
  }

  // An inactive channel that was inactive before keeps its time; one that was not starts now.
  lemma SinceContinues(m: map<string, int>, history: seq<Listing>, l: Listing, key: string)
    requires Reflects(m, history) && InactiveIn(l, key)
    ensures InactiveSince(history + [l], key, if key in m then m[key] else l.now)
  {
    hide InactiveIn;
    var h' := history + [l];
    if key in m {
      var i: nat :| UnbrokenSince(history, key, i) && history[i].now == m[key];
      assert UnbrokenSince(h', key, i) && h'[i].now == m[key];
    } else {
      assert UnbrokenSince(h', key, |history|) && h'[|history|].now == l.now;
    }
  }

  lemma NotBoth(channels: seq<Option<Channel>>, key: string)
    requires Distinct(channels)
    ensures !(ListedAs(channels, key, true) && ListedAs(channels, key, false))
  {
  }

  // The entry of a channel after a listing.
  function EntryAfter(m: map<string, int>, l: Listing, key: string): Option<int> {
    if key == "" || !InactiveLast(l.channels, key) then None
    else Some(if key in m && !ListedAs(l.channels, key, true) then m[key] else l.now)
  }

  lemma UpdatedInTurn(m: map<string, int>, l: Listing, key: string)
    ensures Lookup(Updated(m, l), key) == EntryAfter(m, l, key)
  {
    if key != "" {
      NotedInTurn(m, l.channels, l.now, key);
    }
    hide NoteAll;
  }

  predicate AllDistinct(history: seq<Listing>) {
    forall i :: 0 <= i < |history| ==> Distinct(history[i].channels)
  }

  lemma LongerIsDistinct(history: seq<Listing>, l: Listing)
    ensures AllDistinct(history + [l]) <==> AllDistinct(history) && Distinct(l.channels)
  {
    hide Distinct;
    var h := history + [l];
    assert forall i :: 0 <= i < |history| ==> h[i] == history[i];
    assert h[|history|] == l;
  }

  // ---- The client ------------------------------------------------------------------------------

  class ChannelTracker {
    var inactive: map<string, int>
    ghost var history: seq<Listing>

    ghost predicate Valid()
      reads this
    {
      AllDistinct(history) ==> Reflects(inactive, history)
    }

    constructor ()
      ensures Valid() && history == []
    {
      inactive, history := map[], [];
    }

    // snapshotInactiveSince
    method Snapshot(channels: seq<Option<Channel>>, now: int) returns (out: map<string, int>)
      requires Valid()
      modifies this
      ensures Valid() && history == old(history) + [Listing(channels, now)]
      ensures inactive == Updated(old(inactive), Listing(channels, now)) && out == inactive
      ensures forall key :: Lookup(out, key) == EntryAfter(old(inactive), Listing(channels, now), key)
    {
      hide AllDistinct, Distinct, Reflects, NoteAll, Listed;
      var seen := NoteListed(channels, now);
      ForgetUnseen(seen);
      assert inactive == Updated(old(inactive), Listing(channels, now));
      out := inactive;
      forall key
        ensures Lookup(out, key) == EntryAfter(old(inactive), Listing(channels, now), key)
      {
        UpdatedInTurn(old(inactive), Listing(channels, now), key);
      }
      hide InactiveLast, ListedAs;
      history := history + [Listing(channels, now)];
      hide Updated;
      LongerIsDistinct(old(history), Listing(channels, now));
      if AllDistinct(history) {
        UpdateReflects(old(inactive), old(history), Listing(channels, now));
      }
    }

    method NoteListed(channels: seq<Option<Channel>>, now: int) returns (seen: set<string>)
      modifies this`inactive
      ensures inactive == NoteAll(old(inactive), channels, now)
      ensures forall key :: key in seen <==> key != "" && Listed(channels, key)
    {
      seen := {};
      for i := 0 to |channels|
        invariant inactive == NoteAll(old(inactive), channels[..i], now)
        invariant forall key :: key in seen <==> key != "" && Listed(channels[..i], key)
      {
        assert channels[..i + 1][..i] == channels[..i];
        SeenStep(channels, i);
        hide Listed;
        var c := channels[i];
        if c.Some? && c.value.point != "" {
          seen := seen + {c.value.point};
          if c.value.active {
            inactive := inactive - {c.value.point};
          } else if c.value.point !in inactive {
            inactive := inactive[c.value.point := now];
          }
        }
      }
      assert channels[..|channels|] == channels;
    }

    // Go visits the map in any order and deletes as it goes.
    method ForgetUnseen(seen: set<string>)
      modifies this`inactive
      ensures inactive == map key | key in old(inactive) && key in seen :: old(inactive)[key]
    {
      var left := inactive.Keys;
      while left != {}
        invariant left <= old(inactive).Keys
        invariant inactive == map key | key in old(inactive) && (key in left || key in seen) :: old(inactive)[key]
        decreases |left|
      {
        var key :| key in left;
        left := left - {key};
        if key !in seen {
          inactive := inactive - {key};
        }
      }
    }
  }

  lemma SeenStep(channels: seq<Option<Channel>>, i: nat)
    requires i < |channels|
    ensures forall key :: Listed(channels[..i + 1], key) <==> Listed(channels[..i], key) || (channels[i].Some? && channels[i].value.point == key)
  {
    var s, t := channels[..i], channels[..i + 1];
    forall key, active
      ensures ListedAs(t, key, active) <==> ListedAs(s, key, active) || channels[i] == Some(Channel(key, active))
    {
      assert forall j :: 0 <= j < i ==> s[j] == t[j];
      assert t[i] == channels[i];
    }
  }
}
