/** The per-chat sliding-window rate limiter of `DRChoirBot.check_rate_limit`,
    as functions on the tracker map (chat id to the instants of its accepted
    requests). Instants are integers in microseconds, the resolution of
    Python's `datetime`; the caller supplies `now`. */
module RateWindow {

  /** `timedelta(hours=1)` in microseconds. */
  const Window: int := 3_600_000_000

  /** A chat may have at most this many accepted requests in the window. */
  const Limit: nat := 100

  type Tracker = map<int, seq<int>>

  /** The instants stored for `chat`; a chat with no entry has none. */
  function Stored(tracker: Tracker, chat: int): seq<int> {
    if chat in tracker then tracker[chat] else []
  }

  /** The list comprehension that keeps the instants strictly newer than
      `cutoff`, in their original order. */
  function Prune(times: seq<int>, cutoff: int): (r: seq<int>)
    ensures |r| <= |times|
    ensures forall k :: 0 <= k < |r| ==> r[k] > cutoff
    ensures (forall k :: 0 <= k < |times| ==> times[k] > cutoff) ==> r == times
  {
    if times == [] then []
    else
      var last := times[|times| - 1];
      Prune(times[..|times| - 1], cutoff) + (if last > cutoff then [last] else [])
  }

  /** An instant survives pruning iff it was stored and is newer than the
      cutoff. */
  lemma {:induction false} PruneKeepsExactlyNewer(times: seq<int>, cutoff: int, t: int)
    ensures t in Prune(times, cutoff) <==> t in times && t > cutoff
  {
    if times != [] {
      var init := times[..|times| - 1];
      PruneKeepsExactlyNewer(init, cutoff, t);
      assert times == init + [times[|times| - 1]];
    }
  }

  /** Pruning a concatenation prunes each part: together with the one-element
      case this pins down the order and the multiplicity of what is kept. */
  lemma {:induction false} PruneConcat(a: seq<int>, b: seq<int>, cutoff: int)
    ensures Prune(a + b, cutoff) == Prune(a, cutoff) + Prune(b, cutoff)
  {
    if b != [] {
      var b' := b[..|b| - 1];
      assert (a + b)[..|a + b| - 1] == a + b';
      PruneConcat(a, b', cutoff);
    } else {
      assert a + b == a;
    }
  }

  /** The answer of one call and the chat's list after it. */
  datatype Verdict = Verdict(allowed: bool, kept: seq<int>)

  /** One call on one chat's list at instant `now`: prune, refuse when 100 or
      more remain, otherwise record `now` and accept. The pruned list is kept
      on both paths. */
  function Check(stored: seq<int>, now: int): (v: Verdict)
    ensures v.allowed <==> |Prune(stored, now - Window)| < Limit
    ensures v.kept == Prune(stored, now - Window) + (if v.allowed then [now] else [])
    ensures forall k :: 0 <= k < |v.kept| ==> v.kept[k] > now - Window
    ensures |stored| <= Limit ==> |v.kept| <= Limit
  {
    var pruned := Prune(stored, now - Window);
    if |pruned| >= Limit then Verdict(false, pruned) else Verdict(true, pruned + [now])
  }

  /** The answer of one call and the whole tracker after it. */
  datatype Admission = Admission(allowed: bool, tracker: Tracker)

  /** One call of `check_rate_limit(chat)` at instant `now`: a chat without an
      entry starts from an empty list, the chat's list becomes what `Check`
      keeps, and no other chat's entry changes. */
  function Admit(tracker: Tracker, chat: int, now: int): (a: Admission)
    ensures a.tracker.Keys == tracker.Keys + {chat}
    ensures forall c :: c in tracker && c != chat ==> a.tracker[c] == tracker[c]
    ensures a.allowed == Check(Stored(tracker, chat), now).allowed
    ensures a.tracker[chat] == Check(Stored(tracker, chat), now).kept
  {
    var v := Check(Stored(tracker, chat), now);
    Admission(v.allowed, tracker[chat := v.kept])
  }

  /** Every chat holds at most `Limit` instants. */
  ghost predicate WithinLimit(tracker: Tracker) {
    forall c :: c in tracker ==> |tracker[c]| <= Limit
  }

  /** A call keeps every chat within the limit. */
  lemma AdmitKeepsWithinLimit(tracker: Tracker, chat: int, now: int)
    requires WithinLimit(tracker)
    ensures WithinLimit(Admit(tracker, chat, now).tracker)
  {
    var a := Admit(tracker, chat, now);
    assert |Stored(tracker, chat)| <= Limit;
    forall c | c in a.tracker
      ensures |a.tracker[c]| <= Limit
    {
    }
  }

  /** Once every stored instant is an hour old or older, the next call is
      accepted and leaves `now` as the only instant. */
  lemma WindowExpiry(stored: seq<int>, now: int)
    requires forall k :: 0 <= k < |stored| ==> stored[k] <= now - Window
    ensures Check(stored, now) == Verdict(true, [now])
  {
    PruneAllOld(stored, now - Window);
  }

  /** An instant at or before the cutoff is dropped, so pruning shortens the
      list. */
  lemma {:induction false} PruneDropsOld(times: seq<int>, cutoff: int, k: nat)
    requires k < |times| && times[k] <= cutoff
    ensures |Prune(times, cutoff)| < |times|
  {
    if k < |times| - 1 {
      PruneDropsOld(times[..|times| - 1], cutoff, k);
    }
  }

  /** The window slides: a chat within the limit is accepted again as soon as
      any one of its stored instants, in particular the earliest, is an hour
      old, whether or not the others have aged out. */
  lemma SlidingRelease(stored: seq<int>, now: int, k: nat)
    requires |stored| <= Limit && k < |stored| && stored[k] <= now - Window
    ensures Check(stored, now).allowed
  {
    PruneDropsOld(stored, now - Window, k);
  }

  /** Nothing survives pruning when every instant is at or before the cutoff. */
  lemma {:induction false} PruneAllOld(times: seq<int>, cutoff: int)
    requires forall k :: 0 <= k < |times| ==> times[k] <= cutoff
    ensures Prune(times, cutoff) == []
  {
    if times != [] {
      PruneAllOld(times[..|times| - 1], cutoff);
    }
  }

  /** The answers of successive calls at instants `nows` on one chat whose
      list is `stored`. */
  function Replay(stored: seq<int>, nows: seq<int>): (r: seq<bool>)
    ensures |r| == |nows|
    decreases nows
  {
    if nows == [] then []
    else
      var v := Check(stored, nows[0]);
      [v.allowed] + Replay(v.kept, nows[1..])
  }

  /** Every instant of `nows` lies in the hour starting at `lo`. */
  ghost predicate InHour(nows: seq<int>, lo: int) {
    forall j :: 0 <= j < |nows| ==> lo <= nows[j] < lo + Window
  }

  /** Every instant of `stored` is at or after `lo`. */
  ghost predicate NotBefore(stored: seq<int>, lo: int) {
    forall i :: 0 <= i < |stored| ==> stored[i] >= lo
  }

  /** A call on a list that lies inside the window prunes nothing: it is
      accepted iff fewer than 100 instants are stored, and then appends `now`. */
  lemma CheckInsideWindow(stored: seq<int>, now: int)
    requires forall i :: 0 <= i < |stored| ==> stored[i] > now - Window
    ensures Check(stored, now).allowed <==> |stored| < Limit
    ensures Check(stored, now).kept == stored + (if |stored| < Limit then [now] else [])
  {
    assert Prune(stored, now - Window) == stored;
  }

  /** Calls inside one hour, starting from stored instants no older than
      that hour, are accepted until the chat reaches the limit and refused
      from then on. */
  lemma {:induction false} ReplayWithinHour(stored: seq<int>, nows: seq<int>, lo: int)
    requires InHour(nows, lo) && NotBefore(stored, lo)
    requires |stored| <= Limit
    ensures forall i :: 0 <= i < |nows| ==> (Replay(stored, nows)[i] <==> |stored| + i < Limit)
    decreases nows
  {
    if nows != [] {
      CheckInsideWindow(stored, nows[0]);
      var next := Check(stored, nows[0]).kept;
      assert InHour(nows[1..], lo);
      ReplayWithinHour(next, nows[1..], lo);
      var r := Replay(stored, nows);
      var r' := Replay(next, nows[1..]);
      forall i | 0 <= i < |nows|
        ensures r[i] <==> |stored| + i < Limit
      {
        if i > 0 {
          assert r[i] == r'[i - 1];
        }
      }
    }
  }

  /** A chat with no recent requests (every stored instant is an hour or
      more before the burst starts) that sends a burst inside one hour gets
      its first 100 requests accepted and every later one refused. */
  lemma BurstFromIdle(stored: seq<int>, nows: seq<int>, lo: int)
    requires forall k :: 0 <= k < |stored| ==> stored[k] <= lo - Window
    requires InHour(nows, lo)
    ensures forall i :: 0 <= i < |nows| ==> (Replay(stored, nows)[i] <==> i < Limit)
  {
    ReplayWithinHour([], nows, lo);
    if nows != [] {
      WindowExpiry(stored, nows[0]);
      WindowExpiry([], nows[0]);
      assert Replay(stored, nows) == Replay([], nows);
    }
  }

  /** The list comprehension as the loop it runs: visit the instants in order
      and keep those newer than `cutoff`. */
  method KeepNewer(times: seq<int>, cutoff: int) returns (kept: seq<int>)
    ensures kept == Prune(times, cutoff)
  {
    kept := [];
    var i := 0;
    while i < |times|
      invariant 0 <= i <= |times|
      invariant kept == Prune(times[..i], cutoff)
    {
      assert times[..i + 1][..i] == times[..i];
      if times[i] > cutoff {
        kept := kept + [times[i]];
      }
      i := i + 1;
    }
    assert times[..i] == times;
  }
}
