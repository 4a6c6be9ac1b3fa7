/** Idempotency keys: a submission of the same client order id by the same user within
    the window is a duplicate. */
module Dedup {
  import opened Base

  const DEFAULT_TTL: Time := 15 * MINUTE

  const NUL: char := '\U{0000}'

  /** The text that is hashed into a map key. The hash itself is taken to be injective. */
  function HashInput(email: string, clientOrderId: string): string {
    email + [NUL] + clientOrderId
  }

  predicate NulFree(s: string) {
    NUL !in s
  }

  /** Users without a NUL in their address never share a key. */
  lemma HashInputInjective(e1: string, k1: string, e2: string, k2: string)
    requires NulFree(e1) && NulFree(e2)
    ensures HashInput(e1, k1) == HashInput(e2, k2) <==> e1 == e2 && k1 == k2
  {
    var h1, h2 := HashInput(e1, k1), HashInput(e2, k2);
    if |e1| < |e2| {
      ShorterEmailDiffers(e1, k1, e2, k2);
    } else if |e2| < |e1| {
      ShorterEmailDiffers(e2, k2, e1, k1);
    } else if h1 == h2 {
      assert e1 == h1[..|e1|] == h2[..|e2|] == e2;
      assert k1 == h1[|e1| + 1..] == h2[|e2| + 1..] == k2;
    }
  }

  lemma ShorterEmailDiffers(e1: string, k1: string, e2: string, k2: string)
    requires |e1| < |e2| && NulFree(e2)
    ensures HashInput(e1, k1) != HashInput(e2, k2)
  {
    assert HashInput(e1, k1)[|e1|] == NUL;
    assert HashInput(e2, k2)[|e1|] == e2[|e1|];
  }

  /** The separator isolates a user from every NUL-free user exactly when the user's own
      address has no NUL. */
  lemma IsolatedIff(email: string)
    ensures NulFree(email) <==>
              forall other: string, k1: string, k2: string ::
                NulFree(other) && HashInput(email, k1) == HashInput(other, k2) ==> email == other
  {
    if NulFree(email) {
      forall other: string, k1: string, k2: string | NulFree(other) && HashInput(email, k1) == HashInput(other, k2)
        ensures email == other
      {
        HashInputInjective(email, k1, other, k2);
      }
    } else {
      var p := FirstNul(email);
      var other, k2 := email[..p], email[p + 1..] + [NUL];
      assert HashInput(email, "") == HashInput(other, k2);
    }
  }

  lemma FirstNul(s: string) returns (p: nat)
    requires !NulFree(s)
    ensures p < |s| && s[p] == NUL && NulFree(s[..p])
  {
    p := 0;
    while s[p] != NUL
      invariant p < |s| && NulFree(s[..p]) && NUL in s[p..]
      decreases |s| - p
    {
      assert s[p..] == [s[p]] + s[p + 1..];
      assert s[..p + 1] == s[..p] + [s[p]];
      p := p + 1;
    }
  }

  predicate Seen(entries: map<string, Time>, ttl: Time, key: string, now: Time) {
    key in entries && now - entries[key] < ttl
  }

  function Added(entries: map<string, Time>, ttl: Time, key: string, now: Time): map<string, Time> {
    if Seen(entries, ttl, key, now) then entries else entries[key := now]
  }

  function Swept(entries: map<string, Time>, ttl: Time, now: Time): map<string, Time> {
    map k | k in entries && now - entries[k] < ttl :: entries[k]
  }

  class Dedup {
    var entries: map<string, Time>
    const ttl: Time

    constructor (ttl: Time)
      ensures entries == map[]
      ensures this.ttl == if ttl <= 0 then DEFAULT_TTL else ttl
    {
      this.entries := map[];
      this.ttl := if ttl <= 0 then DEFAULT_TTL else ttl;
    }

    method SeenOrAdd(email: string, clientOrderId: string, now: Time) returns (seen: bool)
      modifies this
      ensures seen == Seen(old(entries), ttl, HashInput(email, clientOrderId), now)
      ensures entries == Added(old(entries), ttl, HashInput(email, clientOrderId), now)
    {
      var key := HashInput(email, clientOrderId);
      if key in entries {
        if now - entries[key] < ttl {
          return true;
        }
      }
      entries := entries[key := now];
      return false;
    }

    /** The sweep visits the keys in no particular order. */
    method Cleanup(now: Time)
      modifies this
      ensures entries == Swept(old(entries), ttl, now)
    {
      var todo := entries.Keys;
      while todo != {}
        invariant todo <= entries.Keys <= old(entries).Keys
        invariant forall k :: k in entries ==> entries[k] == old(entries)[k]
        invariant forall k :: k in entries && k !in todo ==> now - entries[k] < ttl
        invariant forall k :: k in old(entries) && k !in entries ==> now - old(entries)[k] >= ttl
        decreases todo
      {
        var k :| k in todo;
        todo := todo - {k};
        if now - entries[k] >= ttl {
          entries := entries - {k};
        }
      }
    }
  }

  // --- Whole runs ---

  datatype Call = Submit(key: string, at: Time) | Cleanup(at: Time)

  datatype Answer = Fresh | Duplicate | Done

  /** The map after a run of calls from the empty map. Each call takes the mutex, so any
      interleaving of callers is such a run. */
  function Entries(calls: seq<Call>, ttl: Time): map<string, Time> {
    if calls == [] then map[]
    else
      var before := Entries(calls[..|calls| - 1], ttl);
      match calls[|calls| - 1]
      case Submit(key, at) => Added(before, ttl, key, at)
      case Cleanup(at) => Swept(before, ttl, at)
  }

  /** The answer that the i-th call of a run receives. */
  function AnswerOf(calls: seq<Call>, ttl: Time, i: nat): Answer
    requires i < |calls|
  {
    match calls[i]
    case Submit(key, at) => if Seen(Entries(calls[..i], ttl), ttl, key, at) then Duplicate else Fresh
    case Cleanup(_) => Done
  }

  ghost predicate InOrder(calls: seq<Call>) {
    forall i, j :: 0 <= i < j < |calls| ==> calls[i].at <= calls[j].at
  }

  /** Call i was a first submission of the key, at the given instant. */
  ghost predicate FirstSubmission(calls: seq<Call>, ttl: Time, i: nat, key: string, at: Time) {
    i < |calls| && AnswerOf(calls, ttl, i).Fresh? && calls[i] == Submit(key, at)
  }

  /** A first submission of the key within the window. */
  ghost predicate LiveFirst(calls: seq<Call>, ttl: Time, key: string, now: Time, at: Time) {
    now - at < ttl && exists i :: FirstSubmission(calls, ttl, i, key, at)
  }

  lemma FirstSubmissionFront(calls: seq<Call>, ttl: Time, key: string, at: Time)
    requires calls != []
    ensures var n := |calls| - 1;
            (exists i :: FirstSubmission(calls, ttl, i, key, at)) <==>
              (exists i :: FirstSubmission(calls[..n], ttl, i, key, at)) || FirstSubmission(calls, ttl, n, key, at)
  {
    var n := |calls| - 1;
    forall i: nat | i < n
      ensures FirstSubmission(calls, ttl, i, key, at) <==> FirstSubmission(calls[..n], ttl, i, key, at)
    {
      assert calls[..n][..i] == calls[..i];
    }
  }

  /** The map records exactly the first submissions that are still within the window. */
  lemma {:induction false} EntriesAreLiveFirsts(calls: seq<Call>, ttl: Time, key: string, now: Time)
    requires InOrder(calls) && forall i :: 0 <= i < |calls| ==> calls[i].at <= now
    ensures forall at :: LiveFirst(calls, ttl, key, now, at) <==>
              now - at < ttl && Get(Entries(calls, ttl), key) == Some(at)
  {
    if calls != [] {
      var n := |calls| - 1;
      var front, last := calls[..n], calls[n];
      EntriesAreLiveFirsts(front, ttl, key, last.at);
      forall at
        ensures LiveFirst(calls, ttl, key, now, at) <==> now - at < ttl && Get(Entries(calls, ttl), key) == Some(at)
      {
        FirstSubmissionFront(calls, ttl, key, at);
        hide FirstSubmission, Entries;
        assert LiveFirst(front, ttl, key, last.at, at) <==>
          last.at - at < ttl && Get(Entries(front, ttl), key) == Some(at);
        LastCall(calls, ttl, key, at);
      }
    }
  }

  /** What the last call of a run does to one key. */
  lemma LastCall(calls: seq<Call>, ttl: Time, key: string, at: Time)
    requires calls != []
    ensures var n := |calls| - 1;
            var before, last := Entries(calls[..n], ttl), calls[n];
            && (FirstSubmission(calls, ttl, n, key, at) <==> last == Submit(key, at) && !Seen(before, ttl, key, at))
            && Get(Entries(calls, ttl), key) ==
                 (match last
                  case Submit(k, t) => if k == key && !Seen(before, ttl, key, t) then Some(t) else Get(before, key)
                  case Cleanup(t) => if Seen(before, ttl, key, t) then Get(before, key) else None)
  {
  }

  /** At most once, in every run: the map answers as a scan of the full submission history
      would, so two first submissions of one key are at least the window apart. */
  lemma AtMostOncePerWindow(calls: seq<Call>, ttl: Time, j: nat)
    requires InOrder(calls) && j < |calls| && calls[j].Submit?
    ensures AnswerOf(calls, ttl, j).Duplicate? <==>
              exists i: nat, at :: i < j && FirstSubmission(calls, ttl, i, calls[j].key, at) && calls[j].at - at < ttl
    ensures AnswerOf(calls, ttl, j).Fresh? ==>
              forall i: nat, at :: i < j && FirstSubmission(calls, ttl, i, calls[j].key, at) ==> calls[j].at - at >= ttl
  {
    var front, key, now := calls[..j], calls[j].key, calls[j].at;
    EntriesAreLiveFirsts(front, ttl, key, now);
    assert forall i :: 0 <= i < j ==> front[..i] == calls[..i];
    assert forall i, at :: 0 <= i < j ==>
      (FirstSubmission(front, ttl, i, key, at) <==> FirstSubmission(calls, ttl, i, key, at));
    if AnswerOf(calls, ttl, j).Duplicate? {
      assert LiveFirst(front, ttl, key, now, Entries(front, ttl)[key]);
    }
    forall i: nat, at | i < j && FirstSubmission(calls, ttl, i, key, at) && now - at < ttl
      ensures AnswerOf(calls, ttl, j).Duplicate?
    {
      assert LiveFirst(front, ttl, key, now, at);
    }
  }

  // --- Sweeping is invisible ---

  function Submissions(calls: seq<Call>): seq<Call> {
    if calls == [] then []
    else Submissions(calls[..|calls| - 1]) + if calls[|calls| - 1].Submit? then [calls[|calls| - 1]] else []
  }

  /** The swept map and the map that is never swept differ in expired entries only. */
  ghost predicate Simulates(swept: map<string, Time>, full: map<string, Time>, ttl: Time, now: Time) {
    && (forall k :: k in swept ==> k in full && full[k] == swept[k])
    && (forall k :: k in full && k !in swept ==> now - full[k] >= ttl)
  }

  lemma {:induction false} SweepingSimulates(calls: seq<Call>, ttl: Time, now: Time)
    requires InOrder(calls) && forall i :: 0 <= i < |calls| ==> calls[i].at <= now
    ensures Simulates(Entries(calls, ttl), Entries(Submissions(calls), ttl), ttl, now)
  {
    if calls != [] {
      var n := |calls| - 1;
      var front, last := calls[..n], calls[n];
      SweepingSimulates(front, ttl, last.at);
      if last.Submit? {
        var s := Submissions(front) + [last];
        assert s[..|s| - 1] == Submissions(front);
        assert Seen(Entries(front, ttl), ttl, last.key, last.at) <==>
          Seen(Entries(Submissions(front), ttl), ttl, last.key, last.at);
      } else {
        assert Submissions(calls) == Submissions(front);
      }
    }
  }

  /** Sweeps may be inserted anywhere in a run without changing any answer: each submission
      is answered as in the run that has the same earlier submissions and no sweep. */
  lemma CleanupIsInvisible(calls: seq<Call>, ttl: Time, i: nat)
    requires InOrder(calls) && i < |calls| && calls[i].Submit?
    ensures var earlier := Submissions(calls[..i]);
            AnswerOf(calls, ttl, i) == AnswerOf(earlier + [calls[i]], ttl, |earlier|)
  {
    SweepingSimulates(calls[..i], ttl, calls[i].at);
    var earlier := Submissions(calls[..i]);
    assert (earlier + [calls[i]])[..|earlier|] == earlier;
  }
}
