/** Sliding windows over time-stamped logs. A window is the part of a full log that
    prefix pruning has left; these lemmas say when it answers like the full log. */
module Windows {
  import opened Base

  /** The simple form: every stamp that is not before the cutoff. */
  function Since<T>(log: seq<Stamp<T>>, cutoff: Time): seq<Stamp<T>> {
    if log == [] then []
    else if log[0].at < cutoff then Since(log[1..], cutoff)
    else [log[0]] + Since(log[1..], cutoff)
  }

  /** The fast form: drop stamps from the front while they are before the cutoff. */
  function DropStale<T>(window: seq<Stamp<T>>, cutoff: Time): seq<Stamp<T>> {
    if window != [] && window[0].at < cutoff then DropStale(window[1..], cutoff) else window
  }

  ghost predicate Sorted<T>(log: seq<Stamp<T>>) {
    forall i, j :: 0 <= i < j < |log| ==> log[i].at <= log[j].at
  }

  /** No stamp lies after the given instant. */
  ghost predicate Until<T>(log: seq<Stamp<T>>, now: Time) {
    forall i :: 0 <= i < |log| ==> log[i].at <= now
  }

  /** The window is a suffix of the log, and everything cut off is before the cutoff. */
  ghost predicate Tail<T>(window: seq<Stamp<T>>, log: seq<Stamp<T>>, cutoff: Time) {
    && |window| <= |log|
    && window == log[|log| - |window|..]
    && forall i :: 0 <= i < |log| - |window| ==> log[i].at < cutoff
  }

  /** The pruning loop of every windowed check. */
  method Prune<T>(window: seq<Stamp<T>>, cutoff: Time) returns (kept: seq<Stamp<T>>)
    ensures kept == DropStale(window, cutoff)
  {
    var start := 0;
    while start < |window| && window[start].at < cutoff
      invariant 0 <= start <= |window|
      invariant DropStale(window[start..], cutoff) == DropStale(window, cutoff)
    {
      assert window[start..][1..] == window[start + 1..];
      start := start + 1;
    }
    kept := window[start..];
  }

  lemma {:induction false} SinceAppend<T>(a: seq<Stamp<T>>, b: seq<Stamp<T>>, cutoff: Time)
    ensures Since(a + b, cutoff) == Since(a, cutoff) + Since(b, cutoff)
  {
    if a == [] {
      assert a + b == b;
    } else {
      SinceAppend(a[1..], b, cutoff);
      assert (a + b)[0] == a[0] && (a + b)[1..] == a[1..] + b;
    }
  }

  lemma {:induction false} SinceAllStale<T>(log: seq<Stamp<T>>, cutoff: Time)
    requires forall i :: 0 <= i < |log| ==> log[i].at < cutoff
    ensures Since(log, cutoff) == []
  {
    if log != [] {
      SinceAllStale(log[1..], cutoff);
    }
  }

  lemma {:induction false} SinceAllFresh<T>(log: seq<Stamp<T>>, cutoff: Time)
    requires forall i :: 0 <= i < |log| ==> cutoff <= log[i].at
    ensures Since(log, cutoff) == log
  {
    if log != [] {
      SinceAllFresh(log[1..], cutoff);
      assert log == [log[0]] + log[1..];
    }
  }

  /** A later cutoff keeps fewer stamps: windows only shrink while nothing is appended. */
  lemma {:induction false} SinceShrinks<T>(log: seq<Stamp<T>>, early: Time, late: Time)
    requires early <= late
    ensures |Since(log, late)| <= |Since(log, early)|
    ensures Since(Since(log, early), late) == Since(log, late)
  {
    if log != [] {
      SinceShrinks(log[1..], early, late);
      if early <= log[0].at {
        assert Since(log, early)[1..] == Since(log[1..], early);
      }
    }
  }

  /** Prefix pruning is filtering exactly when no stale stamp hides behind a fresh one. */
  lemma {:induction false} PruneIsFilterIff<T>(window: seq<Stamp<T>>, cutoff: Time)
    ensures DropStale(window, cutoff) == Since(window, cutoff) <==>
              forall i, j :: 0 <= i < j < |window| && window[j].at < cutoff ==> window[i].at < cutoff
  {
    if window == [] {
    } else if window[0].at < cutoff {
      PruneIsFilterIff(window[1..], cutoff);
      forall i, j | 0 <= i < j < |window[1..]|
        ensures window[1..][i] == window[i + 1] && window[1..][j] == window[j + 1]
      {}
      if forall i, j :: 0 <= i < j < |window[1..]| && window[1..][j].at < cutoff ==> window[1..][i].at < cutoff {
        forall i, j | 0 <= i < j < |window| && window[j].at < cutoff ensures window[i].at < cutoff {
          if i > 0 {
            assert window[1..][j - 1].at < cutoff ==> window[1..][i - 1].at < cutoff;
          }
        }
      }
    } else if exists j :: 0 < j < |window| && window[j].at < cutoff {
      var j :| 0 < j < |window| && window[j].at < cutoff;
      SinceDropsOne(window, cutoff, j);
    } else {
      SinceAllFresh(window, cutoff);
    }
  }

  lemma {:induction false} SinceDropsOne<T>(log: seq<Stamp<T>>, cutoff: Time, j: nat)
    requires j < |log| && log[j].at < cutoff
    ensures |Since(log, cutoff)| < |log|
  {
    SinceAppend(log[..j], log[j..], cutoff);
    assert log[..j] + log[j..] == log;
    SinceNoLonger(log[..j], cutoff);
    SinceNoLonger(log[j..][1..], cutoff);
  }

  lemma {:induction false} SinceNoLonger<T>(log: seq<Stamp<T>>, cutoff: Time)
    ensures |Since(log, cutoff)| <= |log|
  {
    if log != [] {
      SinceNoLonger(log[1..], cutoff);
    }
  }

  lemma TailKeepsOrder<T>(window: seq<Stamp<T>>, log: seq<Stamp<T>>, cutoff: Time)
    requires Sorted(log) && Tail(window, log, cutoff)
    ensures Sorted(window)
  {
    var n := |log| - |window|;
    assert forall i :: 0 <= i < |window| ==> window[i] == log[n + i];
  }

  lemma SinceTail<T>(window: seq<Stamp<T>>, log: seq<Stamp<T>>, before: Time, cutoff: Time)
    requires Tail(window, log, before) && before <= cutoff
    ensures Since(window, cutoff) == Since(log, cutoff)
  {
    var n := |log| - |window|;
    assert log == log[..n] + window;
    SinceAppend(log[..n], window, cutoff);
    SinceAllStale(log[..n], cutoff);
  }

  lemma TailTransitive<T>(kept: seq<Stamp<T>>, window: seq<Stamp<T>>, log: seq<Stamp<T>>, before: Time, cutoff: Time)
    requires Tail(kept, window, cutoff) && Tail(window, log, before) && before <= cutoff
    ensures Tail(kept, log, cutoff)
  {
    var n, m := |log| - |window|, |log| - |kept|;
    assert forall i :: 0 <= i < |window| ==> window[i] == log[n + i];
    forall i | 0 <= i < m ensures log[i].at < cutoff {
      if i >= n {
        assert log[i] == window[i - n];
      }
    }
  }

  /** Pruning what is left of a sorted log answers like filtering the whole log, however
      many earlier prunings there were. */
  lemma PruneAnswersForLog<T>(window: seq<Stamp<T>>, log: seq<Stamp<T>>, before: Time, cutoff: Time)
    requires Sorted(log) && Tail(window, log, before) && before <= cutoff
    ensures DropStale(window, cutoff) == Since(log, cutoff)
    ensures Tail(DropStale(window, cutoff), log, cutoff)
  {
    hide Tail;
    TailKeepsOrder(window, log, before);
    PruneIsFilterIff(window, cutoff);
    SinceTail(window, log, before, cutoff);
    DropStaleIsTail(window, cutoff);
    TailTransitive(DropStale(window, cutoff), window, log, before, cutoff);
  }

  lemma {:induction false} DropStaleIsTail<T>(window: seq<Stamp<T>>, cutoff: Time)
    ensures Tail(DropStale(window, cutoff), window, cutoff)
  {
    if window != [] && window[0].at < cutoff {
      DropStaleIsTail(window[1..], cutoff);
      var kept := DropStale(window, cutoff);
      assert kept == window[|window| - |kept|..];
      forall i | 0 <= i < |window| - |kept| ensures window[i].at < cutoff {
        if i > 0 {
          assert window[i] == window[1..][i - 1];
        }
      }
    }
  }

  lemma OrderedAppend<T>(log: seq<Stamp<T>>, now: Time, e: Stamp<T>)
    requires Sorted(log) && Until(log, now) && e.at == now
    ensures Sorted(log + [e]) && Until(log + [e], now)
  {
  }

  /** Appending the newest event to the log and to its window keeps them aligned. */
  lemma TailAppend<T>(window: seq<Stamp<T>>, log: seq<Stamp<T>>, cutoff: Time, e: Stamp<T>)
    requires Tail(window, log, cutoff)
    ensures Tail(window + [e], log + [e], cutoff)
  {
    var w, l := window + [e], log + [e];
    assert |l| - |w| == |log| - |window|;
    assert w == l[|l| - |w|..];
    forall i | 0 <= i < |l| - |w| ensures l[i].at < cutoff {
      assert l[i] == log[i];
    }
  }
}
