/** Values shared by every part of the model: instants, optional values, stamped
    events and the lower-casing of e-mail addresses. */
module Base {

  /** An instant, in nanoseconds since the Unix epoch. Clocks are parameters of the
      operations that read them. */
  type Time = int

  const SECOND: Time := 1_000_000_000
  const MINUTE: Time := 60 * SECOND
  const HOUR: Time := 60 * MINUTE
  const DAY: Time := 24 * HOUR

  /** Whole seconds since the epoch, rounded down. */
  function Seconds(t: Time): int {
    t / 1_000_000_000
  }

  /** A duration of so many seconds. */
  function Span(seconds: int): Time {
    seconds * 1_000_000_000
  }

  datatype Option<+T> = None | Some(value: T)

  function Get<K, V>(m: map<K, V>, k: K): Option<V> {
    if k in m then Some(m[k]) else None
  }

  /** Something that happened at a known instant. */
  datatype Stamp<T> = Stamp(at: Time, item: T)

  function Max(a: int, b: int): int {
    if a < b then b else a
  }

  function LowerChar(c: char): char {
    if 'A' <= c <= 'Z' then (c as int + 32) as char else c
  }

  /** E-mail addresses are compared case-insensitively: every map is keyed by this. */
  function Lower(s: string): (r: string)
    ensures |r| == |s| && forall i :: 0 <= i < |s| ==> r[i] == LowerChar(s[i])
  {
    seq(|s|, i requires 0 <= i < |s| => LowerChar(s[i]))
  }

  /** The upper-case ASCII letters have the codes 65 to 90, and their lower-case forms stand
      32 places behind them. */
  predicate OneLetter(c: char, d: char) {
    c == d || (65 <= c as int <= 90 && d as int == c as int + 32) || (65 <= d as int <= 90 && c as int == d as int + 32)
  }

  /** Two spellings of one address. */
  predicate SameAddress(s: string, t: string) {
    |s| == |t| && forall i :: 0 <= i < |s| ==> OneLetter(s[i], t[i])
  }

  /** Normalising forgets the case of ASCII letters, and nothing else. */
  lemma SpellingsOfOneAddress(s: string, t: string)
    ensures Lower(s) == Lower(t) <==> SameAddress(s, t)
  {
    if Lower(s) == Lower(t) {
      forall i | 0 <= i < |s| ensures OneLetter(s[i], t[i]) {
        assert Lower(s)[i] == Lower(t)[i];
      }
    }
    if SameAddress(s, t) {
      forall i | 0 <= i < |s| ensures Lower(s)[i] == Lower(t)[i] {
        assert OneLetter(s[i], t[i]);
      }
    }
  }

  /** A key that was normalised once stays the same when it is normalised again. */
  lemma LowerIdempotent(s: string)
    ensures Lower(Lower(s)) == Lower(s)
  {
    forall i | 0 <= i < |s| ensures Lower(Lower(s))[i] == Lower(s)[i] {
      assert Lower(s)[i] == LowerChar(s[i]);
    }
  }
}
