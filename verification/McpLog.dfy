/**
 The MCP log panel: a replay of the newest file entries merged with the events that arrived while it
 was being read, followed by the events that arrive later.  Entries are compared by a key made of
 their fields.
 */
module McpLog {
  import opened Prelude

  type Key = string

  const REPLAY_LIMIT := 200

  datatype Entry = Entry(key: Key, shown: string)

  function Keys(es: seq<Entry>): (r: seq<Key>)
    ensures |r| == |es|
    ensures forall k | 0 <= k < |es| :: r[k] == es[k].key
  {
    seq(|es|, k requires 0 <= k < |es| => es[k].key)
  }

  /** The last `n` entries of the replay are, by key, the first `n` buffered ones. */
  predicate Matches(recent: seq<Entry>, pending: seq<Entry>, n: nat)
  {
    && n <= |recent| && n <= |pending|
    && forall i | 0 <= i < n :: recent[|recent| - n + i].key == pending[i].key
  }

  /** The largest overlap that is at most `n`. */
  function Overlap(recent: seq<Entry>, pending: seq<Entry>, n: nat): (o: nat)
    requires n <= |recent| && n <= |pending|
    ensures o <= n && Matches(recent, pending, o)
    ensures forall m | o < m <= n :: !Matches(recent, pending, m)
  {
    if n == 0 || Matches(recent, pending, n) then n else Overlap(recent, pending, n - 1)
  }

  function Shorter(a: nat, b: nat): nat
  {
    if a < b then a else b
  }

  function Merge(recent: seq<Entry>, pending: seq<Entry>): seq<Entry>
  {
    recent + pending[Overlap(recent, pending, Shorter(|recent|, |pending|))..]
  }

  /** `mergeMcpLogReplay`: try the largest overlap first, and each entry of it until one differs. */
  method MergeMcpLogReplay(recent: seq<Entry>, pending: seq<Entry>) returns (merged: seq<Entry>)
    ensures merged == Merge(recent, pending)
  {
    var overlap := Shorter(|recent|, |pending|);
    while overlap > 0
      invariant 0 <= overlap <= |recent| && overlap <= |pending|
      invariant Overlap(recent, pending, overlap) == Overlap(recent, pending, Shorter(|recent|, |pending|))
    {
      var matches := true;
      var i := 0;
      while i < overlap && matches
        invariant 0 <= i <= overlap
        invariant matches ==> forall j | 0 <= j < i :: recent[|recent| - overlap + j].key == pending[j].key
        invariant !matches ==> !Matches(recent, pending, overlap)
      {
        if recent[|recent| - overlap + i].key != pending[i].key {
          matches := false;
        }
        i := i + 1;
      }
      if matches {
        return recent + pending[overlap..];
      }
      overlap := overlap - 1;
    }
    merged := recent + pending;
    assert pending[0..] == pending;
  }

  /** `x` starts with all of `a` and ends with all of `b`. */
  predicate Bridges(x: seq<Key>, a: seq<Key>, b: seq<Key>)
  {
    && |a| <= |x| && x[..|a|] == a
    && |b| <= |x| && x[|x| - |b|..] == b
  }

  /** The merge starts with the replay and ends, by key, with the buffer, and nothing shorter does. */
  lemma MergeIsShortest(recent: seq<Entry>, pending: seq<Entry>)
    ensures Bridges(Keys(Merge(recent, pending)), Keys(recent), Keys(pending))
    ensures recent <= Merge(recent, pending)
    ensures forall x | Bridges(x, Keys(recent), Keys(pending)) :: |x| >= |Merge(recent, pending)|
  {
    var o := Overlap(recent, pending, Shorter(|recent|, |pending|));
    MergeBridges(recent, pending, o);
    forall x | Bridges(x, Keys(recent), Keys(pending)) && |x| < |recent| + |pending|
      ensures |x| >= |Merge(recent, pending)|
    {
      BridgesOverlap(x, recent, pending);
    }
  }

  lemma MergeBridges(recent: seq<Entry>, pending: seq<Entry>, o: nat)
    requires Matches(recent, pending, o)
    ensures Bridges(Keys(recent + pending[o..]), Keys(recent), Keys(pending))
  {
    var m := recent + pending[o..];
    assert Keys(m)[..|recent|] == Keys(recent);
    forall k | 0 <= k < |pending|
      ensures m[|m| - |pending| + k].key == pending[k].key
    {
      if k < o {
        assert m[|m| - |pending| + k] == recent[|recent| - o + k];
      } else {
        assert m[|m| - |pending| + k] == pending[k];
      }
    }
    assert Keys(m)[|m| - |pending|..] == Keys(pending);
  }

  lemma BridgesOverlap(x: seq<Key>, recent: seq<Entry>, pending: seq<Entry>)
    requires Bridges(x, Keys(recent), Keys(pending)) && |x| < |recent| + |pending|
    ensures Matches(recent, pending, |recent| + |pending| - |x|)
  {
    var shared := |recent| + |pending| - |x|;
    forall i | 0 <= i < shared
      ensures recent[|recent| - shared + i].key == pending[i].key
    {
      assert x[..|recent|][|recent| - shared + i] == x[|x| - |pending| + i] == x[|x| - |pending|..][i];
    }
  }

  /** No two entries of the log have the same key. */
  ghost predicate DistinctKeys(log: seq<Entry>)
  {
    forall i, j | 0 <= i < j < |log| :: log[i].key != log[j].key
  }

  /** What the panel's callback is given: replay `log[a..b]`, buffer `log[c..d]`, then `log[d..e]` live. */
  function Delivered(log: seq<Entry>, a: nat, b: nat, c: nat, d: nat, e: nat): seq<Entry>
    requires a <= b <= |log| && c <= d <= e <= |log|
  {
    Merge(log[a..b], log[c..d]) + log[d..e]
  }

  /** The replay reaches back to the first buffered event and the buffer reaches on to the end of the replay. */
  predicate Interlocked(a: nat, b: nat, c: nat, d: nat)
  {
    a <= c <= b <= d
  }

  /** Any two windows of one log: the overlap found is what they share if they interlock, otherwise none. */
  lemma OverlapOfWindows(log: seq<Entry>, a: nat, b: nat, c: nat, d: nat)
    requires DistinctKeys(log) && a <= b <= |log| && c <= d <= |log|
    ensures Overlap(log[a..b], log[c..d], Shorter(b - a, d - c)) == if Interlocked(a, b, c, d) then b - c else 0
  {
    var recent, pending := log[a..b], log[c..d];
    var n := Shorter(b - a, d - c);
    if Interlocked(a, b, c, d) {
      forall i | 0 <= i < b - c
        ensures recent[|recent| - (b - c) + i].key == pending[i].key
      {
        assert recent[|recent| - (b - c) + i] == log[c + i] == pending[i];
      }
      assert Matches(recent, pending, b - c);
    }
    forall m | 0 < m <= n && m != b - c
      ensures !Matches(recent, pending, m)
    {
      assert recent[|recent| - m + 0] == log[b - m] && pending[0] == log[c];
      assert log[b - m].key != log[c].key;
    }
  }

  /** What the panel is given, for any windows. */
  lemma DeliveredParts(log: seq<Entry>, a: nat, b: nat, c: nat, d: nat, e: nat)
    requires DistinctKeys(log) && a <= b <= |log| && c <= d <= e <= |log|
    ensures Delivered(log, a, b, c, d, e) == if Interlocked(a, b, c, d) then log[a..e] else log[a..b] + log[c..e]
  {
    OverlapOfWindows(log, a, b, c, d);
    hide Overlap, DistinctKeys, Matches;
    var from := if Interlocked(a, b, c, d) then b else c;
    Slices(log, c, from, d);
    Slices(log, from, d, e);
    Assoc(log[a..b], log[from..d], log[d..e]);
    if Interlocked(a, b, c, d) {
      Slices(log, a, b, e);
    }
  }

  /**
   The panel shows the log from the start of the replay, with nothing left out or repeated, exactly
   when replay and buffer interlock or no event came at all.
   */
  lemma PanelShowsTheLog(log: seq<Entry>, a: nat, b: nat, c: nat, d: nat, e: nat)
    requires DistinctKeys(log) && a <= b <= |log| && c <= d <= e <= |log|
    ensures Delivered(log, a, b, c, d, e) == log[a..if b < e then e else b] <==> Interlocked(a, b, c, d) || c == e <= b
  {
    DeliveredParts(log, a, b, c, d, e);
    hide Delivered;
    if !Interlocked(a, b, c, d) {
      assert |log[a..b] + log[c..e]| == (b - a) + (e - c);
      if c == e {
        assert log[c..e] == [] && log[a..b] + [] == log[a..b];
      }
    }
  }

  /** It shows some window of the log exactly then, or when the replay is empty or no event came. */
  lemma PanelShowsSomeWindow(log: seq<Entry>, a: nat, b: nat, c: nat, d: nat, e: nat)
    requires DistinctKeys(log) && a <= b <= |log| && c <= d <= e <= |log|
    ensures (exists x: nat, y: nat | x <= y <= |log| :: Delivered(log, a, b, c, d, e) == log[x..y]) <==>
            Interlocked(a, b, c, d) || a == b || c == e
  {
    DeliveredParts(log, a, b, c, d, e);
    hide Delivered;
    if Interlocked(a, b, c, d) {
      assert a <= e && Delivered(log, a, b, c, d, e) == log[a..e];
    } else if a == b {
      assert log[a..b] + log[c..e] == log[c..e];
    } else if c == e {
      assert log[a..b] + log[c..e] == log[a..b];
    } else {
      forall x: nat, y: nat | x <= y <= |log|
        ensures log[a..b] + log[c..e] != log[x..y]
      {
        JoinedWindows(log, a, b, c, e, x, y);
      }
    }
  }

  /** Two windows put together are a window only if the second begins where the first ends. */
  lemma JoinedWindows(log: seq<Entry>, a: nat, b: nat, c: nat, e: nat, x: nat, y: nat)
    requires DistinctKeys(log) && a < b <= |log| && c < e <= |log| && b != c && x <= y <= |log|
    ensures log[a..b] + log[c..e] != log[x..y]
  {
    var shown := log[a..b] + log[c..e];
    assert shown[b - a - 1] == log[b - 1] && shown[b - a] == log[c];
    if |shown| == |log[x..y]| {
      assert log[x..y][b - a - 1] == log[x + b - a - 1] && log[x..y][b - a] == log[x + b - a];
    }
  }

  /** Where the replay of the newest entries begins when the file has `b` of them. */
  function ReplayStart(b: nat): nat
  {
    if b < REPLAY_LIMIT then 0 else b - REPLAY_LIMIT
  }

  /**
   With the listener attached before the file is read, the panel shows the log exactly when no more
   than two hundred entries were written in between and their events had all arrived before the merge.
   */
  lemma PanelIsRightExactly(log: seq<Entry>, b: nat, c: nat, d: nat, e: nat)
    requires DistinctKeys(log) && c <= b <= |log| && c <= d <= e <= |log|
    ensures Delivered(log, ReplayStart(b), b, c, d, e) == log[ReplayStart(b)..if b < e then e else b] <==>
              (b - c <= REPLAY_LIMIT && b <= d) || c == e
  {
    PanelShowsTheLog(log, ReplayStart(b), b, c, d, e);
    hide Delivered;
  }

  /** Two inputs that fail: a buffer that ends before the replay, and a burst that the replay no longer reaches back to. */
  lemma PanelRepeatsEntries(log: seq<Entry>)
    requires DistinctKeys(log) && |log| > REPLAY_LIMIT + 1
    ensures Delivered(log, 0, 2, 0, 1, 1) == log[..2] + log[..1]
    ensures var b := REPLAY_LIMIT + 1; Delivered(log, ReplayStart(b), b, 0, b, b) == log[1..b] + log[..b]
  {
    DeliveredParts(log, 0, 2, 0, 1, 1);
    DeliveredParts(log, 1, REPLAY_LIMIT + 1, 0, REPLAY_LIMIT + 1, REPLAY_LIMIT + 1);
  }
}
