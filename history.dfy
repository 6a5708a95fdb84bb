/** The rolling history behind the dashboard's chart: the updater handed to
    setHistoricos in DashboardIoT.js, and what a run of such updates keeps. */
module History {
  import opened Config

  /** One decoded sensor snapshot. The device's floating-point readings are
      modelled as integers: the dashboard only stores, compares and passes
      them on. */
  datatype Reading = Reading(temperatura: int, humedad: int, gas: int, infrarrojo: bool, ultrasonido: int)

  /** The wall-clock text of toLocaleTimeString, taken as an opaque value. */
  type Timestamp = string

  /** A history entry: the decoded fields spread into a new object together
      with a `timestamp` field. */
  datatype Entry = Entry(datos: Reading, timestamp: Timestamp)

  function Min(a: int, b: int): int
  {
    if a <= b then a else b
  }

  /** The newest `n` elements of `s`, oldest first. */
  function Newest<T>(s: seq<T>, n: nat): seq<T>
  {
    s[|s| - Min(n, |s|)..]
  }

  /** JavaScript's `s.slice(start)`: a negative start counts from the end and
      is clamped to the front; `slice(-0)` is `slice(0)`, the whole array. */
  function Slice<T>(s: seq<T>, start: int): (r: seq<T>)
    ensures |r| <= |s| && r == s[|s| - |r|..]
    ensures start < 0 ==> |r| == Min(-start, |s|)
    ensures 0 <= start ==> |r| == |s| - Min(start, |s|)
  {
    var k := if start < 0 then (if |s| + start < 0 then 0 else |s| + start)
             else (if start > |s| then |s| else start);
    s[k..]
  }

  /** The value the updater returns when nothing needs adding. */
  predicate IsRepeat(prev: seq<Entry>, e: Entry)
  {
    |prev| > 0 && prev[|prev| - 1] == e
  }

  /** The updater of setHistoricos: unless the new entry equals the last one
      (all fields, timestamp included), keep the newest MAX_HISTORICAL old
      entries and append the new one. The slice runs before the append, so a
      history can hold MAX_HISTORICAL + 1 entries. */
  function UpdateHistory(prev: seq<Entry>, e: Entry): (r: seq<Entry>)
    ensures r != [] && r[|r| - 1] == e
    ensures |prev| <= MAX_HISTORICAL + 1 ==> |r| <= MAX_HISTORICAL + 1
    ensures |r| <= |prev| + 1
  {
    if !IsRepeat(prev, e) then Slice(prev, -(MAX_HISTORICAL as int)) + [e] else prev
  }

  lemma UpdateOnEmpty(e: Entry)
    ensures UpdateHistory([], e) == [e]
  {
  }

  /** An entry equal to the last one leaves the history as it was, and only
      such an entry does. */
  lemma UpdateUnchangedIff(prev: seq<Entry>, e: Entry)
    ensures UpdateHistory(prev, e) == prev <==> IsRepeat(prev, e)
  {
  }

  /** Any other entry is appended after the newest MAX_HISTORICAL old entries,
      kept in their original order. */
  lemma UpdateAppends(prev: seq<Entry>, e: Entry)
    requires !IsRepeat(prev, e)
    ensures UpdateHistory(prev, e) == Newest(prev, MAX_HISTORICAL) + [e]
    ensures |UpdateHistory(prev, e)| == Min(|prev|, MAX_HISTORICAL) + 1
  {
  }

  /** The timestamp takes part in the comparison: the same reading under a new
      timestamp is appended, not dropped. */
  lemma NewTimestampIsAppended(prev: seq<Entry>, d: Reading, t: Timestamp)
    requires prev != [] && prev[|prev| - 1].datos == d && prev[|prev| - 1].timestamp != t
    ensures UpdateHistory(prev, Entry(d, t)) == Newest(prev, MAX_HISTORICAL) + [Entry(d, t)]
  {
  }

  /** No two neighbouring entries are equal. */
  predicate AdjacentDistinct(s: seq<Entry>)
  {
    forall i :: 0 < i < |s| ==> s[i - 1] != s[i]
  }

  lemma UpdateKeepsAdjacentDistinct(prev: seq<Entry>, e: Entry)
    requires AdjacentDistinct(prev)
    ensures AdjacentDistinct(UpdateHistory(prev, e))
  {
    if !IsRepeat(prev, e) {
      var kept := Newest(prev, MAX_HISTORICAL);
      assert kept != [] ==> kept[|kept| - 1] == prev[|prev| - 1];
      var r := kept + [e];
      forall i | 0 < i < |r| ensures r[i - 1] != r[i] {
        if i < |kept| {
          assert r[i - 1] == prev[|prev| - |kept| + i - 1] && r[i] == prev[|prev| - |kept| + i];
        }
      }
    }
  }

  /** Starting from empty, no two neighbouring history entries are equal. */
  lemma {:induction false} ReplayAdjacentDistinct(es: seq<Entry>)
    ensures AdjacentDistinct(Replay(es))
  {
    if es != [] {
      ReplayAdjacentDistinct(es[..|es| - 1]);
      UpdateKeepsAdjacentDistinct(Replay(es[..|es| - 1]), es[|es| - 1]);
    }
  }

  /** The entries of a stream with each run of equal neighbours cut to one. */
  function Collapse(es: seq<Entry>): seq<Entry>
  {
    if es == [] then []
    else
      var c := Collapse(es[..|es| - 1]);
      var e := es[|es| - 1];
      if c != [] && c[|c| - 1] == e then c else c + [e]
  }

  /** The history after the updater has run on each entry of `es` in turn,
      starting from the empty history of the component's first render. */
  function Replay(es: seq<Entry>): seq<Entry>
  {
    if es == [] then [] else UpdateHistory(Replay(es[..|es| - 1]), es[|es| - 1])
  }

  /** One more decoded entry is one more run of the updater. */
  lemma ReplayStep(es: seq<Entry>, e: Entry)
    ensures Replay(es + [e]) == UpdateHistory(Replay(es), e)
  {
    assert (es + [e])[..|es|] == es;
  }

  lemma NewestOfNewest<T>(s: seq<T>, a: nat, b: nat)
    requires b <= a
    ensures Newest(Newest(s, a), b) == Newest(s, b)
  {
  }

  lemma NewestAppend<T>(s: seq<T>, e: T, n: nat)
    requires n > 0
    ensures Newest(s + [e], n) == Newest(s, n - 1) + [e]
  {
    var k := Min(n - 1, |s|);
    assert (s + [e])[|s| + 1 - (k + 1)..] == s[|s| - k..] + [e];
  }

  /** FIFO: starting from empty, the history is always exactly the newest
      MAX_HISTORICAL + 1 entries of the collapsed stream, oldest first; only
      the oldest entries are ever dropped. */
  lemma {:induction false} ReplayIsNewestOfCollapse(es: seq<Entry>)
    ensures Replay(es) == Newest(Collapse(es), MAX_HISTORICAL + 1)
  {
    if es != [] {
      var p, e := es[..|es| - 1], es[|es| - 1];
      var c := Collapse(p);
      ReplayIsNewestOfCollapse(p);
      var r := Replay(p);
      assert r == Newest(c, MAX_HISTORICAL + 1);
      if c == [] {
        assert Collapse(es) == [e];
      } else if c[|c| - 1] == e {
        assert IsRepeat(r, e);
      } else {
        assert !IsRepeat(r, e);
        calc {
          Replay(es);
          Newest(r, MAX_HISTORICAL) + [e];
          { NewestOfNewest(c, MAX_HISTORICAL + 1, MAX_HISTORICAL); }
          Newest(c, MAX_HISTORICAL) + [e];
          { NewestAppend(c, e, MAX_HISTORICAL + 1); }
          Newest(c + [e], MAX_HISTORICAL + 1);
        }
      }
    }
  }

  /** Starting from empty, no run of updates grows the history beyond
      MAX_HISTORICAL + 1 entries. */
  lemma {:induction false} ReplayBounded(es: seq<Entry>)
    ensures |Replay(es)| <= MAX_HISTORICAL + 1
  {
    ReplayIsNewestOfCollapse(es);
  }

  lemma {:induction false} CollapseOfDistinct(es: seq<Entry>)
    requires AdjacentDistinct(es)
    ensures Collapse(es) == es
  {
    if es != [] {
      var p := es[..|es| - 1];
      assert AdjacentDistinct(p) by {
        forall i | 0 < i < |p| ensures p[i - 1] != p[i] {
          assert p[i - 1] == es[i - 1] && p[i] == es[i];
        }
      }
      CollapseOfDistinct(p);
      if |es| > 1 {
        assert es[|es| - 2] != es[|es| - 1];
      }
    }
  }

  /** A stream of pairwise-different neighbours leaves its newest
      MAX_HISTORICAL + 1 entries: 25 such entries leave 21, not 20. */
  lemma {:induction false} ReplayOfDistinct(es: seq<Entry>)
    requires AdjacentDistinct(es)
    ensures Replay(es) == Newest(es, MAX_HISTORICAL + 1)
    ensures |es| > MAX_HISTORICAL ==> |Replay(es)| == MAX_HISTORICAL + 1
  {
    ReplayIsNewestOfCollapse(es);
    CollapseOfDistinct(es);
  }
}
