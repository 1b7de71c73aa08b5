/** The generator of unique millisecond timestamps (`TimeUniquesEnsurer`).
    It remembers the last values it issued and never issues one of them
    again; a wall clock that has gone back below all of them starts the
    history afresh. */
module TimeUniques {

  /** The history keeps at most this many values. */
  const CAPACITY: nat := 10
  /** A backward jump is recognised only when the history holds more than this. */
  const RESET_THRESHOLD: nat := 2

  predicate Distinct(s: seq<int>) {
    forall i, j :: 0 <= i < j < |s| ==> s[i] != s[j]
  }

  predicate IsSuffix(a: seq<int>, b: seq<int>) {
    |a| <= |b| && a == b[|b| - |a|..]
  }

  /** `Collections.min`. */
  function Min(s: seq<int>): (m: int)
    requires |s| > 0
    ensures m in s
    ensures forall x :: x in s ==> m <= x
  {
    if |s| == 1 then s[0]
    else
      var t := Min(s[1..]);
      assert forall x :: x in s ==> x == s[0] || x in s[1..];
      if s[0] <= t then s[0] else t
  }

  /** A value above every element: the measure that bounds the probing. */
  function Ceiling(s: seq<int>): (c: int)
    ensures forall x :: x in s ==> x < c
  {
    if |s| == 0 then 0
    else
      var t := Ceiling(s[1..]);
      assert forall x :: x in s ==> x == s[0] || x in s[1..];
      if s[0] < t then t else s[0] + 1
  }

  /** The wall clock went back: enough history, and the reading below all of it. */
  predicate WentBack(history: seq<int>, reading: int) {
    |history| > RESET_THRESHOLD && reading < Min(history)
  }

  /** Probing forward one millisecond at a time: the first value at or
      after `ms` that is not in the history. */
  function Probe(history: seq<int>, ms: int): (r: int)
    ensures ms <= r && r !in history
    ensures forall v :: ms <= v < r ==> v in history
    decreases Ceiling(history) - ms
  {
    if ms in history then Probe(history, ms + 1) else ms
  }

  /** Removing the oldest entry while the history is full. */
  function Evict(history: seq<int>): (r: seq<int>)
    ensures |r| < CAPACITY
    ensures IsSuffix(r, history)
    ensures |history| < CAPACITY ==> r == history
    ensures |history| >= CAPACITY ==> |r| == CAPACITY - 1
  {
    if |history| >= CAPACITY then Evict(history[1..]) else history
  }

  /** What one call issues, and the history it leaves behind. */
  datatype Issued = Issued(ms: int, history: seq<int>)

  /** One call of `uniqueTimestamp` on history `history` with wall-clock
      reading `reading`. */
  function Step(history: seq<int>, reading: int): (r: Issued)
    ensures |r.history| <= CAPACITY
    ensures |r.history| > 0 && r.history[|r.history| - 1] == r.ms
    ensures r.ms !in history
    ensures WentBack(history, reading) ==> r.ms == reading && r.history == [reading]
    ensures !WentBack(history, reading) ==>
              && reading <= r.ms
              && (forall v :: reading <= v < r.ms ==> v in history)
              && IsSuffix(r.history[..|r.history| - 1], history)
              && |r.history| == (if |history| < CAPACITY then |history| + 1 else CAPACITY)
  {
    if WentBack(history, reading) then Issued(reading, [reading])
    else
      var ms := Probe(history, reading);
      var kept := Evict(history);
      assert (kept + [ms])[..|kept|] == kept;
      Issued(ms, kept + [ms])
  }

  /** At most two remembered values: no reset, only probing, even for a
      reading below all of them. */
  lemma NoResetWithShortHistory(history: seq<int>, reading: int)
    requires |history| <= RESET_THRESHOLD
    ensures Step(history, reading).ms == Probe(history, reading)
    ensures reading <= Step(history, reading).ms
  {
  }

  /** A suffix of a history without repetitions has none. */
  lemma SuffixKeepsDistinct(a: seq<int>, b: seq<int>)
    requires IsSuffix(a, b) && Distinct(b)
    ensures Distinct(a)
    ensures forall x :: x in a ==> x in b
  {
    var off := |b| - |a|;
    forall i | 0 <= i < |a|
      ensures a[i] == b[off + i]
    {
    }
  }

  /** Appending a value not yet present keeps a history free of repetitions. */
  lemma AppendKeepsDistinct(a: seq<int>, x: int)
    requires Distinct(a) && x !in a
    ensures Distinct(a + [x])
  {
    var r := a + [x];
    forall i, j | 0 <= i < j < |r|
      ensures r[i] != r[j]
    {
      if j == |a| {
        assert r[i] in a;
      }
    }
  }

  /** A history without repetitions stays so. */
  lemma StepKeepsDistinct(history: seq<int>, reading: int)
    requires Distinct(history)
    ensures Distinct(Step(history, reading).history)
  {
    if !WentBack(history, reading) {
      var kept := Evict(history);
      var ms := Probe(history, reading);
      SuffixKeepsDistinct(kept, history);
      AppendKeepsDistinct(kept, ms);
      assert Step(history, reading).history == kept + [ms];
    }
  }

  /** Two calls in a row never issue the same value; after a reset the
      second one is strictly smaller. */
  lemma ConsecutiveCallsDiffer(history: seq<int>, first: int, second: int)
    ensures Step(Step(history, first).history, second).ms != Step(history, first).ms
    ensures WentBack(Step(history, first).history, second) ==>
              Step(Step(history, first).history, second).ms < Step(history, first).ms
  {
    var r1 := Step(history, first);
    assert r1.ms in r1.history;
  }

  /** The values issued by successive calls with the given readings, and the
      final history. */
  function Run(history: seq<int>, readings: seq<int>): (r: (seq<int>, seq<int>))
    ensures |r.0| == |readings|
    decreases |readings|
  {
    if |readings| == 0 then ([], history)
    else
      var s := Step(history, readings[0]);
      var rest := Run(s.history, readings[1..]);
      ([s.ms] + rest.0, rest.1)
  }

  lemma ConcatAssociates(a: seq<int>, b: seq<int>, c: seq<int>)
    ensures (a + b) + c == a + (b + c)
  {
  }

  lemma SuffixOfSuffix(a: seq<int>, b: seq<int>, c: seq<int>, tail: seq<int>)
    requires IsSuffix(a, b + tail) && IsSuffix(b, c)
    ensures IsSuffix(a, c + tail)
  {
    assert b + tail == (c + tail)[|c| - |b|..];
  }

  /** The history after a call ends the old history followed by the issued value. */
  lemma StepHistoryIsSuffix(history: seq<int>, reading: int)
    ensures IsSuffix(Step(history, reading).history, history + [Step(history, reading).ms])
  {
    var s := Step(history, reading);
    if !WentBack(history, reading) {
      var kept := s.history[..|s.history| - 1];
      assert s.history == kept + [s.ms];
    }
  }

  /** After any sequence of calls the history is made of the most recently
      issued values, in issue order, without repetitions. */
  lemma {:induction false} HistoryIsRecentOutput(history: seq<int>, readings: seq<int>)
    requires Distinct(history)
    ensures IsSuffix(Run(history, readings).1, history + Run(history, readings).0)
    ensures Distinct(Run(history, readings).1)
    decreases |readings|
  {
    if |readings| == 0 {
      assert history + [] == history;
    } else {
      var s := Step(history, readings[0]);
      var rest := Run(s.history, readings[1..]);
      var out := Run(history, readings);
      assert out.0 == [s.ms] + rest.0 && out.1 == rest.1;
      StepKeepsDistinct(history, readings[0]);
      StepHistoryIsSuffix(history, readings[0]);
      HistoryIsRecentOutput(s.history, readings[1..]);
      SuffixOfSuffix(rest.1, s.history, history + [s.ms], rest.0);
      ConcatAssociates(history, [s.ms], rest.0);
    }
  }

  class TimeUniquesEnsurer {
    /** `lastTsMs`: the issued values still remembered, oldest first. */
    var lastTsMs: seq<int>

    ghost predicate Valid()
      reads this
    {
      |lastTsMs| <= CAPACITY && Distinct(lastTsMs)
    }

    constructor ()
      ensures Valid() && lastTsMs == []
    {
      lastTsMs := [];
    }

    /** `uniqueTimestamp`, with the wall-clock reading as a parameter. */
    method UniqueTimestamp(reading: int) returns (ms: int)
      requires Valid()
      modifies this
      ensures Valid()
      ensures Issued(ms, lastTsMs) == Step(old(lastTsMs), reading)
    {
      ms := reading;
      if |lastTsMs| > RESET_THRESHOLD {
        var min := Min(lastTsMs);
        if ms < min {
          lastTsMs := [];
          lastTsMs := lastTsMs + [ms];
          return;
        }
      }
      while ms in lastTsMs
        invariant reading <= ms
        invariant forall v :: reading <= v < ms ==> v in lastTsMs
        decreases Ceiling(lastTsMs) - ms
      {
        ms := ms + 1;
      }
      ProbeIsFirstFree(lastTsMs, reading, ms);
      StepKeepsDistinct(lastTsMs, reading);
      while |lastTsMs| >= CAPACITY
        invariant Evict(lastTsMs) == Evict(old(lastTsMs))
      {
        lastTsMs := lastTsMs[1..];
      }
      lastTsMs := lastTsMs + [ms];
    }
  }

  /** The first free value at or after the reading is what `Probe` finds. */
  lemma {:induction false} ProbeIsFirstFree(history: seq<int>, from: int, ms: int)
    requires from <= ms && ms !in history
    requires forall v :: from <= v < ms ==> v in history
    ensures Probe(history, from) == ms
    decreases ms - from
  {
    if from < ms {
      ProbeIsFirstFree(history, from + 1, ms);
    }
  }
}
