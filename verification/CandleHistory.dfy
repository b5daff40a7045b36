/** De-duplication of fetched candles and the bounded history they are appended to. */
module CandleHistory {
  import opened Wrappers

  const HISTORY_SIZE: nat := 40

  type Key = string

  /** A parsed candle; its start time is what de-duplication looks at. */
  datatype Candle = Candle(start: int, close: real)

  function LastOf<T>(s: seq<T>, n: nat): (r: seq<T>)
    ensures |r| == if |s| < n then |s| else n
    ensures forall i :: 0 <= i < |r| ==> r[i] == s[|s| - |r| + i]
  {
    if |s| <= n then s else s[|s| - n..]
  }

  /** The candles of a response that are processed, given the last start time seen. */
  function Fresh(last: Option<int>, raws: seq<Option<Candle>>): seq<Candle>
    decreases |raws|
  {
    if raws == [] then []
    else if raws[0] == None || last == Some(raws[0].value.start) then Fresh(last, raws[1..])
    else [raws[0].value] + Fresh(Some(raws[0].value.start), raws[1..])
  }

  function LastStart(last: Option<int>, raws: seq<Option<Candle>>): Option<int> {
    var done := Fresh(last, raws);
    if done == [] then last else Some(done[|done| - 1].start)
  }

  function At<T>(m: map<Key, seq<T>>, key: Key): seq<T> {
    if key in m then m[key] else []
  }

  function Seen(m: map<Key, int>, key: Key): Option<int> {
    if key in m then Some(m[key]) else None
  }

  lemma {:induction false} FreshSplit(last: Option<int>, a: seq<Option<Candle>>, b: seq<Option<Candle>>)
    ensures Fresh(last, a + b) == Fresh(last, a) + Fresh(LastStart(last, a), b)
    decreases |a|
  {
    if a == [] {
      assert a + b == b;
    } else {
      assert (a + b)[1..] == a[1..] + b;
      var next := if a[0] == None || last == Some(a[0].value.start) then last else Some(a[0].value.start);
      FreshSplit(next, a[1..], b);
    }
  }

  lemma BoundedAppend<T>(s: seq<T>, x: T, n: nat)
    requires n > 0
    ensures LastOf(LastOf(s, n) + [x], n) == LastOf(s + [x], n)
  {
  }

  class Stream {
    var lastStart: map<Key, int>
    var history: map<Key, seq<Candle>>

    constructor ()
      ensures lastStart == map[] && history == map[]
    {
      lastStart, history := map[], map[];
    }

    /** deque(maxlen=40).append. */
    method UpdateHistory(key: Key, candle: Candle)
      modifies this`history
      ensures history == old(history)[key := LastOf(At(old(history), key) + [candle], HISTORY_SIZE)]
    {
      var before := if key in history then history[key] else [];
      var appended := before + [candle];
      if |appended| > HISTORY_SIZE {
        appended := appended[|appended| - HISTORY_SIZE..];
      }
      history := history[key := appended];
    }

    /** One candle of a response; false when it is skipped. */
    method Take(key: Key, raw: Option<Candle>) returns (taken: bool)
      modifies this
      ensures taken <==> raw.Some? && Seen(old(lastStart), key) != Some(raw.value.start)
      ensures !taken ==> lastStart == old(lastStart) && history == old(history)
      ensures taken ==> lastStart == old(lastStart)[key := raw.value.start]
      ensures taken ==> history == old(history)[key := LastOf(At(old(history), key) + [raw.value], HISTORY_SIZE)]
    {
      if raw == None { return false; }
      if key in lastStart && lastStart[key] == raw.value.start { return false; }
      lastStart := lastStart[key := raw.value.start];
      UpdateHistory(key, raw.value);
      taken := true;
    }

    /** The loop of _fetch_candles over one response; None is a candle that did not parse. */
    method FetchCandles(key: Key, raws: seq<Option<Candle>>) returns (processed: seq<Candle>)
      requires |At(history, key)| <= HISTORY_SIZE
      modifies this
      ensures processed == Fresh(Seen(old(lastStart), key), raws)
      ensures Seen(lastStart, key) == LastStart(Seen(old(lastStart), key), raws)
      ensures At(history, key) == LastOf(At(old(history), key) + processed, HISTORY_SIZE)
      ensures forall k :: k != key ==>
          Seen(lastStart, k) == Seen(old(lastStart), k) && At(history, k) == At(old(history), k)
    {
      processed := [];
      ghost var last0, history0 := Seen(lastStart, key), At(history, key);
      for n := 0 to |raws|
        invariant processed == Fresh(last0, raws[..n])
        invariant Seen(lastStart, key) == LastStart(last0, raws[..n])
        invariant At(history, key) == LastOf(history0 + processed, HISTORY_SIZE)
        invariant forall k :: k != key ==>
            Seen(lastStart, k) == Seen(old(lastStart), k) && At(history, k) == At(old(history), k)
      {
        Extends(last0, raws, n);
        var taken := Take(key, raws[n]);
        if taken {
          AppendBounded(history0, processed, raws[n].value, HISTORY_SIZE);
          processed := processed + [raws[n].value];
        }
      }
      assert raws[..|raws|] == raws;
    }
  }

  lemma AppendBounded<T>(s: seq<T>, t: seq<T>, x: T, n: nat)
    requires n > 0
    ensures LastOf(LastOf(s + t, n) + [x], n) == LastOf(s + (t + [x]), n)
  {
    BoundedAppend(s + t, x, n);
    assert (s + t) + [x] == s + (t + [x]);
  }

  /** One more raw candle adds itself, or nothing. */
  lemma Extends(last: Option<int>, raws: seq<Option<Candle>>, n: nat)
    requires n < |raws|
    ensures var now := LastStart(last, raws[..n]);
            var skipped := raws[n] == None || now == Some(raws[n].value.start);
            Fresh(last, raws[..n + 1]) == Fresh(last, raws[..n]) + (if skipped then [] else [raws[n].value]) &&
            LastStart(last, raws[..n + 1]) == if skipped then now else Some(raws[n].value.start)
  {
    assert raws[..n + 1] == raws[..n] + [raws[n]];
    FreshSplit(last, raws[..n], [raws[n]]);
    assert [raws[n]][1..] == [];
  }

  // ---- what de-duplication does and does not catch ----

  /** The candles of a response that parsed. */
  function Parsed(raws: seq<Option<Candle>>): seq<Candle> {
    if raws == [] then []
    else Parsed(raws[..|raws| - 1]) + if raws[|raws| - 1].Some? then [raws[|raws| - 1].value] else []
  }

  /** A candle that does not parse changes nothing for the others. */
  lemma {:induction false} OnlyParsedCount(last: Option<int>, raws: seq<Option<Candle>>)
    ensures Fresh(last, raws) == Fresh(last, Somes(Parsed(raws)))
  {
    if raws != [] {
      var n := |raws| - 1;
      OnlyParsedCount(last, raws[..n]);
      assert raws[..n] + [raws[n]] == raws;
      FreshSplit(last, raws[..n], [raws[n]]);
      if raws[n].Some? {
        FreshSplit(last, Somes(Parsed(raws[..n])), [raws[n]]);
        assert Somes(Parsed(raws)) == Somes(Parsed(raws[..n])) + [raws[n]];
      } else {
        assert [raws[n]][1..] == [];
        assert Parsed(raws) == Parsed(raws[..n]);
      }
    }
  }

  ghost predicate Ascending(window: seq<Candle>) {
    forall i, j :: 0 <= i < j < |window| ==> window[i].start < window[j].start
  }

  /** Only a candle equal to the last one is dropped, so at most the first of a window. */
  lemma {:induction false} OnlyTheFirstIsDropped(last: Option<int>, window: seq<Candle>)
    requires Ascending(window)
    ensures Fresh(last, Somes(window)) ==
            if window != [] && last == Some(window[0].start) then window[1..] else window
    decreases |window|
  {
    if window != [] {
      var rest := window[1..];
      assert Somes(window)[1..] == Somes(rest);
      OnlyTheFirstIsDropped(Some(window[0].start), rest);
      assert window == [window[0]] + rest;
      if last == Some(window[0].start) {
        OnlyTheFirstIsDropped(last, rest);
      }
    }
  }

  /**
   * Fetching the same window again processes the whole of it again exactly when it has two
   * candles or more, and nothing when it has one.
   */
  lemma RefetchedWindow(last: Option<int>, window: seq<Candle>)
    requires Ascending(window) && window != []
    ensures var again := Fresh(LastStart(last, Somes(window)), Somes(window));
            (again == window <==> |window| >= 2) && (again == [] <==> |window| == 1)
  {
    OnlyTheFirstIsDropped(last, window);
    OnlyTheFirstIsDropped(LastStart(last, Somes(window)), window);
    assert LastStart(last, Somes(window)) == Some(window[|window| - 1].start);
  }
}
