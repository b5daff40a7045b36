/** Round-robin choice of the next instrument and interval to fetch candles for. */
module CandleScheduler {
  import opened Wrappers

  datatype Pair = Pair(instrument: string, interval: string)

  /** All pairs, instrument by instrument. */
  function Product(instruments: seq<string>, intervals: seq<string>): seq<Pair> {
    if instruments == [] then [] else Row(instruments[0], intervals) + Product(instruments[1..], intervals)
  }

  function Row(instrument: string, intervals: seq<string>): (pairs: seq<Pair>)
    ensures |pairs| == |intervals|
    ensures forall i :: 0 <= i < |pairs| ==> pairs[i] == Pair(instrument, intervals[i])
  {
    seq(|intervals|, i requires 0 <= i < |intervals| => Pair(instrument, intervals[i]))
  }

  lemma {:induction false} ProductHas(instruments: seq<string>, intervals: seq<string>, p: Pair)
    ensures p in Product(instruments, intervals) <==> p.instrument in instruments && p.interval in intervals
  {
    if instruments != [] {
      ProductHas(instruments[1..], intervals, p);
      assert instruments == [instruments[0]] + instruments[1..];
      var row := Row(instruments[0], intervals);
      if p.interval in intervals {
        var i :| 0 <= i < |intervals| && intervals[i] == p.interval;
        assert row[i] == Pair(instruments[0], p.interval);
      }
    }
  }

  lemma {:induction false} ProductSize(instruments: seq<string>, intervals: seq<string>)
    ensures |Product(instruments, intervals)| == |instruments| * |intervals|
  {
    if instruments != [] {
      ProductSize(instruments[1..], intervals);
    }
  }

  /** Without repeated instruments or intervals no pair is queued twice. */
  lemma {:induction false} ProductDistinct(instruments: seq<string>, intervals: seq<string>)
    requires Distinct(instruments) && Distinct(intervals)
    ensures Distinct(Product(instruments, intervals))
  {
    if instruments != [] {
      var row, rest := Row(instruments[0], intervals), Product(instruments[1..], intervals);
      ProductDistinct(instruments[1..], intervals);
      forall i, j | 0 <= i < j < |row + rest| ensures (row + rest)[i] != (row + rest)[j] {
        if i < |row| <= j {
          assert rest[j - |row|] in rest;
          ProductHas(instruments[1..], intervals, rest[j - |row|]);
        }
      }
    }
  }

  /** `priority` lists the priority instruments in the order their set is iterated. */
  datatype State = State(intervals: seq<string>, standard: seq<Pair>, priority: seq<string>, queue: seq<Pair>)

  function Rotate(s: seq<Pair>): seq<Pair> {
    if s == [] then [] else s[1..] + [s[0]]
  }

  function Next(s: State): (State, Option<Pair>) {
    if s.queue != [] then
      var rest := s.queue[1..];
      (s.(queue := if rest == [] then Product(s.priority, s.intervals) else rest), Some(s.queue[0]))
    else if s.standard != [] then (s.(standard := Rotate(s.standard)), Some(s.standard[0]))
    else (s, None)
  }

  function SetPriority(s: State, priority: seq<string>): State {
    s.(priority := priority, queue := Product(priority, s.intervals))
  }

  class Scheduler {
    const tokens: set<string>
    const intervals: seq<string>
    var standardQueue: seq<Pair>
    var priorityInstruments: seq<string>
    var priorityQueue: seq<Pair>

    function Abstract(): State
      reads this
    {
      State(intervals, standardQueue, priorityInstruments, priorityQueue)
    }

    constructor (instruments: seq<string>, intervals: seq<string>)
      ensures Abstract() == State(intervals, Product(instruments, intervals), [], [])
      ensures tokens == set i | 0 <= i < |instruments| :: instruments[i]
    {
      this.tokens := set i | 0 <= i < |instruments| :: instruments[i];
      this.intervals := intervals;
      standardQueue := [];
      priorityInstruments, priorityQueue := [], [];
      new;
      standardQueue := Pairs(instruments);
    }

    /** The inner loop: the pairs of one instrument. */
    method RowOf(instrument: string) returns (row: seq<Pair>)
      ensures row == Row(instrument, intervals)
    {
      row := [];
      for j := 0 to |intervals|
        invariant row == Row(instrument, intervals)[..j]
      {
        row := row + [Pair(instrument, intervals[j])];
      }
    }

    /** The nested loops that fill a queue. */
    method Pairs(instruments: seq<string>) returns (pairs: seq<Pair>)
      ensures pairs == Product(instruments, intervals)
    {
      pairs := [];
      for i := 0 to |instruments|
        invariant pairs + Product(instruments[i..], intervals) == Product(instruments, intervals)
      {
        var row := RowOf(instruments[i]);
        assert instruments[i..][1..] == instruments[i + 1..];
        pairs := pairs + row;
      }
    }

    /** Unknown instruments are dropped; the argument lists a set in its iteration order. */
    method SetPriorityInstruments(instruments: seq<string>)
      requires Distinct(instruments)
      modifies this`priorityInstruments, this`priorityQueue
      ensures Distinct(priorityInstruments)
      ensures forall i :: i in priorityInstruments <==> i in instruments && i in tokens
      ensures Abstract() == SetPriority(old(Abstract()), priorityInstruments)
    {
      var kept := [];
      for n := 0 to |instruments|
        invariant forall i :: i in kept <==> i in instruments[..n] && i in tokens
        invariant Distinct(kept)
      {
        if instruments[n] in tokens {
          assert instruments[n] !in instruments[..n];
          kept := kept + [instruments[n]];
        }
      }
      priorityInstruments := kept;
      priorityQueue := Pairs(kept);
    }

    method NextInstrumentInterval() returns (pair: Option<Pair>)
      modifies this`standardQueue, this`priorityQueue
      ensures (Abstract(), pair) == Next(old(Abstract()))
    {
      if priorityQueue != [] {
        pair := Some(priorityQueue[0]);
        priorityQueue := priorityQueue[1..];
        if priorityQueue == [] && priorityInstruments != [] {
          priorityQueue := Pairs(priorityInstruments);
        }
      } else if standardQueue != [] {
        pair := Some(standardQueue[0]);
        standardQueue := standardQueue[1..] + [standardQueue[0]];
      } else {
        pair := None;
      }
    }
  }

  // ---- consecutive picks ----

  function After(s: State, n: nat): State
    decreases n
  {
    if n == 0 then s else After(Next(s).0, n - 1)
  }

  function Picks(s: State, n: nat): (picks: seq<Option<Pair>>)
    ensures |picks| == n
    decreases n
  {
    if n == 0 then [] else [Next(s).1] + Picks(Next(s).0, n - 1)
  }

  lemma {:induction false} AfterSplit(s: State, m: nat, n: nat)
    ensures After(s, m + n) == After(After(s, m), n)
    decreases m
  {
    if m > 0 {
      AfterSplit(Next(s).0, m - 1, n);
    }
  }

  lemma Regroup<T>(x: T, a: seq<T>, b: seq<T>)
    ensures [x] + (a + b) == ([x] + a) + b
  {
  }

  lemma {:induction false} PicksSplit(s: State, m: nat, n: nat)
    ensures Picks(s, m + n) == Picks(s, m) + Picks(After(s, m), n)
    decreases m
  {
    var step := Next(s);
    if m > 0 {
      PicksSplit(step.0, m - 1, n);
      Regroup(step.1, Picks(step.0, m - 1), Picks(After(s, m), n));
    } else {
      assert Picks(s, 0) == [] && After(s, 0) == s;
    }
  }

  /** The pairs from a position on, then the ones before it. */
  function Rotated(pairs: seq<Pair>, from: nat): seq<Pair>
    requires from <= |pairs|
  {
    pairs[from..] + pairs[..from]
  }

  /** A rotation holds the same pairs equally often. */
  lemma RotationKeepsPairs(s: seq<Pair>, n: nat)
    requires n <= |s|
    ensures multiset(Rotated(s, n)) == multiset(s)
  {
    assert s == s[..n] + s[n..];
  }

  /** The queue after n rotations. */
  function Turned(s: seq<Pair>, n: nat): (r: seq<Pair>)
    ensures |r| == |s|
    decreases n
  {
    if n == 0 then s else Turned(Rotate(s), n - 1)
  }

  lemma {:induction false} TurnedIs(s: seq<Pair>, n: nat)
    requires n <= |s|
    ensures Turned(s, n) == Rotated(s, n)
    decreases n
  {
    if n > 0 {
      var r := Rotate(s);
      TurnedIs(r, n - 1);
      assert r[n - 1..] == s[n..] + [s[0]];
      assert r[..n - 1] == s[1..n];
      assert [s[0]] + s[1..n] == s[..n];
    }
  }

  lemma {:induction false} TurnedSplit(s: seq<Pair>, m: nat, n: nat)
    ensures Turned(s, m + n) == Turned(Turned(s, m), n)
    decreases m
  {
    if m > 0 {
      TurnedSplit(Rotate(s), m - 1, n);
    }
  }

  lemma MultipleIsLarge(k: int, size: int)
    requires k != 0 && size > 0
    ensures k * size >= size || k * size <= -size
  {
    if k > 0 {
      assert (k - 1) * size >= 0;
    } else {
      assert (-k - 1) * size >= 0;
    }
  }

  lemma ModStep(n: int, size: int)
    requires 0 < size <= n
    ensures n % size == (n - size) % size
  {
    var m := n - size;
    var k := n / size - m / size - 1;
    var d := m % size - n % size;
    assert k * size == d by {
      assert n == (n / size) * size + n % size;
      assert m == (m / size) * size + m % size;
      assert k * size == (n / size) * size - (m / size) * size - size;
    }
    if k != 0 { MultipleIsLarge(k, size); }
  }

  /** A full turn changes nothing. */
  lemma TurnedBack(s: seq<Pair>, n: nat)
    requires |s| <= n
    ensures Turned(s, n) == Turned(s, n - |s|)
  {
    TurnedIs(s, |s|);
    assert s[|s|..] + s[..|s|] == s;
    TurnedSplit(s, |s|, n - |s|);
  }

  lemma {:induction false} TurnedWraps(s: seq<Pair>, n: nat)
    requires s != []
    ensures Turned(s, n) == Turned(s, n % |s|)
    decreases n
  {
    if n >= |s| {
      TurnedBack(s, n);
      TurnedWraps(s, n - |s|);
      ModStep(n, |s|);
    }
  }

  /** The standard queue is always a rotation of its initial contents, by the picks it served. */
  lemma TurnedIsRotation(s: seq<Pair>, n: nat)
    requires s != []
    ensures Turned(s, n) == Rotated(s, n % |s|)
  {
    TurnedWraps(s, n);
    TurnedIs(s, n % |s|);
  }

  lemma {:induction false} StandardAfter(s: State, n: nat)
    requires s.queue == []
    ensures After(s, n) == s.(standard := Turned(s.standard, n))
    decreases n
  {
    if n > 0 {
      StandardAfter(Next(s).0, n - 1);
    }
  }

  lemma {:induction false} StandardPicks(s: State, n: nat)
    requires s.queue == [] && n <= |s.standard|
    ensures Picks(s, n) == Somes(s.standard[..n])
    decreases n
  {
    if n > 0 {
      StandardPicks(s, n - 1);
      PicksSplit(s, n - 1, 1);
      StandardAfter(s, n - 1);
      TurnedIs(s.standard, n - 1);
      var t := After(s, n - 1);
      assert Picks(t, 1) == [Next(t).1] + Picks(Next(t).0, 0);
      assert Next(t).1 == Some(s.standard[n - 1]);
    }
  }

  lemma FullTurn(s: State)
    requires s.queue == []
    ensures Picks(s, |s.standard|) == Somes(s.standard) && After(s, |s.standard|) == s
  {
    var L := |s.standard|;
    assert s.standard[..L] == s.standard && s.standard[L..] == [];
    StandardPicks(s, L);
    StandardAfter(s, L);
    TurnedIs(s.standard, L);
  }

  /**
   * Without priorities, each window of L picks that starts after n picks serves the queue of
   * L pairs once through, rotated by n, and leaves the queue as it found it.
   */
  lemma EveryWindowServesAll(s: State, n: nat)
    requires s.queue == [] && s.standard != []
    ensures var L, t := |s.standard|, After(s, n);
            t == s.(standard := Rotated(s.standard, n % L)) && After(t, L) == t &&
            Picks(t, L) == Somes(Rotated(s.standard, n % L))
    ensures multiset(Rotated(s.standard, n % |s.standard|)) == multiset(s.standard)
  {
    StandardAfter(s, n);
    TurnedIsRotation(s.standard, n);
    RotationKeepsPairs(s.standard, n % |s.standard|);
    FullTurn(After(s, n));
  }

  // ---- priorities ----

  /** What is left of the current block of priority pairs. */
  ghost predicate InBlock(s: State, block: seq<Pair>, done: nat) {
    block == Product(s.priority, s.intervals) && done < |block| && s.queue == block[done..]
  }

  lemma SliceStep(block: seq<Pair>, a: nat, b: nat)
    requires a < b <= |block|
    ensures Somes(block[a..b]) == [Some(block[a])] + Somes(block[a + 1..b])
  {
  }

  lemma BlockStep(s: State, block: seq<Pair>, done: nat)
    requires InBlock(s, block, done)
    ensures Next(s).1 == Some(block[done])
    ensures Next(s).0 == s.(queue := if done + 1 == |block| then block else block[done + 1..])
    ensures InBlock(Next(s).0, block, if done + 1 == |block| then 0 else done + 1)
  {
    assert s.queue[1..] == block[done + 1..];
    assert block[0..] == block;
  }

  /** The queue when a block has been served up to position b. */
  function QueueAt(block: seq<Pair>, b: nat): seq<Pair>
    requires b <= |block|
  {
    if b == |block| then block else block[b..]
  }

  lemma {:induction false} PriorityPicks(s: State, block: seq<Pair>, a: nat, b: nat)
    requires InBlock(s, block, a) && a <= b <= |block|
    ensures Picks(s, b - a) == Somes(block[a..b])
    ensures After(s, b - a) == s.(queue := QueueAt(block, b))
    decreases b - a
  {
    if a < b {
      BlockStep(s, block, a);
      SliceStep(block, a, b);
      var t := Next(s).0;
      if a + 1 < |block| {
        PriorityPicks(t, block, a + 1, b);
      } else {
        assert Picks(t, 0) == [] == Somes(block[b..b]) && After(t, 0) == t;
      }
    }
  }

  lemma BlocksJoin(block: seq<Pair>, done: nat)
    requires done <= |block|
    ensures Somes(block[done..]) + Somes(block[..done]) == Somes(Rotated(block, done))
  {
  }

  /** The picks up to the end of the block, which leave the queue refilled. */
  lemma BlockEnds(s: State, block: seq<Pair>, done: nat)
    requires InBlock(s, block, done)
    ensures Picks(s, |block| - done) == Somes(block[done..])
    ensures After(s, |block| - done) == s.(queue := block)
  {
    PriorityPicks(s, block, done, |block|);
    assert block[done..|block|] == block[done..];
  }

  /** The picks from the refilled queue up to position `done`. */
  lemma BlockStarts(s: State, block: seq<Pair>, done: nat)
    requires InBlock(s, block, done)
    ensures Picks(s.(queue := block), done) == Somes(block[..done])
    ensures After(s.(queue := block), done) == s
  {
    assert block[0..] == block && block[0..done] == block[..done];
    PriorityPicks(s.(queue := block), block, 0, done);
  }

  lemma PicksJoin(s: State, t: State, block: seq<Pair>, done: nat)
    requires done <= |block| && After(s, |block| - done) == t
    requires Picks(s, |block| - done) == Somes(block[done..]) && Picks(t, done) == Somes(block[..done])
    ensures Picks(s, |block|) == Somes(Rotated(block, done))
  {
    PicksSplit(s, |block| - done, done);
    BlocksJoin(block, done);
  }

  lemma AfterJoin(s: State, t: State, block: seq<Pair>, done: nat)
    requires done <= |block| && After(s, |block| - done) == t
    ensures After(s, |block|) == After(t, done)
  {
    AfterSplit(s, |block| - done, done);
  }

  /**
   * With priorities set, every window of |P| * |I| picks, wherever it starts in a block,
   * serves each priority pair once and no other pair, and leaves both queues as they were.
   * The standard queue is starved for as long as the priority set is not empty.
   */
  lemma PriorityWindowServesBlock(s: State, block: seq<Pair>, done: nat)
    requires InBlock(s, block, done)
    ensures Picks(s, |block|) == Somes(Rotated(block, done)) && After(s, |block|) == s
    ensures multiset(Rotated(block, done)) == multiset(block)
  {
    BlockEnds(s, block, done);
    BlockStarts(s, block, done);
    PicksJoin(s, s.(queue := block), block, done);
    AfterJoin(s, s.(queue := block), block, done);
    RotationKeepsPairs(block, done);
  }

  // ---- any mixture of picks and priority changes ----

  datatype Event = Pick | Prioritise(instruments: seq<string>)

  function Apply(s: State, e: Event): State {
    match e
    case Pick => Next(s).0
    case Prioritise(instruments) => SetPriority(s, instruments)
  }

  function Run(s: State, run: seq<Event>): State
    decreases |run|
  {
    if run == [] then s else Run(Apply(s, run[0]), run[1..])
  }

  predicate PicksStandard(s: State, e: Event) {
    e.Pick? && s.queue == [] && s.standard != []
  }

  /** The picks of the run that came from the standard queue. */
  function StandardServed(s: State, run: seq<Event>): seq<Pair>
    decreases |run|
  {
    if run == [] then []
    else (if PicksStandard(s, run[0]) then [s.standard[0]] else []) + StandardServed(Apply(s, run[0]), run[1..])
  }

  /** The first n elements of the endless repetition of s. */
  function Cycle(s: seq<Pair>, n: nat): (r: seq<Pair>)
    requires n > 0 ==> s != []
    ensures |r| == n
    decreases n
  {
    if n == 0 then [] else [s[0]] + Cycle(Rotate(s), n - 1)
  }

  lemma StandardStep(s: State, e: Event)
    ensures Apply(s, e).standard == if PicksStandard(s, e) then Rotate(s.standard) else s.standard
  {
  }

  /** The standard queue turns by one for each pick it serves, and by nothing else. */
  lemma {:induction false} StandardTurns(s: State, run: seq<Event>)
    ensures Run(s, run).standard == Turned(s.standard, |StandardServed(s, run)|)
    decreases |run|
  {
    if run != [] {
      StandardStep(s, run[0]);
      StandardTurns(Apply(s, run[0]), run[1..]);
    }
  }

  /**
   * Whatever priorities come and go in between, the standard picks of a run are one
   * uninterrupted walk around the queue: it resumes exactly where it stopped.
   */
  lemma {:induction false} StandardResumes(s: State, run: seq<Event>)
    ensures s.standard == [] ==> StandardServed(s, run) == []
    ensures StandardServed(s, run) == Cycle(s.standard, |StandardServed(s, run)|)
    decreases |run|
  {
    if run != [] {
      StandardStep(s, run[0]);
      StandardResumes(Apply(s, run[0]), run[1..]);
    }
  }

  /** At every point of every run the priority queue is empty or a rest of the current block. */
  ghost predicate Queued(s: State) {
    (Product(s.priority, s.intervals) == [] && s.queue == []) ||
    (exists done: nat :: InBlock(s, Product(s.priority, s.intervals), done))
  }

  lemma {:induction false} AlwaysQueued(s: State, run: seq<Event>)
    requires Queued(s)
    ensures Queued(Run(s, run))
    decreases |run|
  {
    if run != [] {
      var block := Product(s.priority, s.intervals);
      if run[0].Pick? && s.queue != [] {
        var done: nat :| InBlock(s, block, done);
        BlockStep(s, block, done);
      } else if run[0].Prioritise? {
        var t := Apply(s, run[0]);
        assert t.queue != [] ==> InBlock(t, t.queue, 0);
      }
      AlwaysQueued(Apply(s, run[0]), run[1..]);
    }
  }
}
