/** Edge-triggered incident records in an append-only file that is replayed on start. */
module IncidentLog {
  import opened Wrappers
  import opened Texts

  datatype Status = Ok | Unknown | Degraded | Down

  function Value(status: Status): string {
    match status
    case Ok => "ok"
    case Unknown => "unknown"
    case Degraded => "degraded"
    case Down => "down"
  }

  function Rank(status: Status): nat {
    match status
    case Ok => 0
    case Unknown => 1
    case Degraded => 2
    case Down => 3
  }

  /** Unrecognised text counts as DEGRADED. */
  function Coerce(text: string): Status {
    var t := Lower(Strip(text));
    if t == "ok" then Ok else if t == "unknown" then Unknown else if t == "down" then Down else Degraded
  }

  /** A status that alerts when a component enters it. */
  predicate Alerts(status: Status, minRank: nat) {
    status != Ok && Rank(status) >= minRank
  }

  predicate Alertworthy(previous: Option<string>, current: string, minRank: nat) {
    Alerts(Coerce(current), minRank) ||
    (Coerce(current) == Ok && previous.Some? && Alerts(Coerce(previous.value), minRank))
  }

  /** A line of the file; `Garbage` does not decode, and blank fields are not restored. */
  datatype Line = Blank | Garbage | Record(component: string, from: Option<string>, to: string, alertworthy: bool)

  datatype Transition = Transition(
    component: string, previous: Option<string>, current: string, isRecovery: bool, alertworthy: bool)

  /** One collector result of a cycle, and whether its record, if any, reaches the file. */
  datatype Observation = Observation(name: string, status: Status, appended: bool)

  type Memory = map<string, string>

  datatype State = State(last: Memory, file: seq<Line>)

  function Get(m: Memory, name: string): Option<string> {
    if name in m then Some(m[name]) else None
  }

  function Remember(m: Memory, line: Line): Memory {
    if line.Record? && line.component != "" && line.to != "" then m[line.component := line.to] else m
  }

  function Replay(file: seq<Line>): Memory {
    if file == [] then map[] else Remember(Replay(file[..|file| - 1]), file[|file| - 1])
  }

  predicate Changes(m: Memory, o: Observation) {
    Get(m, o.name) != Some(Value(o.status))
  }

  function TransitionOf(m: Memory, o: Observation, minRank: nat): Transition {
    var previous, current := Get(m, o.name), Value(o.status);
    Transition(o.name, previous, current, current == Value(Ok), Alertworthy(previous, current, minRank))
  }

  function LineOf(t: Transition): Line {
    Record(t.component, t.previous, t.current, t.alertworthy)
  }

  /** A failed append is swallowed: the memory moves on without it. */
  function Observe(s: State, o: Observation, minRank: nat): State {
    if !Changes(s.last, o) then s
    else State(
      s.last[o.name := Value(o.status)],
      if o.appended then s.file + [LineOf(TransitionOf(s.last, o, minRank))] else s.file)
  }

  function Cycle(s: State, results: seq<Observation>, minRank: nat): State
    decreases |results|
  {
    if results == [] then s else Cycle(Observe(s, results[0], minRank), results[1..], minRank)
  }

  function Transitions(s: State, results: seq<Observation>, minRank: nat): seq<Transition>
    decreases |results|
  {
    if results == [] then []
    else
      (if Changes(s.last, results[0]) then [TransitionOf(s.last, results[0], minRank)] else []) +
      Transitions(Observe(s, results[0], minRank), results[1..], minRank)
  }

  class Log {
    const minRank: nat
    var last: Memory
    var file: seq<Line>

    function Abstract(): State
      reads this
    {
      State(last, file)
    }

    /** Opens an existing file; one that cannot be read restores nothing. */
    constructor (file: seq<Line>, readable: bool, minStatus: string)
      ensures minRank == Rank(Coerce(minStatus)) && this.file == file
      ensures last == if readable then Replay(file) else map[]
    {
      this.minRank, this.file, this.last := Rank(Coerce(minStatus)), file, map[];
      new;
      if readable { Restore(); }
    }

    method Restore()
      requires last == map[]
      modifies this`last
      ensures last == Replay(file)
    {
      for n := 0 to |file|
        invariant last == Replay(file[..n])
      {
        assert file[..n + 1][..n] == file[..n];
        match file[n] {
          case Record(component, _, to, _) =>
            if component != "" && to != "" { last := last[component := to]; }
          case _ =>
        }
      }
      assert file[..|file|] == file;
    }

    /** One result of a cycle: None when its status did not change. */
    method RecordOne(o: Observation) returns (t: Option<Transition>)
      modifies this
      ensures Abstract() == Observe(old(Abstract()), o, minRank)
      ensures t == if Changes(old(last), o) then Some(TransitionOf(old(last), o, minRank)) else None
    {
      var previous := if o.name in last then Some(last[o.name]) else None;
      var current := Value(o.status);
      if previous == Some(current) { return None; }
      var change := Transition(o.name, previous, current, current == "ok", Alertworthy(previous, current, minRank));
      if o.appended { file := file + [LineOf(change)]; }
      last := last[o.name := current];
      t := Some(change);
    }

    method RecordCycle(results: seq<Observation>) returns (transitions: seq<Transition>)
      modifies this
      ensures Abstract() == Cycle(old(Abstract()), results, minRank)
      ensures transitions == Transitions(old(Abstract()), results, minRank)
    {
      transitions := [];
      for n := 0 to |results|
        invariant Abstract() == Cycle(old(Abstract()), results[..n], minRank)
        invariant transitions == Transitions(old(Abstract()), results[..n], minRank)
      {
        PrefixGrows(old(Abstract()), results, n, minRank);
        var t := RecordOne(results[n]);
        if t.Some? { transitions := transitions + [t.value]; }
      }
      assert results[..|results|] == results;
    }
  }

  function Reports(s: State, o: Observation, minRank: nat): seq<Transition> {
    if Changes(s.last, o) then [TransitionOf(s.last, o, minRank)] else []
  }

  lemma {:induction false} CycleEnds(s: State, results: seq<Observation>, o: Observation, minRank: nat)
    ensures Cycle(s, results + [o], minRank) == Observe(Cycle(s, results, minRank), o, minRank)
    ensures Transitions(s, results + [o], minRank) ==
            Transitions(s, results, minRank) + Reports(Cycle(s, results, minRank), o, minRank)
    decreases |results|
  {
    if results == [] {
      assert results + [o] == [o] && [o][1..] == [];
      assert Cycle(Observe(s, o, minRank), [], minRank) == Observe(s, o, minRank);
      assert Transitions(Observe(s, o, minRank), [], minRank) == [];
    } else {
      var t := Observe(s, results[0], minRank);
      assert (results + [o])[1..] == results[1..] + [o];
      CycleEnds(t, results[1..], o, minRank);
    }
  }

  lemma PrefixGrows(s: State, results: seq<Observation>, n: nat, minRank: nat)
    requires n < |results|
    ensures var t := Cycle(s, results[..n], minRank);
            Cycle(s, results[..n + 1], minRank) == Observe(t, results[n], minRank) &&
            Transitions(s, results[..n + 1], minRank) ==
              Transitions(s, results[..n], minRank) + Reports(t, results[n], minRank)
  {
    assert results[..n + 1] == results[..n] + [results[n]];
    CycleEnds(s, results[..n], results[n], minRank);
  }

  // ---- the file and the memory ----

  /** Replaying the file gives exactly the memory. */
  ghost predicate Synced(s: State) {
    Replay(s.file) == s.last
  }

  /** The record of an observation, if it has one, is in the file and can be restored. */
  predicate Kept(o: Observation) {
    o.appended && o.name != ""
  }

  lemma ValueNotEmpty(status: Status)
    ensures Value(status) != ""
  {
  }

  lemma ObserveReplays(s: State, o: Observation, minRank: nat)
    ensures Replay(Observe(s, o, minRank).file) ==
            if Changes(s.last, o) && Kept(o) then Replay(s.file)[o.name := Value(o.status)] else Replay(s.file)
  {
    ValueNotEmpty(o.status);
    if Changes(s.last, o) && o.appended {
      var line := LineOf(TransitionOf(s.last, o, minRank));
      assert (s.file + [line])[..|s.file|] == s.file;
    }
  }

  ghost predicate AllKept(results: seq<Observation>) {
    forall o :: o in results ==> Kept(o)
  }

  lemma {:induction false} CycleStaysSynced(s: State, results: seq<Observation>, minRank: nat)
    requires Synced(s) && AllKept(results)
    ensures Synced(Cycle(s, results, minRank))
    decreases |results|
  {
    if results != [] {
      ObserveReplays(s, results[0], minRank);
      assert Kept(results[0]);
      CycleStaysSynced(Observe(s, results[0], minRank), results[1..], minRank);
    }
  }

  ghost predicate DistinctNames(results: seq<Observation>) {
    forall i, j :: 0 <= i < j < |results| ==> results[i].name != results[j].name
  }

  /** Components that are not observed keep their entry in the memory and in the replay. */
  lemma {:induction false} CycleFrame(s: State, results: seq<Observation>, minRank: nat, name: string)
    requires forall o :: o in results ==> o.name != name
    ensures Get(Cycle(s, results, minRank).last, name) == Get(s.last, name)
    ensures Get(Replay(Cycle(s, results, minRank).file), name) == Get(Replay(s.file), name)
    decreases |results|
  {
    if results != [] {
      assert results[0] in results;
      ObserveReplays(s, results[0], minRank);
      CycleFrame(Observe(s, results[0], minRank), results[1..], minRank, name);
    }
  }

  /** What one component's file and memory say agrees. */
  predicate SyncedOn(s: State, name: string) {
    Get(Replay(s.file), name) == Get(s.last, name)
  }

  lemma ObserveOn(s: State, o: Observation, minRank: nat, name: string)
    requires SyncedOn(s, name)
    ensures var t := Observe(s, o, minRank);
            (o.name != name ==> SyncedOn(t, name) && Get(t.last, name) == Get(s.last, name)) &&
            (o.name == name ==> (SyncedOn(t, name) <==> !Changes(s.last, o) || Kept(o)))
  {
    ObserveReplays(s, o, minRank);
  }

  /**
   * From agreement, a cycle over distinct components leaves a component in agreement exactly
   * when its status did not change or its record was kept.
   */
  lemma {:induction false} ComponentSyncedExactly(s: State, results: seq<Observation>, minRank: nat, i: nat)
    requires DistinctNames(results) && i < |results| && SyncedOn(s, results[i].name)
    ensures SyncedOn(Cycle(s, results, minRank), results[i].name) <==> !Changes(s.last, results[i]) || Kept(results[i])
    decreases i
  {
    var t := Observe(s, results[0], minRank);
    ObserveOn(s, results[0], minRank, results[i].name);
    if i == 0 {
      CycleFrame(t, results[1..], minRank, results[0].name);
    } else {
      assert results[0].name != results[i].name;
      assert results[1..][i - 1] == results[i];
      ComponentSyncedExactly(t, results[1..], minRank, i - 1);
    }
  }

  lemma SyncedEverywhere(s: State)
    ensures Synced(s) <==> forall name :: SyncedOn(s, name)
  {
    if forall name :: SyncedOn(s, name) {
      forall name ensures name in Replay(s.file) <==> name in s.last {
        assert SyncedOn(s, name);
      }
      forall name | name in s.last ensures Replay(s.file)[name] == s.last[name] {
        assert SyncedOn(s, name);
      }
    }
  }

  /** The file replays to the memory after a cycle exactly when every change was kept. */
  lemma SyncedExactly(s: State, results: seq<Observation>, minRank: nat)
    requires Synced(s) && DistinctNames(results)
    ensures Synced(Cycle(s, results, minRank)) <==> forall o :: o in results && Changes(s.last, o) ==> Kept(o)
  {
    var t := Cycle(s, results, minRank);
    SyncedEverywhere(s);
    SyncedEverywhere(t);
    forall i | 0 <= i < |results|
      ensures SyncedOn(t, results[i].name) <==> !Changes(s.last, results[i]) || Kept(results[i])
    {
      ComponentSyncedExactly(s, results, minRank, i);
    }
    if forall o :: o in results && Changes(s.last, o) ==> Kept(o) {
      forall name ensures SyncedOn(t, name) {
        if i :| 0 <= i < |results| && results[i].name == name {
          assert results[i] in results;
        } else {
          CycleFrame(s, results, minRank, name);
        }
      }
    }
  }

  // ---- restarts ----

  datatype Event = Observed(results: seq<Observation>) | Restart

  function Apply(s: State, e: Event, minRank: nat): State {
    match e
    case Observed(results) => Cycle(s, results, minRank)
    case Restart => s.(last := Replay(s.file))
  }

  function Run(s: State, run: seq<Event>, minRank: nat): State
    decreases |run|
  {
    if run == [] then s else Run(Apply(s, run[0], minRank), run[1..], minRank)
  }

  function Reported(s: State, run: seq<Event>, minRank: nat): seq<Transition>
    decreases |run|
  {
    if run == [] then []
    else
      (if run[0].Observed? then Transitions(s, run[0].results, minRank) else []) +
      Reported(Apply(s, run[0], minRank), run[1..], minRank)
  }

  function WithoutRestarts(run: seq<Event>): seq<Event> {
    if run == [] then [] else (if run[0] == Restart then [] else [run[0]]) + WithoutRestarts(run[1..])
  }

  ghost predicate RunKept(run: seq<Event>) {
    forall e: Event :: e in run && e.Observed? ==> AllKept(e.results)
  }

  /**
   * As long as records are kept, restarts between cycles cannot be noticed: the run reports
   * the same transitions with the same alert flags and ends in the same state.
   */
  lemma {:induction false} RestartsGoUnnoticed(s: State, run: seq<Event>, minRank: nat)
    requires Synced(s) && RunKept(run)
    ensures Reported(s, run, minRank) == Reported(s, WithoutRestarts(run), minRank)
    ensures Run(s, run, minRank) == Run(s, WithoutRestarts(run), minRank) && Synced(Run(s, run, minRank))
    decreases |run|
  {
    if run != [] {
      var t := Apply(s, run[0], minRank);
      if run[0].Observed? {
        assert run[0] in run;
        CycleStaysSynced(s, run[0].results, minRank);
      }
      RestartsGoUnnoticed(t, run[1..], minRank);
      var rest := WithoutRestarts(run[1..]);
      if run[0].Observed? {
        assert ([run[0]] + rest)[1..] == rest;
      } else {
        assert WithoutRestarts(run) == rest;
      }
    }
  }

  /** A transition whose record is lost is reported once more after a restart. */
  lemma LostRecordIsReportedAgain(s: State, o: Observation, minRank: nat)
    requires Synced(s) && Changes(s.last, o) && !Kept(o)
    ensures var restarted := Apply(Observe(s, o, minRank), Restart, minRank);
            Changes(restarted.last, o) && TransitionOf(restarted.last, o, minRank) == TransitionOf(s.last, o, minRank)
  {
    ObserveReplays(s, o, minRank);
  }

  // ---- the chain of records ----

  /** Each transition starts from what was last known and goes somewhere else. */
  ghost predicate Chained(m: Memory, ts: seq<Transition>)
    decreases |ts|
  {
    ts == [] ||
    (ts[0].previous == Get(m, ts[0].component) && ts[0].previous != Some(ts[0].current) &&
     Chained(m[ts[0].component := ts[0].current], ts[1..]))
  }

  function Following(m: Memory, ts: seq<Transition>): Memory
    decreases |ts|
  {
    if ts == [] then m else Following(m[ts[0].component := ts[0].current], ts[1..])
  }

  lemma {:induction false} ChainedJoins(m: Memory, a: seq<Transition>, b: seq<Transition>)
    requires Chained(m, a) && Chained(Following(m, a), b)
    ensures Chained(m, a + b) && Following(m, a + b) == Following(Following(m, a), b)
    decreases |a|
  {
    if a == [] {
      assert a + b == b;
    } else {
      assert (a + b)[1..] == a[1..] + b;
      ChainedJoins(m[a[0].component := a[0].current], a[1..], b);
    }
  }

  lemma {:induction false} CycleChains(s: State, results: seq<Observation>, minRank: nat)
    ensures var ts := Transitions(s, results, minRank);
            Chained(s.last, ts) && Following(s.last, ts) == Cycle(s, results, minRank).last
    decreases |results|
  {
    if results != [] {
      var t := Observe(s, results[0], minRank);
      CycleChains(t, results[1..], minRank);
      var rest := Transitions(t, results[1..], minRank);
      if Changes(s.last, results[0]) {
        assert ([TransitionOf(s.last, results[0], minRank)] + rest)[1..] == rest;
      } else {
        assert Transitions(s, results, minRank) == rest;
      }
    }
  }

  lemma {:induction false} RunChains(s: State, run: seq<Event>, minRank: nat)
    requires Restart !in run
    ensures Chained(s.last, Reported(s, run, minRank))
    decreases |run|
  {
    if run != [] {
      var t := Apply(s, run[0], minRank);
      assert run[0] in run;
      CycleChains(s, run[0].results, minRank);
      RunChains(t, run[1..], minRank);
      ChainedJoins(s.last, Transitions(s, run[0].results, minRank), Reported(t, run[1..], minRank));
    }
  }

  lemma {:induction false} NoRestartsLeft(run: seq<Event>)
    ensures Restart !in WithoutRestarts(run)
    ensures RunKept(run) ==> RunKept(WithoutRestarts(run))
  {
    if run != [] {
      NoRestartsLeft(run[1..]);
      assert run == [run[0]] + run[1..];
      forall e: Event | RunKept(run) && e in WithoutRestarts(run) && e.Observed? ensures AllKept(e.results) {
        if e != run[0] {
          assert e in WithoutRestarts(run[1..]);
          assert RunKept(run[1..]);
        }
      }
    }
  }

  lemma {:induction false} ChainLinks(m: Memory, ts: seq<Transition>, i: nat, j: nat)
    requires Chained(m, ts) && i < j < |ts| && ts[i].component == ts[j].component
    requires forall k :: i < k < j ==> ts[k].component != ts[i].component
    ensures ts[j].previous == Some(ts[i].current) && ts[j].current != ts[i].current
    decreases |ts|
  {
    var m' := m[ts[0].component := ts[0].current];
    if i > 0 {
      ChainLinks(m', ts[1..], i - 1, j - 1);
    } else {
      ChainStarts(m', ts[1..], j - 1);
    }
  }

  lemma {:induction false} ChainStarts(m: Memory, ts: seq<Transition>, j: nat)
    requires Chained(m, ts) && j < |ts|
    requires forall k :: 0 <= k < j ==> ts[k].component != ts[j].component
    ensures ts[j].previous == Get(m, ts[j].component) && ts[j].previous != Some(ts[j].current)
    decreases |ts|
  {
    if j > 0 {
      assert ts[0].component != ts[j].component;
      ChainStarts(m[ts[0].component := ts[0].current], ts[1..], j - 1);
    }
  }

  /**
   * Over any run with kept records, restarts included: for each component, a transition
   * starts where the one before it ended, and ends somewhere else.
   */
  lemma TransitionsLinkUp(s: State, run: seq<Event>, minRank: nat, i: nat, j: nat)
    requires Synced(s) && RunKept(run)
    requires i < j < |Reported(s, run, minRank)|
    requires Reported(s, run, minRank)[i].component == Reported(s, run, minRank)[j].component
    requires forall k :: i < k < j ==>
               Reported(s, run, minRank)[k].component != Reported(s, run, minRank)[i].component
    ensures Reported(s, run, minRank)[j].previous == Some(Reported(s, run, minRank)[i].current)
    ensures Reported(s, run, minRank)[j].current != Reported(s, run, minRank)[i].current
  {
    RestartsGoUnnoticed(s, run, minRank);
    NoRestartsLeft(run);
    RunChains(s, WithoutRestarts(run), minRank);
    ChainLinks(s.last, Reported(s, run, minRank), i, j);
  }

  // ---- what a transition says ----

  /** The transition tells of this observation: a change, from what was remembered to what is seen. */
  predicate Tells(t: Transition, o: Observation, before: Option<string>, minRank: nat) {
    t.component == o.name && t.previous == before && t.current == Value(o.status) && t.previous != Some(t.current) &&
    (t.isRecovery <==> o.status == Ok) &&
    (t.alertworthy <==>
       Alerts(o.status, minRank) || (o.status == Ok && before.Some? && Alerts(Coerce(before.value), minRank)))
  }

  /** The state in which the i-th result of a cycle is looked at. */
  function BeforeResult(s: State, results: seq<Observation>, i: nat, minRank: nat): State
    requires i <= |results|
  {
    Cycle(s, results[..i], minRank)
  }

  /** The transition tells of some result of the cycle, as it was found. */
  ghost predicate TellsOfSome(s: State, results: seq<Observation>, minRank: nat, t: Transition) {
    exists i :: 0 <= i < |results| &&
        Tells(t, results[i], Get(BeforeResult(s, results, i, minRank).last, results[i].name), minRank)
  }

  lemma FirstTells(s: State, results: seq<Observation>, minRank: nat)
    requires results != [] && Changes(s.last, results[0])
    ensures TellsOfSome(s, results, minRank, TransitionOf(s.last, results[0], minRank))
  {
    CoerceValue(results[0].status);
    assert BeforeResult(s, results, 0, minRank) == s;
    assert Tells(TransitionOf(s.last, results[0], minRank), results[0], Get(s.last, results[0].name), minRank);
  }

  lemma RestTells(s: State, results: seq<Observation>, minRank: nat, t: Transition)
    requires results != [] && TellsOfSome(Observe(s, results[0], minRank), results[1..], minRank, t)
    ensures TellsOfSome(s, results, minRank, t)
  {
    var next, rest := Observe(s, results[0], minRank), results[1..];
    var i :| 0 <= i < |rest| &&
      Tells(t, rest[i], Get(BeforeResult(next, rest, i, minRank).last, rest[i].name), minRank);
    assert results[..i + 1][1..] == rest[..i] && results[i + 1] == rest[i];
    assert BeforeResult(s, results, i + 1, minRank) == BeforeResult(next, rest, i, minRank);
  }

  /** Each transition of a cycle tells of one of its results: what changed, and whether it recovers or alerts. */
  lemma {:induction false} TransitionsTell(s: State, results: seq<Observation>, minRank: nat, k: nat)
    requires k < |Transitions(s, results, minRank)|
    ensures TellsOfSome(s, results, minRank, Transitions(s, results, minRank)[k])
    decreases |results|
  {
    var next, first := Observe(s, results[0], minRank), Changes(s.last, results[0]);
    if first && k == 0 {
      FirstTells(s, results, minRank);
    } else {
      var j := if first then k - 1 else k;
      TransitionsTell(next, results[1..], minRank, j);
      RestTells(s, results, minRank, Transitions(next, results[1..], minRank)[j]);
    }
  }

  /** From place `from` on, the file holds one record for each of these transitions, with its fields. */
  ghost predicate Holds(file: seq<Line>, from: nat, ts: seq<Transition>) {
    |file| == from + |ts| &&
    forall i :: 0 <= i < |ts| ==>
      file[from + i] == Record(ts[i].component, ts[i].previous, ts[i].current, ts[i].alertworthy)
  }

  lemma HoldsOneMore(file: seq<Line>, from: nat, t: Transition, ts: seq<Transition>)
    requires from < |file| && file[from] == Record(t.component, t.previous, t.current, t.alertworthy)
    requires Holds(file, from + 1, ts)
    ensures Holds(file, from, [t] + ts)
  {
    forall i | 0 <= i < |[t] + ts|
      ensures var u := ([t] + ts)[i];
              file[from + i] == Record(u.component, u.previous, u.current, u.alertworthy)
    {
      if i > 0 {
        assert ([t] + ts)[i] == ts[i - 1] && file[from + 1 + (i - 1)] == file[from + i];
      }
    }
  }

  /** With all appends kept, the file grows by exactly one record per transition, holding its fields. */
  lemma {:induction false} TransitionsAreRecorded(s: State, results: seq<Observation>, minRank: nat)
    requires forall o :: o in results ==> o.appended
    ensures s.file <= Cycle(s, results, minRank).file
    ensures Holds(Cycle(s, results, minRank).file, |s.file|, Transitions(s, results, minRank))
    decreases |results|
  {
    if results != [] {
      var next, file := Observe(s, results[0], minRank), Cycle(s, results, minRank).file;
      assert results[0] in results;
      TransitionsAreRecorded(next, results[1..], minRank);
      if Changes(s.last, results[0]) {
        assert next.file[|s.file|] == file[|s.file|];
        var t := TransitionOf(s.last, results[0], minRank);
        HoldsOneMore(file, |s.file|, t, Transitions(next, results[1..], minRank));
      } else {
        assert Transitions(s, results, minRank) == Transitions(next, results[1..], minRank);
      }
    }
  }

  /** The line restores this status of the component. */
  predicate Restores(line: Line, name: string, status: string) {
    line.Record? && line.component == name && line.to == status && name != "" && status != ""
  }

  /** What a restart remembers of a component is its last record with neither field blank. */
  lemma {:induction false} ReplayIsTheLastRecord(file: seq<Line>, name: string, status: string)
    ensures Get(Replay(file), name) == Some(status) <==>
            exists i :: 0 <= i < |file| && Restores(file[i], name, status) &&
                forall j, later :: i < j < |file| ==> !Restores(file[j], name, later)
  {
    if file != [] {
      var n := |file| - 1;
      ReplayIsTheLastRecord(file[..n], name, status);
      var line := file[n];
      if line.Record? && line.component == name && name != "" && line.to != "" {
        assert Restores(line, name, line.to);
      } else {
        assert forall later :: !Restores(line, name, later);
      }
    }
  }

  // ---- alert flags ----

  lemma CoerceValue(status: Status)
    ensures Coerce(Value(status)) == status
  {
    var t := Value(status);
    assert Stripped(t);
    assert Lower(t) == t;
  }

  /** With statuses the agent itself wrote, an alert is a bad enough status or its direct end. */
  lemma AlertsExactly(previous: Option<Status>, current: Status, minRank: nat)
    ensures var from := if previous == None then None else Some(Value(previous.value));
            Alertworthy(from, Value(current), minRank) <==>
            Alerts(current, minRank) || (current == Ok && previous.Some? && Alerts(previous.value, minRank))
  {
    CoerceValue(current);
    if previous.Some? {
      CoerceValue(previous.value);
    }
  }

  /**
   * With the default threshold a recovery from DOWN that passes through UNKNOWN raises no
   * alert at either step, although going DOWN did.
   */
  lemma RecoveryThroughUnknownIsSilent()
    ensures Alertworthy(Some("ok"), "down", Rank(Degraded))
    ensures !Alertworthy(Some("down"), "unknown", Rank(Degraded))
    ensures !Alertworthy(Some("unknown"), "ok", Rank(Degraded))
  {
    AlertsExactly(Some(Ok), Down, Rank(Degraded));
    AlertsExactly(Some(Down), Unknown, Rank(Degraded));
    AlertsExactly(Some(Unknown), Ok, Rank(Degraded));
  }
}
