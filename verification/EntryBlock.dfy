/** The cached reader of the global entry-block flag. */
module EntryBlock {
  import opened Wrappers

  /** Instants of the monotonic clock. */
  type Time = real

  /** The attributes of the flag's row. */
  datatype Entry = Entry(
    blocked: bool, reason: string, source: string, actionId: string, idempotencyKey: string,
    createdAt: string, schemaVersion: string)

  datatype BlockState = BlockState(entry: Entry, readOk: bool) {
    predicate Allowed() { !entry.blocked }
  }

  function Bare(blocked: bool, reason: string): Entry {
    Entry(blocked, reason, "", "", "", "", "")
  }

  const ALLOW := BlockState(Bare(false, ""), true)
  const FAIL_CLOSED := BlockState(Bare(true, "entry_block_read_failure"), false)
  const FAIL_OPEN := BlockState(Bare(false, "entry_block_read_failure"), false)

  /** What the table holds at each instant; None when the row is absent. */
  type Table = Time -> Option<Entry>

  function StateOf(item: Option<Entry>): BlockState {
    match item
    case None => ALLOW
    case Some(entry) => BlockState(entry, true)
  }

  datatype Config = Config(ttl: Time, failClosed: bool)

  datatype Cache = Cache(state: BlockState, at: Time)

  /** A new reader has an unread "allowed" in its cache, dated to the clock's origin. */
  const UNREAD := Cache(ALLOW, 0.0)

  /** A call at `now` that asks the table, if it does, at `fetched`. */
  datatype Call = Read(now: Time, fetched: Time, force: bool, fails: bool) | Invalidate

  predicate UsesCache(config: Config, c: Cache, call: Call)
    requires call.Read?
  {
    !call.force && call.now - c.at < config.ttl
  }

  function ReadResult(config: Config, c: Cache, call: Call, table: Table): BlockState
    requires call.Read?
  {
    if UsesCache(config, c, call) then c.state
    else if !call.fails then StateOf(table(call.fetched))
    else if config.failClosed then FAIL_CLOSED else FAIL_OPEN
  }

  /** The cache is dated by the start of the call, and a failed read leaves it alone. */
  function Apply(config: Config, c: Cache, call: Call, table: Table): Cache {
    match call
    case Invalidate => c.(at := 0.0)
    case Read(now, fetched, _, fails) =>
      if UsesCache(config, c, call) || fails then c else Cache(StateOf(table(fetched)), now)
  }

  class Reader {
    const config: Config
    var cached: BlockState
    var cachedAt: Time

    function Abstract(): Cache
      reads this
    {
      Cache(cached, cachedAt)
    }

    constructor (config: Config)
      ensures this.config == config && Abstract() == UNREAD
    {
      this.config, cached, cachedAt := config, ALLOW, 0.0;
    }

    method Read(now: Time, fetched: Time, force: bool, fails: bool, table: Table) returns (state: BlockState)
      modifies this
      ensures state == ReadResult(config, old(Abstract()), Call.Read(now, fetched, force, fails), table)
      ensures Abstract() == Apply(config, old(Abstract()), Call.Read(now, fetched, force, fails), table)
    {
      if !force && now - cachedAt < config.ttl { return cached; }
      if fails {
        state := if config.failClosed then FAIL_CLOSED else FAIL_OPEN;
      } else {
        var item := table(fetched);
        state := if item == None then ALLOW else BlockState(item.value, true);
        cached, cachedAt := state, now;
      }
    }

    method Invalidate()
      modifies this`cachedAt
      ensures Abstract() == Apply(config, old(Abstract()), Call.Invalidate, _ => None)
    {
      cachedAt := 0.0;
    }
  }

  // ---- runs ----

  function Run(config: Config, c: Cache, run: seq<Call>, table: Table): Cache
    decreases |run|
  {
    if run == [] then c else Run(config, Apply(config, c, run[0], table), run[1..], table)
  }

  /** Calls follow one another on a clock that has passed the TTL; fetches lie within their call. */
  ghost predicate Timely(config: Config, from: Time, run: seq<Call>)
    decreases |run|
  {
    run == [] ||
    (match run[0]
     case Invalidate => Timely(config, from, run[1..])
     case Read(now, fetched, _, _) => from <= now <= fetched && Timely(config, fetched, run[1..]))
  }

  /** The time when the last call of the run was over. */
  function End(from: Time, run: seq<Call>): Time
    decreases |run|
  {
    if run == [] then from else End(if run[0].Read? then run[0].fetched else from, run[1..])
  }

  /** The state claims to have been read and says what the row says; no row means no block. */
  predicate Shows(state: BlockState, item: Option<Entry>) {
    state.readOk &&
    match item
    case None => !state.entry.blocked && state.entry.reason == ""
    case Some(entry) => state.entry == entry
  }

  /** The table held this at an instant that was read after the cache date. */
  ghost predicate Witnessed(c: Cache, table: Table, until: Time) {
    c.at == 0.0 || (exists t: Time :: c.at <= t <= until && Shows(c.state, table(t)))
  }

  /** The table held this at an instant within the call or less than one TTL before it. */
  ghost predicate Current(config: Config, call: Call, state: BlockState, table: Table)
    requires call.Read?
  {
    exists t: Time :: t <= call.fetched && (call.now <= t || call.now - t < config.ttl) && Shows(state, table(t))
  }

  lemma {:induction false} RunWitnessed(config: Config, c: Cache, run: seq<Call>, table: Table, from: Time)
    requires Witnessed(c, table, from) && Timely(config, from, run)
    ensures Witnessed(Run(config, c, run, table), table, End(from, run)) && End(from, run) >= from
    decreases |run|
  {
    if run != [] {
      var d := Apply(config, c, run[0], table);
      var until := if run[0].Read? then run[0].fetched else from;
      if run[0].Read? {
        if !UsesCache(config, c, run[0]) && !run[0].fails {
          assert d.at <= run[0].fetched <= until && Shows(d.state, table(run[0].fetched));
        } else if c.at != 0.0 {
          var t: Time :| c.at <= t <= from && Shows(c.state, table(t));
          assert d.at <= t <= until;
        }
      }
      RunWitnessed(config, d, run[1..], table, until);
    }
  }

  /**
   * After any run of reads, forced reads, invalidations and failures, while the flag changes
   * as it likes: once the clock has passed the TTL, a result that claims to have been read
   * is what the table held less than one TTL ago or during the call; and in fail-closed mode
   * "allowed" is only returned if the table allowed entries then.
   */
  lemma ReadsAreCurrent(config: Config, run: seq<Call>, table: Table, call: Call)
    requires Timely(config, 0.0, run) && call.Read?
    requires End(0.0, run) <= call.now <= call.fetched && config.ttl <= call.now
    ensures var state := ReadResult(config, Run(config, UNREAD, run, table), call, table);
            (state.readOk ==> Current(config, call, state, table)) &&
            (config.failClosed && state.Allowed() ==> Current(config, call, state, table))
  {
    RunWitnessed(config, UNREAD, run, table, 0.0);
    var c := Run(config, UNREAD, run, table);
    if UsesCache(config, c, call) {
      assert c.at != 0.0;
      var t: Time :| c.at <= t <= End(0.0, run) && Shows(c.state, table(t));
      assert call.now - t < config.ttl;
    } else if !call.fails {
      assert call.now <= call.fetched && Shows(ReadResult(config, c, call, table), table(call.fetched));
    }
  }

  lemma {:induction false} CacheWasRead(config: Config, c: Cache, run: seq<Call>, table: Table)
    requires c.state.readOk
    ensures Run(config, c, run, table).state.readOk
    decreases |run|
  {
    if run != [] {
      CacheWasRead(config, Apply(config, c, run[0], table), run[1..], table);
    }
  }

  /**
   * After any run, a result says that it was not read exactly when the call had to ask the
   * table and the ask failed; it then names that failure, and blocks exactly when the reader
   * fails closed.
   */
  lemma UnreadExactly(config: Config, run: seq<Call>, table: Table, call: Call)
    requires call.Read?
    ensures var c := Run(config, UNREAD, run, table);
            var state := ReadResult(config, c, call, table);
            (!state.readOk <==> call.fails && (call.force || call.now - c.at >= config.ttl)) &&
            (!state.readOk ==>
               (state.Allowed() <==> !config.failClosed) && state.entry.reason == "entry_block_read_failure")
  {
    CacheWasRead(config, UNREAD, run, table);
  }

  /**
   * How long an answer lasts: after a read that asked the table, the next unforced read is
   * answered from the cache exactly if it starts less than one TTL after that read started,
   * however long the answer took.
   */
  lemma AnswerLastsExactly(config: Config, c: Cache, call: Call, next: Call, table: Table)
    requires call.Read? && !UsesCache(config, c, call) && !call.fails && next.Read? && !next.force
    ensures UsesCache(config, Apply(config, c, call, table), next) <==> next.now < call.now + config.ttl
  {
  }

  /** An invalidation makes the next read ask the table exactly when the clock has passed the TTL. */
  lemma InvalidateForcesExactly(config: Config, c: Cache, call: Call, table: Table)
    requires call.Read? && !call.force
    ensures UsesCache(config, Apply(config, c, Invalidate, table), call) <==> call.now < config.ttl
  {
  }

  /**
   * Before that, a new reader answers "allowed, read" without ever having read, whatever the
   * table holds, also in fail-closed mode.
   */
  lemma EarlyReadsAreUnread(config: Config, call: Call, table: Table)
    requires call.Read? && !call.force && call.now < config.ttl
    ensures ReadResult(config, UNREAD, call, table) == ALLOW
    ensures (forall t: Time :: table(t).Some? && table(t).value.blocked) ==> !Current(config, call, ALLOW, table)
  {
  }

  /**
   * A fail-closed answer does not stick: an unforced read inside the TTL of the last good
   * read returns that read again, although the read in between failed.
   */
  lemma FailureDoesNotStick(config: Config, c: Cache, failed: Call, next: Call, table: Table)
    requires failed.Read? && failed.force && failed.fails && config.failClosed
    requires next.Read? && !next.force && next.now - c.at < config.ttl
    ensures !ReadResult(config, c, failed, table).Allowed()
    ensures ReadResult(config, Apply(config, c, failed, table), next, table) == c.state
  {
  }
}
