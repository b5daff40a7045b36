/** Normalisation of the configured candle intervals. */
module CandleIntervals {
  import opened Texts
  import opened Wrappers

  function Alias(lowered: string, otherwise: string): string {
    if lowered == "1m" || lowered == "1min" then "minute"
    else if lowered == "5m" || lowered == "5min" then "5minute"
    else if lowered == "15m" || lowered == "15min" then "15minute"
    else otherwise
  }

  function Canonical(raw: string): string {
    Alias(Lower(Strip(raw)), Strip(raw))
  }

  /** Canonical names are their own canonical names. */
  lemma CanonicalTwice(raw: string)
    ensures Canonical(Canonical(raw)) == Canonical(raw)
  {
    var c := Canonical(raw);
    assert Stripped(c);
    assert Strip(c) == c;
    if c != Strip(raw) {
      assert |Lower(c)| >= 6;
    }
  }

  /** The minutes a known interval name stands for, whether it is an alias or canonical. */
  function Minutes(name: string): Option<nat> {
    if name in {"1m", "1min", "minute"} then Some(1)
    else if name in {"5m", "5min", "5minute"} then Some(5)
    else if name in {"15m", "15min", "15minute"} then Some(15)
    else None
  }

  /**
   * The canonical name of a known interval stands for the same minutes and is spelt out; any
   * other text is only stripped.
   */
  lemma CanonicalKeepsMinutes(raw: string)
    ensures var lowered := Lower(Strip(raw));
            if Minutes(lowered) == None || lowered in {"minute", "5minute", "15minute"}
            then Canonical(raw) == Strip(raw)
            else Minutes(Canonical(raw)) == Minutes(lowered) && Canonical(raw) in {"minute", "5minute", "15minute"}
  {
    assert |Lower(Strip(raw))| == |Strip(raw)|;
  }

  function Collect(raws: seq<string>): seq<string> {
    if raws == [] then []
    else
      var before, name := Collect(raws[..|raws| - 1]), Canonical(raws[|raws| - 1]);
      if name != "" && name !in before then before + [name] else before
  }

  function Normalised(raws: seq<string>): seq<string> {
    if Collect(raws) == [] then ["minute"] else Collect(raws)
  }

  method NormaliseIntervals(raws: seq<string>) returns (result: seq<string>)
    ensures result == Normalised(raws)
    ensures result != [] && "" !in result
    ensures Distinct(result)
  {
    var seen: set<string> := {};
    result := [];
    for n := 0 to |raws|
      invariant result == Collect(raws[..n])
      invariant seen == set name | name in result
      invariant "" !in result
      invariant Distinct(result)
    {
      assert raws[..n + 1][..n] == raws[..n];
      var name := Canonical(raws[n]);
      if name != "" && name !in seen {
        seen := seen + {name};
        result := result + [name];
      }
    }
    assert raws[..|raws|] == raws;
    if result == [] { result := ["minute"]; }
  }

  /** The supported names of the input, each once. */
  lemma {:induction false} CollectsExactly(raws: seq<string>, name: string)
    ensures name in Collect(raws) <==> name != "" && exists raw :: raw in raws && Canonical(raw) == name
    ensures Distinct(Collect(raws))
  {
    if raws != [] {
      var before, last := raws[..|raws| - 1], raws[|raws| - 1];
      CollectsExactly(before, name);
      assert raws == before + [last];
    }
  }

  /** First occurrences keep their order: extending the input only extends the output. */
  lemma {:induction false} CollectIsStable(raws: seq<string>, more: seq<string>)
    ensures Collect(raws) <= Collect(raws + more)
    decreases |more|
  {
    if more == [] {
      assert raws + more == raws;
    } else {
      CollectIsStable(raws, more[..|more| - 1]);
      assert (raws + more)[..|raws + more| - 1] == raws + more[..|more| - 1];
    }
  }

  lemma {:induction false} CollectFixes(names: seq<string>)
    requires Distinct(names) && forall name :: name in names ==> name != "" && Canonical(name) == name
    ensures Collect(names) == names
  {
    if names != [] {
      var before := names[..|names| - 1];
      assert names == before + [names[|names| - 1]];
      assert forall name :: name in before ==> name in names;
      CollectFixes(before);
    }
  }

  /** Normalising twice is normalising once. */
  lemma NormaliseTwice(raws: seq<string>)
    ensures Normalised(Normalised(raws)) == Normalised(raws)
  {
    var names := Normalised(raws);
    forall name | name in names ensures name != "" && Canonical(name) == name {
      if Collect(raws) == [] {
        assert Canonical("1m") == "minute";
        CanonicalTwice("1m");
      } else {
        CollectsExactly(raws, name);
        var raw :| raw in raws && Canonical(raw) == name;
        CanonicalTwice(raw);
      }
    }
    CollectsExactly(raws, "");
    CollectFixes(names);
  }
}
