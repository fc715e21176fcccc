/** The test compaction selector: from the one summary of the `FooCounter`
    summarizer it reads the `foos` and `bars` statistics and selects every
    available file when `foos` is even and exceeds `bars`, throws when
    `foos` is odd, and otherwise selects nothing. */
module Selection {
  import opened JavaLang
  import opened Grouping

  /** The range of a Java `long`. */
  const LongMin: int := -0x8000_0000_0000_0000
  const LongMax: int := 0x7fff_ffff_ffff_ffff

  type Long = x: int | LongMin <= x <= LongMax

  /** The statistics of one summary, by name. */
  type Statistics = map<string, Long>

  /** Map.getOrDefault(key, 0L). */
  function Stat(statistics: Statistics, key: string): (v: Long)
    ensures key in statistics ==> v == statistics[key]
    ensures key !in statistics ==> v == 0
  {
    if key in statistics then statistics[key] else 0
  }

  /** x & 1 for a `long`: the lowest bit of its 64-bit two's-complement form. */
  function LowBit(x: Long): (bit: nat)
    ensures bit < 2
  {
    (if x < 0 then x + 0x1_0000_0000_0000_0000 else x) % 2
  }

  /** The lowest bit of a `long` is its parity, negative values included. */
  lemma LowBitParity(x: Long)
    ensures LowBit(x) == x % 2
  {
    if x < 0 {
      var q := x / 2;
      assert x == 2 * q + x % 2;
      assert x + 0x1_0000_0000_0000_0000 == 2 * (q + 0x8000_0000_0000_0000) + x % 2;
    }
  }

  /** isOdd: the lowest bit is set, which agrees with parity for every `long`. */
  predicate IsOdd(x: Long): (odd: bool)
    ensures odd <==> x % 2 == 1
  {
    LowBitParity(x);
    LowBit(x) == 1
  }

  /** Negative odd counts are odd too, which a `%`-based test in Java would miss. */
  lemma NegativeOddCounts()
    ensures IsOdd(-1) && IsOdd(-3) && IsOdd(LongMax) && !IsOdd(-2) && !IsOdd(LongMin)
  {
  }

  datatype SelectorError = FooSelectorException(message: string)

  /** What select returns for the summaries of the available files: a
      selection, or the exception it throws. */
  function Decide(summaries: seq<Statistics>, available: set<FileName>): (r: Result<set<FileName>, SelectorError>)
    ensures r.Err? <==> |summaries| == 1 && Stat(summaries[0], "foos") % 2 == 1
    ensures r.Err? ==> r.error == FooSelectorException("Exception Thrown")
    ensures r.Ok? ==> r.value == available || r.value == {}
    ensures r == Ok(available) && available != {} <==>
      available != {} && |summaries| == 1 && Stat(summaries[0], "foos") % 2 == 0 &&
      Stat(summaries[0], "foos") > Stat(summaries[0], "bars")
  {
    if |summaries| == 1 then
      var statistics := summaries[0];
      var foos, bars := Stat(statistics, "foos"), Stat(statistics, "bars");
      if IsOdd(foos) then Err(FooSelectorException("Exception Thrown"))
      else if foos > bars then Ok(available)
      else Ok({})
    else Ok({})
  }

  /** Unless exactly one summary comes back, nothing is selected and nothing is thrown. */
  lemma NotOneSummary(summaries: seq<Statistics>, available: set<FileName>)
    requires |summaries| != 1
    ensures Decide(summaries, available) == Ok({})
  {
  }

  /** A summary without a `foos` count reads as zero foos: nothing is thrown,
      and every file is selected exactly when `bars` is negative. */
  lemma AbsentFoos(statistics: Statistics, available: set<FileName>)
    requires "foos" !in statistics
    ensures Decide([statistics], available).Ok?
    ensures Decide([statistics], available).value == if Stat(statistics, "bars") < 0 then available else {}
    ensures "bars" !in statistics ==> Decide([statistics], available) == Ok({})
  {
  }

  /** The selector as the tablet server holds it: select remembers whether
      the last `foos` count it looked at was odd. */
  class FooSelector {
    var odd: bool

    constructor ()
      ensures !odd
    {
      odd := false;
    }

    method Select(summaries: seq<Statistics>, available: set<FileName>) returns (r: Result<set<FileName>, SelectorError>)
      modifies this
      ensures r == Decide(summaries, available)
      ensures odd == if |summaries| == 1 then IsOdd(Stat(summaries[0], "foos")) else old(odd)
    {
      if |summaries| == 1 {
        var statistics := summaries[0];
        var foos := Stat(statistics, "foos");
        var bars := Stat(statistics, "bars");
        odd := IsOdd(foos);
        if odd {
          return Err(FooSelectorException("Exception Thrown"));
        } else if foos > bars {
          return Ok(available);
        }
      }
      return Ok({});
    }
  }
}
