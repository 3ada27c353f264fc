/** How the parser's extra addition shows in the published I/O usage. */
module DiskUsage {
  import opened TextStream
  import opened DiskStats
  import Procmon

  /** What trailing white space adds to the parser's sum over a table. */
  ghost function LastExtra(f: Table): int
    requires f.rows != []
  {
    Extra(f.rows[|f.rows| - 1], f.trail)
  }

  lemma RatioInjective(x: real, y: real, sec: real)
    requires sec > 0.0
    ensures Procmon.Ratio(x, sec) == Procmon.Ratio(y, sec) <==> x == y
  {
    Procmon.RatioIsRate(x, sec, 1.0);
    Procmon.RatioIsRate(y, sec, 1.0);
  }

  /** The published usage is the usage of other counters exactly when these moved as much. */
  lemma SurplusShows(capacity: real, a: Procmon.Counters, b: Procmon.Counters, x: int, y: int)
    requires Procmon.Elapsed(a, b) > 0.0 && capacity > 0.0 && b.allMem > 0
    ensures Procmon.UsageOf(capacity, a, b).io == Procmon.Ratio((y - x) as real / 1000.0, Procmon.Elapsed(a, b))
       <==> b.ioRun - a.ioRun == y - x
  {
    RatioInjective((b.ioRun - a.ioRun) as real / 1000.0, (y - x) as real / 1000.0, Procmon.Elapsed(a, b));
  }

  /** What a tick finds in `io_run_` after parsing the file's text, whatever the parser's
      uninitialised variable held. */
  method ReadDisks(text: string, junk: int, ghost f: Table) returns (ioRun: int)
    requires f.WellFormed() && text == f.Content()
    ensures ioRun == Busy(f.rows) + LastExtra(f)
  {
    var ioData := new IoData();
    var _ := ioData.Parse(text, junk);
    ParseExact(f.rows, f.gaps, f.trail, junk);
    ioRun := ioData.ioRun;
  }

  /** Two ticks that read the files f and g publish the disks' true I/O usage exactly when
      the surplus of the last row's column 17 did not change between them. */
  lemma IoUsageExact(capacity: real, a: Procmon.Counters, b: Procmon.Counters, f: Table, g: Table)
    requires f.WellFormed() && a.ioRun == Busy(f.rows) + LastExtra(f)
    requires g.WellFormed() && b.ioRun == Busy(g.rows) + LastExtra(g)
    requires Procmon.Elapsed(a, b) > 0.0 && capacity > 0.0 && b.allMem > 0
    ensures Procmon.UsageOf(capacity, a, b).io
         == Procmon.Ratio((Busy(g.rows) - Busy(f.rows)) as real / 1000.0, Procmon.Elapsed(a, b))
       <==> LastExtra(f) == LastExtra(g)
  {
    SurplusShows(capacity, a, b, Busy(f.rows), Busy(g.rows));
  }

  /** The text of one disk with a newline behind its row, as the kernel writes it: column 10
      is `busy`, column 17 is `flush`. */
  function OneDisk(busy: nat, flush: nat): Row {
    Row(8, 0, "sda", seq(17, i => if i == 9 then busy else if i == 16 then flush else 0))
  }

  ghost function Disk(busy: nat, flush: nat): (f: Table)
    ensures f.WellFormed() && Busy(f.rows) == busy && LastExtra(f) == flush
  {
    var rows := [OneDisk(busy, flush)];
    var f := Table(rows, seq(|Tokens(rows)|, i => " "), "\n");
    assert rows[1..] == [] && Busy(rows[1..]) == 0;
    f
  }

  /** With that text the parser's sum is too large by column 17. */
  lemma SurplusSeen(busy: nat, flush: nat, junk: int)
    ensures var f := Disk(busy, flush);
      f.WellFormed() && Passes(Stream(f.Content(), false, false), Vars("", junk, 0)) == Parsed(busy + flush)
  {
    var f := Disk(busy, flush);
    ParseExact(f.rows, f.gaps, f.trail, junk);
  }

  /** And between two ticks in which column 17 grew, the published usage is wrong. */
  lemma UsageWrong(capacity: real, a: Procmon.Counters, b: Procmon.Counters,
                   busy: nat, later: nat, flush: nat, grown: nat)
    requires a.ioRun == busy + flush && b.ioRun == later + grown && flush < grown
    requires Procmon.Elapsed(a, b) > 0.0 && capacity > 0.0 && b.allMem > 0
    ensures Procmon.UsageOf(capacity, a, b).io != Procmon.Ratio((later - busy) as real / 1000.0, Procmon.Elapsed(a, b))
  {
    IoUsageExact(capacity, a, b, Disk(busy, flush), Disk(later, grown));
  }
}
