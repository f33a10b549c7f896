/**
 * The two result files, `match.txt` and `unmatch.txt` (main.py:37-56). A file is the
 * sequence of lines written to it; each promotion adds one record to the end.
 */
module Output {
  import opened Wrappers
  import opened Records
  import opened Session
  import opened Seqs

  /** The titles of a promotion's items, one line each; none when it has no "items". */
  function ItemLines(items: Option<seq<Item>>): (lines: seq<string>)
    ensures items.None? ==> lines == []
    ensures items.Some? ==> |lines| == |items.value|
                            && forall k :: 0 <= k < |lines| ==> lines[k] == items.value[k].title
  {
    if items.None? then [] else seq(|items.value|, k requires 0 <= k < |items.value| => items.value[k].title)
  }

  /**
   * The record of one promotion: the time line, the title line, the url line, a line
   * per item when the promotion has items, and a blank line.
   */
  function Record(time: string, p: Promotion): seq<string> {
    [time, p.title, p.url] + ItemLines(p.items) + [""]
  }

  /** The layout of a record: its three fixed lines, its item titles and its closing blank line. */
  lemma RecordLayout(time: string, p: Promotion)
    ensures var r := Record(time, p);
            var n := if p.items.Some? then |p.items.value| else 0;
            && |r| == 4 + n
            && r[0] == time && r[1] == p.title && r[2] == p.url && r[|r| - 1] == ""
            && (p.items.Some? ==> forall k :: 0 <= k < n ==> r[3 + k] == p.items.value[k].title)
  {
  }

  /** The content of a file holding a record of each of `written`, stamped with `stamps`, in order. */
  function FileLines(stamps: seq<string>, written: seq<Promotion>): seq<string>
    requires |stamps| == |written|
  {
    if written == [] then []
    else FileLines(stamps[..|stamps| - 1], written[..|written| - 1]) + Record(stamps[|stamps| - 1], written[|written| - 1])
  }

  /** Writing one more record appends it to the file. */
  lemma FileLinesAppend(stamps: seq<string>, written: seq<Promotion>, time: string, p: Promotion)
    requires |stamps| == |written|
    ensures FileLines(stamps + [time], written + [p]) == FileLines(stamps, written) + Record(time, p)
  {
    assert (stamps + [time])[..|stamps|] == stamps;
    assert (written + [p])[..|written|] == written;
  }

  class OutputFile {
    var lines: seq<string>
    /** The promotions written so far, in order. */
    ghost var written: seq<Promotion>
    /** The time stamp of each record. */
    ghost var stamps: seq<string>

    /** The file holds exactly the records of the promotions written, in order. */
    ghost predicate Valid()
      reads this`lines, this`written, this`stamps
    {
      |stamps| == |written| && lines == FileLines(stamps, written)
    }

    /** `Output.__init__`: any earlier file of that name is removed. */
    constructor ()
      ensures Valid() && lines == [] && written == []
    {
      lines := [];
      written, stamps := [], [];
    }

    /**
     * `Output.write(promotion)`: appends the promotion's record, stamped with the
     * current time, and leaves what the file held before unchanged.
     */
    method Write(p: Promotion, env: Env)
      requires Valid()
      modifies this`lines, this`written, this`stamps, env`ticks
      ensures Valid()
      ensures lines == old(lines) + Record(Clock(env.script, old(env.ticks)), p)
      ensures written == old(written) + [p] && stamps == old(stamps) + [Clock(env.script, old(env.ticks))]
      ensures env.ticks == old(env.ticks) + 1
    {
      var time := env.Now();
      lines := lines + [time, p.title, p.url];
      ghost var head := lines;
      if p.items.Some? {
        WriteTitles(p.items.value);
      }
      assert lines == head + ItemLines(p.items);
      lines := lines + [""];
      AppendAssoc(old(lines), [time, p.title, p.url], ItemLines(p.items));
      AppendAssoc(old(lines), [time, p.title, p.url] + ItemLines(p.items), [""]);
      FileLinesAppend(stamps, written, time, p);
      written, stamps := written + [p], stamps + [time];
    }

    /** The loop of main.py:53-54: a line with each item's title. */
    method WriteTitles(items: seq<Item>)
      modifies this`lines
      ensures lines == old(lines) + ItemLines(Some(items))
    {
      var k := 0;
      while k < |items|
        invariant 0 <= k <= |items|
        invariant lines == old(lines) + ItemLines(Some(items[..k]))
      {
        assert ItemLines(Some(items[..k + 1])) == ItemLines(Some(items[..k])) + [items[k].title];
        AppendAssoc(old(lines), ItemLines(Some(items[..k])), [items[k].title]);
        lines := lines + [items[k].title];
        k := k + 1;
      }
      assert items[..k] == items;
    }
  }
}
