/** The export page (app.py `page_export`): a text listing of the planner
    for every plan and a CSV table for the Pro plan, both in ascending
    (day, time) order. */
module Export {
  import opened Wrappers
  import opened Seqs
  import opened Sorting
  import opened Dates
  import opened Planner

  // ---- Hashtags ----

  /** `t.lstrip("#")`: `t` without its leading run of '#'. */
  function StripHashes(t: string): (r: string)
    ensures |r| <= |t| && r == t[|t| - |r|..]
    ensures forall i :: 0 <= i < |t| - |r| ==> t[i] == '#'
    ensures r == [] || r[0] != '#'
  {
    if t != [] && t[0] == '#' then StripHashes(t[1..]) else t
  }

  /** `"#" + t.lstrip("#")`: the tag with exactly one leading '#'. */
  function NormalizeTag(t: string): string {
    "#" + StripHashes(t)
  }

  /** A normalised tag starts with a single '#', what follows it is the tag
      after its leading '#'s, and normalising it again changes nothing. */
  lemma NormalizeTagSpec(t: string)
    ensures var r := NormalizeTag(t);
      r[0] == '#' && (|r| == 1 || r[1] != '#') &&
      (exists n :: 0 <= n <= |t| && (forall i :: 0 <= i < n ==> t[i] == '#') && t[n..] == r[1..])
    ensures NormalizeTag(NormalizeTag(t)) == NormalizeTag(t)
  {
    var s := StripHashes(t);
    var r := NormalizeTag(t);
    assert r == ['#'] + s;
    assert r[1..] == s;
    assert StripHashes(r) == StripHashes(s) by {
      assert r != [] && r[0] == '#';
    }
    assert StripHashes(s) == s;
    var n := |t| - |s|;
    assert t[n..] == r[1..];
  }

  /** The hashtag line: the normalised tags separated by single spaces. */
  function TagLine(tags: seq<string>): string {
    Join(Map(tags, NormalizeTag), " ")
  }

  // ---- Text export ----

  /** The line closing every entry: `"\n" + "-" * 40 + "\n"`. */
  const Separator: string := "\n----------------------------------------\n"

  /** `"{day} {time} · {platform} · {title}\n{caption}\n"`. */
  function Header(e: Event): string {
    IsoDate(e.day) + " " + ClockText(e.time) + " · " + e.platform + " · " + e.title + "\n" + e.caption + "\n"
  }

  /** A header opens with the entry's ISO day and `HH:MM` time, separated
      by one space. */
  lemma HeaderStart(e: Event)
    ensures 16 <= |Header(e)| && Header(e)[..16] == IsoDate(e.day) + " " + ClockText(e.time)
  {
    var start := IsoDate(e.day) + " " + ClockText(e.time);
    assert |start| == 16;
    assert Header(e) == start + (" · " + e.platform + " · " + e.title + "\n" + e.caption + "\n");
  }

  function HasTags(e: Event): bool {
    e.hashtags != []
  }

  /** The lines one entry contributes: its header, its hashtag line when it
      has hashtags, and the separator. */
  function EntryLines(e: Event): (r: seq<string>)
    ensures |r| == if HasTags(e) then 3 else 2
    ensures r[0] == Header(e) && r[|r| - 1] == Separator
    ensures HasTags(e) ==> r[1] == TagLine(e.hashtags)
  {
    Block(Header(e), if HasTags(e) then [TagLine(e.hashtags)] else [], Separator)
  }

  /** The lines of the entries in the order given. */
  function Listing(entries: seq<Event>): seq<string> {
    FlatMap(entries, EntryLines)
  }

  /** Appending an entry's lines one by one appends `EntryLines`. A proof
      step of `TextLines`. */
  lemma AppendEntry(before: seq<string>, e: Event)
    ensures HasTags(e) ==>
      before + [Header(e)] + [TagLine(e.hashtags)] + [Separator] == before + EntryLines(e)
    ensures !HasTags(e) ==> before + [Header(e)] + [Separator] == before + EntryLines(e)
  {
    var tagLines := if HasTags(e) then [TagLine(e.hashtags)] else [];
    AppendBlock(before, Header(e), tagLines, Separator);
    assert !HasTags(e) ==> before + [Header(e)] + tagLines == before + [Header(e)];
  }

  /** The loop that builds `lines`, one entry at a time, over the planner
      already sorted by (day, time). */
  method TextLines(sorted: seq<Event>) returns (lines: seq<string>)
    ensures lines == Listing(sorted)
  {
    lines := [];
    var j := 0;
    while j < |sorted|
      invariant 0 <= j <= |sorted|
      invariant lines == Listing(sorted[..j])
    {
      var e := sorted[j];
      ghost var before := lines;
      lines := lines + [Header(e)];
      if HasTags(e) {
        lines := lines + [TagLine(e.hashtags)];
      }
      lines := lines + [Separator];
      AppendEntry(before, e);
      FlatMapPrefix(sorted, j, EntryLines);
      j := j + 1;
    }
    assert sorted[..j] == sorted;
  }

  /** Each entry gives two lines, plus one for an entry with hashtags. */
  lemma {:induction false} ListingLength(entries: seq<Event>)
    ensures |Listing(entries)| == 2 * |entries| + |Filter(entries, HasTags)|
    decreases |entries|
  {
    if entries != [] {
      var n := |entries| - 1;
      var e := entries[n];
      ListingLength(entries[..n]);
      assert entries == entries[..n] + [e];
      assert |EntryLines(e)| == if HasTags(e) then 3 else 2;
      FilterSnoc(entries[..n], e, HasTags);
    }
  }

  /** The text export of a planner has two lines per entry and one hashtag
      line per entry that has hashtags, whatever the planner's order. */
  lemma TextLineCount(planner: seq<Event>)
    ensures |Listing(SortBy(planner, SlotKey))| == 2 * |planner| + |Filter(planner, HasTags)|
  {
    ListingLength(SortBy(planner, SlotKey));
    FilterPermutation(SortBy(planner, SlotKey), planner, HasTags);
  }

  // ---- CSV export (Pro) ----

  /** A CSV cell before quoting: text, a number, or empty (for None). */
  datatype CsvField = Text(text: string) | Number(value: real) | Blank

  const CsvHeader: seq<CsvField> :=
    [Text("day"), Text("time"), Text("platform"), Text("title"), Text("score"), Text("status")]

  function StatusText(s: Status): string {
    match s
    case Planned => "planned"
    case Done => "done"
  }

  /** One entry's row, a cell per header column: the ISO day, the `HH:MM`
      time, the platform, the title, the score (blank for an entry without
      one) and the status, which is `done` only for a completed entry and
      `planned` otherwise, including an entry without a status. */
  function CsvRow(e: Event): (r: seq<CsvField>)
    ensures |r| == |CsvHeader|
    ensures r[0] == Text(IsoDate(e.day)) && r[1] == Text(ClockText(e.time))
    ensures r[2] == Text(e.platform) && r[3] == Text(e.title)
    ensures r[4] == if e.score.Some? then Number(e.score.value) else Blank
    ensures r[5] == Text("done") <==> e.status == Some(Done)
    ensures r[5] != Text("done") ==> r[5] == Text("planned")
  {
    [Text(IsoDate(e.day)), Text(ClockText(e.time)), Text(e.platform), Text(e.title),
     (match e.score case Some(x) => Number(x) case None => Blank),
     Text(StatusText(e.status.GetOr(Planned)))]
  }

  function CsvRows(entries: seq<Event>): seq<seq<CsvField>> {
    Map(entries, CsvRow)
  }

  /** The table below the header has one row per planner entry, the `k`-th
      being the row of the `k`-th entry in (day, time) order. */
  lemma CsvRowsInOrder(planner: seq<Event>)
    ensures |CsvRows(SortBy(planner, SlotKey))| == |planner|
    ensures forall k :: 0 <= k < |planner| ==>
      CsvRows(SortBy(planner, SlotKey))[k] == CsvRow(SortBy(planner, SlotKey)[k])
  {
    MapAt(SortBy(planner, SlotKey), CsvRow);
  }

  /** The loop that writes the header row and then one row per entry of the
      planner already sorted by (day, time). */
  method CsvTable(sorted: seq<Event>) returns (rows: seq<seq<CsvField>>)
    ensures rows == [CsvHeader] + CsvRows(sorted)
  {
    rows := [CsvHeader];
    var j := 0;
    while j < |sorted|
      invariant 0 <= j <= |sorted|
      invariant rows == [CsvHeader] + CsvRows(sorted[..j])
    {
      rows := rows + [CsvRow(sorted[j])];
      assert sorted[..j + 1][..j] == sorted[..j];
      j := j + 1;
    }
    assert sorted[..j] == sorted;
  }

  datatype ExportResult =
    | NothingToExport
    | Files(text: string, csv: Option<seq<seq<CsvField>>>)

  /** The export page: nothing for an empty planner; otherwise the text file
      (lines joined by newlines) and, for the Pro plan only, the CSV table. */
  method ExportPage(plan: string, planner: seq<Event>) returns (r: ExportResult)
    ensures r.NothingToExport? <==> planner == []
    ensures r.Files? ==> r.text == Join(Listing(SortBy(planner, SlotKey)), "\n")
    ensures r.Files? ==> (r.csv.Some? <==> plan == "Pro")
    ensures r.Files? && r.csv.Some? ==> r.csv.value == [CsvHeader] + CsvRows(SortBy(planner, SlotKey))
  {
    if planner == [] {
      return NothingToExport;
    }
    var sorted := SortBy(planner, SlotKey);
    var lines := TextLines(sorted);
    var csv: Option<seq<seq<CsvField>>> := None;
    if plan == "Pro" {
      var rows := CsvTable(sorted);
      csv := Some(rows);
    }
    return Files(Join(lines, "\n"), csv);
  }
}
