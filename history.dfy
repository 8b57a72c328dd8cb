/** The strategy history log `.zenflow_history.json` (app.py:61-89): a JSON
    list of past roadmaps, newest first. The wall clock enters as the
    already formatted timestamp string. */
module History {
  import opened Wrappers
  import opened Text

  /** One saved roadmap: when, what, and the settings it was made for. */
  datatype HistoryEntry = HistoryEntry(timestamp: string, roadmap: string, summary: string)

  /** The log file as the application finds it on disk. */
  datatype HistoryFile = NoHistory | UnreadableHistory | HistoryLog(entries: seq<HistoryEntry>)

  /** `load_strategy_history`: a missing or unreadable log reads as no history. */
  function LoadHistory(f: HistoryFile): (r: seq<HistoryEntry>)
  {
    match f
    case HistoryLog(entries) => entries
    case _ => []
  }

  const DaysMark: string := " Days • "
  const HoursMark: string := " Hrs/Day"

  /** The summary line `f"{days} Days • {hours} Hrs/Day"`. */
  function Summary(days: nat, hours: nat): (r: string) {
    NatToString(days) + DaysMark + NatToString(hours) + HoursMark
  }

  /** Reads the settings back out of a summary line. */
  function ParseSummary(s: string): Option<(nat, nat)> {
    var d := LeadingDigits(s);
    var rest := s[|d|..];
    if d != [] && DaysMark <= rest then
      var rest2 := rest[|DaysMark|..];
      var h := LeadingDigits(rest2);
      if h != [] && rest2[|h|..] == HoursMark then Some((ParseNat(d), ParseNat(h))) else None
    else None
  }

  /** A summary line determines the days and hours it was written for. */
  lemma ParseSummaryOfSummary(days: nat, hours: nat)
    ensures ParseSummary(Summary(days, hours)) == Some((days, hours))
  {
    var ds := NatToString(days);
    var hs := NatToString(hours);
    var tail := hs + HoursMark;
    var s := Summary(days, hours);
    ReadNumber(ds, DaysMark + tail);
    assert s == ds + (DaysMark + tail);
    assert (DaysMark + tail)[|DaysMark|..] == tail;
    ReadNumber(hs, HoursMark);
    ParseNatToString(days);
    ParseNatToString(hours);
  }

  /** A number followed by one of the two marks is read back whole. */
  lemma ReadNumber(d: string, t: string)
    requires |d| >= 1 && (forall i :: 0 <= i < |d| ==> IsDigit(d[i]))
    requires t != [] && t[0] == ' '
    ensures LeadingDigits(d + t) == d && (d + t)[|d|..] == t
  {
    LeadingDigitsOfConcat(d, t);
  }

  /** Different settings never share a summary line. */
  lemma SummaryInjective(d1: nat, h1: nat, d2: nat, h2: nat)
    requires Summary(d1, h1) == Summary(d2, h2)
    ensures d1 == d2 && h1 == h2
  {
    ParseSummaryOfSummary(d1, h1);
    ParseSummaryOfSummary(d2, h2);
  }

  /** `save_strategy_history`: the new entry is put in front of what could be
      read, and the whole list is written back, so an unreadable or missing
      log is replaced by a one-entry log. Loading the saved log gives the new
      entry first, then exactly the entries loaded before. */
  function SaveHistory(f: HistoryFile, roadmap: string, days: nat, hours: nat, now: string): (r: HistoryFile)
    ensures r.HistoryLog? && |LoadHistory(r)| == |LoadHistory(f)| + 1
    ensures LoadHistory(r)[0].roadmap == roadmap && LoadHistory(r)[0].timestamp == now
    ensures ParseSummary(LoadHistory(r)[0].summary) == Some((days, hours))
    ensures LoadHistory(r)[1..] == LoadHistory(f)
    ensures !f.HistoryLog? ==> |LoadHistory(r)| == 1
  {
    ParseSummaryOfSummary(days, hours);
    HistoryLog([HistoryEntry(now, roadmap, Summary(days, hours))] + LoadHistory(f))
  }

  /** The roadmaps of a list of entries, in list order. */
  function Roadmaps(es: seq<HistoryEntry>): seq<string> {
    seq(|es|, i requires 0 <= i < |es| => es[i].roadmap)
  }

  lemma RoadmapsCons(x: HistoryEntry, es: seq<HistoryEntry>)
    ensures Roadmaps([x] + es) == [x.roadmap] + Roadmaps(es)
  {
  }

  /** A sequence backwards. */
  function Reverse<T>(xs: seq<T>): seq<T> {
    if xs == [] then [] else [xs[|xs| - 1]] + Reverse(xs[..|xs| - 1])
  }

  /** The last of several saves puts its entry in front of the earlier ones. */
  lemma SaveAllLast(f: HistoryFile, roadmaps: seq<string>, days: nat, hours: nat, now: string)
    requires roadmaps != []
    ensures LoadHistory(SaveAll(f, roadmaps, days, hours, now))
         == [HistoryEntry(now, roadmaps[|roadmaps| - 1], Summary(days, hours))]
            + LoadHistory(SaveAll(f, roadmaps[..|roadmaps| - 1], days, hours, now))
  {
  }

  /** Entries already in the log keep their order behind the new ones. */
  lemma {:induction false} SavesKeepOld(f: HistoryFile, roadmaps: seq<string>, days: nat, hours: nat, now: string)
    ensures |LoadHistory(SaveAll(f, roadmaps, days, hours, now))| == |LoadHistory(f)| + |roadmaps|
    ensures LoadHistory(SaveAll(f, roadmaps, days, hours, now))[|roadmaps|..] == LoadHistory(f)
    decreases |roadmaps|
  {
    if roadmaps != [] {
      var n := |roadmaps|;
      var init := roadmaps[..n - 1];
      SavesKeepOld(f, init, days, hours, now);
      var e := LoadHistory(SaveAll(f, roadmaps, days, hours, now));
      var e0 := LoadHistory(SaveAll(f, init, days, hours, now));
      SaveAllLast(f, roadmaps, days, hours, now);
      assert e[1..] == e0;
      assert e[n..] == e0[n - 1..];
    }
  }

  /** One save puts its roadmap in front of the roadmaps already logged. */
  lemma RoadmapsAfterSave(f: HistoryFile, roadmap: string, days: nat, hours: nat, now: string)
    ensures Roadmaps(LoadHistory(SaveHistory(f, roadmap, days, hours, now))) == [roadmap] + Roadmaps(LoadHistory(f))
  {
    RoadmapsCons(HistoryEntry(now, roadmap, Summary(days, hours)), LoadHistory(f));
  }

  /** The new roadmaps appear latest first, ahead of the old ones: the log is newest first. */
  lemma {:induction false} SavesNewestFirst(f: HistoryFile, roadmaps: seq<string>, days: nat, hours: nat, now: string)
    ensures Roadmaps(LoadHistory(SaveAll(f, roadmaps, days, hours, now))) == Reverse(roadmaps) + Roadmaps(LoadHistory(f))
    decreases |roadmaps|
  {
    if roadmaps == [] {
      assert Reverse(roadmaps) == [];
    } else {
      var n := |roadmaps|;
      var init := roadmaps[..n - 1];
      var old_ := Roadmaps(LoadHistory(f));
      var prev := SaveAll(f, init, days, hours, now);
      var last := roadmaps[n - 1];
      calc {
        Roadmaps(LoadHistory(SaveAll(f, roadmaps, days, hours, now)));
        Roadmaps(LoadHistory(SaveHistory(prev, last, days, hours, now)));
        == { RoadmapsAfterSave(prev, last, days, hours, now); }
        [last] + Roadmaps(LoadHistory(prev));
        == { SavesNewestFirst(f, init, days, hours, now); }
        [last] + (Reverse(init) + old_);
        ([last] + Reverse(init)) + old_;
        Reverse(roadmaps) + old_;
      }
    }
  }

  /** Several saves in a row, oldest first. */
  function SaveAll(f: HistoryFile, roadmaps: seq<string>, days: nat, hours: nat, now: string): HistoryFile {
    if roadmaps == [] then f
    else SaveHistory(SaveAll(f, roadmaps[..|roadmaps| - 1], days, hours, now), roadmaps[|roadmaps| - 1], days, hours, now)
  }
}
