/**
 * The sparkline widget: a histogram of the dates of the folder's recent
 * messages, drawn as a small bar chart unless every bar is empty.
 */
module Sparkline {
  import opened Mail

  /**
   * The accumulating histogram after one recent message: its date is added,
   * or taken out when the message was deleted (taking out a date that is not
   * there changes nothing).
   */
  function Record(dates: multiset<int>, date: int, deleted: bool): (r: multiset<int>)
    ensures !deleted ==> r[date] == dates[date] + 1
    ensures deleted ==> r[date] == if dates[date] > 0 then dates[date] - 1 else 0
    ensures forall d :: d != date ==> r[d] == dates[d]
  {
    if deleted then dates - multiset{date} else dates + multiset{date}
  }

  /** Recording a message and then its deletion leaves the histogram as it was. */
  lemma RecordRoundTrip(dates: multiset<int>, date: int)
    ensures Record(Record(dates, date, false), date, true) == dates
  {
    var added := Record(dates, date, false);
    assert forall d :: Record(added, date, true)[d] == dates[d];
  }

  /** The total number of recorded dates goes up by one on an add, and down by one on the delete of a recorded date. */
  lemma RecordSize(dates: multiset<int>, date: int, deleted: bool)
    ensures !deleted ==> |Record(dates, date, deleted)| == |dates| + 1
    ensures deleted && date in dates ==> |Record(dates, date, deleted)| == |dates| - 1
    ensures deleted && date !in dates ==> Record(dates, date, deleted) == dates
  {
    if deleted && date in dates {
      assert dates == Record(dates, date, true) + multiset{date};
    }
    if deleted && date !in dates {
      assert forall d :: Record(dates, date, deleted)[d] == dates[d];
    }
  }

  class SparklineWidget {
    /** `this.dates`: the histogram of recent message dates. */
    var dates: multiset<int>
    /** Whether the chart needs re-rendering. */
    var stale: bool
    /** Between `init` and `uninit`, when `this.dates` exists. */
    var ready: bool
    /** Whether the root element carries the `hidden` class. */
    var hidden: bool
    /** How many times the chart has been drawn. */
    var drawn: nat

    constructor()
      ensures !ready && !stale && !hidden && dates == multiset{} && drawn == 0
    {
      dates := multiset{};
      stale := false;
      ready := false;
      hidden := false;
      drawn := 0;
    }

    /** `init`: an empty histogram, marked stale, with the chart hidden. */
    method Init()
      modifies this
      ensures ready && stale && hidden && dates == multiset{} && drawn == old(drawn)
    {
      dates := multiset{};
      stale := true;
      hidden := true;
      ready := true;
    }

    /** `uninit`: drops the histogram; the chart stays as it was. */
    method Uninit()
      modifies this
      ensures !ready && dates == multiset{}
      ensures stale == old(stale) && hidden == old(hidden) && drawn == old(drawn)
    {
      dates := multiset{};
      ready := false;
    }

    /**
     * `processRecentMessage`: records or un-records the message's date and
     * marks the chart stale. Returns nothing, so it never asks for a
     * reprocess.
     */
    method ProcessRecentMessage(m: Message, deleted: bool) returns (reprocess: bool)
      requires ready
      modifies this
      ensures !reprocess && ready && stale
      ensures dates == Record(old(dates), m.date, deleted)
      ensures hidden == old(hidden) && drawn == old(drawn)
    {
      stale := true;
      if !deleted {
        dates := dates + multiset{m.date};
      } else {
        dates := dates - multiset{m.date};
      }
      reprocess := false;
    }

    /**
     * `render`: `peak` is the tallest bar of the binned histogram (the
     * binning belongs to the statistics library, which is not modelled; an
     * empty histogram has no bar above zero). A zero peak hides the chart
     * and leaves it stale; otherwise the chart is shown, drawn and fresh.
     */
    method Render(peak: int)
      requires ready && peak >= 0
      requires dates == multiset{} ==> peak == 0
      modifies this
      ensures peak == 0 ==> hidden && stale == old(stale) && drawn == old(drawn)
      ensures peak != 0 ==> !hidden && !stale && drawn == old(drawn) + 1
      ensures ready && dates == old(dates)
    {
      if peak == 0 {
        hidden := true;
        return;
      }
      hidden := false;
      drawn := drawn + 1;
      stale := false;
    }

    /** `update`: renders only a stale chart. */
    method Update(peak: int)
      requires ready && peak >= 0
      requires dates == multiset{} ==> peak == 0
      modifies this
      ensures !old(stale) ==> stale == old(stale) && hidden == old(hidden) && drawn == old(drawn)
      ensures old(stale) && peak == 0 ==> stale && hidden && drawn == old(drawn)
      ensures old(stale) && peak != 0 ==> !stale && !hidden && drawn == old(drawn) + 1
      ensures ready && dates == old(dates)
    {
      if stale {
        Render(peak);
      }
    }
  }
}
