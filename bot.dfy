/** `GitHubTradingBot`: the configured symbols, the process-wide scan counter
    and last-scan time, and the log of notifications handed to the sink. */
module Bot {
  import opened Scoring
  import opened Scan

  class TradingBot {
    var symbols: seq<string>
    var analysisCount: nat
    var lastScan: Option<Timestamp>
    /** Every notification handed to the messaging sink, oldest first. A send
        that the sink rejects is still recorded: the source ignores the
        outcome of a send. */
    var sent: seq<Message>

    constructor (symbols: seq<string>)
      ensures this.symbols == symbols
      ensures analysisCount == 0 && lastScan == None && sent == []
    {
      this.symbols := symbols;
      analysisCount := 0;
      lastScan := None;
      sent := [];
    }

    /** The visiting loop of a scan: every configured symbol is analysed
        once, in list order; a skip or a failure only leaves that symbol out,
        and the results scoring at least 70 are kept in visiting order. */
    static method CollectOpportunities(symbols: seq<string>, feeds: seq<Feed>, now: Timestamp)
      returns (opportunities: seq<ScoreResult>)
      requires |feeds| == |symbols|
      ensures opportunities == Qualifying(Outcomes(symbols, feeds, now))
    {
      ghost var outs := Outcomes(symbols, feeds, now);
      opportunities := [];
      var i := 0;
      while i < |symbols|
        invariant 0 <= i <= |symbols|
        invariant opportunities == Qualifying(outs[..i])
      {
        var outcome := Analyze(symbols[i], feeds[i], now);
        assert outcome == outs[i];
        if outcome.Scored? && outcome.result.score >= OpportunityThreshold {
          opportunities := opportunities + [outcome.result];
        }
        QualifyingStep(outs, i);
        i := i + 1;
      }
      assert outs[..i] == outs;
    }

    /** One full scan. `feeds[i]` is what fetching the i-th configured symbol
        returned; `now` stands for the clock. */
    method ComprehensiveScan(feeds: seq<Feed>, now: Timestamp)
      requires |feeds| == |symbols|
      modifies this`analysisCount, this`lastScan, this`sent
      ensures symbols == old(symbols)
      ensures analysisCount == old(analysisCount) + 1
      ensures lastScan == Some(now)
      ensures sent == old(sent) + [ScanStart] + ScanReport(Qualifying(Outcomes(symbols, feeds, now)))
    {
      sent := sent + [ScanStart];
      var opportunities := CollectOpportunities(symbols, feeds, now);
      ghost var report := ScanReport(opportunities);
      if opportunities != [] {
        assert report == RankedMessages(TopResults(opportunities));
        opportunities := SortByScore(opportunities);
        var top := opportunities[..Min(ReportLimit, |opportunities|)];
        var rank := 0;
        while rank < |top|
          invariant 0 <= rank <= |top|
          invariant analysisCount == old(analysisCount)
          invariant sent == old(sent) + [ScanStart] + RankedMessages(top[..rank])
        {
          RankedMessagesStep(top, rank);
          sent := sent + [Opportunity(rank + 1, top[rank])];
          rank := rank + 1;
        }
        assert top[..rank] == top;
        assert RankedMessages(top) == report;
      } else {
        sent := sent + [NoOpportunities];
      }
      analysisCount := analysisCount + 1;
      lastScan := Some(now);
    }

    /** Sends the status report: the scan count, the number of symbols and
        the time of the last scan. */
    method SendStatusReport()
      modifies this`sent
      ensures sent == old(sent) + [StatusReport(analysisCount, |symbols|, lastScan)]
    {
      sent := sent + [StatusReport(analysisCount, |symbols|, lastScan)];
    }

    /** The daily run: a start notice, one full scan, then the status report,
        which already counts this scan. */
    method RunDailyScan(feeds: seq<Feed>, now: Timestamp)
      requires |feeds| == |symbols|
      modifies this`analysisCount, this`lastScan, this`sent
      ensures analysisCount == old(analysisCount) + 1
      ensures lastScan == Some(now)
      ensures sent == old(sent) + [DailyScanStart, ScanStart] +
                      ScanReport(Qualifying(Outcomes(symbols, feeds, now))) +
                      [StatusReport(analysisCount, |symbols|, Some(now))]
    {
      sent := sent + [DailyScanStart];
      ComprehensiveScan(feeds, now);
      SendStatusReport();
    }
  }
}
