/** The value-level part of `GitHubTradingBot.comprehensive_scan`: the outcome
    of every configured symbol, the opportunity filter (score at least 70), the
    stable sort by descending score, the top three, and the messages that
    report them. The class in module Bot runs the scan with these. */
module Scan {
  import opened Scoring

  datatype Option<T> = None | Some(value: T)

  /** The notifications handed to the messaging sink; their text is not modelled. */
  datatype Message =
    | DailyScanStart
    | ScanStart
    | Opportunity(rank: nat, result: ScoreResult)
    | NoOpportunities
    | StatusReport(analysisCount: nat, symbolCount: nat, lastScan: Option<Timestamp>)

  /** Lowest score kept as an opportunity. */
  const OpportunityThreshold: nat := 70
  /** Most opportunities reported by one scan. */
  const ReportLimit: nat := 3

  /** The outcome of every configured symbol: each is analysed once, in list
      order, from what its own fetch returned. */
  function Outcomes(symbols: seq<string>, feeds: seq<Feed>, now: Timestamp): (outs: seq<Outcome>)
    requires |feeds| == |symbols|
    ensures |outs| == |symbols|
  {
    seq(|symbols|, i requires 0 <= i < |symbols| => Analyze(symbols[i], feeds[i], now))
  }

  predicate Qualifies(o: Outcome) {
    o.Scored? && o.result.score >= OpportunityThreshold
  }

  /** The opportunity list: the scored results reaching the threshold, in the
      order their symbols were visited. */
  function Qualifying(outs: seq<Outcome>): (r: seq<ScoreResult>)
    ensures |r| <= |outs|
    ensures forall i :: 0 <= i < |r| ==> r[i].score >= OpportunityThreshold
  {
    if outs == [] then []
    else (if Qualifies(outs[0]) then [outs[0].result] else []) + Qualifying(outs[1..])
  }

  /** Filtering keeps the visiting order: the opportunities of a longer scan
      are those of its first part followed by those of the rest. */
  lemma {:induction false} QualifyingAppend(a: seq<Outcome>, b: seq<Outcome>)
    ensures Qualifying(a + b) == Qualifying(a) + Qualifying(b)
  {
    if a == [] {
      assert a + b == b;
    } else {
      assert (a + b)[1..] == a[1..] + b;
      QualifyingAppend(a[1..], b);
    }
  }

  /** One more visited symbol adds its result to the end of the opportunity
      list when it qualifies, and nothing otherwise. */
  lemma QualifyingStep(outs: seq<Outcome>, i: nat)
    requires i < |outs|
    ensures Qualifying(outs[..i + 1]) ==
            Qualifying(outs[..i]) + if Qualifies(outs[i]) then [outs[i].result] else []
  {
    assert outs[..i + 1] == outs[..i] + [outs[i]];
    QualifyingAppend(outs[..i], [outs[i]]);
    assert [outs[i]][1..] == [];
  }

  /** A result is an opportunity exactly when some symbol scored it with at
      least 70; skipped and failed symbols never contribute one. */
  lemma {:induction false} QualifyingMembers(outs: seq<Outcome>, x: ScoreResult)
    ensures x in Qualifying(outs) <==>
      exists i :: 0 <= i < |outs| && outs[i] == Scored(x) && x.score >= OpportunityThreshold
  {
    if outs != [] {
      QualifyingMembers(outs[1..], x);
      var head := if Qualifies(outs[0]) then [outs[0].result] else [];
      assert Qualifying(outs) == head + Qualifying(outs[1..]);
      if x in Qualifying(outs) {
        if x in head {
          assert outs[0] == Scored(x);
        } else {
          var i :| 0 <= i < |outs[1..]| && outs[1..][i] == Scored(x) && x.score >= OpportunityThreshold;
          assert outs[i + 1] == Scored(x);
        }
      }
      if exists i :: 0 <= i < |outs| && outs[i] == Scored(x) && x.score >= OpportunityThreshold {
        var i :| 0 <= i < |outs| && outs[i] == Scored(x) && x.score >= OpportunityThreshold;
        if i == 0 {
          assert x in head;
        } else {
          assert outs[1..][i - 1] == Scored(x);
        }
      }
    }
  }

  /** The opportunity list is empty exactly when no symbol qualifies. */
  lemma QualifyingEmpty(outs: seq<Outcome>)
    ensures Qualifying(outs) == [] <==> forall i :: 0 <= i < |outs| ==> !Qualifies(outs[i])
  {
    if Qualifying(outs) != [] {
      QualifyingMembers(outs, Qualifying(outs)[0]);
    }
    forall i | 0 <= i < |outs| && Qualifies(outs[i])
      ensures Qualifying(outs) != []
    {
      QualifyingMembers(outs, outs[i].result);
    }
  }

  /** A symbol that does not qualify leaves the opportunity list exactly as
      if it had not been configured at all. */
  lemma NonQualifyingDropsOut(outs: seq<Outcome>, j: nat)
    requires j < |outs| && !Qualifies(outs[j])
    ensures Qualifying(outs) == Qualifying(outs[..j] + outs[j + 1..])
  {
    var before, after := outs[..j], outs[j + 1..];
    assert outs == outs[..j + 1] + after;
    QualifyingAppend(outs[..j + 1], after);
    QualifyingStep(outs, j);
    assert Qualifying(outs[..j + 1]) == Qualifying(before);
    QualifyingAppend(before, after);
  }

  /** Leaving symbol `j` out of the configuration leaves every other
      symbol's outcome as it was. */
  lemma OutcomesWithout(symbols: seq<string>, feeds: seq<Feed>, now: Timestamp, j: nat)
    requires |feeds| == |symbols| && j < |symbols|
    ensures Outcomes(symbols[..j] + symbols[j + 1..], feeds[..j] + feeds[j + 1..], now) ==
            Outcomes(symbols, feeds, now)[..j] + Outcomes(symbols, feeds, now)[j + 1..]
  {
    var syms, fds := symbols[..j] + symbols[j + 1..], feeds[..j] + feeds[j + 1..];
    assert forall i :: 0 <= i < |syms| ==>
      syms[i] == symbols[if i < j then i else i + 1] && fds[i] == feeds[if i < j then i else i + 1];
  }

  /** Failure isolation: when the fetch or analysis of symbol `j` fails (or it
      is skipped), the scan finds exactly the opportunities it would have
      found over the other symbols alone. */
  lemma FailureIsolation(symbols: seq<string>, feeds: seq<Feed>, now: Timestamp, j: nat)
    requires |feeds| == |symbols| && j < |symbols|
    requires !Analyze(symbols[j], feeds[j], now).Scored?
    ensures Qualifying(Outcomes(symbols, feeds, now)) ==
            Qualifying(Outcomes(symbols[..j] + symbols[j + 1..], feeds[..j] + feeds[j + 1..], now))
  {
    OutcomesWithout(symbols, feeds, now, j);
    NonQualifyingDropsOut(Outcomes(symbols, feeds, now), j);
  }

  // Sorting by descending score. Python's `list.sort(key=..., reverse=True)`
  // is stable: results with equal scores keep their discovery order.

  predicate SortedByScore(s: seq<ScoreResult>) {
    forall i, j :: 0 <= i < j < |s| ==> s[i].score >= s[j].score
  }

  /** The results of `s` whose score is `k`, in their order in `s`. */
  function WithScore(s: seq<ScoreResult>, k: int): seq<ScoreResult> {
    if s == [] then [] else (if s[0].score == k then [s[0]] else []) + WithScore(s[1..], k)
  }

  lemma {:induction false} WithScoreAppend(a: seq<ScoreResult>, b: seq<ScoreResult>, k: int)
    ensures WithScore(a + b, k) == WithScore(a, k) + WithScore(b, k)
  {
    if a == [] {
      assert a + b == b;
    } else {
      assert (a + b)[1..] == a[1..] + b;
      WithScoreAppend(a[1..], b, k);
    }
  }

  lemma {:induction false} WithScoreAbsent(s: seq<ScoreResult>, k: int)
    requires forall i :: 0 <= i < |s| ==> s[i].score != k
    ensures WithScore(s, k) == []
  {
    if s != [] {
      WithScoreAbsent(s[1..], k);
    }
  }

  /** Puts `x` into a list sorted by descending score, after every element
      scoring at least as much. */
  function InsertByScore(x: ScoreResult, s: seq<ScoreResult>): (r: seq<ScoreResult>)
    ensures |r| == |s| + 1
  {
    if s == [] then [x]
    else if s[0].score >= x.score then [s[0]] + InsertByScore(x, s[1..])
    else [x] + s
  }

  lemma {:induction false} InsertByScorePermutes(x: ScoreResult, s: seq<ScoreResult>)
    ensures multiset(InsertByScore(x, s)) == multiset(s) + multiset{x}
  {
    if s != [] && s[0].score >= x.score {
      InsertByScorePermutes(x, s[1..]);
      assert s == [s[0]] + s[1..];
    }
  }

  lemma {:induction false} InsertByScoreSorted(x: ScoreResult, s: seq<ScoreResult>)
    requires SortedByScore(s)
    ensures SortedByScore(InsertByScore(x, s))
    ensures InsertByScore(x, s)[0] == x || InsertByScore(x, s)[0] == s[0]
  {
    var r := InsertByScore(x, s);
    if s != [] && s[0].score >= x.score {
      var rest := InsertByScore(x, s[1..]);
      assert SortedByScore(s[1..]) by {
        forall i, j | 0 <= i < j < |s[1..]| ensures s[1..][i].score >= s[1..][j].score {
          assert s[1..][i] == s[i + 1] && s[1..][j] == s[j + 1];
        }
      }
      InsertByScoreSorted(x, s[1..]);
      assert r == [s[0]] + rest;
      assert r[0].score >= rest[0].score by {
        if rest[0] != x {
          assert rest[0] == s[1];
        }
      }
      forall i, j | 0 <= i < j < |r| ensures r[i].score >= r[j].score {
        assert r[j] == rest[j - 1];
        if i > 0 {
          assert r[i] == rest[i - 1];
        } else if j > 1 {
          assert rest[0].score >= rest[j - 1].score;
        }
      }
    } else if s != [] {
      assert r == [x] + s;
      forall i, j | 0 <= i < j < |r| ensures r[i].score >= r[j].score {
        assert r[j] == s[j - 1];
        if i > 0 {
          assert r[i] == s[i - 1];
        } else {
          assert s[0].score >= s[j - 1].score;
        }
      }
    }
  }

  lemma {:induction false} InsertByScoreStable(x: ScoreResult, s: seq<ScoreResult>, k: int)
    requires SortedByScore(s)
    ensures WithScore(InsertByScore(x, s), k) == WithScore(s, k) + (if x.score == k then [x] else [])
  {
    var r := InsertByScore(x, s);
    var fx := if x.score == k then [x] else [];
    if s == [] {
      assert r == [x] && r[1..] == [];
      assert WithScore(r, k) == fx + WithScore([], k);
    } else if s[0].score >= x.score {
      var rest := InsertByScore(x, s[1..]);
      var f0 := if s[0].score == k then [s[0]] else [];
      assert SortedByScore(s[1..]) by {
        forall i, j | 0 <= i < j < |s[1..]| ensures s[1..][i].score >= s[1..][j].score {
          assert s[1..][i] == s[i + 1] && s[1..][j] == s[j + 1];
        }
      }
      InsertByScoreStable(x, s[1..], k);
      assert r == [s[0]] + rest && r[0] == s[0] && r[1..] == rest;
      assert WithScore(r, k) == f0 + WithScore(rest, k);
      assert WithScore(s, k) == f0 + WithScore(s[1..], k);
    } else {
      assert r == [x] + s && r[0] == x && r[1..] == s;
      assert WithScore(r, k) == fx + WithScore(s, k);
      if x.score == k {
        WithScoreAbsent(s, k);
      }
    }
  }

  /** The stable descending sort: insert the results one by one, in their
      discovery order. */
  function SortByScore(s: seq<ScoreResult>): (r: seq<ScoreResult>)
    ensures |r| == |s|
  {
    if s == [] then [] else InsertByScore(s[|s| - 1], SortByScore(s[..|s| - 1]))
  }

  /** The sort yields a permutation of its input in non-increasing score
      order, and among equal scores it keeps the input order. */
  lemma {:induction false} SortByScoreSpec(s: seq<ScoreResult>)
    ensures SortedByScore(SortByScore(s))
    ensures multiset(SortByScore(s)) == multiset(s)
    ensures forall k :: WithScore(SortByScore(s), k) == WithScore(s, k)
  {
    if s != [] {
      var init, x := s[..|s| - 1], s[|s| - 1];
      var sortedInit := SortByScore(init);
      assert s == init + [x];
      assert SortByScore(s) == InsertByScore(x, sortedInit);
      SortByScoreSpec(init);
      InsertByScorePermutes(x, sortedInit);
      InsertByScoreSorted(x, sortedInit);
      forall k ensures WithScore(InsertByScore(x, sortedInit), k) == WithScore(s, k) {
        InsertByScoreStable(x, sortedInit, k);
        WithScoreAppend(init, [x], k);
        assert [x][1..] == [];
      }
    }
  }

  /** When a result with score `k` is left out of the first `n` of a sorted
      list, each of those `n` scores at least `k`. */
  lemma {:induction false} TopOfSorted(s: seq<ScoreResult>, n: nat, i: nat, k: int)
    requires SortedByScore(s) && i < n <= |s|
    requires |WithScore(s[..n], k)| < |WithScore(s, k)|
    ensures s[i].score >= k
  {
    assert s == s[..n] + s[n..];
    WithScoreAppend(s[..n], s[n..], k);
    if forall m :: 0 <= m < |s[n..]| ==> s[n..][m].score != k {
      WithScoreAbsent(s[n..], k);
      assert false;
    }
    var m :| 0 <= m < |s[n..]| && s[n..][m].score == k;
    assert s[n + m].score == k;
  }

  /** The score of the first result of `s` has a non-empty class in it. */
  lemma WithScoreHead(s: seq<ScoreResult>)
    ensures s != [] ==> WithScore(s, s[0].score) != []
  {
  }

  /** Two lists sorted by descending score that hold the same results of
      every score in the same order are equal: being sorted and keeping the
      order within each score determines a stable sort's output. */
  lemma {:induction false} StableSortUnique(a: seq<ScoreResult>, b: seq<ScoreResult>)
    requires SortedByScore(a) && SortedByScore(b)
    requires forall k :: WithScore(a, k) == WithScore(b, k)
    ensures a == b
    decreases |a|
  {
    WithScoreHead(a);
    WithScoreHead(b);
    if a != [] && b != [] {
      var ma, mb := a[0].score, b[0].score;
      assert ma == mb by {
        if ma > mb {
          WithScoreAbsent(b, ma);
        } else if mb > ma {
          WithScoreAbsent(a, mb);
        }
      }
      assert a[0] == WithScore(a, ma)[0] == WithScore(b, ma)[0] == b[0];
      assert SortedByScore(a[1..]) by {
        forall i, j | 0 <= i < j < |a[1..]| ensures a[1..][i].score >= a[1..][j].score {
          assert a[1..][i] == a[i + 1] && a[1..][j] == a[j + 1];
        }
      }
      assert SortedByScore(b[1..]) by {
        forall i, j | 0 <= i < j < |b[1..]| ensures b[1..][i].score >= b[1..][j].score {
          assert b[1..][i] == b[i + 1] && b[1..][j] == b[j + 1];
        }
      }
      forall k ensures WithScore(a[1..], k) == WithScore(b[1..], k) {
        var head := if ma == k then [a[0]] else [];
        assert WithScore(a, k) == head + WithScore(a[1..], k);
        assert WithScore(b, k) == head + WithScore(b[1..], k);
        assert WithScore(a[1..], k) == WithScore(a, k)[|head|..];
        assert WithScore(b[1..], k) == WithScore(b, k)[|head|..];
      }
      StableSortUnique(a[1..], b[1..]);
      assert a == [a[0]] + a[1..] && b == [b[0]] + b[1..];
    }
  }

  /** Hence the descending sort of this model is the only stable one: any
      list sorted by descending score that keeps, score by score, the order
      of `s` is exactly `SortByScore(s)`. */
  lemma SortByScoreIsTheStableSort(s: seq<ScoreResult>, t: seq<ScoreResult>)
    requires SortedByScore(t)
    requires forall k :: WithScore(t, k) == WithScore(s, k)
    ensures t == SortByScore(s)
  {
    SortByScoreSpec(s);
    StableSortUnique(t, SortByScore(s));
  }

  /** A prefix keeps the order among equal scores. */
  lemma PrefixWithScore(s: seq<ScoreResult>, n: nat, k: int)
    requires n <= |s|
    ensures WithScore(s[..n], k) <= WithScore(s, k)
  {
    assert s == s[..n] + s[n..];
    WithScoreAppend(s[..n], s[n..], k);
  }

  /** The results a scan reports: the best three by score, in descending
      score order, ties in discovery order. */
  function TopResults(qual: seq<ScoreResult>): (top: seq<ScoreResult>)
    ensures |top| == Min(ReportLimit, |qual|)
    ensures SortedByScore(top)
    ensures multiset(top) <= multiset(qual)
    ensures forall i, k :: 0 <= i < |top| && |WithScore(top, k)| < |WithScore(qual, k)| ==> top[i].score >= k
    ensures forall k :: WithScore(top, k) <= WithScore(qual, k)
  {
    var n := Min(ReportLimit, |qual|);
    TopResultsSpec(qual, n);
    SortByScore(qual)[..n]
  }

  lemma TopResultsSpec(qual: seq<ScoreResult>, n: nat)
    requires n <= |qual|
    ensures SortedByScore(SortByScore(qual)[..n])
    ensures multiset(SortByScore(qual)[..n]) <= multiset(qual)
    ensures forall i, k :: 0 <= i < n && |WithScore(SortByScore(qual)[..n], k)| < |WithScore(qual, k)| ==>
                           SortByScore(qual)[..n][i].score >= k
    ensures forall k :: WithScore(SortByScore(qual)[..n], k) <= WithScore(qual, k)
  {
    var sorted := SortByScore(qual);
    var top := sorted[..n];
    SortByScoreSpec(qual);
    PrefixOfSorted(sorted, n);
    forall i, k | 0 <= i < n && |WithScore(top, k)| < |WithScore(qual, k)|
      ensures top[i].score >= k
    {
      TopOfSorted(sorted, n, i, k);
    }
    forall k ensures WithScore(top, k) <= WithScore(qual, k) {
      PrefixWithScore(sorted, n, k);
    }
  }

  /** A prefix of a sorted list is sorted and drawn from it. */
  lemma PrefixOfSorted(s: seq<ScoreResult>, n: nat)
    requires SortedByScore(s) && n <= |s|
    ensures SortedByScore(s[..n])
    ensures multiset(s[..n]) <= multiset(s)
  {
    assert s == s[..n] + s[n..];
    assert multiset(s) == multiset(s[..n]) + multiset(s[n..]);
    forall i, j | 0 <= i < j < n ensures s[..n][i].score >= s[..n][j].score {
      assert s[..n][i] == s[i] && s[..n][j] == s[j];
    }
  }

  /** One message per reported result, ranked from 1. */
  function RankedMessages(top: seq<ScoreResult>): (msgs: seq<Message>)
    ensures |msgs| == |top|
    ensures forall i :: 0 <= i < |msgs| ==> msgs[i] == Opportunity(i + 1, top[i])
  {
    seq(|top|, i requires 0 <= i < |top| => Opportunity(i + 1, top[i]))
  }

  /** Sending one more ranked result extends the messages by its own. */
  lemma RankedMessagesStep(top: seq<ScoreResult>, n: nat)
    requires n < |top|
    ensures RankedMessages(top[..n + 1]) == RankedMessages(top[..n]) + [Opportunity(n + 1, top[n])]
  {
    var longer, shorter := RankedMessages(top[..n + 1]), RankedMessages(top[..n]);
    assert |longer| == |shorter| + 1;
    forall i | 0 <= i < |longer| ensures longer[i] == (shorter + [Opportunity(n + 1, top[n])])[i] {
      if i < n {
        assert longer[i] == Opportunity(i + 1, top[i]) == shorter[i];
      }
    }
  }

  /** What the scan sends after its start notice: the ranked top results, or a
      single notice that nothing qualified. */
  function ScanReport(qual: seq<ScoreResult>): (msgs: seq<Message>)
    ensures qual == [] <==> msgs == [NoOpportunities]
    ensures qual != [] ==>
      |msgs| == Min(ReportLimit, |qual|) &&
      forall i :: 0 <= i < |msgs| ==> msgs[i] == Opportunity(i + 1, TopResults(qual)[i])
  {
    if qual == [] then [NoOpportunities] else RankedMessages(TopResults(qual))
  }

  /** The scan reports "no opportunities" exactly when no configured symbol
      qualifies. */
  lemma NoOpportunitiesExactly(symbols: seq<string>, feeds: seq<Feed>, now: Timestamp)
    requires |feeds| == |symbols|
    ensures ScanReport(Qualifying(Outcomes(symbols, feeds, now))) == [NoOpportunities] <==>
            forall i :: 0 <= i < |symbols| ==> !Qualifies(Analyze(symbols[i], feeds[i], now))
  {
    var outs := Outcomes(symbols, feeds, now);
    QualifyingEmpty(outs);
    assert forall i :: 0 <= i < |symbols| ==> outs[i] == Analyze(symbols[i], feeds[i], now);
  }

  /** Every reported opportunity carries its rank (at most 3) and a result
      scoring at least 70 that one of the configured symbols produced. */
  lemma ReportedOpportunity(symbols: seq<string>, feeds: seq<Feed>, now: Timestamp, r: nat)
    requires |feeds| == |symbols|
    requires r < |ScanReport(Qualifying(Outcomes(symbols, feeds, now)))|
    requires ScanReport(Qualifying(Outcomes(symbols, feeds, now)))[r].Opportunity?
    ensures var m := ScanReport(Qualifying(Outcomes(symbols, feeds, now)))[r];
      m.rank == r + 1 && m.rank <= ReportLimit && m.result.score >= OpportunityThreshold &&
      exists i :: 0 <= i < |symbols| && Analyze(symbols[i], feeds[i], now) == Scored(m.result)
  {
    var outs := Outcomes(symbols, feeds, now);
    var qual := Qualifying(outs);
    var top := TopResults(qual);
    var m := ScanReport(qual)[r];
    assert qual != [];
    assert m == Opportunity(r + 1, top[r]);
    assert top[r] in multiset(top);
    assert top[r] in multiset(qual);
    QualifyingMembers(outs, top[r]);
    var i :| 0 <= i < |outs| && outs[i] == Scored(top[r]) && top[r].score >= OpportunityThreshold;
    assert Analyze(symbols[i], feeds[i], now) == Scored(m.result);
  }
}
