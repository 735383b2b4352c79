/** Staff recommendations: the hour-ordered peak hours collapsed into runs of
    one traffic level, each run advising a staff count
    (src/lib/stores/transactions.ts, lines 301-343). */
module Staffing {
  import opened Wrappers
  import opened Types
  import opened Listing

  const HighReason := "Forte affluence - Service rapide nécessaire"
  const MediumReason := "Affluence modérée - Bon équilibre"
  const LowReason := "Période calme - Personnel réduit possible"

  /** The staff advised for a traffic level. */
  function StaffFor(level: Level): nat {
    match level
    case High => 3
    case Medium => 2
    case Low => 1
  }

  /** The reason given for a traffic level. */
  function ReasonFor(level: Level): string {
    match level
    case High => HighReason
    case Medium => MediumReason
    case Low => LowReason
  }

  /** Three staff at high traffic, two at medium, one at low: busier hours
      never get fewer staff, and each level has its own reason. */
  lemma StaffGrowsWithTraffic(a: Level, b: Level)
    ensures StaffFor(High) == 3 && StaffFor(Medium) == 2 && StaffFor(Low) == 1
    ensures a != b ==> StaffFor(a) != StaffFor(b) && ReasonFor(a) != ReasonFor(b)
  {
  }

  /** `createRecommendation`: the advice for the hours [start, end) at `level`. */
  function CreateRecommendation(start: int, end: int, level: Level): (r: StaffRecommendation)
    ensures r.startHour == start && r.endHour == end && r.trafficLevel == level
    ensures r.recommendedStaff == StaffFor(level) && r.reason == ReasonFor(level)
  {
    StaffRecommendation(start, end, StaffFor(level), level, ReasonFor(level))
  }

  /** The recommendations for the peak hours `ph`, built one peak hour at a
      time: an hour of the same level as the last run extends that run to
      end one hour after it; an hour of another level closes the last run at
      its own hour and opens a run of its level. */
  function Runs(ph: seq<PeakHour>): seq<StaffRecommendation> {
    if |ph| == 0 then []
    else
      var p := Last(ph);
      var r := Runs(Init(ph));
      if |r| == 0 then [CreateRecommendation(p.hour, p.hour + 1, p.level)]
      else
        var open := Last(r);
        if open.trafficLevel == p.level then
          Init(r) + [CreateRecommendation(open.startHour, p.hour + 1, p.level)]
        else
          Init(r) + [CreateRecommendation(open.startHour, p.hour, open.trafficLevel),
                     CreateRecommendation(p.hour, p.hour + 1, p.level)]
  }

  /** Hours strictly increase along the list. */
  predicate Increasing(ph: seq<PeakHour>) {
    forall i, j :: 0 <= i < j < |ph| ==> ph[i].hour < ph[j].hour
  }

  /** Each recommendation ends where the next starts, and the two have
      different levels. */
  predicate Chained(recs: seq<StaffRecommendation>) {
    forall i :: 0 <= i < |recs| - 1 ==>
      recs[i].endHour == recs[i + 1].startHour && recs[i].trafficLevel != recs[i + 1].trafficLevel
  }

  /** Each recommendation carries the staff count and reason of its level. */
  predicate Made(recs: seq<StaffRecommendation>) {
    forall i :: 0 <= i < |recs| ==>
      recs[i] == CreateRecommendation(recs[i].startHour, recs[i].endHour, recs[i].trafficLevel)
  }

  /** There is a recommendation exactly when there is a peak hour, never more
      recommendations than peak hours; the first starts at the first peak
      hour and the last ends one hour after the last peak hour, with the last
      peak hour's level; consecutive recommendations meet and alternate in
      level; each carries its level's staff count. */
  lemma {:induction false} RunsTile(ph: seq<PeakHour>)
    ensures |Runs(ph)| == 0 <==> |ph| == 0
    ensures |Runs(ph)| <= |ph|
    ensures |ph| > 0 ==>
      && Runs(ph)[0].startHour == ph[0].hour
      && Last(Runs(ph)).endHour == Last(ph).hour + 1
      && Last(Runs(ph)).trafficLevel == Last(ph).level
    ensures Chained(Runs(ph)) && Made(Runs(ph))
  {
    if |ph| > 1 {
      RunsTile(Init(ph));
      assert Init(ph)[0] == ph[0];
    }
  }

  /** One more peak hour keeps the start and the level of every earlier
      recommendation and the end of all but the last; it either extends the
      last recommendation or appends one for its own hour. */
  lemma RunsStep(ph: seq<PeakHour>)
    requires |ph| > 0
    ensures var r, r', p := Runs(Init(ph)), Runs(ph), Last(ph);
      && |r| <= |r'| <= |r| + 1
      && (forall i :: 0 <= i < |r| ==> r'[i].startHour == r[i].startHour && r'[i].trafficLevel == r[i].trafficLevel)
      && (forall i :: 0 <= i < |r| - 1 ==> r'[i].endHour == r[i].endHour)
      && (|r| > 0 ==> r'[|r| - 1].endHour == (if |r'| == |r| then p.hour + 1 else p.hour))
      && (|r'| == |r| ==> |r| > 0 && Last(r).trafficLevel == p.level)
      && (|r'| == |r| + 1 ==> r'[|r|] == CreateRecommendation(p.hour, p.hour + 1, p.level))
  {
  }

  /** Peak hours all of one level make a single recommendation. */
  lemma {:induction false} RunsOneLevel(ph: seq<PeakHour>, level: Level)
    requires |ph| > 0 && forall k :: 0 <= k < |ph| ==> ph[k].level == level
    ensures |Runs(ph)| == 1
  {
    RunsStep(ph);
    if |ph| > 1 {
      RunsOneLevel(Init(ph), level);
      RunsTile(Init(ph));
    }
  }

  /** Every recommendation starts at a peak hour and has that hour's level. */
  lemma {:induction false} RunsStartAtPeaks(ph: seq<PeakHour>)
    ensures forall i :: 0 <= i < |Runs(ph)| ==>
      exists k :: 0 <= k < |ph| && ph[k].hour == Runs(ph)[i].startHour && ph[k].level == Runs(ph)[i].trafficLevel
  {
    if |ph| > 0 {
      var r, r' := Runs(Init(ph)), Runs(ph);
      RunsStartAtPeaks(Init(ph));
      RunsStep(ph);
      forall i | 0 <= i < |r'|
        ensures exists k :: 0 <= k < |ph| && ph[k].hour == r'[i].startHour && ph[k].level == r'[i].trafficLevel
      {
        if i < |r| {
          var k :| 0 <= k < |Init(ph)| && Init(ph)[k].hour == r[i].startHour && Init(ph)[k].level == r[i].trafficLevel;
          assert ph[k] == Init(ph)[k];
          assert ph[k].hour == r'[i].startHour && ph[k].level == r'[i].trafficLevel;
        } else {
          var k := |ph| - 1;
          assert ph[k].hour == r'[i].startHour && ph[k].level == r'[i].trafficLevel;
        }
      }
    } else {
      assert Runs(ph) == [];
    }
  }

  /** With increasing hours, every peak hour lies within a recommendation of
      its own level. */
  lemma {:induction false} RunsCover(ph: seq<PeakHour>)
    requires Increasing(ph)
    ensures forall k :: 0 <= k < |ph| ==>
      exists i :: 0 <= i < |Runs(ph)| && Runs(ph)[i].startHour <= ph[k].hour < Runs(ph)[i].endHour
                  && Runs(ph)[i].trafficLevel == ph[k].level
  {
    if |ph| > 0 {
      var prefix, p := Init(ph), Last(ph);
      var r, r' := Runs(prefix), Runs(ph);
      assert Increasing(prefix);
      RunsCover(prefix);
      RunsStep(ph);
      forall k | 0 <= k < |ph|
        ensures exists i :: 0 <= i < |r'| && r'[i].startHour <= ph[k].hour < r'[i].endHour
                    && r'[i].trafficLevel == ph[k].level
      {
        if k < |prefix| {
          CoverEarlier(ph, k);
        } else {
          CoverLast(ph);
        }
      }
    }
  }

  /** A peak hour before the last stays covered by its recommendation. */
  lemma CoverEarlier(ph: seq<PeakHour>, k: nat)
    requires Increasing(ph) && k < |ph| - 1
    requires forall j :: 0 <= j < |Init(ph)| ==>
      exists i :: 0 <= i < |Runs(Init(ph))| && Runs(Init(ph))[i].startHour <= Init(ph)[j].hour < Runs(Init(ph))[i].endHour
                  && Runs(Init(ph))[i].trafficLevel == Init(ph)[j].level
    ensures exists i :: 0 <= i < |Runs(ph)| && Runs(ph)[i].startHour <= ph[k].hour < Runs(ph)[i].endHour
                        && Runs(ph)[i].trafficLevel == ph[k].level
  {
    var prefix, p := Init(ph), Last(ph);
    var r, r' := Runs(prefix), Runs(ph);
    RunsStep(ph);
    assert ph[k] == prefix[k];
    var i :| 0 <= i < |r| && r[i].startHour <= prefix[k].hour < r[i].endHour && r[i].trafficLevel == prefix[k].level;
    assert ph[k].hour < p.hour;
    assert r'[i].startHour <= ph[k].hour < r'[i].endHour;
  }

  /** The last peak hour is covered by the last recommendation. */
  lemma CoverLast(ph: seq<PeakHour>)
    requires Increasing(ph) && |ph| > 0
    ensures var r' := Runs(ph);
      exists i :: 0 <= i < |r'| && r'[i].startHour <= Last(ph).hour < r'[i].endHour
                  && r'[i].trafficLevel == Last(ph).level
  {
    var prefix, p := Init(ph), Last(ph);
    var r, r' := Runs(prefix), Runs(ph);
    RunsStep(ph);
    RunsTile(ph);
    var i := |r'| - 1;
    if |r'| == |r| {
      RunsStartBeforeEnd(prefix);
      assert Last(prefix).hour < p.hour;
    }
    assert r'[i].startHour <= p.hour < r'[i].endHour;
  }

  /** The last recommendation starts no later than the last peak hour. */
  lemma {:induction false} RunsStartBeforeEnd(ph: seq<PeakHour>)
    requires |ph| > 0 && Increasing(ph)
    ensures Last(Runs(ph)).startHour <= Last(ph).hour
  {
    RunsStep(ph);
    if |ph| > 1 {
      var r := Runs(Init(ph));
      assert Increasing(Init(ph));
      RunsStartBeforeEnd(Init(ph));
      assert Last(Init(ph)).hour < Last(ph).hour;
    }
  }

  /** `generateStaffRecommendations`: walks the peak hours with the current
      level and the hour its run started, emitting the run whenever the level
      changes and, after the last peak hour, the run still open. */
  method GenerateStaffRecommendations(ph: seq<PeakHour>) returns (recs: seq<StaffRecommendation>)
    ensures recs == Runs(ph)
  {
    recs := [];
    var currentLevel: Option<Level> := None;
    var startHour := 0;
    for index := 0 to |ph|
      invariant index == 0 ==> currentLevel.None? && recs == []
      invariant index > 0 ==> currentLevel == Some(ph[index - 1].level)
      invariant index > 0 ==>
        Runs(ph[..index]) == recs + [CreateRecommendation(startHour, ph[index - 1].hour + 1, ph[index - 1].level)]
    {
      var p := ph[index];
      assert Init(ph[..index + 1]) == ph[..index] && Last(ph[..index + 1]) == p;
      if currentLevel != Some(p.level) {
        if currentLevel.Some? {
          recs := recs + [CreateRecommendation(startHour, p.hour, currentLevel.value)];
        }
        currentLevel := Some(p.level);
        startHour := p.hour;
      }
    }
    assert ph[..|ph|] == ph;
    if currentLevel.Some? {
      recs := recs + [CreateRecommendation(startHour, ph[|ph| - 1].hour + 1, currentLevel.value)];
    }
  }
}
