/** The "call all mothers" campaign: a cursor walks the list of targets, one
    call at a time; each call goes pending -> calling -> a terminal outcome,
    and on completion the terminal outcomes are collected into a map from
    mother id to outcome. The random draw becomes a percentile 0..99 passed to
    each step; the timers become the two step methods. */
module CallCampaign {
  import opened Common
  import opened Records

  /** 'answered' | 'not_answered' | 'pressed_2' */
  datatype Outcome = Answered | NotAnswered | Pressed2

  datatype Status = Pending | Calling | Done(outcome: Outcome)

  datatype CallStatus = CallStatus(motherId: string, status: Status)

  /** The mock provider: a uniform draw r in [0, 1), given here as the
      percentile 100 * r. */
  function ClassifyDraw(percentile: nat): (r: Outcome)
    requires percentile < 100
    ensures r == Answered <==> percentile < 70
    ensures r == NotAnswered <==> 70 <= percentile < 90
    ensures r == Pressed2 <==> 90 <= percentile
  {
    if percentile < 70 then Answered
    else if percentile < 90 then NotAnswered
    else Pressed2
  }

  /** One pending status per target, in target order. */
  function InitialStatuses(mothers: seq<MotherRow>): (r: seq<CallStatus>)
    ensures |r| == |mothers|
    ensures forall i :: 0 <= i < |r| ==> r[i] == CallStatus(mothers[i].id, Pending)
  {
    if mothers == [] then [] else [CallStatus(mothers[0].id, Pending)] + InitialStatuses(mothers[1..])
  }

  /** The map the completion step fills: every entry that is neither pending
      nor calling, in list order, a later entry for the same id replacing an
      earlier one. */
  function ResultsOf(statuses: seq<CallStatus>): (r: map<string, Outcome>)
    ensures |r| <= |statuses|
    ensures statuses != [] && statuses[|statuses| - 1].status.Done? ==>
      var last := statuses[|statuses| - 1];
      last.motherId in r && r[last.motherId] == last.status.outcome
    decreases |statuses|
  {
    if statuses == [] then map[]
    else
      var last := statuses[|statuses| - 1];
      var earlier := ResultsOf(statuses[..|statuses| - 1]);
      if last.status.Done? then earlier[last.motherId := last.status.outcome] else earlier
  }

  /** The map's keys are exactly the ids of the terminal entries. */
  lemma {:induction false} ResultsKeys(statuses: seq<CallStatus>, id: string)
    ensures id in ResultsOf(statuses) <==>
      exists i :: 0 <= i < |statuses| && statuses[i].status.Done? && statuses[i].motherId == id
    decreases |statuses|
  {
    if statuses != [] {
      var n := |statuses| - 1;
      var front := statuses[..n];
      ResultsKeys(front, id);
      if id in ResultsOf(front) {
        var i :| 0 <= i < |front| && front[i].status.Done? && front[i].motherId == id;
        assert statuses[i] == front[i];
      }
      if exists i :: 0 <= i < |statuses| && statuses[i].status.Done? && statuses[i].motherId == id {
        var i :| 0 <= i < |statuses| && statuses[i].status.Done? && statuses[i].motherId == id;
        if i < n {
          assert front[i] == statuses[i];
        }
      }
    }
  }

  ghost predicate DistinctIds(statuses: seq<CallStatus>) {
    forall i, j :: 0 <= i < j < |statuses| ==> statuses[i].motherId != statuses[j].motherId
  }

  predicate AllDone(statuses: seq<CallStatus>) {
    forall i :: 0 <= i < |statuses| ==> statuses[i].status.Done?
  }

  /** With distinct ids, a finished campaign reports one outcome per target,
      and each target's own outcome. */
  lemma {:induction false} ResultsComplete(statuses: seq<CallStatus>)
    requires DistinctIds(statuses) && AllDone(statuses)
    ensures |ResultsOf(statuses)| == |statuses|
    ensures forall i :: 0 <= i < |statuses| ==>
      statuses[i].motherId in ResultsOf(statuses) &&
      ResultsOf(statuses)[statuses[i].motherId] == statuses[i].status.outcome
    decreases |statuses|
  {
    if statuses != [] {
      var n := |statuses| - 1;
      var front := statuses[..n];
      var id := statuses[n].motherId;
      var earlier := ResultsOf(front);
      ResultsComplete(front);
      ResultsKeys(front, id);
      assert ResultsOf(statuses) == earlier[id := statuses[n].status.outcome];
      forall i | 0 <= i < n ensures statuses[i].motherId in ResultsOf(statuses) &&
        ResultsOf(statuses)[statuses[i].motherId] == statuses[i].status.outcome
      {
        assert front[i] == statuses[i];
      }
    }
  }

  /** How many entries ended with outcome `o`. */
  function CountOutcome(statuses: seq<CallStatus>, o: Outcome): nat {
    if statuses == [] then 0
    else (if statuses[0].status == Done(o) then 1 else 0) + CountOutcome(statuses[1..], o)
  }

  /** The three summary counts never exceed the number of targets, and add up
      to it once every call has ended. */
  lemma {:induction false} SummaryCounts(statuses: seq<CallStatus>)
    ensures CountOutcome(statuses, Answered) + CountOutcome(statuses, NotAnswered)
            + CountOutcome(statuses, Pressed2) <= |statuses|
    ensures AllDone(statuses) ==>
      CountOutcome(statuses, Answered) + CountOutcome(statuses, NotAnswered)
      + CountOutcome(statuses, Pressed2) == |statuses|
    decreases |statuses|
  {
    if statuses != [] {
      var rest := statuses[1..];
      SummaryCounts(rest);
      if AllDone(statuses) {
        assert AllDone(rest) by {
          forall i | 0 <= i < |rest| ensures rest[i].status.Done? {
            assert rest[i] == statuses[i + 1];
          }
        }
        assert CountOutcome(statuses, Answered) == (if statuses[0].status == Done(Answered) then 1 else 0) + CountOutcome(rest, Answered);
        assert CountOutcome(statuses, NotAnswered) == (if statuses[0].status == Done(NotAnswered) then 1 else 0) + CountOutcome(rest, NotAnswered);
        assert CountOutcome(statuses, Pressed2) == (if statuses[0].status == Done(Pressed2) then 1 else 0) + CountOutcome(rest, Pressed2);
        match statuses[0].status
        case Done(o) => assert o == Answered || o == NotAnswered || o == Pressed2;
      }
    }
  }

  /** The completion step's `forEach` over the statuses, setting each
      terminal entry into the results map. */
  method CollectResults(statuses: seq<CallStatus>) returns (results: map<string, Outcome>)
    ensures results == ResultsOf(statuses)
    ensures forall id :: id in results <==>
      exists i :: 0 <= i < |statuses| && statuses[i].status.Done? && statuses[i].motherId == id
  {
    results := map[];
    var i := 0;
    while i < |statuses|
      invariant 0 <= i <= |statuses|
      invariant results == ResultsOf(statuses[..i])
    {
      assert statuses[..i + 1][..i] == statuses[..i];
      if statuses[i].status.Done? {
        results := results[statuses[i].motherId := statuses[i].status.outcome];
      }
      i := i + 1;
    }
    assert statuses[..i] == statuses;
    forall id ensures id in results <==>
      exists i :: 0 <= i < |statuses| && statuses[i].status.Done? && statuses[i].motherId == id
    {
      ResultsKeys(statuses, id);
    }
  }

  class CallAllModal {
    const targets: seq<string>
    var callStatuses: seq<CallStatus>
    var currentIndex: nat
    var isComplete: bool
    /** What `onComplete` receives; absent until the run completes. */
    var results: Option<map<string, Outcome>>

    /** Entries before the cursor have ended, entries after it are pending,
        the entry at the cursor is pending or calling, and completion means
        the cursor has passed the last target. */
    ghost predicate Valid()
      reads this
    {
      && |callStatuses| == |targets|
      && (forall i :: 0 <= i < |callStatuses| ==> callStatuses[i].motherId == targets[i])
      && currentIndex <= |targets|
      && (forall i :: 0 <= i < currentIndex ==> callStatuses[i].status.Done?)
      && (forall i :: currentIndex < i < |callStatuses| ==> callStatuses[i].status == Pending)
      && (currentIndex < |callStatuses| ==> !callStatuses[currentIndex].status.Done?)
      && (isComplete <==> results.Some?)
      && (isComplete ==> currentIndex == |targets| && results == Some(ResultsOf(callStatuses)))
    }

    constructor (mothers: seq<MotherRow>)
      ensures Valid()
      ensures |targets| == |mothers| && forall i :: 0 <= i < |mothers| ==> targets[i] == mothers[i].id
      ensures callStatuses == InitialStatuses(mothers)
      ensures currentIndex == 0 && !isComplete
    {
      targets := seq(|mothers|, i requires 0 <= i < |mothers| => mothers[i].id);
      callStatuses := InitialStatuses(mothers);
      currentIndex := 0;
      isComplete := false;
      results := None;
    }

    /** The effect that runs whenever the cursor moves: past the end it
        completes the run and builds the results; otherwise it marks the
        entry at the cursor as calling. */
    method Advance()
      requires Valid() && !isComplete
      requires currentIndex < |targets| ==> callStatuses[currentIndex].status == Pending
      modifies this
      ensures Valid()
      ensures currentIndex == old(currentIndex)
      ensures old(currentIndex) >= |targets| ==>
        isComplete && callStatuses == old(callStatuses) && results == Some(ResultsOf(callStatuses))
      ensures old(currentIndex) < |targets| ==>
        !isComplete &&
        callStatuses == old(callStatuses)[currentIndex := CallStatus(targets[currentIndex], Calling)]
    {
      if currentIndex >= |targets| {
        isComplete := true;
        var collected := CollectResults(callStatuses);
        results := Some(collected);
      } else {
        callStatuses := callStatuses[currentIndex := callStatuses[currentIndex].(status := Calling)];
      }
    }

    /** The call timer: the entry at the cursor gets the drawn outcome and the
        cursor moves on by one. */
    method Resolve(percentile: nat)
      requires Valid() && percentile < 100
      requires currentIndex < |targets| && callStatuses[currentIndex].status == Calling
      modifies this
      ensures Valid()
      ensures callStatuses == old(callStatuses)[old(currentIndex) :=
        CallStatus(targets[old(currentIndex)], Done(ClassifyDraw(percentile)))]
      ensures currentIndex == old(currentIndex) + 1 && !isComplete
    {
      var result := ClassifyDraw(percentile);
      callStatuses := callStatuses[currentIndex := callStatuses[currentIndex].(status := Done(result))];
      currentIndex := currentIndex + 1;
    }

    /** The summary shown on completion. */
    function Summary(): (r: (nat, nat, nat))
      reads this
      requires Valid()
      ensures r.0 + r.1 + r.2 <= |targets|
      ensures isComplete ==> r.0 + r.1 + r.2 == |targets|
    {
      SummaryCounts(callStatuses);
      (CountOutcome(callStatuses, Answered), CountOutcome(callStatuses, NotAnswered),
       CountOutcome(callStatuses, Pressed2))
    }
  }

  /** At most one entry is calling at any time, and only the one at the cursor. */
  lemma AtMostOneCalling(statuses: seq<CallStatus>, cursor: nat, i: nat)
    requires cursor <= |statuses|
    requires forall k :: 0 <= k < cursor ==> statuses[k].status.Done?
    requires forall k :: cursor < k < |statuses| ==> statuses[k].status == Pending
    requires i < |statuses| && statuses[i].status == Calling
    ensures i == cursor
  {
  }
}
