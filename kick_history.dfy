/** The baby-kick log: adding a session from the entry form (newest first)
    and grouping the log by date for display. `parseInt` results, the fresh
    id and the current date and time that reset the form are passed in. */
module KickHistory {
  import opened Common

  datatype KickLog = KickLog(id: string, date: string, time: string, count: int, duration: int,
                             notes: Option<string>)

  /** The entry form: all text, as typed. */
  datatype NewLog = NewLog(date: string, time: string, count: string, duration: string, notes: string)

  /** The form as it is reset, for the given current date and time. */
  function BlankForm(date: string, time: string): NewLog {
    NewLog(date, time, "", "", "")
  }

  /** `notes || undefined`: empty notes are stored as absent. */
  function StoredNotes(notes: string): (r: Option<string>)
    ensures r.None? <==> notes == ""
    ensures r.Some? ==> r.value == notes
  {
    if notes == "" then None else Some(notes)
  }

  // ---------------------------------------------------------------------------
  // Grouping by date
  // ---------------------------------------------------------------------------

  datatype Group = Group(date: string, logs: seq<KickLog>)

  /** The logs of one date, in log order. */
  function OnDate(logs: seq<KickLog>, date: string): seq<KickLog> {
    Filter(logs, (k: KickLog) => k.date == date)
  }

  lemma OnDateSnoc(logs: seq<KickLog>, l: KickLog, date: string)
    ensures OnDate(logs + [l], date) == OnDate(logs, date) + (if l.date == date then [l] else [])
  {
    FilterAppend(logs, [l], (k: KickLog) => k.date == date);
    assert [l][1..] == [];
  }

  /** The index of the group for `date`, if there is one. */
  function FindGroup(groups: seq<Group>, date: string): (r: Option<nat>)
    ensures r.Some? ==> r.value < |groups| && groups[r.value].date == date
    ensures r.None? <==> forall j :: 0 <= j < |groups| ==> groups[j].date != date
  {
    if groups == [] then None
    else if groups[0].date == date then Some(0)
    else match FindGroup(groups[1..], date)
      case None => None
      case Some(k) => Some(k + 1)
  }

  /** One step of the `reduce`: the log is pushed onto its date's group,
      which is created (after the existing ones) if it is missing. */
  function AddToGroup(groups: seq<Group>, l: KickLog): seq<Group> {
    match FindGroup(groups, l.date)
    case Some(k) => groups[k := groups[k].(logs := groups[k].logs + [l])]
    case None => groups + [Group(l.date, [l])]
  }

  /** The whole `reduce`, left to right over the log. */
  function Grouped(logs: seq<KickLog>): (r: seq<Group>)
    ensures |r| <= |logs|
    ensures r == [] <==> logs == []
    decreases |logs|
  {
    if logs == [] then []
    else AddToGroup(Grouped(logs[..|logs| - 1]), logs[|logs| - 1])
  }

  function TotalSize(groups: seq<Group>): nat {
    if groups == [] then 0 else |groups[0].logs| + TotalSize(groups[1..])
  }

  /** `groups` is a grouping of `logs`: one group per date, each holding
      exactly the logs of its date in log order, and a group for every log. */
  ghost predicate GroupsOf(groups: seq<Group>, logs: seq<KickLog>) {
    && (forall i, j :: 0 <= i < j < |groups| ==> groups[i].date != groups[j].date)
    && (forall i :: 0 <= i < |groups| ==> groups[i].logs == OnDate(logs, groups[i].date))
    && (forall j :: 0 <= j < |logs| ==> FindGroup(groups, logs[j].date).Some?)
    && TotalSize(groups) == |logs|
  }

  lemma {:induction false} TotalSizeUpdate(groups: seq<Group>, k: nat, g: Group)
    requires k < |groups|
    ensures TotalSize(groups[k := g]) + |groups[k].logs| == TotalSize(groups) + |g.logs|
  {
    if k > 0 {
      assert groups[k := g][1..] == groups[1..][k - 1 := g];
      TotalSizeUpdate(groups[1..], k - 1, g);
    }
  }

  lemma {:induction false} TotalSizeSnoc(groups: seq<Group>, g: Group)
    ensures TotalSize(groups + [g]) == TotalSize(groups) + |g.logs|
  {
    if groups == [] {
      assert [g][1..] == [];
    } else {
      assert (groups + [g])[1..] == groups[1..] + [g];
      TotalSizeSnoc(groups[1..], g);
    }
  }

  lemma AddToGroupDistinct(groups: seq<Group>, l: KickLog)
    requires forall i, j :: 0 <= i < j < |groups| ==> groups[i].date != groups[j].date
    ensures var r := AddToGroup(groups, l);
      forall i, j :: 0 <= i < j < |r| ==> r[i].date != r[j].date
  {
  }

  lemma AddToGroupContents(groups: seq<Group>, logs: seq<KickLog>, l: KickLog)
    requires forall i, j :: 0 <= i < j < |groups| ==> groups[i].date != groups[j].date
    requires forall i :: 0 <= i < |groups| ==> groups[i].logs == OnDate(logs, groups[i].date)
    requires forall j :: 0 <= j < |logs| ==> FindGroup(groups, logs[j].date).Some?
    ensures var r := AddToGroup(groups, l);
      forall i :: 0 <= i < |r| ==> r[i].logs == OnDate(logs + [l], r[i].date)
  {
    var r := AddToGroup(groups, l);
    forall i | 0 <= i < |r| ensures r[i].logs == OnDate(logs + [l], r[i].date) {
      OnDateSnoc(logs, l, r[i].date);
      match FindGroup(groups, l.date)
      case Some(k) =>
        if i != k {
          assert r[i] == groups[i] && groups[i].date != groups[k].date;
        }
      case None =>
        if i == |groups| {
          assert OnDate(logs, l.date) == [] by {
            FilterEmpty(logs, (k: KickLog) => k.date == l.date);
            forall j | 0 <= j < |logs| ensures logs[j].date != l.date {
              assert FindGroup(groups, logs[j].date).Some?;
            }
          }
        } else {
          assert r[i] == groups[i] && groups[i].date != l.date;
        }
    }
  }

  lemma AddToGroupCovers(groups: seq<Group>, logs: seq<KickLog>, l: KickLog)
    requires forall j :: 0 <= j < |logs| ==> FindGroup(groups, logs[j].date).Some?
    ensures var r := AddToGroup(groups, l);
      forall j :: 0 <= j < |logs + [l]| ==> FindGroup(r, (logs + [l])[j].date).Some?
  {
    var r := AddToGroup(groups, l);
    forall j | 0 <= j < |logs + [l]| ensures FindGroup(r, (logs + [l])[j].date).Some? {
      var k := match FindGroup(groups, (logs + [l])[j].date)
        case Some(k) => k
        case None => |groups|;
      assert j < |logs| ==> k < |groups|;
      assert r[k].date == (logs + [l])[j].date;
    }
  }

  lemma AddToGroupSize(groups: seq<Group>, l: KickLog)
    ensures TotalSize(AddToGroup(groups, l)) == TotalSize(groups) + 1
  {
    match FindGroup(groups, l.date)
    case Some(k) => TotalSizeUpdate(groups, k, groups[k].(logs := groups[k].logs + [l]));
    case None => TotalSizeSnoc(groups, Group(l.date, [l]));
  }

  /** One step of the `reduce` keeps the result a grouping of the logs seen. */
  lemma AddToGroupKeepsGrouping(groups: seq<Group>, logs: seq<KickLog>, l: KickLog)
    requires GroupsOf(groups, logs)
    ensures GroupsOf(AddToGroup(groups, l), logs + [l])
  {
    AddToGroupDistinct(groups, l);
    AddToGroupContents(groups, logs, l);
    AddToGroupCovers(groups, logs, l);
    AddToGroupSize(groups, l);
  }

  lemma {:induction false} GroupedIsGrouping(logs: seq<KickLog>)
    ensures GroupsOf(Grouped(logs), logs)
    decreases |logs|
  {
    if logs != [] {
      var front, last := logs[..|logs| - 1], logs[|logs| - 1];
      var g := AddToGroup(Grouped(front), last);
      assert GroupsOf(g, front + [last]) by {
        GroupedIsGrouping(front);
        AddToGroupKeepsGrouping(Grouped(front), front, last);
      }
      assert front + [last] == logs;
      assert Grouped(logs) == g;
    }
  }

  /** `groupedLogs`: the `reduce` with its in-place `push`, as a loop. The
      result puts each log in the one group of its date, keeps the log order
      inside each group, and its group sizes add up to the number of logs. */
  method GroupLogs(logs: seq<KickLog>) returns (groups: seq<Group>)
    ensures groups == Grouped(logs)
    ensures GroupsOf(groups, logs)
  {
    groups := [];
    var i := 0;
    while i < |logs|
      invariant 0 <= i <= |logs|
      invariant groups == Grouped(logs[..i])
    {
      assert logs[..i + 1][..i] == logs[..i];
      groups := AddToGroup(groups, logs[i]);
      i := i + 1;
    }
    assert logs[..i] == logs;
    GroupedIsGrouping(logs);
  }

  // ---------------------------------------------------------------------------
  // The page
  // ---------------------------------------------------------------------------

  class KickHistoryPage {
    var logs: seq<KickLog>
    var showAddModal: bool
    var newLog: NewLog

    constructor (initial: seq<KickLog>, date: string, time: string)
      ensures logs == initial && !showAddModal && newLog == BlankForm(date, time)
    {
      logs := initial;
      showAddModal := false;
      newLog := BlankForm(date, time);
    }

    /** `handleAddLog`: with both the count and the duration filled in, the
        new session goes in front of the log, the form is reset and the
        dialog closes; otherwise nothing changes. `count` and `duration` are
        what `parseInt` makes of the two fields. */
    method HandleAddLog(id: string, count: int, duration: int, nowDate: string, nowTime: string)
      modifies this
      ensures old(newLog.count) == "" || old(newLog.duration) == "" ==>
        logs == old(logs) && newLog == old(newLog) && showAddModal == old(showAddModal)
      ensures old(newLog.count) != "" && old(newLog.duration) != "" ==>
        && logs == [KickLog(id, old(newLog.date), old(newLog.time), count, duration,
                            StoredNotes(old(newLog.notes)))] + old(logs)
        && newLog == BlankForm(nowDate, nowTime)
        && !showAddModal
    {
      if newLog.count != "" && newLog.duration != "" {
        var log := KickLog(id, newLog.date, newLog.time, count, duration, StoredNotes(newLog.notes));
        logs := [log] + logs;
        newLog := BlankForm(nowDate, nowTime);
        showAddModal := false;
      }
    }
  }
}
