/** The medication panel: the two kinds of log it creates, the "today"
    slice of the log list, its count, and the newest-first history. */
module MedicationTracker {
  import opened Types
  import opened Seqs
  import Decimal

  /** The big "Taken" button: a dose with no photo, stamped `now`. */
  function QuickLog(now: nat): (m: MedicationLog)
    ensures m.taken && m.name == "Quick Dose" && m.photoUrl.None?
    ensures m.timestamp == now
    ensures |m.id| > 0 && forall i :: 0 <= i < |m.id| ==> Decimal.IsDigit(m.id[i])
    ensures Decimal.ParseDecimal(m.id) == now
  {
    Decimal.ParseToDecimal(now);
    MedicationLog(Decimal.ToDecimal(now), "Quick Dose", now, true, None)
  }

  /** What the camera input produced: no file chosen, a file read into a
      data URL, or a file whose read failed (the reader's result is then
      null). */
  datatype PhotoPick = NoFile | Loaded(dataUrl: string) | LoadFailed

  /** The camera button. No file, no log. Once a read ends, successfully or
      not, a log is made; a failed read leaves it without a photo. */
  function PhotoLog(now: nat, pick: PhotoPick): (m: Option<MedicationLog>)
    ensures m.Some? <==> !pick.NoFile?
    ensures m.Some? ==> m.value.taken && m.value.name == "Photo Log" && m.value.timestamp == now
    ensures m.Some? ==> (m.value.photoUrl.Some? <==> pick.Loaded?)
    ensures pick.Loaded? ==> m == Some(QuickLog(now).(name := "Photo Log", photoUrl := Some(pick.dataUrl)))
    ensures pick.LoadFailed? ==> m == Some(QuickLog(now).(name := "Photo Log"))
  {
    match pick
    case NoFile => None
    case Loaded(url) => Some(MedicationLog(Decimal.ToDecimal(now), "Photo Log", now, true, Some(url)))
    case LoadFailed => Some(MedicationLog(Decimal.ToDecimal(now), "Photo Log", now, true, None))
  }

  /** A log counts as today's when it is no older than local midnight. */
  predicate IsToday(l: MedicationLog, todayStart: int) {
    l.timestamp >= todayStart
  }

  /** The logs made since `todayStart`, in their original order. */
  function TodaysLogs(logs: seq<MedicationLog>, todayStart: int): (r: seq<MedicationLog>)
    ensures forall l :: l in r <==> l in logs && IsToday(l, todayStart)
    ensures |r| <= |logs|
    ensures |r| == |logs| <==> forall i :: 0 <= i < |logs| ==> IsToday(logs[i], todayStart)
  {
    Filter(logs, (l: MedicationLog) => IsToday(l, todayStart))
  }

  /** Today's slice of a list that grew by `more` is today's slice of the old
      list followed by today's slice of `more`: the original order is kept. */
  lemma TodaysLogsAppend(logs: seq<MedicationLog>, more: seq<MedicationLog>, todayStart: int)
    ensures TodaysLogs(logs + more, todayStart)
            == TodaysLogs(logs, todayStart) + TodaysLogs(more, todayStart)
  {
    FilterAppend(logs, more, (l: MedicationLog) => IsToday(l, todayStart));
  }

  /** Each of today's logs appears as often as in the full list. */
  lemma TodaysLogsCounts(logs: seq<MedicationLog>, todayStart: int, l: MedicationLog)
    ensures multiset(TodaysLogs(logs, todayStart))[l]
            == if IsToday(l, todayStart) then multiset(logs)[l] else 0
  {
    FilterMultiset(logs, (x: MedicationLog) => IsToday(x, todayStart), l);
  }

  /** The "N logged today" badge. */
  function TodayCount(logs: seq<MedicationLog>, todayStart: int): (n: nat)
    ensures n <= |logs|
    ensures n == 0 <==> forall i :: 0 <= i < |logs| ==> !IsToday(logs[i], todayStart)
  {
    var t := TodaysLogs(logs, todayStart);
    assert |t| > 0 ==> t[0] in t;
    |t|
  }

  /** Logging a dose now bumps the badge by one; back-dated entries do not. */
  lemma CountAfterLog(logs: seq<MedicationLog>, l: MedicationLog, todayStart: int)
    ensures TodayCount(logs + [l], todayStart)
            == TodayCount(logs, todayStart) + (if IsToday(l, todayStart) then 1 else 0)
  {
    TodaysLogsAppend(logs, [l], todayStart);
    assert Filter([l], (x: MedicationLog) => IsToday(x, todayStart))
           == if IsToday(l, todayStart) then [l] else [];
  }

  /** Today's history as listed: today's logs, last first. */
  function TodayHistory(logs: seq<MedicationLog>, todayStart: int): (h: seq<MedicationLog>)
    ensures |h| == TodayCount(logs, todayStart)
    ensures forall l :: l in h <==> l in logs && IsToday(l, todayStart)
    ensures forall i :: 0 <= i < |h| ==>
              h[i] == TodaysLogs(logs, todayStart)[|h| - 1 - i]
  {
    var t := TodaysLogs(logs, todayStart);
    var h := Reverse(t);
    assert forall l :: l in h <==> l in t by {
      forall l ensures l in h <==> l in t {
        if l in t {
          var k :| 0 <= k < |t| && t[k] == l;
          assert h[|t| - 1 - k] == l;
        }
      }
    }
    h
  }

  /** A dose logged today heads the history right after it is logged. */
  lemma NewestHeadsHistory(logs: seq<MedicationLog>, l: MedicationLog, todayStart: int)
    requires IsToday(l, todayStart)
    ensures |TodayHistory(logs + [l], todayStart)| > 0
    ensures TodayHistory(logs + [l], todayStart)[0] == l
  {
    TodaysLogsAppend(logs, [l], todayStart);
    assert TodaysLogs([l], todayStart) == [l];
  }

  /** Logs in the order they were made: timestamps never go down. */
  predicate Chronological(logs: seq<MedicationLog>) {
    forall i, j :: 0 <= i < j < |logs| ==> logs[i].timestamp <= logs[j].timestamp
  }

  /** Taking today's slice keeps a chronological list chronological. */
  lemma {:induction false} TodaysLogsChronological(logs: seq<MedicationLog>, todayStart: int)
    requires Chronological(logs)
    ensures Chronological(TodaysLogs(logs, todayStart))
  {
    if |logs| != 0 {
      var rest := TodaysLogs(logs[1..], todayStart);
      TodaysLogsChronological(logs[1..], todayStart);
      assert forall l :: l in rest ==> l in logs[1..];
      assert forall l :: l in logs[1..] ==> logs[0].timestamp <= l.timestamp;
    }
  }

  /** When logs were appended as they were made, the history lists them
      most recent first. */
  lemma HistoryNewestFirst(logs: seq<MedicationLog>, todayStart: int)
    requires Chronological(logs)
    ensures forall i, j :: 0 <= i < j < |TodayHistory(logs, todayStart)| ==>
              TodayHistory(logs, todayStart)[i].timestamp
              >= TodayHistory(logs, todayStart)[j].timestamp
  {
    TodaysLogsChronological(logs, todayStart);
  }
}
