/** The reconciliation rule shared by the persisted collection and the
    in-memory list of daily records: at most one record per `date`, a
    record for a date already present replaces it in place, any other is
    appended. Also the shallow merge of a partial update into a record. */
module DailyRecords {
  import opened Types

  predicate HasDate(rs: seq<DailyRecord>, date: string) {
    exists k :: 0 <= k < |rs| && rs[k].date == date
  }

  /** The collection invariant: no two records share a date. */
  predicate UniqueDates(rs: seq<DailyRecord>) {
    forall i, j :: 0 <= i < j < |rs| ==> rs[i].date != rs[j].date
  }

  /** `findIndex(r => r.date === date)`: the first position holding a record
      for `date`, or -1 when there is none. */
  function FindIndexByDate(rs: seq<DailyRecord>, date: string): (i: int)
    ensures -1 <= i < |rs|
    ensures i == -1 <==> !HasDate(rs, date)
    ensures 0 <= i ==> rs[i].date == date
    ensures forall k :: 0 <= k < i ==> rs[k].date != date
  {
    if |rs| == 0 then -1
    else if rs[0].date == date then 0
    else
      var j := FindIndexByDate(rs[1..], date);
      if j == -1 then -1 else j + 1
  }

  /** `find(r => r.date === date) || null`: the first record for `date`. */
  function FindByDate(rs: seq<DailyRecord>, date: string): (r: Option<DailyRecord>)
    ensures r.None? <==> !HasDate(rs, date)
    ensures r.Some? ==> r.value in rs && r.value.date == date
    ensures r.Some? ==> exists i :: 0 <= i < |rs| && rs[i] == r.value
                         && forall k :: 0 <= k < i ==> rs[k].date != date
  {
    var i := FindIndexByDate(rs, date);
    if i == -1 then None else Some(rs[i])
  }

  /** Save-or-replace by date. */
  function Upsert(rs: seq<DailyRecord>, r: DailyRecord): (u: seq<DailyRecord>)
    ensures HasDate(rs, r.date) ==> |u| == |rs|
    ensures !HasDate(rs, r.date) ==> |u| == |rs| + 1 && u[|rs|] == r
    ensures HasDate(rs, r.date) ==> u[FindIndexByDate(rs, r.date)] == r
    ensures forall k :: 0 <= k < |rs| && k != FindIndexByDate(rs, r.date) ==> u[k] == rs[k]
  {
    var i := FindIndexByDate(rs, r.date);
    if i >= 0 then rs[i := r] else rs + [r]
  }

  /** Records for other dates keep their value and their position. */
  lemma UpsertFrame(rs: seq<DailyRecord>, r: DailyRecord, k: int)
    requires 0 <= k < |rs| && rs[k].date != r.date
    ensures k < |Upsert(rs, r)| && Upsert(rs, r)[k] == rs[k]
  {
  }

  /** After a save, looking the date up finds exactly the saved record. */
  lemma UpsertFinds(rs: seq<DailyRecord>, r: DailyRecord)
    ensures r in Upsert(rs, r)
    ensures FindByDate(Upsert(rs, r), r.date) == Some(r)
  {
  }

  /** Looking up any other date sees the collection as it was. */
  lemma UpsertOtherDate(rs: seq<DailyRecord>, r: DailyRecord, date: string)
    requires date != r.date
    ensures FindByDate(Upsert(rs, r), date) == FindByDate(rs, date)
  {
  }

  /** Saving the same record twice is the same as saving it once. */
  lemma UpsertIdempotent(rs: seq<DailyRecord>, r: DailyRecord)
    ensures Upsert(Upsert(rs, r), r) == Upsert(rs, r)
  {
  }

  /** Saving keeps the collection free of repeated dates. */
  lemma UpsertKeepsUnique(rs: seq<DailyRecord>, r: DailyRecord)
    requires UniqueDates(rs)
    ensures UniqueDates(Upsert(rs, r))
  {
  }

  /** The dates present after a save are the dates before plus the saved one. */
  lemma UpsertDates(rs: seq<DailyRecord>, r: DailyRecord, date: string)
    ensures HasDate(Upsert(rs, r), date) <==> HasDate(rs, date) || date == r.date
  {
  }

  /** Committing a series of records one after another. */
  function CommitAll(rs: seq<DailyRecord>, xs: seq<DailyRecord>): seq<DailyRecord>
    decreases |xs|
  {
    if |xs| == 0 then rs else CommitAll(Upsert(rs, xs[0]), xs[1..])
  }

  /** However many records are committed, no date is ever held twice. */
  lemma {:induction false} CommitAllUnique(rs: seq<DailyRecord>, xs: seq<DailyRecord>)
    requires UniqueDates(rs)
    ensures UniqueDates(CommitAll(rs, xs))
    decreases |xs|
  {
    if |xs| != 0 {
      UpsertKeepsUnique(rs, xs[0]);
      CommitAllUnique(Upsert(rs, xs[0]), xs[1..]);
    }
  }

  /** A partial update: `Some` for each field the update carries. */
  datatype Patch = Patch(
    id: Option<string>,
    date: Option<string>,
    timestamp: Option<int>,
    moodValue: Option<int>,
    energyLevel: Option<EnergyLevel>,
    keywords: Option<seq<string>>,
    note: Option<string>,
    sleepTime: Option<string>,
    wakeTime: Option<string>,
    sleepQuality: Option<int>,
    sleepIssues: Option<seq<string>>,
    events: Option<seq<string>>,
    eventImpact: Option<EventImpact>,
    warningSigns: Option<seq<string>>
  )

  const EmptyPatch := Patch(None, None, None, None, None, None, None, None,
                            None, None, None, None, None, None)

  function Pick<T>(update: Option<T>, current: T): T {
    match update
    case Some(v) => v
    case None => current
  }

  /** The value a merged field ends up with: the update's when it carries
      one, the old one otherwise. */
  predicate Takes<T(==)>(update: Option<T>, before: T, after: T) {
    if update.Some? then after == update.value else after == before
  }

  /** `{ ...prev, ...updates }`: every field the update carries takes the
      update's value, wholesale (a tag list is replaced, not merged); every
      other field keeps its old value. */
  function Merge(prev: DailyRecord, u: Patch): (r: DailyRecord)
    ensures Takes(u.id, prev.id, r.id) && Takes(u.date, prev.date, r.date)
    ensures Takes(u.timestamp, prev.timestamp, r.timestamp)
    ensures Takes(u.moodValue, prev.moodValue, r.moodValue)
    ensures Takes(u.energyLevel, prev.energyLevel, r.energyLevel)
    ensures Takes(u.keywords, prev.keywords, r.keywords)
    ensures Takes(u.note, prev.note, r.note)
    ensures Takes(u.sleepTime, prev.sleepTime, r.sleepTime)
    ensures Takes(u.wakeTime, prev.wakeTime, r.wakeTime)
    ensures Takes(u.sleepQuality, prev.sleepQuality, r.sleepQuality)
    ensures Takes(u.sleepIssues, prev.sleepIssues, r.sleepIssues)
    ensures Takes(u.events, prev.events, r.events)
    ensures Takes(u.eventImpact, prev.eventImpact, r.eventImpact)
    ensures Takes(u.warningSigns, prev.warningSigns, r.warningSigns)
  {
    DailyRecord(
      Pick(u.id, prev.id),
      Pick(u.date, prev.date),
      Pick(u.timestamp, prev.timestamp),
      Pick(u.moodValue, prev.moodValue),
      Pick(u.energyLevel, prev.energyLevel),
      Pick(u.keywords, prev.keywords),
      Pick(u.note, prev.note),
      Pick(u.sleepTime, prev.sleepTime),
      Pick(u.wakeTime, prev.wakeTime),
      Pick(u.sleepQuality, prev.sleepQuality),
      Pick(u.sleepIssues, prev.sleepIssues),
      Pick(u.events, prev.events),
      Pick(u.eventImpact, prev.eventImpact),
      Pick(u.warningSigns, prev.warningSigns))
  }

  /** An update carrying nothing leaves the record as it is. */
  lemma MergeEmpty(prev: DailyRecord)
    ensures Merge(prev, EmptyPatch) == prev
  {
  }

  /** An update carrying only a mood value changes the mood and nothing else. */
  lemma MergeMoodOnly(prev: DailyRecord, v: int)
    ensures Merge(prev, EmptyPatch.(moodValue := Some(v))) == prev.(moodValue := v)
  {
  }

  /** Applying the same update twice is the same as applying it once. */
  lemma MergeIdempotent(prev: DailyRecord, u: Patch)
    ensures Merge(Merge(prev, u), u) == Merge(prev, u)
  {
  }

  /** The update that carries every field of `r`. */
  function Whole(r: DailyRecord): Patch {
    Patch(Some(r.id), Some(r.date), Some(r.timestamp), Some(r.moodValue),
          Some(r.energyLevel), Some(r.keywords), Some(r.note), Some(r.sleepTime),
          Some(r.wakeTime), Some(r.sleepQuality), Some(r.sleepIssues),
          Some(r.events), Some(r.eventImpact), Some(r.warningSigns))
  }

  /** An update carrying every field replaces the whole record. */
  lemma MergeWhole(prev: DailyRecord, r: DailyRecord)
    ensures Merge(prev, Whole(r)) == r
  {
  }

  /** `u2` laid over `u1`: the later update wins on the fields both carry. */
  function Then(u1: Patch, u2: Patch): Patch {
    Patch(Later(u1.id, u2.id), Later(u1.date, u2.date),
          Later(u1.timestamp, u2.timestamp), Later(u1.moodValue, u2.moodValue),
          Later(u1.energyLevel, u2.energyLevel), Later(u1.keywords, u2.keywords),
          Later(u1.note, u2.note), Later(u1.sleepTime, u2.sleepTime),
          Later(u1.wakeTime, u2.wakeTime), Later(u1.sleepQuality, u2.sleepQuality),
          Later(u1.sleepIssues, u2.sleepIssues), Later(u1.events, u2.events),
          Later(u1.eventImpact, u2.eventImpact), Later(u1.warningSigns, u2.warningSigns))
  }

  function Later<T>(first: Option<T>, second: Option<T>): Option<T> {
    if second.Some? then second else first
  }

  /** Two updates in a row amount to one combined update. */
  lemma MergeThen(prev: DailyRecord, u1: Patch, u2: Patch)
    ensures Merge(Merge(prev, u1), u2) == Merge(prev, Then(u1, u2))
  {
  }
}
