/** The browser store behind the journal: three keys, each holding one
    whole collection. The store is a map from key to the decoded value; a
    key that is absent, or that holds a value of another shape, reads as
    "nothing saved". */
module Storage {
  import opened Types
  import opened DailyRecords
  import Constants

  const RecordsKey: string := "flux_records"
  const MedsKey: string := "flux_meds"
  const SafetyKey: string := "flux_safety"

  datatype Payload =
    | RecordList(records: seq<DailyRecord>)
    | MedicationList(logs: seq<MedicationLog>)
    | PlanValue(plan: SafetyPlan)

  type Store = map<string, Payload>

  /** Every key other than `key` holds what it held before. */
  predicate OnlyKeyChanged(before: Store, after: Store, key: string) {
    after - {key} == before - {key}
  }

  function GetRecords(st: Store): (rs: seq<DailyRecord>)
    ensures RecordsKey !in st ==> rs == []
    ensures RecordsKey in st && st[RecordsKey].RecordList? ==> rs == st[RecordsKey].records
  {
    if RecordsKey in st && st[RecordsKey].RecordList? then st[RecordsKey].records else []
  }

  /** Reads the stored records, saves-or-replaces `r` by date, writes the
      whole collection back. */
  function SaveRecord(st: Store, r: DailyRecord): (st': Store)
    ensures GetRecords(st') == Upsert(GetRecords(st), r)
    ensures OnlyKeyChanged(st, st', RecordsKey)
    ensures r in GetRecords(st')
  {
    UpsertFinds(GetRecords(st), r);
    st[RecordsKey := RecordList(Upsert(GetRecords(st), r))]
  }

  /** The stored record for `today`, or nothing. */
  function GetTodayRecord(st: Store, today: string): (r: Option<DailyRecord>)
    ensures r.None? <==> !HasDate(GetRecords(st), today)
    ensures r.Some? ==> r.value.date == today && r.value in GetRecords(st)
    ensures r.Some? ==> exists i :: 0 <= i < |GetRecords(st)| && GetRecords(st)[i] == r.value
                         && forall k :: 0 <= k < i ==> GetRecords(st)[k].date != today
  {
    FindByDate(GetRecords(st), today)
  }

  /** Appends one log to the stored list; no deduplication. */
  function LogMedication(st: Store, m: MedicationLog): (st': Store)
    ensures |GetMedications(st')| == |GetMedications(st)| + 1
    ensures GetMedications(st')[..|GetMedications(st)|] == GetMedications(st)
    ensures GetMedications(st')[|GetMedications(st)|] == m
    ensures OnlyKeyChanged(st, st', MedsKey)
  {
    st[MedsKey := MedicationList(GetMedications(st) + [m])]
  }

  function GetMedications(st: Store): (ms: seq<MedicationLog>)
    ensures MedsKey !in st ==> ms == []
    ensures MedsKey in st && st[MedsKey].MedicationList? ==> ms == st[MedsKey].logs
  {
    if MedsKey in st && st[MedsKey].MedicationList? then st[MedsKey].logs else []
  }

  /** The saved plan, or the built-in one when none is saved. */
  function GetSafetyPlan(st: Store): (p: SafetyPlan)
    ensures SafetyKey !in st ==> p == Constants.DefaultSafetyPlan()
    ensures SafetyKey in st && st[SafetyKey].PlanValue? ==> p == st[SafetyKey].plan
  {
    if SafetyKey in st && st[SafetyKey].PlanValue? then st[SafetyKey].plan
    else Constants.DefaultSafetyPlan()
  }

  function SaveSafetyPlan(st: Store, p: SafetyPlan): (st': Store)
    ensures GetSafetyPlan(st') == p
    ensures OnlyKeyChanged(st, st', SafetyKey)
  {
    st[SafetyKey := PlanValue(p)]
  }

  /** An empty store reads as no records, no logs and the default plan. */
  lemma EmptyStore()
    ensures GetRecords(map[]) == [] && GetMedications(map[]) == []
    ensures GetSafetyPlan(map[]) == Constants.DefaultSafetyPlan()
    ensures |GetSafetyPlan(map[]).contacts| == 2 && |GetSafetyPlan(map[]).reminders| == 3
  {
  }

  /** The three collections are independent: writing one leaves the other
      two reading as before. */
  lemma SaveRecordFrame(st: Store, r: DailyRecord)
    ensures GetMedications(SaveRecord(st, r)) == GetMedications(st)
    ensures GetSafetyPlan(SaveRecord(st, r)) == GetSafetyPlan(st)
  {
  }

  lemma LogMedicationFrame(st: Store, m: MedicationLog)
    ensures GetRecords(LogMedication(st, m)) == GetRecords(st)
    ensures GetSafetyPlan(LogMedication(st, m)) == GetSafetyPlan(st)
  {
  }

  lemma SaveSafetyPlanFrame(st: Store, p: SafetyPlan)
    ensures GetRecords(SaveSafetyPlan(st, p)) == GetRecords(st)
    ensures GetMedications(SaveSafetyPlan(st, p)) == GetMedications(st)
  {
  }

  /** Saving a record and then asking for that day returns the record. */
  lemma SaveThenGetToday(st: Store, r: DailyRecord)
    ensures GetTodayRecord(SaveRecord(st, r), r.date) == Some(r)
  {
  }

  /** Saving the same record twice stores the same collection as saving it once. */
  lemma SaveRecordIdempotent(st: Store, r: DailyRecord)
    ensures SaveRecord(SaveRecord(st, r), r) == SaveRecord(st, r)
  {
    UpsertIdempotent(GetRecords(st), r);
  }

  /** A store with at most one record per date keeps that property. */
  lemma SaveRecordKeepsUnique(st: Store, r: DailyRecord)
    requires UniqueDates(GetRecords(st))
    ensures UniqueDates(GetRecords(SaveRecord(st, r)))
  {
  }
}
