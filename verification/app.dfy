/** The application shell: the day's working record, the in-memory record
    and medication lists, and the safety plan, kept together as a session.
    Each user action is one step that merges the change into the working
    record, saves it to the store and mirrors the same save-or-replace rule
    in memory, so the store and the in-memory lists never disagree. */
module App {
  import opened Types
  import opened DailyRecords
  import opened Storage
  import Decimal
  import Tags
  import MoodTracker

  /** The blank record for `today`, created at clock time `now`. */
  function DefaultRecord(today: string, now: nat): (r: DailyRecord)
    ensures r.date == today && r.timestamp == now
    ensures |r.id| > 0 && forall i :: 0 <= i < |r.id| ==> Decimal.IsDigit(r.id[i])
    ensures Decimal.ParseDecimal(r.id) == now
    ensures r.moodValue == 0 && r.energyLevel == Medium
    ensures r.keywords == [] && r.sleepIssues == [] && r.events == [] && r.warningSigns == []
    ensures r.note == "" && r.sleepTime == "" && r.wakeTime == ""
    ensures r.sleepQuality == 3 && r.eventImpact == Neutral
  {
    Decimal.ParseToDecimal(now);
    DailyRecord(Decimal.ToDecimal(now), today, now, 0, Medium, [], "", "", "",
                3, [], [], Neutral, [])
  }

  /** The working record at start-up: today's stored record if there is
      one, else a blank one. */
  function InitialRecord(st: Store, today: string, now: nat): (r: DailyRecord)
    ensures r.date == today
    ensures HasDate(GetRecords(st), today) ==> r == GetTodayRecord(st, today).value
    ensures !HasDate(GetRecords(st), today) ==> r == DefaultRecord(today, now)
  {
    match GetTodayRecord(st, today)
    case Some(existing) => existing
    case None => DefaultRecord(today, now)
  }

  /** Whether the Help button that opens the safety plan is offered: exactly
      when the mood reads "Depressed". The high pole only gets the advice
      card, never the safety plan. */
  function ShowsHelp(mood: int): (b: bool)
    ensures b <==> MoodTracker.MoodLabel(mood) == "Depressed"
    ensures b ==> MoodTracker.ContextCardFor(mood).title == "In a low valley?"
    ensures MoodTracker.MoodLabel(mood) == "Manic" ==> !b
  {
    mood <= -4
  }

  lemma HelpBoundary()
    ensures ShowsHelp(-4) && ShowsHelp(-5)
    ensures !ShowsHelp(-3) && !ShowsHelp(0) && !ShowsHelp(4) && !ShowsHelp(5)
  {
  }

  datatype Session = Session(
    store: Store,
    records: seq<DailyRecord>,
    medLogs: seq<MedicationLog>,
    safetyPlan: SafetyPlan,
    current: DailyRecord
  )

  /** The store and memory agree, and memory holds the working record as
      the record for its date. */
  predicate Synced(s: Session) {
    && GetRecords(s.store) == s.records
    && GetMedications(s.store) == s.medLogs
    && FindByDate(s.records, s.current.date) == Some(s.current)
  }

  /** The effect that runs whenever the working record changes: save it to
      the store, and apply the same save-or-replace to the in-memory list. */
  function Persist(s: Session, rec: DailyRecord): (s': Session)
    ensures s'.current == rec
    ensures GetRecords(s'.store) == Upsert(GetRecords(s.store), rec)
    ensures s'.records == Upsert(s.records, rec)
    ensures OnlyKeyChanged(s.store, s'.store, RecordsKey)
    ensures GetRecords(s.store) == s.records ==> GetRecords(s'.store) == s'.records
    ensures FindByDate(s'.records, rec.date) == Some(rec)
    ensures GetMedications(s'.store) == GetMedications(s.store)
    ensures s'.medLogs == s.medLogs && s'.safetyPlan == s.safetyPlan
  {
    SaveRecordFrame(s.store, rec);
    UpsertFinds(s.records, rec);
    Session(SaveRecord(s.store, rec), Upsert(s.records, rec), s.medLogs,
            s.safetyPlan, rec)
  }

  /** Start-up: load the plan and both lists, pick the working record, and
      run the save effect once for it. */
  function Start(st: Store, today: string, now: nat): (s: Session)
    ensures Synced(s)
    ensures s.current == InitialRecord(st, today, now) && s.current.date == today
    ensures s.records == Upsert(GetRecords(st), s.current) && GetRecords(s.store) == s.records
    ensures OnlyKeyChanged(st, s.store, RecordsKey)
    ensures s.safetyPlan == GetSafetyPlan(st)
    ensures s.medLogs == GetMedications(st)
    ensures HasDate(GetRecords(st), today) ==> s.records == GetRecords(st)
    ensures UniqueDates(GetRecords(st)) ==> UniqueDates(s.records)
  {
    var rec := InitialRecord(st, today, now);
    var s0 := Session(st, GetRecords(st), GetMedications(st), GetSafetyPlan(st), rec);
    assert HasDate(GetRecords(st), today) ==> Upsert(GetRecords(st), rec) == GetRecords(st) by {
      if HasDate(GetRecords(st), today) {
        UpsertIdempotentOnFound(GetRecords(st), rec);
      }
    }
    assert UniqueDates(GetRecords(st)) ==> UniqueDates(Upsert(GetRecords(st), rec)) by {
      if UniqueDates(GetRecords(st)) {
        UpsertKeepsUnique(GetRecords(st), rec);
      }
    }
    Persist(s0, rec)
  }

  /** Saving the record that lookup found changes nothing. */
  lemma UpsertIdempotentOnFound(rs: seq<DailyRecord>, r: DailyRecord)
    requires FindByDate(rs, r.date) == Some(r)
    ensures Upsert(rs, r) == rs
  {
  }

  /** `updateRecord`: merge the partial update, then persist. */
  function UpdateRecord(s: Session, u: Patch): (s': Session)
    ensures s'.current == Merge(s.current, u)
    ensures s'.records == Upsert(s.records, s'.current)
    ensures GetRecords(s'.store) == Upsert(GetRecords(s.store), s'.current)
    ensures OnlyKeyChanged(s.store, s'.store, RecordsKey)
    ensures Synced(s) ==> Synced(s')
    ensures UniqueDates(s.records) ==> UniqueDates(s'.records)
    ensures s'.medLogs == s.medLogs && s'.safetyPlan == s.safetyPlan
  {
    var rec := Merge(s.current, u);
    assert UniqueDates(s.records) ==> UniqueDates(Upsert(s.records, rec)) by {
      if UniqueDates(s.records) {
        UpsertKeepsUnique(s.records, rec);
      }
    }
    Persist(s, rec)
  }

  /** A sleep-issue chip: toggle it through a whole-list update. */
  function ToggleSleepIssue(s: Session, issue: string): (s': Session)
    ensures issue in s'.current.sleepIssues <==> issue !in s.current.sleepIssues
    ensures s'.current.sleepIssues == Tags.Toggle(s.current.sleepIssues, issue)
    ensures s'.current == s.current.(sleepIssues := s'.current.sleepIssues)
    ensures s'.records == Upsert(s.records, s'.current)
    ensures GetRecords(s'.store) == Upsert(GetRecords(s.store), s'.current)
    ensures OnlyKeyChanged(s.store, s'.store, RecordsKey)
    ensures s'.medLogs == s.medLogs && s'.safetyPlan == s.safetyPlan
    ensures Synced(s) ==> Synced(s')
  {
    UpdateRecord(s, EmptyPatch.(sleepIssues := Some(Tags.Toggle(s.current.sleepIssues, issue))))
  }

  /** An event chip: toggle it through a whole-list update. */
  function ToggleEvent(s: Session, ev: string): (s': Session)
    ensures ev in s'.current.events <==> ev !in s.current.events
    ensures s'.current.events == Tags.Toggle(s.current.events, ev)
    ensures s'.current == s.current.(events := s'.current.events)
    ensures s'.records == Upsert(s.records, s'.current)
    ensures GetRecords(s'.store) == Upsert(GetRecords(s.store), s'.current)
    ensures OnlyKeyChanged(s.store, s'.store, RecordsKey)
    ensures s'.medLogs == s.medLogs && s'.safetyPlan == s.safetyPlan
    ensures Synced(s) ==> Synced(s')
  {
    UpdateRecord(s, EmptyPatch.(events := Some(Tags.Toggle(s.current.events, ev))))
  }

  /** A change in the mood panel, reported as its four fields. */
  function MoodPanelChanged(s: Session, p: MoodTracker.Panel): (s': Session)
    ensures s'.current == s.current.(moodValue := p.mood, energyLevel := p.energy,
                                     keywords := p.keywords, warningSigns := p.warnings)
    ensures s'.records == Upsert(s.records, s'.current)
    ensures GetRecords(s'.store) == Upsert(GetRecords(s.store), s'.current)
    ensures OnlyKeyChanged(s.store, s'.store, RecordsKey)
    ensures s'.medLogs == s.medLogs && s'.safetyPlan == s.safetyPlan
    ensures Synced(s) ==> Synced(s')
  {
    UpdateRecord(s, MoodTracker.Report(p))
  }

  /** `handleMedLog`: store the log, then append it in memory. */
  function HandleMedLog(s: Session, log: MedicationLog): (s': Session)
    ensures |s'.medLogs| == |s.medLogs| + 1
    ensures s'.medLogs[..|s.medLogs|] == s.medLogs && s'.medLogs[|s.medLogs|] == log
    ensures GetMedications(s'.store) == GetMedications(s.store) + [log]
    ensures OnlyKeyChanged(s.store, s'.store, MedsKey)
    ensures s'.records == s.records && s'.current == s.current
    ensures GetRecords(s'.store) == GetRecords(s.store)
    ensures s'.safetyPlan == s.safetyPlan && GetSafetyPlan(s'.store) == GetSafetyPlan(s.store)
    ensures Synced(s) ==> Synced(s')
  {
    var st' := LogMedication(s.store, log);
    LogMedicationFrame(s.store, log);
    s.(store := st', medLogs := s.medLogs + [log])
  }

  /** One sitting: open the app on an empty store for 1 March 2024, slide
      the mood to -4, then add a note. The store ends with one record for
      the day, carrying both changes, and Help is offered. */
  lemma JournalScenario(now: nat)
    ensures var s0 := Start(map[], "2024-03-01", now);
            var s1 := UpdateRecord(s0, EmptyPatch.(moodValue := Some(-4)));
            var s2 := UpdateRecord(s1, EmptyPatch.(moodValue := Some(-4), note := Some("hard day")));
            && s0.current.moodValue == 0
            && |GetRecords(s1.store)| == 1 && GetRecords(s1.store)[0].moodValue == -4
            && ShowsHelp(s1.current.moodValue)
            && |GetRecords(s2.store)| == 1
            && GetRecords(s2.store)[0].date == "2024-03-01"
            && GetRecords(s2.store)[0].moodValue == -4
            && GetRecords(s2.store)[0].note == "hard day"
  {
  }
}
