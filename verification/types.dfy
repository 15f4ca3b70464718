/** The entities of the journal: daily records, medication logs and the
    safety plan, plus the Option type used where the program returns
    `null` or leaves an optional field out. */
module Types {

  datatype Option<T> = None | Some(value: T)

  /** The three energy levels a record can carry. */
  datatype EnergyLevel = Low | Medium | High

  /** How the day's events felt overall. */
  datatype EventImpact = Negative | Neutral | Positive

  /** One day's entry. `date` is the ISO calendar date `YYYY-MM-DD` and is
      the key by which records are reconciled; `id` and `timestamp` are
      informational. Numbers are JavaScript numbers, kept as `int`. */
  datatype DailyRecord = DailyRecord(
    id: string,
    date: string,
    timestamp: int,
    moodValue: int,
    energyLevel: EnergyLevel,
    keywords: seq<string>,
    note: string,
    sleepTime: string,
    wakeTime: string,
    sleepQuality: int,
    sleepIssues: seq<string>,
    events: seq<string>,
    eventImpact: EventImpact,
    warningSigns: seq<string>
  )

  /** One act of logging a dose; `photoUrl` is an opaque data URL. */
  datatype MedicationLog = MedicationLog(
    id: string,
    name: string,
    timestamp: int,
    taken: bool,
    photoUrl: Option<string>
  )

  datatype Contact = Contact(name: string, phone: string, relation: string)

  datatype SafetyPlan = SafetyPlan(contacts: seq<Contact>, reminders: seq<string>)
}
