/** The mood panel: how a mood value is named and coloured, the advice card
    at either pole, the slider's range, and the panel's own selection state
    (mood, energy, keywords, warning signs) that it reports back as a
    partial update after every change. */
module MoodTracker {
  import opened Types
  import opened DailyRecords
  import Tags

  /** The word shown next to the mood value. */
  function MoodLabel(m: int): (word: string)
    ensures word == "Depressed" <==> m <= -4
    ensures word == "Low" <==> -3 <= m <= -1
    ensures word == "Stable" <==> m == 0
    ensures word == "Elevated" <==> 1 <= m <= 3
    ensures word == "Manic" <==> m >= 4
  {
    if m <= -4 then "Depressed"
    else if m <= -1 then "Low"
    else if m == 0 then "Stable"
    else if m <= 3 then "Elevated"
    else "Manic"
  }

  /** The text colour class of the mood badge: blue at the low pole, red at
      the high pole, neutral stone between. */
  function MoodColor(m: int): (cls: string)
    ensures cls == "text-blue-500" <==> m <= -3
    ensures cls == "text-red-500" <==> m >= 3
    ensures cls == "text-stone-600" <==> -3 < m < 3
  {
    if m <= -3 then "text-blue-500"
    else if m >= 3 then "text-red-500"
    else "text-stone-600"
  }

  /** The extreme labels sit inside the colour bands (which are one step
      wider, taking in -3 and 3), and a stable mood is never coloured. */
  lemma ColorBandsContainPoles(m: int)
    ensures MoodLabel(m) == "Depressed" ==> MoodColor(m) == "text-blue-500"
    ensures MoodLabel(m) == "Manic" ==> MoodColor(m) == "text-red-500"
    ensures MoodLabel(m) == "Stable" ==> MoodColor(m) == "text-stone-600"
  {
  }

  datatype ContextCard = NoCard | Card(title: string, advice: string)

  /** The advice card shown under the slider. */
  function ContextCardFor(mood: int): (c: ContextCard)
    ensures c.Card? <==> mood <= -4 || mood >= 4
    ensures c.Card? ==> (c.title == "In a low valley?" <==> mood <= -4)
    ensures c.Card? && mood >= 4 ==> c.title == "Energy running high?"
  {
    if mood <= -4 || mood >= 4 then
      if mood <= -4 then
        Card("In a low valley?",
             "Remember: gentle movements. Hydrate. This state is temporary.")
      else
        Card("Energy running high?",
             "Watch for impulse spending. Try to ground yourself with a slow activity.")
    else NoCard
  }

  /** A card is shown exactly when the label is one of the two extremes. */
  lemma CardAtExtremeLabels(m: int)
    ensures ContextCardFor(m).Card? <==> MoodLabel(m) in {"Depressed", "Manic"}
  {
  }

  const SliderMin: int := -5
  const SliderMax: int := 5

  /** The value a range input with min -5, max 5 and step 1 reports: the
      browser's value sanitization for range inputs (HTML standard,
      "Range state") keeps it inside the bounds, so the panel only ever
      sees whole numbers from -5 to 5. */
  function SliderValue(raw: int): (m: int)
    ensures SliderMin <= m <= SliderMax
    ensures SliderMin <= raw <= SliderMax ==> m == raw
    ensures raw < SliderMin ==> m == SliderMin
    ensures raw > SliderMax ==> m == SliderMax
  {
    if raw < SliderMin then SliderMin else if raw > SliderMax then SliderMax else raw
  }

  /** The panel's local selection state. */
  datatype Panel = Panel(mood: int, energy: EnergyLevel,
                         keywords: seq<string>, warnings: seq<string>)

  /** The panel starts from the day's record. */
  function PanelOf(r: DailyRecord): Panel {
    Panel(r.moodValue, r.energyLevel, r.keywords, r.warningSigns)
  }

  /** What the panel reports after every change: its four fields, nothing else. */
  function Report(p: Panel): (u: Patch)
    ensures u.moodValue == Some(p.mood) && u.energyLevel == Some(p.energy)
    ensures u.keywords == Some(p.keywords) && u.warningSigns == Some(p.warnings)
    ensures u.(moodValue := None, energyLevel := None, keywords := None,
               warningSigns := None) == EmptyPatch
  {
    EmptyPatch.(moodValue := Some(p.mood), energyLevel := Some(p.energy),
                keywords := Some(p.keywords), warningSigns := Some(p.warnings))
  }

  /** The report sent when the panel first appears changes nothing. */
  lemma ReportUnchangedIsNoOp(r: DailyRecord)
    ensures Merge(r, Report(PanelOf(r))) == r
  {
  }

  function SetMood(p: Panel, raw: int): (p': Panel)
    ensures SliderMin <= p'.mood <= SliderMax
    ensures p'.mood == SliderValue(raw)
    ensures p' == p.(mood := p'.mood)
  {
    p.(mood := SliderValue(raw))
  }

  function SetEnergy(p: Panel, e: EnergyLevel): (p': Panel)
    ensures p'.energy == e
  {
    p.(energy := e)
  }

  /** Flips one keyword; the other three fields are untouched. */
  function ToggleKeyword(p: Panel, k: string): (p': Panel)
    ensures k in p'.keywords <==> k !in p.keywords
    ensures forall y :: y != k ==> (y in p'.keywords <==> y in p.keywords)
    ensures p' == p.(keywords := p'.keywords)
  {
    p.(keywords := Tags.Toggle(p.keywords, k))
  }

  /** Flips one warning sign; the other three fields are untouched. */
  function ToggleWarning(p: Panel, w: string): (p': Panel)
    ensures w in p'.warnings <==> w !in p.warnings
    ensures p'.warnings == Tags.Toggle(p.warnings, w)
    ensures forall y :: y != w ==> (y in p'.warnings <==> y in p.warnings)
    ensures p' == p.(warnings := p'.warnings)
  {
    p.(warnings := Tags.Toggle(p.warnings, w))
  }

  /** Toggling a keyword and reporting changes only the record's keywords. */
  lemma ToggleKeywordReport(r: DailyRecord, k: string)
    ensures Merge(r, Report(ToggleKeyword(PanelOf(r), k)))
            == r.(keywords := Tags.Toggle(r.keywords, k))
  {
  }

  /** Moving the slider and reporting changes only the record's mood, to the
      value the slider reports. */
  lemma SetMoodReport(r: DailyRecord, raw: int)
    ensures Merge(r, Report(SetMood(PanelOf(r), raw)))
            == r.(moodValue := SliderValue(raw))
  {
  }

  /** Picking an energy level and reporting changes only the record's energy. */
  lemma SetEnergyReport(r: DailyRecord, e: EnergyLevel)
    ensures Merge(r, Report(SetEnergy(PanelOf(r), e))) == r.(energyLevel := e)
  {
  }

  /** Toggling a warning sign and reporting changes only the record's
      warning signs, by the shared toggle rule. */
  lemma ToggleWarningReport(r: DailyRecord, w: string)
    ensures Merge(r, Report(ToggleWarning(PanelOf(r), w)))
            == r.(warningSigns := Tags.Toggle(r.warningSigns, w))
  {
  }
}
