/** The fixed tag vocabularies and the built-in safety plan. */
module Constants {
  import opened Types
  import opened Seqs

  function MoodKeywords(): (r: seq<string>)
    ensures |r| == 11 && NoDuplicates(r)
    ensures "Anxious" in r && "Confident" in r
  {
    ["Anxious", "Irritable", "Empty", "Excited", "Numb", "Creative",
     "Tearful", "Restless", "Focused", "Overwhelmed", "Confident"]
  }

  function SleepIssues(): (r: seq<string>)
    ensures |r| == 5 && NoDuplicates(r)
    ensures "Insomnia" in r && "Nightmares" in r
  {
    ["Insomnia", "Early Wake", "Oversleeping", "Day/Night Reversal", "Nightmares"]
  }

  function Events(): (r: seq<string>)
    ensures |r| == 7 && NoDuplicates(r)
    ensures "Conflict" in r && "Missed Meds" in r
  {
    ["Conflict", "High Stress", "Late Night", "Alcohol/Substances",
     "Social Overload", "Travel", "Missed Meds"]
  }

  function WarningSigns(): (r: seq<string>)
    ensures |r| == 7 && NoDuplicates(r)
    ensures "Spending Spree" in r && "Paranoia" in r
  {
    ["Spending Spree", "Hypersexuality", "No Appetite", "Racing Thoughts",
     "Social Withdrawal", "Talking Fast", "Paranoia"]
  }

  /** The plan shown until the user saves one of their own: a therapist
      slot with no number and the 988 crisis line, then three reminders. */
  function DefaultSafetyPlan(): (p: SafetyPlan)
    ensures |p.contacts| == 2 && |p.reminders| == 3
    ensures p.contacts[0].name == "Therapist" && p.contacts[0].phone == ""
    ensures p.contacts[1].name == "Emergency" && p.contacts[1].phone == "988"
    ensures p.contacts[1].relation == "Hotline"
    ensures p.reminders == ["This feeling is temporary.",
                            "You have survived 100% of your bad days so far.",
                            "Breathe. Just breathe."]
  {
    SafetyPlan(
      [Contact("Therapist", "", "Professional"),
       Contact("Emergency", "988", "Hotline")],
      ["This feeling is temporary.",
       "You have survived 100% of your bad days so far.",
       "Breathe. Just breathe."])
  }
}
