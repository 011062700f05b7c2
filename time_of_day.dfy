/**
 * The greeting shown by the header (useTimeOfDay.ts): the hour of the day is
 * classified into four periods, each with its greeting and description. The
 * one-minute interval that re-reads the clock is left to the caller, which
 * passes the hour.
 */
module TimeOfDay {
  import KanbanAI

  datatype Period = Morning | Day | Evening | Night

  datatype TimeInfo = TimeInfo(timeOfDay: Period, greeting: string, description: string, hour: int)

  function Greeting(p: Period): string {
    match p
    case Morning => "Good morning!"
    case Day => "Good afternoon!"
    case Evening => "Good evening!"
    case Night => "Good night!"
  }

  function Description(p: Period): string {
    match p
    case Morning => "Start your day with intelligent planning"
    case Day => "Keep your momentum with smart scheduling"
    case Evening => "Wind down while planning tomorrow"
    case Night => "Set yourself up for tomorrow's success"
  }

  /** getTimeInfo: 5..11 is morning, 12..16 day, 17..20 evening, and every other
      hour night; the record carries the period's texts and the hour it was given. */
  function GetTimeInfo(hour: int): (r: TimeInfo)
    ensures r.timeOfDay == Morning <==> 5 <= hour < 12
    ensures r.timeOfDay == Day <==> 12 <= hour < 17
    ensures r.timeOfDay == Evening <==> 17 <= hour < 21
    ensures r.timeOfDay == Night <==> hour < 5 || 21 <= hour
    ensures r.greeting == Greeting(r.timeOfDay) && r.description == Description(r.timeOfDay)
    ensures r.hour == hour
  {
    if hour >= 5 && hour < 12 then
      TimeInfo(Morning, "Good morning!", "Start your day with intelligent planning", hour)
    else if hour >= 12 && hour < 17 then
      TimeInfo(Day, "Good afternoon!", "Keep your momentum with smart scheduling", hour)
    else if hour >= 17 && hour < 21 then
      TimeInfo(Evening, "Good evening!", "Wind down while planning tomorrow", hour)
    else
      TimeInfo(Night, "Good night!", "Set yourself up for tomorrow's success", hour)
  }

  /** The four greetings are distinct, so the greeting alone tells the period. */
  lemma {:induction false} GreetingTellsPeriod(h1: int, h2: int)
    ensures GetTimeInfo(h1).greeting == GetTimeInfo(h2).greeting <==>
      GetTimeInfo(h1).timeOfDay == GetTimeInfo(h2).timeOfDay
  {
    var p1, p2 := GetTimeInfo(h1).timeOfDay, GetTimeInfo(h2).timeOfDay;
    if p1 != p2 {
      var g1, g2 := Greeting(p1), Greeting(p2);
      assert g1[5] != g2[5] || |g1| != |g2|;
    }
  }

  /** The header and the assistant classify the hour differently: they agree on
      the hours 6..20 (the assistant's afternoon is the header's day), the header
      calls 5 o'clock morning where the assistant still calls it late night, and
      both put 21..23 in the night. */
  lemma AgreesWithAssistant(hour: int)
    requires 0 <= hour < 24
    ensures var mine := GetTimeInfo(hour).timeOfDay;
      var theirs := KanbanAI.GetTimeOfDay(hour);
      && (6 <= hour < 21 ==>
            (mine == Morning <==> theirs == KanbanAI.Morning)
            && (mine == Day <==> theirs == KanbanAI.Afternoon)
            && (mine == Evening <==> theirs == KanbanAI.Evening))
      && (hour == 5 ==> mine == Morning && theirs == KanbanAI.LateNight)
      && (21 <= hour ==> mine == Night && theirs == KanbanAI.Night)
      && (hour < 5 ==> mine == Night && theirs == KanbanAI.LateNight)
  {
  }
}
