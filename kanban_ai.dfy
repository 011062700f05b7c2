/**
 * The kanban assistant (KanbanAI.tsx): time-of-day classification, the time
 * context prefixed to every question, routing of a spoken transcript to
 * dictation or to a question, and the quick-question list.
 */
module KanbanAI {
  import Text

  /** What `getTimeOfDay` returns. */
  datatype TimeOfDay = LateNight | Morning | Afternoon | Evening | Night {
    function Name(): string {
      match this
      case LateNight => "late night"
      case Morning => "morning"
      case Afternoon => "afternoon"
      case Evening => "evening"
      case Night => "night"
    }
  }

  /** getTimeOfDay: the part of the day an hour (0..23) falls in. */
  function GetTimeOfDay(hour: int): (t: TimeOfDay)
    ensures t == LateNight <==> hour < 6
    ensures t == Morning <==> 6 <= hour < 12
    ensures t == Afternoon <==> 12 <= hour < 17
    ensures t == Evening <==> 17 <= hour < 21
    ensures t == Night <==> 21 <= hour
  {
    if hour < 6 then LateNight
    else if hour < 12 then Morning
    else if hour < 17 then Afternoon
    else if hour < 21 then Evening
    else Night
  }

  /** A reading of the clock: `getHours()`, `getDay()` (0 is Sunday) and the
      locale-formatted time, weekday and date strings. */
  datatype Clock = Clock(hours: int, day: int, time: string, weekday: string, date: string)

  datatype TimeContext = TimeContext(
    time: string,
    timeOfDay: TimeOfDay,
    dayOfWeek: string,
    date: string,
    isWeekend: bool,
    isWorkingHours: bool,
    isBusinessDay: bool)

  /** getTimeContext. */
  function GetTimeContext(c: Clock): (ctx: TimeContext)
    ensures ctx.timeOfDay == GetTimeOfDay(c.hours)
    ensures ctx.time == c.time && ctx.dayOfWeek == c.weekday && ctx.date == c.date
    ensures ctx.isWeekend <==> c.day == 0 || c.day == 6
    ensures ctx.isWorkingHours <==> 9 <= c.hours < 17
    ensures ctx.isBusinessDay <==> 1 <= c.day <= 5
  {
    TimeContext(c.time, GetTimeOfDay(c.hours), c.weekday, c.date,
      c.day == 0 || c.day == 6,
      c.hours >= 9 && c.hours < 17,
      c.day >= 1 && c.day <= 5)
  }

  /** On every real weekday (0..6) exactly one of weekend and business day holds;
      and working hours lie within the afternoon or the morning, never at night. */
  lemma WeekendIffNotBusinessDay(c: Clock)
    requires 0 <= c.day <= 6
    ensures GetTimeContext(c).isWeekend <==> !GetTimeContext(c).isBusinessDay
    ensures GetTimeContext(c).isWorkingHours ==>
      GetTimeContext(c).timeOfDay == Morning || GetTimeContext(c).timeOfDay == Afternoon
  {
  }

  /** The time-context prefix of every question sent to the assistant. */
  function ContextPrefix(ctx: TimeContext): string {
    "Current time: " + ctx.time + " on " + ctx.dayOfWeek + " " + ctx.timeOfDay.Name() + ". "
  }

  function ContextualQuestion(ctx: TimeContext, question: string): (r: string)
    ensures |r| == |ContextPrefix(ctx)| + |Text.Trim(question)|
    ensures r[..|ContextPrefix(ctx)|] == ContextPrefix(ctx) && r[|ContextPrefix(ctx)|..] == Text.Trim(question)
  {
    ContextPrefix(ctx) + Text.Trim(question)
  }

  /** The phrases that make a spoken transcript a dictation command. */
  const DictationPhrases: seq<string> := ["dictate", "overview", "tell me about my tasks", "read my tasks"]

  /** A transcript whose lower-cased form contains one of the phrases. */
  predicate IsDictationCommand(transcript: string)
    ensures IsDictationCommand(transcript) ==> |transcript| >= |"dictate"|
  {
    exists i | 0 <= i < |DictationPhrases| :: Text.Contains(Text.ToLower(transcript), DictationPhrases[i])
  }

  lemma DictationExamples()
    ensures IsDictationCommand("Please DICTATE")
    ensures IsDictationCommand("give me an Overview")
    ensures IsDictationCommand("read my tasks now")
  {
    var a := Text.ToLower("Please DICTATE");
    assert a[7..] == "dictate";
    assert Text.OccursAt(a, DictationPhrases[0], 7);
    var b := Text.ToLower("give me an Overview");
    assert b[11..] == "overview";
    assert Text.OccursAt(b, DictationPhrases[1], 11);
    var c := Text.ToLower("read my tasks now");
    assert c[..13] == "read my tasks";
    assert Text.OccursAt(c, DictationPhrases[3], 0);
  }

  /** A question that names none of the phrases is not a command: "what is next"
      has no `d` for "dictate", no `o` for "overview", and is shorter than the
      other two phrases. */
  lemma NotDictationExample()
    ensures !IsDictationCommand("what is next")
  {
    var s := "what is next";
    var l := Text.ToLower(s);
    Text.LowerLacksLetter(s, 'd');
    Text.LowerLacksLetter(s, 'o');
    Text.MissingFirstCharNotContained(l, DictationPhrases[0]);
    Text.MissingFirstCharNotContained(l, DictationPhrases[1]);
    assert |l| < |DictationPhrases[2]| && |l| < |DictationPhrases[3]|;
  }

  /** Case does not matter: a transcript is a command exactly when its lower-cased
      form is. */
  lemma DictationIgnoresCase(transcript: string)
    ensures IsDictationCommand(Text.ToLower(transcript)) <==> IsDictationCommand(transcript)
  {
    var l := Text.ToLower(transcript);
    assert Text.ToLower(l) == l;
  }

  /** Words around a command keep it a command. */
  lemma DictationSurvivesSurroundingWords(before: string, transcript: string, after: string)
    requires IsDictationCommand(transcript)
    ensures IsDictationCommand(before + transcript + after)
  {
    var l := Text.ToLower(transcript);
    var i :| 0 <= i < |DictationPhrases| && Text.Contains(l, DictationPhrases[i]);
    var p := DictationPhrases[i];
    var k :| 0 <= k <= |l| - |p| && Text.OccursAt(l, p, k);
    var whole := Text.ToLower(before + transcript + after);
    var j := |before| + k;
    assert whole[j..j + |p|] == l[k..k + |p|] by {
      var w, v := whole[j..j + |p|], l[k..k + |p|];
      forall m | 0 <= m < |p| ensures w[m] == v[m] {
        assert w[m] == whole[j + m] && v[m] == l[k + m];
        assert (before + transcript + after)[j + m] == transcript[k + m];
      }
    }
    assert Text.OccursAt(whole, p, j);
  }

  /** A call to the assistant API. */
  datatype AiRequest = Ask(question: string) | Dictate

  /** The two tabs of the assistant dialog. */
  datatype Tab = DictateTab | AskTab

  const BaseQuestions: seq<string> := [
    "What should I work on next?",
    "How can I be more productive today?",
    "When is the best time for my important tasks?",
    "What's my progress today?",
    "Any suggestions based on the weather?",
    "Dictate my tasks",
    "Give me an overview"
  ]

  const WeekendQuestion := "Weekend planning suggestions?"
  const AfterWorkQuestion := "Personal tasks for after work?"

  /** The quick questions offered for a time context: the questions for the part of
      the day, then the weekend and after-work questions when they apply, then the
      seven base questions. */
  method QuickQuestions(ctx: TimeContext) returns (qs: seq<string>)
    ensures |qs| == |BaseQuestions|
      + (if ctx.timeOfDay in {Morning, Afternoon, Evening} then 2 else 1)
      + (if ctx.isWeekend then 1 else 0)
      + (if !ctx.isWorkingHours && ctx.isBusinessDay then 1 else 0)
    ensures qs[|qs| - |BaseQuestions|..] == BaseQuestions
    ensures ctx.timeOfDay == Morning ==>
      qs[..2] == ["What should I prioritize this morning?", "Help me plan my day"]
    ensures ctx.timeOfDay == Afternoon ==>
      qs[..2] == ["How am I doing so far today?", "What should I focus on this afternoon?"]
    ensures ctx.timeOfDay == Evening ==>
      qs[..2] == ["How was my productivity today?", "What should I prepare for tomorrow?"]
    ensures ctx.timeOfDay in {LateNight, Night} ==> qs[0] == "Any late-night tasks I can work on?"
    ensures WeekendQuestion in qs <==> ctx.isWeekend
    ensures AfterWorkQuestion in qs <==> !ctx.isWorkingHours && ctx.isBusinessDay
  {
    var timeSpecific: seq<string> := [];
    if ctx.timeOfDay == Morning {
      timeSpecific := timeSpecific + ["What should I prioritize this morning?"];
      timeSpecific := timeSpecific + ["Help me plan my day"];
    } else if ctx.timeOfDay == Afternoon {
      timeSpecific := timeSpecific + ["How am I doing so far today?"];
      timeSpecific := timeSpecific + ["What should I focus on this afternoon?"];
    } else if ctx.timeOfDay == Evening {
      timeSpecific := timeSpecific + ["How was my productivity today?"];
      timeSpecific := timeSpecific + ["What should I prepare for tomorrow?"];
    } else {
      timeSpecific := timeSpecific + ["Any late-night tasks I can work on?"];
    }
    ghost var partOfDay := timeSpecific;
    if ctx.isWeekend {
      timeSpecific := timeSpecific + [WeekendQuestion];
    }
    ghost var withWeekend := timeSpecific;
    if !ctx.isWorkingHours && ctx.isBusinessDay {
      timeSpecific := timeSpecific + [AfterWorkQuestion];
    }
    assert WeekendQuestion !in partOfDay && AfterWorkQuestion !in withWeekend;
    assert WeekendQuestion !in BaseQuestions && AfterWorkQuestion !in BaseQuestions;
    qs := timeSpecific + BaseQuestions;
  }

  /** The assistant dialog's state: the question box, the active tab, the clock the
      minute timer last set, the clock captured when speech recognition was set up
      (its `onresult` handler closes over that first value), and the requests sent. */
  class Assistant {
    var question: string
    var activeTab: Tab
    var currentTime: Clock
    const recognizerClock: Clock
    var requests: seq<AiRequest>

    constructor (now: Clock)
      ensures question == "" && activeTab == DictateTab && currentTime == now
      ensures recognizerClock == now && requests == []
    {
      question := "";
      activeTab := DictateTab;
      currentTime := now;
      recognizerClock := now;
      requests := [];
    }

    /** The minute timer. */
    method Tick(now: Clock)
      modifies this
      ensures currentTime == now
      ensures question == old(question) && activeTab == old(activeTab) && requests == old(requests)
    {
      currentTime := now;
    }

    /** Typing in the question box, or clicking a quick question. */
    method SetQuestion(q: string)
      modifies this
      ensures question == q
      ensures activeTab == old(activeTab) && currentTime == old(currentTime) && requests == old(requests)
    {
      question := q;
    }

    /** handleAskQuestion: a blank question sends nothing; otherwise the trimmed
        question is sent behind the current time context. */
    method AskQuestion()
      modifies this
      ensures question == old(question) && activeTab == old(activeTab) && currentTime == old(currentTime)
      ensures Text.IsBlank(question) ==> requests == old(requests)
      ensures !Text.IsBlank(question) ==>
        requests == old(requests) + [Ask(ContextPrefix(GetTimeContext(currentTime)) + Text.Trim(question))]
    {
      if Text.IsBlank(question) {
        return;
      }
      var timeContext := GetTimeContext(currentTime);
      requests := requests + [Ask(ContextualQuestion(timeContext, question))];
    }

    /** recognition.onresult: the transcript fills the question box; a dictation
        command switches to the dictation tab and requests a dictation; any other
        non-blank transcript is asked behind the recognizer's time context. */
    method OnVoiceResult(transcript: string)
      modifies this
      ensures question == transcript && currentTime == old(currentTime)
      ensures IsDictationCommand(transcript) ==>
        activeTab == DictateTab && requests == old(requests) + [Dictate]
      ensures !IsDictationCommand(transcript) ==> activeTab == old(activeTab)
      ensures !IsDictationCommand(transcript) && Text.IsBlank(transcript) ==> requests == old(requests)
      ensures !IsDictationCommand(transcript) && !Text.IsBlank(transcript) ==>
        requests == old(requests) + [Ask(ContextPrefix(GetTimeContext(recognizerClock)) + Text.Trim(transcript))]
    {
      question := transcript;
      if IsDictationCommand(transcript) {
        activeTab := DictateTab;
        requests := requests + [Dictate];
      } else {
        var timeContext := GetTimeContext(recognizerClock);
        var contextual := ContextualQuestion(timeContext, transcript);
        if !Text.IsBlank(transcript) {
          requests := requests + [Ask(contextual)];
        }
      }
    }

    /** handleDictate. */
    method RequestDictation()
      modifies this
      ensures requests == old(requests) + [Dictate]
      ensures question == old(question) && activeTab == old(activeTab) && currentTime == old(currentTime)
    {
      requests := requests + [Dictate];
    }

    method SelectTab(t: Tab)
      modifies this
      ensures activeTab == t
      ensures question == old(question) && currentTime == old(currentTime) && requests == old(requests)
    {
      activeTab := t;
    }
  }

  /** Every question that reaches the API carries the time-context prefix and a
      non-blank question: the trimmed text after the prefix is never empty. */
  lemma AskedQuestionsAreNonBlank(ctx: TimeContext, question: string)
    requires !Text.IsBlank(question)
    ensures var r := ContextualQuestion(ctx, question);
      && |r| > |ContextPrefix(ctx)|
      && r[..|ContextPrefix(ctx)|] == ContextPrefix(ctx)
      && r[|ContextPrefix(ctx)|..] == Text.Trim(question)
  {
    var p := ContextPrefix(ctx);
    var r := ContextualQuestion(ctx, question);
    assert r == p + Text.Trim(question);
    assert r[..|p|] == p;
    assert r[|p|..] == Text.Trim(question);
  }
}
