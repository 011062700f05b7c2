/**
 * The voice agent (VoiceAgent.tsx): a 60-second recording session whose
 * transcript is sent for task extraction, and a review queue of extracted
 * tasks that the user approves, edits, removes and finally creates.
 */
module VoiceAgent {
  import opened Common
  import Text

  /** A task as the extraction endpoint returns it. */
  datatype VoiceTask = VoiceTask(
    title: string,
    duration: int,
    importance: string,
    scheduledTime: Option<string>,
    notes: Option<string>)

  /** A task waiting in the review queue. */
  datatype ReviewTask = ReviewTask(
    task: VoiceTask,
    id: string,
    isApproved: bool,
    isProcessing: bool)

  /** The create-task body; the status is always `todo`. */
  datatype TaskPayload = TaskPayload(
    title: string,
    duration: int,
    importance: string,
    status: string,
    scheduledTime: Option<string>)

  datatype Request =
    | Extract(transcript: string)
    | CreateTask(payload: TaskPayload)

  /** One speech-recognition result: its best alternative's text and whether it is final. */
  datatype SpeechResult = SpeechResult(text: string, isFinal: bool)

  // ---------------------------------------------------------------------------
  // Review-queue operations

  /** toggleTaskApproval. */
  function ToggleApproval(tasks: seq<ReviewTask>, id: string): (r: seq<ReviewTask>)
    ensures |r| == |tasks|
    ensures forall i :: 0 <= i < |tasks| ==>
      if tasks[i].id == id then r[i] == tasks[i].(isApproved := !tasks[i].isApproved)
      else r[i] == tasks[i]
  {
    seq(|tasks|, i requires 0 <= i < |tasks| =>
      if tasks[i].id == id then tasks[i].(isApproved := !tasks[i].isApproved) else tasks[i])
  }

  /** Toggling the same task twice restores the queue. */
  lemma ToggleTwice(tasks: seq<ReviewTask>, id: string)
    ensures ToggleApproval(ToggleApproval(tasks, id), id) == tasks
  {
    var r := ToggleApproval(ToggleApproval(tasks, id), id);
    forall i | 0 <= i < |tasks| ensures r[i] == tasks[i] {
    }
  }

  /** removeReviewTask. */
  function RemoveReviewTask(tasks: seq<ReviewTask>, id: string): (r: seq<ReviewTask>)
    ensures |r| <= |tasks|
  {
    if tasks == [] then []
    else (if tasks[0].id == id then [] else [tasks[0]]) + RemoveReviewTask(tasks[1..], id)
  }

  /** Removal keeps exactly the tasks with another id. */
  lemma {:induction false} RemoveReviewTaskMembers(tasks: seq<ReviewTask>, id: string)
    ensures forall t :: t in RemoveReviewTask(tasks, id) <==> t in tasks && t.id != id
  {
    if tasks != [] {
      RemoveReviewTaskMembers(tasks[1..], id);
      assert tasks == [tasks[0]] + tasks[1..];
    }
  }

  /** Removal keeps the others' order: it commutes with concatenation. */
  lemma {:induction false} RemoveReviewTaskConcat(a: seq<ReviewTask>, b: seq<ReviewTask>, id: string)
    ensures RemoveReviewTask(a + b, id) == RemoveReviewTask(a, id) + RemoveReviewTask(b, id)
  {
    if a == [] {
      assert a + b == b;
    } else {
      var head := if a[0].id == id then [] else [a[0]];
      assert a + b != [] && (a + b)[0] == a[0] && (a + b)[1..] == a[1..] + b;
      calc {
        RemoveReviewTask(a + b, id);
        head + RemoveReviewTask(a[1..] + b, id);
        { RemoveReviewTaskConcat(a[1..], b, id); }
        head + (RemoveReviewTask(a[1..], id) + RemoveReviewTask(b, id));
        (head + RemoveReviewTask(a[1..], id)) + RemoveReviewTask(b, id);
        RemoveReviewTask(a, id) + RemoveReviewTask(b, id);
      }
    }
  }

  /** Removing an id no task carries changes nothing. */
  lemma {:induction false} RemoveAbsentReviewTask(tasks: seq<ReviewTask>, id: string)
    requires forall i :: 0 <= i < |tasks| ==> tasks[i].id != id
    ensures RemoveReviewTask(tasks, id) == tasks
  {
    if tasks != [] {
      RemoveAbsentReviewTask(tasks[1..], id);
    }
  }

  /** The field named by `editReviewTask` with its new value. */
  datatype FieldEdit =
    | Title(title: string)
    | Duration(duration: int)
    | Importance(importance: string)
    | ScheduledTime(scheduledTime: string)
    | Notes(notes: string)

  function ApplyEdit(t: VoiceTask, e: FieldEdit): VoiceTask {
    match e
    case Title(v) => t.(title := v)
    case Duration(v) => t.(duration := v)
    case Importance(v) => t.(importance := v)
    case ScheduledTime(v) => t.(scheduledTime := Some(v))
    case Notes(v) => t.(notes := Some(v))
  }

  /** An edit changes its own field and leaves the other four as they were. */
  lemma ApplyEditChangesOneField(t: VoiceTask, e: FieldEdit)
    ensures var u := ApplyEdit(t, e);
      && (if e.Title? then u.title == e.title else u.title == t.title)
      && (if e.Duration? then u.duration == e.duration else u.duration == t.duration)
      && (if e.Importance? then u.importance == e.importance else u.importance == t.importance)
      && (if e.ScheduledTime? then u.scheduledTime == Some(e.scheduledTime) else u.scheduledTime == t.scheduledTime)
      && (if e.Notes? then u.notes == Some(e.notes) else u.notes == t.notes)
  {
  }

  /** editReviewTask. */
  function EditReviewTask(tasks: seq<ReviewTask>, id: string, e: FieldEdit): (r: seq<ReviewTask>)
    ensures |r| == |tasks|
    ensures forall i :: 0 <= i < |tasks| ==>
      && r[i].id == tasks[i].id
      && r[i].isApproved == tasks[i].isApproved
      && r[i].isProcessing == tasks[i].isProcessing
      && r[i].task == (if tasks[i].id == id then ApplyEdit(tasks[i].task, e) else tasks[i].task)
  {
    seq(|tasks|, i requires 0 <= i < |tasks| =>
      if tasks[i].id == id then tasks[i].(task := ApplyEdit(tasks[i].task, e)) else tasks[i])
  }

  /** The first step of handleAddSingleTask: the task shows as approved and in progress. */
  function MarkProcessing(tasks: seq<ReviewTask>, id: string): (r: seq<ReviewTask>)
    ensures |r| == |tasks|
    ensures forall i :: 0 <= i < |tasks| ==>
      if tasks[i].id == id then r[i] == tasks[i].(isApproved := true, isProcessing := true)
      else r[i] == tasks[i]
  {
    seq(|tasks|, i requires 0 <= i < |tasks| =>
      if tasks[i].id == id then tasks[i].(isApproved := true, isProcessing := true) else tasks[i])
  }

  /** `tasks.filter(task => task.isApproved)`. */
  function ApprovedTasks(tasks: seq<ReviewTask>): (r: seq<ReviewTask>)
    ensures |r| <= |tasks|
    ensures forall t :: t in r <==> t in tasks && t.isApproved
  {
    if tasks == [] then []
    else (if tasks[0].isApproved then [tasks[0]] else []) + ApprovedTasks(tasks[1..])
  }

  /** The filter keeps the queue's order and multiplicity: it commutes with
      concatenation, and on one task it keeps that task exactly when it is
      approved. Together these fix the result for every queue. */
  lemma ApprovedTasksKeepsOrder(a: seq<ReviewTask>, b: seq<ReviewTask>)
    ensures ApprovedTasks(a + b) == ApprovedTasks(a) + ApprovedTasks(b)
    ensures |a| == 1 ==> ApprovedTasks(a) == if a[0].isApproved then a else []
  {
    ApprovedTasksConcat(a, b);
    if |a| == 1 {
      assert a[1..] == [];
    }
  }

  lemma {:induction false} ApprovedTasksConcat(a: seq<ReviewTask>, b: seq<ReviewTask>)
    ensures ApprovedTasks(a + b) == ApprovedTasks(a) + ApprovedTasks(b)
  {
    if a == [] {
      assert a + b == b;
    } else {
      assert (a + b)[1..] == a[1..] + b;
      ApprovedTasksConcat(a[1..], b);
    }
  }

  function PayloadOf(t: ReviewTask): TaskPayload {
    TaskPayload(t.task.title, t.task.duration, t.task.importance, "todo", t.task.scheduledTime)
  }

  /** The create requests sent for a list of tasks, one per task in order. */
  function CreateRequests(tasks: seq<ReviewTask>): (r: seq<Request>)
    ensures |r| == |tasks|
    ensures forall i :: 0 <= i < |tasks| ==>
      && r[i].CreateTask?
      && r[i].payload.title == tasks[i].task.title
      && r[i].payload.duration == tasks[i].task.duration
      && r[i].payload.importance == tasks[i].task.importance
      && r[i].payload.status == "todo"
      && r[i].payload.scheduledTime == tasks[i].task.scheduledTime
  {
    seq(|tasks|, i requires 0 <= i < |tasks| => CreateTask(PayloadOf(tasks[i])))
  }

  /** The requests for two lists in a row are the requests for each, in order. */
  lemma CreateRequestsConcat(a: seq<ReviewTask>, b: seq<ReviewTask>)
    ensures CreateRequests(a + b) == CreateRequests(a) + CreateRequests(b)
  {
    var l, r := CreateRequests(a + b), CreateRequests(a) + CreateRequests(b);
    forall i | 0 <= i < |a + b| ensures l[i] == r[i] {
      if i < |a| {
        assert (a + b)[i] == a[i];
      } else {
        assert (a + b)[i] == b[i - |a|];
      }
    }
  }

  /** The review tasks made from an extraction answered at `now`: ids
      `task-<now>-<index>`, none approved or processing. */
  function NewReviewTasks(extracted: seq<VoiceTask>, now: int): (r: seq<ReviewTask>)
    ensures |r| == |extracted|
    ensures forall i :: 0 <= i < |extracted| ==>
      && r[i].task == extracted[i]
      && !r[i].isApproved && !r[i].isProcessing
      && r[i].id == "task-" + Text.IntToString(now) + "-" + Text.NatToString(i)
  {
    seq(|extracted|, i requires 0 <= i < |extracted| =>
      ReviewTask(extracted[i], "task-" + Text.IntToString(now) + "-" + Text.NatToString(i), false, false))
  }

  // ---------------------------------------------------------------------------
  // Transcript accumulation

  /** The final pieces of a run of results, concatenated. */
  function Finals(rs: seq<SpeechResult>): (r: string)
    ensures |r| <= |AllText(rs)|
  {
    if rs == [] then ""
    else Finals(rs[..|rs| - 1]) + (if rs[|rs| - 1].isFinal then rs[|rs| - 1].text else "")
  }

  /** The interim pieces of a run of results, concatenated. */
  function Interims(rs: seq<SpeechResult>): (r: string)
    ensures |r| <= |AllText(rs)|
  {
    if rs == [] then ""
    else Interims(rs[..|rs| - 1]) + (if rs[|rs| - 1].isFinal then "" else rs[|rs| - 1].text)
  }

  /** Every piece of a run of results, concatenated. */
  function AllText(rs: seq<SpeechResult>): string {
    if rs == [] then "" else AllText(rs[..|rs| - 1]) + rs[|rs| - 1].text
  }

  /** The results of a run whose finality is `isFinal`, in order. */
  function WithFinality(rs: seq<SpeechResult>, isFinal: bool): (r: seq<SpeechResult>)
    ensures |r| <= |rs|
  {
    if rs == [] then []
    else WithFinality(rs[..|rs| - 1], isFinal) + (if rs[|rs| - 1].isFinal == isFinal then [rs[|rs| - 1]] else [])
  }

  /** The final part is the text of the final results and the interim part the
      text of the others, each in order; every result goes to exactly one of the
      two; and when every result is final the final part is all the text. */
  lemma SplitKeepsAllText(rs: seq<SpeechResult>)
    ensures Finals(rs) == AllText(WithFinality(rs, true))
    ensures Interims(rs) == AllText(WithFinality(rs, false))
    ensures multiset(WithFinality(rs, true)) + multiset(WithFinality(rs, false)) == multiset(rs)
    ensures (forall i :: 0 <= i < |rs| ==> rs[i].isFinal) ==> Finals(rs) == AllText(rs) && Interims(rs) == ""
  {
    FinalsAreFinalText(rs);
    InterimsAreInterimText(rs);
    SplitPartitions(rs);
    AllFinalIsAllText(rs);
  }

  /** One more result extends exactly one of the two parts by its text. */
  lemma SplitStep(rs: seq<SpeechResult>, r: SpeechResult)
    ensures Finals(rs + [r]) == Finals(rs) + (if r.isFinal then r.text else "")
    ensures Interims(rs + [r]) == Interims(rs) + (if r.isFinal then "" else r.text)
  {
    assert (rs + [r])[..|rs|] == rs;
  }

  /** Appending a result to the filtered run appends its text. */
  lemma AllTextSnoc(rs: seq<SpeechResult>, r: SpeechResult)
    ensures AllText(rs + [r]) == AllText(rs) + r.text
  {
    assert (rs + [r])[..|rs|] == rs;
  }

  lemma {:induction false} FinalsAreFinalText(rs: seq<SpeechResult>)
    ensures Finals(rs) == AllText(WithFinality(rs, true))
  {
    if rs != [] {
      var init, last := rs[..|rs| - 1], rs[|rs| - 1];
      FinalsAreFinalText(init);
      if last.isFinal {
        AllTextSnoc(WithFinality(init, true), last);
      } else {
        assert WithFinality(init, true) + [] == WithFinality(init, true);
        assert WithFinality(rs, true) == WithFinality(init, true);
        assert Finals(init) + "" == Finals(init);
        assert Finals(rs) == Finals(init);
      }
    }
  }

  lemma {:induction false} InterimsAreInterimText(rs: seq<SpeechResult>)
    ensures Interims(rs) == AllText(WithFinality(rs, false))
  {
    if rs != [] {
      var init, last := rs[..|rs| - 1], rs[|rs| - 1];
      InterimsAreInterimText(init);
      if !last.isFinal {
        AllTextSnoc(WithFinality(init, false), last);
      } else {
        assert WithFinality(init, false) + [] == WithFinality(init, false);
        assert WithFinality(rs, false) == WithFinality(init, false);
        assert Interims(init) + "" == Interims(init);
        assert Interims(rs) == Interims(init);
      }
    }
  }

  lemma {:induction false} SplitPartitions(rs: seq<SpeechResult>)
    ensures multiset(WithFinality(rs, true)) + multiset(WithFinality(rs, false)) == multiset(rs)
  {
    if rs != [] {
      var init, last := rs[..|rs| - 1], rs[|rs| - 1];
      SplitPartitions(init);
      assert rs == init + [last];
    }
  }

  lemma {:induction false} AllFinalIsAllText(rs: seq<SpeechResult>)
    ensures (forall i :: 0 <= i < |rs| ==> rs[i].isFinal) ==> Finals(rs) == AllText(rs) && Interims(rs) == ""
  {
    if rs != [] && forall i :: 0 <= i < |rs| ==> rs[i].isFinal {
      var init := rs[..|rs| - 1];
      assert forall i :: 0 <= i < |init| ==> init[i] == rs[i];
      AllFinalIsAllText(init);
    }
  }

  /** The result pieces this event reports: those from `resultIndex` on. */
  function Reported(results: seq<SpeechResult>, resultIndex: nat): (r: seq<SpeechResult>)
    ensures |r| == if resultIndex <= |results| then |results| - resultIndex else 0
    ensures forall k :: 0 <= k < |r| ==> r[k] == results[resultIndex + k]
  {
    if resultIndex <= |results| then results[resultIndex..] else []
  }

  /** An event of a continuous session reports all of the session's results and
      the index of the first one that changed. Rebuilding the transcript from that
      index alone, as onresult does, drops final text recognized earlier: here
      "buy milk" is final and no longer reported as changed. */
  lemma EarlierFinalTextDropped()
    ensures var results := [SpeechResult("buy milk", true), SpeechResult(" then call mom", false)];
      && Finals(Reported(results, 1)) + Interims(Reported(results, 1)) == " then call mom"
      && SessionTranscript(results) == "buy milk then call mom"
  {
    var results := [SpeechResult("buy milk", true), SpeechResult(" then call mom", false)];
    assert Reported(results, 1) == [results[1]];
    assert [results[1]][..0] == [];
    assert results[..1] == [results[0]] && [results[0]][..0] == [];
  }

  /** The transcript of a whole session: its final text, then its interim text. */
  function SessionTranscript(results: seq<SpeechResult>): string {
    Finals(results) + Interims(results)
  }

  /** The final text contributed by one result. */
  function FinalPiece(r: SpeechResult): string {
    if r.isFinal then r.text else ""
  }

  lemma {:induction false} FinalsConcat(a: seq<SpeechResult>, b: seq<SpeechResult>)
    ensures Finals(a + b) == Finals(a) + Finals(b)
  {
    if b == [] {
      assert a + b == a;
    } else {
      var init, last := b[..|b| - 1], b[|b| - 1];
      var ab := a + b;
      assert ab[..|ab| - 1] == a + init && ab[|ab| - 1] == last;
      calc {
        Finals(ab);
      ==
        Finals(a + init) + FinalPiece(last);
      == { FinalsConcat(a, init); }
        (Finals(a) + Finals(init)) + FinalPiece(last);
      ==
        Finals(a) + (Finals(init) + FinalPiece(last));
      ==
        Finals(a) + Finals(b);
      }
    }
  }

  /** Built from the whole session, text once final is never lost: however many
      results follow, the transcript starts with the final text recognized so far. */
  lemma {:induction false} SessionTranscriptKeepsFinals(results: seq<SpeechResult>, more: seq<SpeechResult>)
    ensures var t := SessionTranscript(results + more);
      |Finals(results)| <= |t| && t[..|Finals(results)|] == Finals(results)
  {
    FinalsConcat(results, more);
    var f, rest := Finals(results), Finals(more) + Interims(results + more);
    calc {
      SessionTranscript(results + more);
    ==
      (f + Finals(more)) + Interims(results + more);
    ==
      f + rest;
    }
    assert (f + rest)[..|f|] == f;
  }

  // ---------------------------------------------------------------------------
  // The countdown

  /** The timer's state update: the value after one second. */
  function CountdownNext(prev: int): (r: int)
    ensures r >= 0
    ensures prev > 0 ==> r < prev
    ensures prev > 1 ==> r == prev - 1
  {
    if prev <= 1 then 0 else prev - 1
  }

  /** The value after `n` seconds, starting from `start`. */
  function CountdownAfter(start: int, n: nat): int {
    if n == 0 then start else CountdownNext(CountdownAfter(start, n - 1))
  }

  /** Starting from 60 the countdown shows 60 - n after n seconds, reaching 0 at
      the sixtieth, and stays at 0 afterwards. */
  lemma {:induction false} CountdownFromSixty(n: nat)
    ensures n <= 60 ==> CountdownAfter(60, n) == 60 - n
    ensures n >= 60 ==> CountdownAfter(60, n) == 0
  {
    if n > 0 {
      CountdownFromSixty(n - 1);
    }
  }

  // ---------------------------------------------------------------------------
  // The component state

  /** VoiceAgent's state. `timerTranscript` is the transcript as it was when the
      current session was started: the countdown and the recognizer's error handler
      close over the `stopListening` of that moment, so they see that value. */
  class Agent {
    var isListening: bool
    var transcript: string
    var isProcessing: bool
    var reviewTasks: seq<ReviewTask>
    var timeLeft: int
    var timerRunning: bool
    var timerTranscript: string
    var requests: seq<Request>

    constructor ()
      ensures !isListening && transcript == "" && !isProcessing && reviewTasks == []
      ensures timeLeft == 0 && !timerRunning && requests == []
    {
      isListening := false;
      transcript := "";
      isProcessing := false;
      reviewTasks := [];
      timeLeft := 0;
      timerRunning := false;
      timerTranscript := "";
      requests := [];
    }

    /** startListening: refused (with a message) while speech recognition is
        unsupported or the API is not ready; otherwise a fresh 60-second session. */
    method StartListening(isSupported: bool, apiReady: bool)
      modifies this
      ensures !(isSupported && apiReady) ==>
        && isListening == old(isListening) && transcript == old(transcript)
        && timeLeft == old(timeLeft) && timerRunning == old(timerRunning)
        && timerTranscript == old(timerTranscript)
      ensures isSupported && apiReady ==>
        && isListening && transcript == "" && timeLeft == 60 && timerRunning
        && timerTranscript == old(transcript)
      ensures isProcessing == old(isProcessing) && reviewTasks == old(reviewTasks) && requests == old(requests)
    {
      if !isSupported || !apiReady {
        return;
      }
      timerTranscript := transcript;
      isListening := true;
      transcript := "";
      timeLeft := 60;
      timerRunning := true;
    }

    /** recognition.onresult: the transcript becomes the final pieces reported by
        this event followed by its interim pieces. */
    method OnResult(results: seq<SpeechResult>, resultIndex: nat)
      modifies `transcript
      ensures transcript == Finals(Reported(results, resultIndex)) + Interims(Reported(results, resultIndex))
      ensures isListening == old(isListening) && isProcessing == old(isProcessing)
      ensures reviewTasks == old(reviewTasks) && timeLeft == old(timeLeft)
      ensures timerRunning == old(timerRunning) && timerTranscript == old(timerTranscript)
      ensures requests == old(requests)
    {
      var finalTranscript := "";
      var interimTranscript := "";
      var i := resultIndex;
      while i < |results|
        invariant resultIndex <= |results| ==> resultIndex <= i <= |results|
        invariant resultIndex <= |results| ==>
          finalTranscript == Finals(results[resultIndex..i]) && interimTranscript == Interims(results[resultIndex..i])
        invariant resultIndex > |results| ==> i == resultIndex && finalTranscript == "" && interimTranscript == ""
        decreases |results| - i
      {
        assert results[resultIndex..i + 1] == results[resultIndex..i] + [results[i]];
        SplitStep(results[resultIndex..i], results[i]);
        var piece := results[i].text;
        if results[i].isFinal {
          finalTranscript := finalTranscript + piece;
        } else {
          interimTranscript := interimTranscript + piece;
        }
        i := i + 1;
      }
      if resultIndex <= |results| {
        assert results[resultIndex..i] == results[resultIndex..];
      }
      transcript := finalTranscript + interimTranscript;
    }

    /** processTranscript as far as the request: a blank transcript does nothing,
        otherwise the trimmed transcript is sent for extraction. */
    method ProcessTranscript(t: string)
      modifies this
      ensures Text.IsBlank(t) ==> isProcessing == old(isProcessing) && requests == old(requests)
      ensures !Text.IsBlank(t) ==> isProcessing && requests == old(requests) + [Extract(Text.Trim(t))]
      ensures isListening == old(isListening) && transcript == old(transcript)
      ensures reviewTasks == old(reviewTasks) && timeLeft == old(timeLeft)
      ensures timerRunning == old(timerRunning) && timerTranscript == old(timerTranscript)
    {
      if Text.IsBlank(t) {
        return;
      }
      isProcessing := true;
      requests := requests + [Extract(Text.Trim(t))];
    }

    /** stopListening as seen through a closure holding transcript `t`. */
    method StopWith(t: string)
      modifies this
      ensures !isListening && timeLeft == 0 && !timerRunning
      ensures Text.IsBlank(t) ==> isProcessing == old(isProcessing) && requests == old(requests)
      ensures !Text.IsBlank(t) ==> isProcessing && requests == old(requests) + [Extract(Text.Trim(t))]
      ensures transcript == old(transcript) && reviewTasks == old(reviewTasks)
      ensures timerTranscript == old(timerTranscript)
    {
      isListening := false;
      timeLeft := 0;
      timerRunning := false;
      if !Text.IsBlank(t) {
        ProcessTranscript(t);
      }
    }

    /** The "Stop Recording" button: stopListening of the current render. */
    method StopListening()
      modifies this
      ensures !isListening && timeLeft == 0 && !timerRunning
      ensures Text.IsBlank(old(transcript)) ==> isProcessing == old(isProcessing) && requests == old(requests)
      ensures !Text.IsBlank(old(transcript)) ==>
        isProcessing && requests == old(requests) + [Extract(Text.Trim(old(transcript)))]
      ensures transcript == old(transcript) && reviewTasks == old(reviewTasks)
      ensures timerTranscript == old(timerTranscript)
    {
      StopWith(transcript);
    }

    /** recognition.onerror: the session's stopListening. */
    method OnRecognitionError()
      modifies this
      ensures !isListening && timeLeft == 0 && !timerRunning
      ensures Text.IsBlank(timerTranscript) ==> isProcessing == old(isProcessing) && requests == old(requests)
      ensures !Text.IsBlank(timerTranscript) ==>
        isProcessing && requests == old(requests) + [Extract(Text.Trim(timerTranscript))]
      ensures transcript == old(transcript) && reviewTasks == old(reviewTasks)
      ensures timerTranscript == old(timerTranscript)
    {
      StopWith(timerTranscript);
    }

    /** One second of the countdown: count down by one, or at 1 or below stop the
        session and show 0. */
    method CountdownTick()
      modifies this
      ensures !old(timerRunning) ==>
        && isListening == old(isListening) && timeLeft == old(timeLeft) && !timerRunning
        && isProcessing == old(isProcessing) && requests == old(requests)
      ensures old(timerRunning) ==> timeLeft == CountdownNext(old(timeLeft))
      ensures old(timerRunning) && old(timeLeft) > 1 ==>
        && timerRunning && isListening == old(isListening)
        && isProcessing == old(isProcessing) && requests == old(requests)
      ensures old(timerRunning) && old(timeLeft) <= 1 ==>
        && !timerRunning && !isListening
        && (Text.IsBlank(timerTranscript) ==> isProcessing == old(isProcessing) && requests == old(requests))
        && (!Text.IsBlank(timerTranscript) ==>
              isProcessing && requests == old(requests) + [Extract(Text.Trim(timerTranscript))])
      ensures transcript == old(transcript) && reviewTasks == old(reviewTasks)
      ensures timerTranscript == old(timerTranscript)
    {
      if !timerRunning {
        return;
      }
      if timeLeft <= 1 {
        StopWith(timerTranscript);
        timeLeft := 0;
      } else {
        timeLeft := timeLeft - 1;
      }
    }

    /** The extraction answered with `extracted` at time `now`: a non-empty answer is
        appended to the queue and clears the transcript; processing ends either way. */
    method OnExtractionResult(extracted: seq<VoiceTask>, now: int)
      modifies this
      ensures !isProcessing
      ensures |extracted| > 0 ==>
        reviewTasks == old(reviewTasks) + NewReviewTasks(extracted, now) && transcript == ""
      ensures |extracted| == 0 ==> reviewTasks == old(reviewTasks) && transcript == old(transcript)
      ensures isListening == old(isListening) && timeLeft == old(timeLeft)
      ensures timerRunning == old(timerRunning) && timerTranscript == old(timerTranscript)
      ensures requests == old(requests)
    {
      if |extracted| > 0 {
        reviewTasks := reviewTasks + NewReviewTasks(extracted, now);
        transcript := "";
      }
      isProcessing := false;
    }

    /** The extraction request failed. */
    method OnExtractionFailed()
      modifies this
      ensures !isProcessing
      ensures isListening == old(isListening) && transcript == old(transcript)
      ensures reviewTasks == old(reviewTasks) && timeLeft == old(timeLeft)
      ensures timerRunning == old(timerRunning) && timerTranscript == old(timerTranscript)
      ensures requests == old(requests)
    {
      isProcessing := false;
    }

    /** handleAddSingleTask. */
    method AddSingleTask(task: ReviewTask)
      modifies `reviewTasks, `requests
      ensures reviewTasks == MarkProcessing(old(reviewTasks), task.id)
      ensures requests == old(requests) + [CreateTask(PayloadOf(task))]
    {
      reviewTasks := MarkProcessing(reviewTasks, task.id);
      requests := requests + [CreateTask(PayloadOf(task))];
    }

    /** The single create succeeded: the task leaves the queue. */
    method OnSingleTaskCreated(task: ReviewTask)
      modifies `reviewTasks
      ensures reviewTasks == RemoveReviewTask(old(reviewTasks), task.id)
    {
      reviewTasks := RemoveReviewTask(reviewTasks, task.id);
    }

    /** handleCreateApprovedTasks: without an approved task nothing is sent;
        otherwise one create request per approved task, in queue order. */
    method CreateApprovedTasks()
      modifies `requests
      ensures |ApprovedTasks(reviewTasks)| == 0 ==> requests == old(requests)
      ensures |ApprovedTasks(reviewTasks)| > 0 ==>
        requests == old(requests) + CreateRequests(ApprovedTasks(reviewTasks))
    {
      var approvedTasks := ApprovedTasks(reviewTasks);
      if |approvedTasks| > 0 {
        requests := requests + CreateRequests(approvedTasks);
      }
    }

    /** The batch create succeeded: the queue is emptied. */
    method OnBatchCreated()
      modifies `reviewTasks
      ensures reviewTasks == []
    {
      reviewTasks := [];
    }

    method OnToggle(id: string)
      modifies `reviewTasks
      ensures reviewTasks == ToggleApproval(old(reviewTasks), id)
    {
      reviewTasks := ToggleApproval(reviewTasks, id);
    }

    method OnRemove(id: string)
      modifies `reviewTasks
      ensures reviewTasks == RemoveReviewTask(old(reviewTasks), id)
    {
      reviewTasks := RemoveReviewTask(reviewTasks, id);
    }

    method OnEdit(id: string, e: FieldEdit)
      modifies `reviewTasks
      ensures reviewTasks == EditReviewTask(old(reviewTasks), id, e)
    {
      reviewTasks := EditReviewTask(reviewTasks, id, e);
    }
  }

  /** Adding a single task, then its successful creation, takes exactly that task
      out of the queue and leaves the others as they were, in order. */
  lemma AddSingleThenCreatedRemoves(a: seq<ReviewTask>, t: ReviewTask, b: seq<ReviewTask>)
    requires forall i :: 0 <= i < |a| ==> a[i].id != t.id
    requires forall i :: 0 <= i < |b| ==> b[i].id != t.id
    ensures RemoveReviewTask(MarkProcessing(a + [t] + b, t.id), t.id) == a + b
  {
    var marked := t.(isApproved := true, isProcessing := true);
    MarkOnlyInserted(a, t, b);
    RemoveInserted(a, marked, b);
  }

  /** Marking the inserted task's id marks that task alone. */
  lemma MarkOnlyInserted(a: seq<ReviewTask>, t: ReviewTask, b: seq<ReviewTask>)
    requires forall i :: 0 <= i < |a| ==> a[i].id != t.id
    requires forall i :: 0 <= i < |b| ==> b[i].id != t.id
    ensures MarkProcessing(a + [t] + b, t.id) == a + [t.(isApproved := true, isProcessing := true)] + b
  {
    var q := a + [t] + b;
    var m := MarkProcessing(q, t.id);
    var r := a + [t.(isApproved := true, isProcessing := true)] + b;
    forall i | 0 <= i < |q| ensures m[i] == r[i] {
      if i < |a| {
        assert q[i] == a[i] && r[i] == a[i];
      } else if i > |a| {
        assert q[i] == b[i - |a| - 1] && r[i] == b[i - |a| - 1];
      }
    }
  }

  /** Removing the id of a task inserted between two lists without it gives the two lists. */
  lemma RemoveInserted(a: seq<ReviewTask>, t: ReviewTask, b: seq<ReviewTask>)
    requires forall i :: 0 <= i < |a| ==> a[i].id != t.id
    requires forall i :: 0 <= i < |b| ==> b[i].id != t.id
    ensures RemoveReviewTask(a + [t] + b, t.id) == a + b
  {
    var id := t.id;
    calc {
      RemoveReviewTask(a + [t] + b, id);
    == { RemoveReviewTaskConcat(a + [t], b, id); }
      RemoveReviewTask(a + [t], id) + RemoveReviewTask(b, id);
    == { RemoveReviewTaskConcat(a, [t], id); }
      RemoveReviewTask(a, id) + RemoveReviewTask([t], id) + RemoveReviewTask(b, id);
    == { assert RemoveReviewTask([t], id) == []; RemoveAbsentReviewTask(a, id); RemoveAbsentReviewTask(b, id); }
      a + [] + b;
    == { assert a + [] == a; }
      a + b;
    }
  }

  /** The batch sends only approved tasks, and all of them. */
  lemma BatchSendsExactlyApproved(tasks: seq<ReviewTask>)
    ensures var sent := ApprovedTasks(tasks);
      && (forall t :: t in sent ==> t.isApproved && t in tasks)
      && (forall t :: t in tasks && t.isApproved ==> t in sent)
      && (|sent| == 0 <==> forall i :: 0 <= i < |tasks| ==> !tasks[i].isApproved)
  {
    var sent := ApprovedTasks(tasks);
    if |sent| == 0 {
      forall i | 0 <= i < |tasks| ensures !tasks[i].isApproved {
        assert tasks[i] in tasks;
      }
    } else {
      assert sent[0] in sent;
    }
  }

  /** The batch keeps queue order: for a queue split anywhere, the requests are
      those for the approved tasks of the first part, then those of the second. */
  lemma BatchKeepsQueueOrder(a: seq<ReviewTask>, b: seq<ReviewTask>)
    ensures CreateRequests(ApprovedTasks(a + b)) == CreateRequests(ApprovedTasks(a)) + CreateRequests(ApprovedTasks(b))
  {
    ApprovedTasksKeepsOrder(a, b);
    CreateRequestsConcat(ApprovedTasks(a), ApprovedTasks(b));
  }
}
