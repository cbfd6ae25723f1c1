/**
 * The scripted phone call that both the day's outlook and the volunteer
 * workspace simulate (src/pages/Dashboard/TodaysOutlook.tsx,
 * src/pages/Workspace/Workspace.tsx): a session record, the transcript that
 * replays a fixed script one line per tick, and the `MM:SS` call timer.
 *
 * Clock readings are inputs in milliseconds; the wall-clock time stamped on a
 * transcript line is an input string.
 */
module Calls {
  import opened Wrappers
  import opened JsText

  datatype ScriptLine = ScriptLine(speaker: string, text: string)

  datatype TranscriptEntry = TranscriptEntry(speaker: string, text: string, time: string)

  datatype CallSession = CallSession(
    taskId: string,
    donorName: string,
    donorPhone: string,
    campaign: string,
    startTime: int,
    isMuted: bool,
    transcript: seq<TranscriptEntry>)

  /** The number every simulated call dials. */
  const DialledPhone := "(555) 123-4567"

  const NamePlaceholder := "{name}"

  /**
   * `text.replace('{name}', donorName)`: the first placeholder becomes the
   * donor's name, with the name's `$` patterns substituted as `replace` does.
   */
  function Personalize(text: string, donorName: string): (spoken: string)
    ensures !Includes(text, NamePlaceholder) ==> spoken == text
  {
    ReplaceFirstAbsentWhen(text, NamePlaceholder, donorName);
    ReplaceFirst(text, NamePlaceholder, donorName)
  }

  lemma ReplaceFirstAbsentWhen(text: string, pattern: string, replacement: string)
    ensures !Includes(text, pattern) ==> ReplaceFirst(text, pattern, replacement) == text
  {
    if !Includes(text, pattern) {
      ReplaceFirstAbsent(text, pattern, replacement);
    }
  }

  /**
   * In a line `before + "{name}" + after` where `before` has no opening
   * brace, the placeholder is replaced by the name and the rest, including
   * any later placeholder, is kept. A name without `$` goes in as written;
   * `$&` in a name would put back "{name}", `` $` `` and `$'` the text around it.
   */
  lemma PersonalizeFirstPlaceholder(before: string, after: string, donorName: string)
    requires '{' !in before
    ensures Personalize(before + NamePlaceholder + after, donorName)
            == before + Substitution(donorName, NamePlaceholder, before, after) + after
    ensures '$' !in donorName ==>
              Personalize(before + NamePlaceholder + after, donorName) == before + donorName + after
  {
    ReplaceFirstOccurrence(before, NamePlaceholder, after, donorName);
  }

  /** The transcript entry for script line `index`, stamped with `time`. */
  function ScriptEntry(script: seq<ScriptLine>, index: nat, donorName: string, time: string): (e: TranscriptEntry)
    requires index < |script|
    ensures e.speaker == script[index].speaker && e.time == time
    ensures e.text == Personalize(script[index].text, donorName)
  {
    TranscriptEntry(script[index].speaker, Personalize(script[index].text, donorName), time)
  }

  /**
   * The transcript is the first lines of the script, in order, each with its
   * name placeholder filled in; it is never longer than the script.
   */
  predicate FollowsScript(transcript: seq<TranscriptEntry>, script: seq<ScriptLine>, donorName: string) {
    |transcript| <= |script|
    && forall i :: 0 <= i < |transcript| ==>
         transcript[i].speaker == script[i].speaker && transcript[i].text == Personalize(script[i].text, donorName)
  }

  /** One tick appends the next script line; the transcript keeps following the script. */
  lemma FollowsScriptStep(transcript: seq<TranscriptEntry>, script: seq<ScriptLine>, donorName: string, time: string)
    requires FollowsScript(transcript, script, donorName) && |transcript| < |script|
    ensures FollowsScript(transcript + [ScriptEntry(script, |transcript|, donorName, time)], script, donorName)
  {
  }

  /**
   * What the pages keep about a call: with no call the script index is back
   * at 0; during a call the transcript has one entry per script line played
   * so far, following the script.
   */
  predicate CallState(call: Option<CallSession>, index: nat, script: seq<ScriptLine>) {
    match call
    case None => index == 0
    case Some(c) => |c.transcript| == index && FollowsScript(c.transcript, script, c.donorName)
  }

  /**
   * The interval tick of a call that is neither absent nor muted: while the
   * script has lines left, the next one is appended, personalised, and the
   * index moves on; at the end of the script nothing changes.
   */
  function Tick(call: Option<CallSession>, index: nat, muted: bool, script: seq<ScriptLine>, time: string)
    : (next: (Option<CallSession>, nat))
    requires CallState(call, index, script)
    ensures CallState(next.0, next.1, script)
    ensures call.None? || muted || index >= |script| ==> next == (call, index)
    ensures call.Some? && !muted && index < |script| ==>
      next.1 == index + 1
      && next.0 == Some(call.value.(transcript := call.value.transcript + [ScriptEntry(script, index, call.value.donorName, time)]))
  {
    if call.None? || muted || index >= |script| then (call, index)
    else
      FollowsScriptStep(call.value.transcript, script, call.value.donorName, time);
      (Some(call.value.(transcript := call.value.transcript + [ScriptEntry(script, index, call.value.donorName, time)])), index + 1)
  }

  // ---------------------------------------------------------------------------
  // The call timer

  /** `a % b` in JavaScript: the remainder takes the sign of `a`. */
  function JsRemainder(a: int, b: int): (r: int)
    requires b > 0
    ensures a >= 0 ==> 0 <= r < b && r == a % b
    ensures a < 0 ==> -b < r <= 0 && r == -((-a) % b)
  {
    if a >= 0 then a % b else -((-a) % b)
  }

  /** `n.toString().padStart(2, '0')`. */
  function TwoDigits(n: int): string {
    PadStart(IntToString(n), 2, '0')
  }

  /** A non-negative number shows as at least two digits that read back as the number. */
  lemma {:induction false} TwoDigitsValue(n: nat)
    ensures |TwoDigits(n)| >= 2 && (n < 100 ==> |TwoDigits(n)| == 2)
    ensures forall i :: 0 <= i < |TwoDigits(n)| ==> IsDigit(TwoDigits(n)[i])
    ensures DigitsValue(TwoDigits(n)) == n
  {
    var s := NatToString(n);
    assert TwoDigits(n) == PadStart(s, 2, '0');
    PadDigits(s, 2);
    NatToStringRoundTrip(n);
    if n < 100 {
      TwoDigitNumber(n);
    }
  }

  /** A number below 100 has at most two decimal digits. */
  lemma TwoDigitNumber(n: nat)
    requires n < 100
    ensures |NatToString(n)| <= 2
  {
    if n >= 10 {
      assert |NatToString(n / 10)| == 1;
    }
  }

  /** Padding a string of digits with zeros keeps it a string of digits with the same value. */
  lemma PadDigits(s: string, width: nat)
    requires forall i :: 0 <= i < |s| ==> IsDigit(s[i])
    ensures var r := PadStart(s, width, '0');
      (forall i :: 0 <= i < |r| ==> IsDigit(r[i])) && DigitsValue(r) == DigitsValue(s)
  {
    var r := PadStart(s, width, '0');
    var zeros := r[..|r| - |s|];
    assert r == zeros + s;
    LeadingZerosValue(zeros, s);
  }

  /** Whole seconds as `MM:SS`: minutes by floor division, seconds by the JavaScript remainder. */
  function FormatElapsed(elapsed: int): string {
    TwoDigits(elapsed / 60) + ":" + TwoDigits(JsRemainder(elapsed, 60))
  }

  /** `getElapsedTime`: the time since the call started, or "00:00" with no call. */
  function ElapsedTime(call: Option<CallSession>, nowMs: int): (shown: string)
    ensures call.None? ==> shown == "00:00"
  {
    match call
    case None => "00:00"
    case Some(c) => FormatElapsed(ElapsedSeconds(c, nowMs))
  }

  /** The elapsed whole seconds, `Math.floor` of the milliseconds over 1000 (floor division, also for a clock behind the start). */
  function ElapsedSeconds(c: CallSession, nowMs: int): (e: int)
    ensures nowMs >= c.startTime ==> e >= 0 && e * 1000 <= nowMs - c.startTime < (e + 1) * 1000
  {
    (nowMs - c.startTime) / 1000
  }

  /**
   * `shown` reads as `MM:SS`: at least two digits of minutes, a colon and
   * exactly two digits of seconds, whose values are `m` and `sec`.
   */
  predicate ShowsTime(shown: string, m: nat, sec: nat) {
    |shown| >= 5 && shown[|shown| - 3] == ':'
    && (forall i :: 0 <= i < |shown| - 3 ==> IsDigit(shown[i]))
    && (forall i :: |shown| - 2 <= i < |shown| ==> IsDigit(shown[i]))
    && DigitsValue(shown[..|shown| - 3]) == m
    && DigitsValue(shown[|shown| - 2..]) == sec
  }

  /**
   * For a non-negative number of seconds the timer shows whole minutes and
   * the seconds below 60, so reading it back gives the seconds again.
   */
  lemma FormatElapsedRoundTrip(elapsed: nat)
    ensures ShowsTime(FormatElapsed(elapsed), elapsed / 60, elapsed % 60)
    ensures elapsed % 60 < 60 && (elapsed / 60) * 60 + elapsed % 60 == elapsed
  {
    var m, sec := elapsed / 60, elapsed % 60;
    TwoDigitsValue(m);
    TwoDigitsValue(sec);
    ColonSplit(TwoDigits(m), TwoDigits(sec), m, sec);
    assert FormatElapsed(elapsed) == TwoDigits(m) + ":" + TwoDigits(sec);
  }

  /**
   * During a call that started at or before `nowMs`, the timer shows the
   * whole seconds since the start as minutes and seconds.
   */
  lemma ElapsedTimeRunning(c: CallSession, nowMs: int)
    requires nowMs >= c.startTime
    ensures var e := ElapsedSeconds(c, nowMs);
      e >= 0 && ShowsTime(ElapsedTime(Some(c), nowMs), e / 60, e % 60)
  {
    var e: nat := ElapsedSeconds(c, nowMs);
    FormatElapsedRoundTrip(e);
  }

  /** Two digit strings joined by a colon read back as the two values. */
  lemma ColonSplit(a: string, b: string, m: nat, sec: nat)
    requires |a| >= 2 && |b| == 2
    requires forall i :: 0 <= i < |a| ==> IsDigit(a[i])
    requires forall i :: 0 <= i < |b| ==> IsDigit(b[i])
    requires DigitsValue(a) == m && DigitsValue(b) == sec
    ensures ShowsTime(a + ":" + b, m, sec)
  {
    var s := a + ":" + b;
    assert s[..|s| - 3] == a;
    assert s[|s| - 2..] == b;
  }
}
