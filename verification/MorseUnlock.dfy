/** firmware/factory_badge/main/morse_unlock.h: recognizing the seven symbols of "init" on two
    inputs, whatever the pauses between them and whenever they are polled. */
module Morse {
  import opened Wrappers

  const WORD := 0x1_0000_0000
  const DASH_THRESHOLD := 400
  const LETTER_THRESHOLD := 400
  const WORD_GAP := 1400
  const RESET_GAP := 2500
  const CAPACITY := 32

  type Millis = t: int | 0 <= t < WORD

  /** Held inputs as bits: 1 for the first, 2 for the second. */
  type Held = h: int | 0 <= h < 4

  datatype Sample = Sample(held: Held, now: Millis, enabled: bool)

  datatype Unlock = Unlock(
    owner: Held, pressed: bool, waiting: bool, rejected: bool, letterOpen: bool, wordOpen: bool,
    pressedAt: Millis, releasedAt: Millis, index: nat, input: string, restarts: Millis)

  const FRESH := Unlock(0, false, false, false, false, false, 0, 0, 0, "", 0)

  function Sequence(): (s: string)
    ensures |s| == 7
  {
    "..-...-"
  }

  /** Time elapsed on a clock that wraps. */
  function Since(now: Millis, before: Millis): Millis { (now - before) % WORD }

  function Symbol(duration: Millis): char { if duration < DASH_THRESHOLD then '.' else '-' }

  // ---------------------------------------------------------------- update

  function Cleared(u: Unlock): Unlock {
    u.(owner := 0, index := 0, input := "", pressed := false, rejected := false, letterOpen := false, wordOpen := false)
  }

  function Reset(u: Unlock, held: Held): Unlock { Cleared(u).(waiting := held != 0) }

  function Begin(u: Unlock, held: Held, now: Millis): Unlock {
    u.(owner := held, pressedAt := now, pressed := true, rejected := held == 3)
  }

  function Append(u: Unlock, c: char): Unlock {
    if |u.input| == CAPACITY then u.(rejected := true) else u.(input := u.input + [c])
  }

  /** The end of a press: one more symbol, shown and compared. */
  function Released(u: Unlock, now: Millis): (Unlock, bool) {
    var c := Symbol(Since(now, u.pressedAt));
    var shown := Append(u.(pressed := false, releasedAt := now), c).(letterOpen := true, wordOpen := true);
    if shown.rejected || shown.index >= 7 then (shown, false)
    else if Sequence()[shown.index] != c then (shown.(rejected := true), false)
    else if shown.index + 1 == 7 then (Reset(shown, 0), true)
    else (shown.(index := shown.index + 1), false)
  }

  /** A sample between presses: the gap shows as spaces, and may end in a new press. */
  function Between(u: Unlock, held: Held, now: Millis): Unlock {
    var gap := Since(now, u.releasedAt);
    var letter := if u.letterOpen && gap >= LETTER_THRESHOLD then Append(u, ' ').(letterOpen := false) else u;
    var word := if letter.wordOpen && gap >= WORD_GAP then Append(letter, ' ').(wordOpen := false) else letter;
    if held != 0 then word.(pressed := true, pressedAt := now) else word
  }

  predicate Restarts(u: Unlock, now: Millis) {
    !u.pressed && u.rejected && Since(now, u.releasedAt) >= RESET_GAP
  }

  function Restarted(u: Unlock, s: Sample): Unlock {
    var clear := Cleared(u).(restarts := (u.restarts + 1) % WORD);
    if s.held != 0 then Begin(clear, s.held, s.now) else clear
  }

  function During(u: Unlock, s: Sample): (Unlock, bool) {
    var v := if s.held != 0 && s.held != u.owner then u.(rejected := true) else u;
    if v.pressed then if s.held != 0 then (v, false) else Released(v, s.now)
    else (Between(v, s.held, s.now), false)
  }

  function Updated(u: Unlock, s: Sample): (Unlock, bool) {
    if !s.enabled then (Reset(u, s.held), false)
    else if u.waiting then (if s.held == 0 then u.(waiting := false) else u, false)
    else if u.owner == 0 then (if s.held != 0 then Begin(u, s.held, s.now) else u, false)
    else if Restarts(u, s.now) then (Restarted(u, s), false)
    else During(u, s)
  }

  function Run(samples: seq<Sample>): Unlock {
    if |samples| == 0 then FRESH else Updated(Run(samples[..|samples| - 1]), samples[|samples| - 1]).0
  }

  // ---------------------------------------------------------------- what the samples say

  /** Both inputs were let go at some point with no disabled sample since, or none was ever disabled. */
  ghost predicate Armed(samples: seq<Sample>) {
    || (forall i | 0 <= i < |samples| :: samples[i].enabled)
    || exists i :: LetGo(samples, i)
  }

  ghost predicate LetGo(samples: seq<Sample>, i: int) {
    0 <= i < |samples| && samples[i].held == 0 && forall j | i < j < |samples| :: samples[j].enabled
  }

  /** The presses of an attempt read off its samples: is a press open, since when, and the symbols of
      the presses completed, the last of them at `until`.  No buffer and no comparison is involved. */
  datatype Reading = Reading(open: bool, since: Millis, until: Millis, symbols: string)

  function Read(attempt: seq<Sample>): Reading
    requires |attempt| > 0
  {
    var s := attempt[|attempt| - 1];
    if |attempt| == 1 then Reading(true, s.now, 0, "") else ReadOn(Read(attempt[..|attempt| - 1]), s)
  }

  function ReadOn(r: Reading, s: Sample): Reading {
    if r.open then if s.held != 0 then r else Reading(false, r.since, s.now, r.symbols + [Symbol(Since(s.now, r.since))])
    else if s.held != 0 then r.(open := true, since := s.now)
    else r
  }

  /** Another input, or both at once, during the attempt. */
  predicate Conflicted(attempt: seq<Sample>) {
    |attempt| > 0 && (attempt[0].held == 3 || exists i :: 0 <= i < |attempt| && attempt[i].held != 0 && attempt[i].held != attempt[0].held)
  }

  predicate Correct(symbols: string) { symbols <= Sequence() }

  predicate Wrong(attempt: seq<Sample>)
    requires |attempt| > 0
  {
    Conflicted(attempt) || !Correct(Read(attempt).symbols)
  }

  predicate Complete(attempt: seq<Sample>)
    requires |attempt| > 0
  {
    !Conflicted(attempt) && Read(attempt).symbols == Sequence()
  }

  /** A wrong attempt is given up on the first sample that finds it released for 2.5 seconds. */
  predicate GivenUp(attempt: seq<Sample>, s: Sample)
    requires |attempt| > 0
  {
    Wrong(attempt) && !Read(attempt).open && Since(s.now, Read(attempt).until) >= 2500
  }

  /** Where the attempt under way began, from the samples alone.  The machine is not consulted. */
  ghost function Start(samples: seq<Sample>): (b: Option<nat>)
    ensures b.Some? ==> b.value < |samples|
  {
    if |samples| == 0 then None
    else
      var before, s := samples[..|samples| - 1], samples[|samples| - 1];
      if !s.enabled then None
      else if Start(before).None? then if s.held != 0 && Armed(before) then Some(|before|) else None
      else if GivenUp(before[Start(before).value..], s) then if s.held != 0 then Some(|before|) else None
      else if Complete(before[Start(before).value..] + [s]) then None
      else Start(before)
  }

  function WithoutSpaces(s: string): string {
    if |s| == 0 then ""
    else if s[|s| - 1] == ' ' then WithoutSpaces(s[..|s| - 1])
    else WithoutSpaces(s[..|s| - 1]) + [s[|s| - 1]]
  }

  function One(b: bool): nat { if b then 1 else 0 }

  /** The state kept by update is a reading of the samples since the attempt began.  Each symbol takes
      at most three places of the buffer, so a correct prefix takes at most nineteen. */
  ghost predicate Describes(u: Unlock, attempt: seq<Sample>) {
    && |attempt| > 0 && u.owner == attempt[0].held != 0 && !u.waiting
    && (forall i | 0 <= i < |attempt| :: attempt[i].enabled)
    && u.pressed == Read(attempt).open && (u.pressed ==> u.pressedAt == Read(attempt).since)
    && (!u.pressed ==> u.releasedAt == Read(attempt).until)
    && u.rejected == Wrong(attempt)
    && |u.input| <= CAPACITY
    && (!u.rejected ==>
          && u.index == |Read(attempt).symbols| < 7
          && WithoutSpaces(u.input) == Read(attempt).symbols
          && |u.input| + One(u.letterOpen) + One(u.wordOpen) <= 3 * |Read(attempt).symbols|)
  }

  ghost predicate Inv(samples: seq<Sample>) {
    var u := Run(samples);
    && (u.waiting <==> !Armed(samples))
    && (Start(samples).Some? <==> u.owner != 0)
    && (Start(samples).Some? ==> Describes(u, samples[Start(samples).value..]))
    && (u.owner == 0 ==> u == Cleared(u))
  }

  lemma CorrectNext(symbols: string, c: char)
    requires Correct(symbols)
    ensures Correct(symbols + [c]) <==> |symbols| < 7 && Sequence()[|symbols|] == c
  {
  }

  lemma IncorrectStays(symbols: string, c: char)
    requires !Correct(symbols)
    ensures !Correct(symbols + [c])
  {
    assert (symbols + [c])[..|symbols|] == symbols;
  }

  lemma Last(attempt: seq<Sample>, s: Sample)
    requires |attempt| > 0
    ensures (attempt + [s])[..|attempt|] == attempt
    ensures Conflicted(attempt + [s]) <==> Conflicted(attempt) || (s.held != 0 && s.held != attempt[0].held)
  {
    var all := attempt + [s];
    assert all[|attempt|] == s;
    assert forall i | 0 <= i < |attempt| :: all[i] == attempt[i];
  }

  lemma SpaceAdds(u: Unlock)
    requires |u.input| < CAPACITY
    ensures WithoutSpaces(Append(u, ' ').input) == WithoutSpaces(u.input)
  {
    assert (u.input + [' '])[..|u.input|] == u.input;
  }

  lemma BetweenInput(u: Unlock, held: Held, now: Millis)
    requires !u.pressed && |u.input| <= CAPACITY
    ensures var v := Between(u, held, now);
            && v.owner == u.owner && v.index == u.index && v.waiting == u.waiting && v.restarts == u.restarts
            && v.pressed == (held != 0) && (v.pressed ==> v.pressedAt == now) && v.releasedAt == u.releasedAt
            && |v.input| <= CAPACITY && (u.rejected ==> v.rejected)
            && (|u.input| + 2 <= CAPACITY ==>
                  && v.rejected == u.rejected && WithoutSpaces(v.input) == WithoutSpaces(u.input)
                  && |v.input| + One(v.letterOpen) + One(v.wordOpen) == |u.input| + One(u.letterOpen) + One(u.wordOpen))
  {
    if |u.input| < CAPACITY {
      SpaceAdds(u);
      var letter := Append(u, ' ').(letterOpen := false);
      if |letter.input| < CAPACITY { SpaceAdds(letter); }
    }
  }

  /** The reading after one more sample. */
  lemma ReadNext(attempt: seq<Sample>, s: Sample)
    requires |attempt| > 0
    ensures Read(attempt + [s]) == ReadOn(Read(attempt), s)
  {
    Last(attempt, s);
  }

  /** The conflict check at the head of the sample. */
  function Checked(u: Unlock, s: Sample): Unlock {
    if s.held != 0 && s.held != u.owner then u.(rejected := true) else u
  }

  lemma BetweenKeeps(u: Unlock, attempt: seq<Sample>, s: Sample)
    requires Describes(u, attempt) && !u.pressed && s.enabled
    ensures Describes(Between(Checked(u, s), s.held, s.now), attempt + [s])
  {
    Last(attempt, s);
    ReadNext(attempt, s);
    BetweenInput(Checked(u, s), s.held, s.now);
    assert (attempt + [s])[0] == attempt[0];
  }

  lemma HeldKeeps(u: Unlock, attempt: seq<Sample>, s: Sample)
    requires Describes(u, attempt) && u.pressed && s.enabled && s.held != 0
    ensures Describes(Checked(u, s), attempt + [s])
  {
    Last(attempt, s);
    ReadNext(attempt, s);
    assert (attempt + [s])[0] == attempt[0];
  }

  lemma SymbolShows(input: string, c: char)
    requires c != ' '
    ensures WithoutSpaces(input + [c]) == WithoutSpaces(input) + [c]
  {
    assert (input + [c])[..|input|] == input;
  }

  /** The release of a press: unlocked exactly when the seventh correct symbol is complete. */
  lemma ReleaseKeeps(u: Unlock, attempt: seq<Sample>, s: Sample)
    requires Describes(u, attempt) && u.pressed && s.enabled && s.held == 0
    ensures var (v, open) := Released(u, s.now);
            && (open <==> Complete(attempt + [s]))
            && (!open ==> Describes(v, attempt + [s]))
            && (open ==> v == Cleared(v) && v.owner == 0)
  {
    Last(attempt, s);
    ReadNext(attempt, s);
    assert (attempt + [s])[0] == attempt[0];
    var symbols, c := Read(attempt).symbols, Symbol(Since(s.now, u.pressedAt));
    if Correct(symbols) { CorrectNext(symbols, c); } else { IncorrectStays(symbols, c); }
    SymbolShows(u.input, c);
  }

  lemma BeginDescribes(u: Unlock, s: Sample)
    requires u == Cleared(u) && !u.waiting && s.enabled && s.held != 0
    ensures Describes(Begin(u, s.held, s.now), [s])
  {
  }

  lemma DuringKeeps(u: Unlock, attempt: seq<Sample>, s: Sample)
    requires Describes(u, attempt) && s.enabled
    ensures var (v, open) := During(u, s);
            && (open <==> Complete(attempt + [s]))
            && (!open ==> Describes(v, attempt + [s]))
            && (open ==> v == Cleared(v) && v.owner == 0)
  {
    if u.pressed && s.held == 0 {
      ReleaseKeeps(u, attempt, s);
    } else {
      if u.pressed { HeldKeeps(u, attempt, s); } else { BetweenKeeps(u, attempt, s); }
      NoReleaseNoUnlock(u, attempt, s);
    }
  }

  lemma NoReleaseNoUnlock(u: Unlock, attempt: seq<Sample>, s: Sample)
    requires Describes(u, attempt) && !(u.pressed && s.held == 0)
    ensures !Complete(attempt + [s])
  {
    Last(attempt, s);
    ReadNext(attempt, s);
  }

  lemma ArmedNext(samples: seq<Sample>, s: Sample)
    ensures Armed(samples + [s]) <==> s.held == 0 || (s.enabled && Armed(samples))
  {
    var all := samples + [s];
    assert all[|samples|] == s;
    assert forall i | 0 <= i < |samples| :: all[i] == samples[i];
    if s.held == 0 {
      assert LetGo(all, |samples|);
    } else if s.enabled && exists i :: LetGo(samples, i) {
      var i :| LetGo(samples, i);
      assert LetGo(all, i);
    } else {
      forall i | LetGo(all, i)
        ensures s.enabled && LetGo(samples, i)
      {
      }
    }
  }

  lemma StartNext(samples: seq<Sample>, s: Sample)
    ensures Run(samples + [s]) == Updated(Run(samples), s).0
    ensures Start(samples + [s]) ==
              if !s.enabled then None
              else if Start(samples).None? then if s.held != 0 && Armed(samples) then Some(|samples|) else None
              else if GivenUp(samples[Start(samples).value..], s) then if s.held != 0 then Some(|samples|) else None
              else if Complete(samples[Start(samples).value..] + [s]) then None
              else Start(samples)
  {
    assert (samples + [s])[..|samples|] == samples;
  }

  /** Giving up is what the machine calls a restart. */
  lemma RestartsIffGivenUp(u: Unlock, attempt: seq<Sample>, s: Sample)
    requires Describes(u, attempt)
    ensures Restarts(u, s.now) <==> GivenUp(attempt, s)
  {
  }

  lemma NextKeeps(samples: seq<Sample>, s: Sample)
    requires Inv(samples)
    ensures Inv(samples + [s])
  {
    var u, all := Run(samples), samples + [s];
    StartNext(samples, s);
    ArmedNext(samples, s);
    assert all[|samples|..] == [s];
    if s.enabled {
      if u.owner == 0 {
        if s.held != 0 && !u.waiting { BeginDescribes(u, s); }
      } else {
        AttemptKeeps(samples, s);
      }
    }
  }

  lemma AttemptKeeps(samples: seq<Sample>, s: Sample)
    requires Inv(samples) && s.enabled && Start(samples).Some?
    ensures var v := Updated(Run(samples), s).0;
            && !v.waiting
            && (Start(samples + [s]).Some? <==> v.owner != 0)
            && (Start(samples + [s]).Some? ==> Describes(v, (samples + [s])[Start(samples + [s]).value..]))
            && (v.owner == 0 ==> v == Cleared(v))
  {
    var u, all, b := Run(samples), samples + [s], Start(samples).value;
    StartNext(samples, s);
    RestartsIffGivenUp(u, samples[b..], s);
    if Restarts(u, s.now) {
      assert all[|samples|..] == [s];
      if s.held != 0 { BeginDescribes(Cleared(u).(restarts := (u.restarts + 1) % WORD), s); }
    } else {
      assert all[b..] == samples[b..] + [s];
      DuringKeeps(u, samples[b..], s);
    }
  }

  lemma {:induction false} RunKeeps(samples: seq<Sample>)
    ensures Inv(samples)
  {
    if |samples| > 0 {
      RunKeeps(samples[..|samples| - 1]);
      NextKeeps(samples[..|samples| - 1], samples[|samples| - 1]);
      assert samples == samples[..|samples| - 1] + [samples[|samples| - 1]];
    }
  }

  // ---------------------------------------------------------------- what holds for every run

  /** The badge unlocks on a sample exactly when the attempt it belongs to, found and read from the
      samples alone, has the seven symbols of the sequence and no conflicting input; pauses and poll
      times play no other part. */
  lemma UnlocksExactly(samples: seq<Sample>, s: Sample)
    ensures Updated(Run(samples), s).1 <==>
              && s.enabled && Start(samples).Some?
              && Complete(samples[Start(samples).value..] + [s])
  {
    var u := Run(samples);
    RunKeeps(samples);
    if Start(samples).Some? && s.enabled {
      var attempt := samples[Start(samples).value..];
      RestartsIffGivenUp(u, attempt, s);
      if Restarts(u, s.now) {
        Last(attempt, s);
        ReadNext(attempt, s);
      } else {
        DuringKeeps(u, attempt, s);
      }
    }
  }

  /** No correct prefix is ever rejected, by the buffer or by a pause: while the symbols so far are
      right and no other input was touched, the attempt goes on, with at most eighteen of the
      thirty-two places used, and shows exactly its symbols between spaces. */
  lemma CorrectPrefixSurvives(samples: seq<Sample>)
    requires Start(samples).Some? && !Wrong(samples[Start(samples).value..])
    ensures var u := Run(samples);
            && !u.rejected && |u.input| <= 18
            && WithoutSpaces(u.input) == Read(samples[Start(samples).value..]).symbols
    ensures forall s: Sample | s.enabled && !Updated(Run(samples), s).1 :: Start(samples + [s]) == Start(samples)
  {
    var u := Run(samples);
    RunKeeps(samples);
    forall s: Sample | s.enabled && !Updated(u, s).1
      ensures Start(samples + [s]) == Start(samples)
    {
      StartNext(samples, s);
      UnlocksExactly(samples, s);
    }
  }

  lemma WrongStays(attempt: seq<Sample>, s: Sample)
    requires |attempt| > 0 && Wrong(attempt)
    ensures Wrong(attempt + [s]) && !Complete(attempt + [s])
  {
    Last(attempt, s);
    ReadNext(attempt, s);
    var r := Read(attempt);
    if !Correct(r.symbols) && r.open && s.held == 0 {
      IncorrectStays(r.symbols, Symbol(Since(s.now, r.since)));
    }
  }

  /** None of these further samples is disabled, and none finds the attempt released for 2.5 seconds. */
  predicate Unbroken(attempt: seq<Sample>, more: seq<Sample>)
    requires |attempt| > 0
  {
    forall k | 0 <= k < |more| :: more[k].enabled && !ReleasedFor(attempt + more[..k], more[k], 2500)
  }

  predicate ReleasedFor(attempt: seq<Sample>, s: Sample, time: int)
    requires |attempt| > 0
  {
    !Read(attempt).open && Since(s.now, Read(attempt).until) >= time
  }

  /** The attempt that began at b is under way, and wrong. */
  ghost predicate Stuck(samples: seq<Sample>, b: nat) {
    b < |samples| && Start(samples) == Some(b) && Wrong(samples[b..])
  }

  lemma WrongStep(samples: seq<Sample>, b: nat, s: Sample)
    requires Stuck(samples, b) && s.enabled && !ReleasedFor(samples[b..], s, 2500)
    ensures Stuck(samples + [s], b)
  {
    assert (samples + [s])[b..] == samples[b..] + [s];
    WrongStays(samples[b..], s);
    StartNext(samples, s);
  }

  lemma {:induction false} WrongLasts(samples: seq<Sample>, b: nat, more: seq<Sample>)
    requires Stuck(samples, b) && Unbroken(samples[b..], more)
    ensures Stuck(samples + more, b)
    decreases |more|
  {
    if |more| == 0 {
      assert samples + more == samples;
    } else {
      var m := |more| - 1;
      UnbrokenBefore(samples[b..], more);
      WrongLasts(samples, b, more[..m]);
      LastOfMore(samples, b, more);
      WrongStep(samples + more[..m], b, more[m]);
    }
  }

  lemma LastOfMore(samples: seq<Sample>, b: nat, more: seq<Sample>)
    requires b < |samples| && |more| > 0
    ensures samples + more[..|more| - 1] + [more[|more| - 1]] == samples + more
    ensures (samples + more[..|more| - 1])[b..] == samples[b..] + more[..|more| - 1]
  {
  }

  lemma UnbrokenBefore(attempt: seq<Sample>, more: seq<Sample>)
    requires |attempt| > 0 && |more| > 0 && Unbroken(attempt, more)
    ensures Unbroken(attempt, more[..|more| - 1])
  {
    forall k | 0 <= k < |more| - 1
      ensures more[k].enabled && !ReleasedFor(attempt + more[..|more| - 1][..k], more[k], 2500)
    {
      assert more[..|more| - 1][..k] == more[..k];
    }
  }

  /** A wrong attempt never unlocks by a suffix: however it goes on, nothing unlocks until the inputs
      were disabled or found released for 2.5 seconds. */
  lemma RejectionLasts(samples: seq<Sample>, more: seq<Sample>, s: Sample)
    requires Start(samples).Some? && Wrong(samples[Start(samples).value..])
    requires Unbroken(samples[Start(samples).value..], more)
    ensures !Updated(Run(samples + more), s).1
  {
    var b := Start(samples).value;
    WrongLasts(samples, b, more);
    WrongStays((samples + more)[b..], s);
    UnlocksExactly(samples + more, s);
  }

  /** And a wrong attempt found released for 2.5 seconds is given up: the next press starts afresh. */
  lemma GivenUpAttemptClears(samples: seq<Sample>, s: Sample)
    requires Start(samples).Some? && s.enabled && GivenUp(samples[Start(samples).value..], s)
    ensures Start(samples + [s]) == (if s.held != 0 then Some(|samples|) else None)
    ensures var u := Run(samples + [s]);
            && !u.waiting && |u.input| == 0 && u.index == 0 && u.owner == s.held
            && u.restarts == (Run(samples).restarts + 1) % WORD
  {
    StartNext(samples, s);
    var u := Run(samples);
    assert var v := Updated(u, s).0;
           !v.waiting && |v.input| == 0 && v.index == 0 && v.owner == s.held && v.restarts == (u.restarts + 1) % WORD by {
      RunKeeps(samples);
      RestartedWhenGivenUp(u, samples[Start(samples).value..], s);
    }
  }

  lemma RestartedWhenGivenUp(u: Unlock, attempt: seq<Sample>, s: Sample)
    requires Describes(u, attempt) && s.enabled && GivenUp(attempt, s)
    ensures var v := Updated(u, s).0;
            !v.waiting && |v.input| == 0 && v.index == 0 && v.owner == s.held && v.restarts == (u.restarts + 1) % WORD
  {
    RestartsIffGivenUp(u, attempt, s);
  }

  // ---------------------------------------------------------------- the same, updating fields

  class MorseUnlock {
    var pressedAt: Millis
    var releasedAt: Millis
    var restartCount: Millis
    var text: array<char>
    var owner: Held
    var symbolIndex: nat
    var inputLength: nat
    var pressed: bool
    var waitingForRelease: bool
    var rejected: bool
    var letterOpen: bool
    var wordOpen: bool

    ghost predicate Valid()
      reads this, text
    {
      text.Length == CAPACITY + 1 && inputLength <= CAPACITY && text[inputLength] == '\0'
    }

    ghost function View(): Unlock
      requires Valid()
      reads this, text
    {
      Unlock(owner, pressed, waitingForRelease, rejected, letterOpen, wordOpen, pressedAt, releasedAt,
             symbolIndex, text[..inputLength], restartCount)
    }

    constructor ()
      ensures Valid() && View() == FRESH && fresh(text)
    {
      pressedAt, releasedAt, restartCount, owner, symbolIndex, inputLength := 0, 0, 0, 0, 0, 0;
      pressed, waitingForRelease, rejected, letterOpen, wordOpen := false, false, false, false, false;
      text := new char[CAPACITY + 1](_ => '\0');
    }

    method ClearAttempt()
      requires Valid()
      modifies this, text
      ensures Valid() && text == old(text) && View() == Cleared(old(View()))
    {
      owner, symbolIndex, inputLength := 0, 0, 0;
      pressed, rejected, letterOpen, wordOpen := false, false, false, false;
      text[0] := '\0';
    }

    method ResetAll(held: Held)
      requires Valid()
      modifies this, text
      ensures Valid() && text == old(text) && View() == Reset(old(View()), held)
    {
      ClearAttempt();
      waitingForRelease := held != 0;
    }

    method BeginAttempt(held: Held, now: Millis)
      requires Valid()
      modifies this
      ensures Valid() && text == old(text) && View() == Begin(old(View()), held, now)
    {
      owner, pressedAt, pressed, rejected := held, now, true, held == 3;
    }

    method AppendSymbol(c: char)
      requires Valid()
      modifies this, text
      ensures Valid() && text == old(text) && View() == Append(old(View()), c)
    {
      if inputLength == CAPACITY {
        rejected := true;
        return;
      }
      ghost var before := text[..inputLength];
      text[inputLength] := c;
      inputLength := inputLength + 1;
      text[inputLength] := '\0';
      assert text[..inputLength] == before + [c];
    }

    method Release(now: Millis) returns (open: bool)
      requires Valid()
      modifies this, text
      ensures Valid() && text == old(text) && (View(), open) == Released(old(View()), now)
    {
      var symbol := Symbol(Since(now, pressedAt));
      pressed, releasedAt := false, now;
      AppendSymbol(symbol);
      letterOpen, wordOpen := true, true;
      if rejected || symbolIndex >= 7 { return false; }
      if Sequence()[symbolIndex] != symbol {
        rejected := true;
        return false;
      }
      if symbolIndex + 1 == 7 {
        ResetAll(0);
        return true;
      }
      symbolIndex := symbolIndex + 1;
      return false;
    }

    method Pause(held: Held, now: Millis)
      requires Valid()
      modifies this, text
      ensures Valid() && text == old(text) && View() == Between(old(View()), held, now)
    {
      var gap := Since(now, releasedAt);
      if letterOpen && gap >= LETTER_THRESHOLD {
        AppendSymbol(' ');
        letterOpen := false;
      }
      if wordOpen && gap >= WORD_GAP {
        AppendSymbol(' ');
        wordOpen := false;
      }
      if held != 0 { pressed, pressedAt := true, now; }
    }

    method Update(s: Sample) returns (open: bool)
      requires Valid()
      modifies this, text
      ensures Valid() && text == old(text) && (View(), open) == Updated(old(View()), s)
    {
      open := false;
      if !s.enabled {
        ResetAll(s.held);
      } else if waitingForRelease {
        if s.held == 0 { waitingForRelease := false; }
      } else if owner == 0 {
        if s.held != 0 { BeginAttempt(s.held, s.now); }
      } else if !pressed && rejected && Since(s.now, releasedAt) >= RESET_GAP {
        ClearAttempt();
        restartCount := (restartCount + 1) % WORD;
        if s.held != 0 { BeginAttempt(s.held, s.now); }
      } else {
        if s.held != 0 && s.held != owner { rejected := true; }
        if pressed {
          if s.held == 0 { open := Release(s.now); }
        } else {
          Pause(s.held, s.now);
        }
      }
    }
  }
}
