/** firmware/factory_badge/main/touch_observation.h: a bounded record of finger contacts. */
module TouchObservation {
  import opened Wrappers

  const WORD := 0x1_0000_0000
  const HALF := 0x8000_0000
  const CAPACITY := 64
  const MAX_DURATION := 120000

  type Millis = t: int | 0 <= t < WORD

  datatype End = Released | Lost | Ineligible | Expired | Stopped

  datatype Point = Point(x: int, y: int)

  datatype Contact = Contact(
    press: Millis, release: Millis, duration: Millis, gap: Millis, start: Point, last: Point,
    maxDx: nat, maxDy: nat, hasPrevious: bool, end: End)

  datatype Sample = Sample(eligible: bool, valid: bool, pressed: bool, sensor: bool, at: Point, time: Millis)

  datatype Session = Session(enabled: bool, started: Millis, duration: nat)
  datatype Touch = Touch(holding: bool, eligible: bool, previous: bool, wait: bool, previousRelease: Millis)

  /** `queue` is the content of the ring, oldest first. */
  datatype Observer = Observer(session: Session, touch: Touch, current: Contact, queue: seq<Contact>, dropped: Millis)

  const NO_CONTACT := Contact(0, 0, 0, 0, Point(0, 0), Point(0, 0), 0, 0, false, Released)
  const FRESH := Observer(Session(false, 0, 0), Touch(false, false, false, true, 0), NO_CONTACT, [], 0)

  function Since(now: Millis, before: Millis): Millis { (now - before) % WORD }

  function Distance(a: int, b: int): nat { if a < b then b - a else a - b }

  function Larger(a: nat, b: nat): nat { if a > b then a else b }

  // ---------------------------------------------------------------- the operations

  function Quiet(t: Touch): Touch { t.(eligible := false, previous := false, wait := true) }

  function Start(o: Observer, now: Millis, duration: Millis): Observer {
    var limit := if duration > MAX_DURATION then MAX_DURATION else duration;
    Observer(Session(limit != 0, now, limit), Touch(false, false, false, true, o.touch.previousRelease), o.current, [], 0)
  }

  function Closed(o: Observer, end: End, now: Millis): Contact {
    o.current.(release := now, duration := Since(now, o.current.press), end := end)
  }

  /** finish: the contact joins the queue, pushing out the oldest when it is full. */
  function Finish(o: Observer, end: End, now: Millis): Observer {
    var contact := Closed(o, end, now);
    var full := |o.queue| >= CAPACITY;
    Observer(o.session,
             o.touch.(holding := false, previous := end == Released,
                      previousRelease := if end == Released then now else o.touch.previousRelease),
             contact,
             (if full then o.queue[1..] else o.queue) + [contact],
             if full then (o.dropped + 1) % WORD else o.dropped)
  }

  predicate Over(o: Observer, now: Millis) {
    var elapsed := Since(now, o.session.started);
    elapsed < HALF && elapsed >= o.session.duration
  }

  function Deadline(o: Observer): Millis { (o.session.started + o.session.duration) % WORD }

  function Ended(o: Observer): Observer { o.(session := o.session.(enabled := false), touch := Quiet(o.touch)) }

  /** active: the diagnostic deadline may end the session. */
  function Ticked(o: Observer, now: Millis): Observer {
    if !o.session.enabled || !Over(o, now) then o
    else Ended(if o.touch.holding then Finish(o, Expired, Deadline(o)) else o)
  }

  function Stop(o: Observer, now: Millis): Observer {
    var t := Ticked(o, now);
    if !t.session.enabled then t else Ended(if t.touch.holding then Finish(t, Stopped, now) else t)
  }

  /** A cached sample from before the start, or one after the end, is ignored. */
  predicate Ignored(o: Observer, s: Sample) {
    Since(s.time, o.session.started) >= HALF || !Ticked(o, s.time).session.enabled
  }

  function Pressed(o: Observer, s: Sample): Observer {
    o.(touch := o.touch.(holding := true),
       current := NO_CONTACT.(press := s.time, start := s.at, last := s.at, hasPrevious := o.touch.previous,
                              gap := if o.touch.previous then Since(s.time, o.touch.previousRelease) else 0))
  }

  function Moved(c: Contact, p: Point): Contact {
    c.(last := p, maxDx := Larger(c.maxDx, Distance(p.x, c.start.x)), maxDy := Larger(c.maxDy, Distance(p.y, c.start.y)))
  }

  /** A real sample on an eligible page, after any wait for a release. */
  function Tracked(o: Observer, s: Sample): Observer {
    if o.touch.wait then o.(touch := o.touch.(wait := s.pressed))
    else if !o.touch.holding then if s.pressed then Pressed(o, s) else o
    else
      var moved := o.(current := Moved(o.current, s.at));
      if s.pressed then moved else Finish(moved, Released, s.time)
  }

  function Accepted(o: Observer, s: Sample): Observer {
    if !s.eligible then
      var done := if o.touch.holding then Finish(o, Ineligible, s.time) else o;
      done.(touch := Quiet(done.touch))
    else
      var ready := if o.touch.eligible then o else o.(touch := o.touch.(eligible := true, previous := false, wait := true));
      if !s.valid || !s.sensor then
        var done := if ready.touch.holding then Finish(ready, Lost, s.time) else ready;
        done.(touch := done.touch.(previous := false, wait := true))
      else Tracked(ready, s)
  }

  function Observe(o: Observer, s: Sample): Observer {
    if Since(s.time, o.session.started) >= HALF then o
    else
      var t := Ticked(o, s.time);
      if t.session.enabled then Accepted(t, s) else t
  }

  function Pop(o: Observer): (Observer, Option<Contact>) {
    if |o.queue| == 0 then (o, None) else (o.(queue := o.queue[1..]), Some(o.queue[0]))
  }

  // ---------------------------------------------------------------- runs with their history

  /** A contact with the accepted samples it was made of, accepted[begin..stop]. */
  datatype Finished = Finished(contact: Contact, begin: nat, stop: nat)

  /** Since the session started: accepted samples, where the open contact began, finished contacts,
      and how many of them were popped or pushed out. */
  datatype History = History(accepted: seq<Sample>, begin: nat, finished: seq<Finished>, popped: nat, lost: nat)

  datatype World = World(o: Observer, h: History)

  datatype Event = Begin(now: Millis, duration: Millis) | Halt(now: Millis) | Ask(now: Millis) | Feed(sample: Sample) | Take

  const START := World(FRESH, History([], 0, [], 0, 0))

  /** The history after a step that may finish the open contact, `seen` samples having been accepted
      before it; only a release is itself part of the contact. */
  function Recorded(o: Observer, o': Observer, h: History, seen: nat): History {
    if o.touch.holding && !o'.touch.holding then
      h.(finished := h.finished + [Finished(o'.current, h.begin, if o'.current.end == Released then |h.accepted| else seen)],
         lost := if |o.queue| >= CAPACITY then h.lost + 1 else h.lost)
    else h
  }

  function Fed(w: World, s: Sample): World {
    var o' := Observe(w.o, s);
    var h := if Ignored(w.o, s) then w.h else w.h.(accepted := w.h.accepted + [s]);
    var h' := Recorded(w.o, o', h, |w.h.accepted|);
    World(o', if !w.o.touch.holding && o'.touch.holding then h'.(begin := |w.h.accepted|) else h')
  }

  function Next(w: World, e: Event): World {
    match e
    case Begin(now, duration) => World(Start(w.o, now, duration), History([], 0, [], 0, 0))
    case Halt(now) => World(Stop(w.o, now), Recorded(w.o, Stop(w.o, now), w.h, |w.h.accepted|))
    case Ask(now) => World(Ticked(w.o, now), Recorded(w.o, Ticked(w.o, now), w.h, |w.h.accepted|))
    case Feed(s) => Fed(w, s)
    case Take => World(Pop(w.o).0, if |w.o.queue| > 0 then w.h.(popped := w.h.popped + 1) else w.h)
  }

  function Run(w: World, es: seq<Event>): World
    decreases |es|
  {
    if |es| == 0 then w else Run(Next(w, es[0]), es[1..])
  }

  // ---------------------------------------------------------------- the invariant

  predicate Real(s: Sample) { s.eligible && s.valid && s.sensor }

  function MaxDx(part: seq<Sample>): nat {
    if |part| <= 1 then 0 else Larger(MaxDx(part[..|part| - 1]), Distance(part[|part| - 1].at.x, part[0].at.x))
  }

  function MaxDy(part: seq<Sample>): nat {
    if |part| <= 1 then 0 else Larger(MaxDy(part[..|part| - 1]), Distance(part[|part| - 1].at.y, part[0].at.y))
  }

  /** A contact and the samples it was made of: a real released sample just before, then real pressed
      ones. */
  predicate MadeOf(c: Contact, accepted: seq<Sample>, begin: nat, stop: nat) {
    && 0 < begin < stop <= |accepted|
    && Real(accepted[begin - 1]) && !accepted[begin - 1].pressed
    && (forall i | begin <= i < stop :: Real(accepted[i]) && (accepted[i].pressed || (c.end == Released && begin < i == stop - 1)))
    && c.press == accepted[begin].time && c.start == accepted[begin].at && c.last == accepted[stop - 1].at
    && c.maxDx == MaxDx(accepted[begin..stop]) && c.maxDy == MaxDy(accepted[begin..stop])
  }

  predicate Follows(c: Contact, finished: seq<Finished>) {
    c.hasPrevious ==>
      && |finished| > 0 && finished[|finished| - 1].contact.end == Released
      && c.gap == Since(c.press, finished[|finished| - 1].contact.release)
  }

  /** What is true of a finished contact for ever after. */
  predicate ContactOk(f: Finished, accepted: seq<Sample>) {
    && MadeOf(f.contact, accepted, f.begin, f.stop)
    && f.contact.duration == Since(f.contact.release, f.contact.press)
    && (f.contact.end == Released ==> !accepted[f.stop - 1].pressed && f.contact.release == accepted[f.stop - 1].time)
  }

  predicate OpenOk(o: Observer, h: History) {
    o.touch.holding ==>
      && o.session.enabled && o.touch.eligible && !o.touch.wait
      && MadeOf(o.current.(end := Lost), h.accepted, h.begin, |h.accepted|) && Follows(o.current, h.finished)
  }

  predicate IdleOk(o: Observer, h: History) {
    && (!o.session.enabled ==> o.touch.wait && !o.touch.previous)
    && (o.session.enabled && !o.touch.wait && !o.touch.holding ==>
          o.touch.eligible && |h.accepted| > 0 && Real(h.accepted[|h.accepted| - 1]) && !h.accepted[|h.accepted| - 1].pressed)
    && (o.touch.previous ==>
          |h.finished| > 0 && h.finished[|h.finished| - 1].contact.end == Released
          && h.finished[|h.finished| - 1].contact.release == o.touch.previousRelease)
  }

  /** The queue holds the most recent contacts; every other finished one was popped or counted lost. */
  predicate QueueOk(o: Observer, h: History) {
    && |o.queue| <= CAPACITY && h.popped + h.lost + |o.queue| == |h.finished|
    && (forall i | 0 <= i < |o.queue| :: o.queue[i] == h.finished[|h.finished| - |o.queue| + i].contact)
    && o.dropped == h.lost % WORD
  }

  ghost predicate ContactsOk(h: History) {
    && (forall k {:trigger ContactOk(h.finished[k], h.accepted)} | 0 <= k < |h.finished| :: ContactOk(h.finished[k], h.accepted))
    && (forall k {:trigger Follows(h.finished[k].contact, h.finished[..k])} | 0 <= k < |h.finished| ::
          Follows(h.finished[k].contact, h.finished[..k]))
  }

  ghost predicate Inv(w: World) {
    OpenOk(w.o, w.h) && IdleOk(w.o, w.h) && QueueOk(w.o, w.h) && ContactsOk(w.h)
  }

  lemma MadeOfGrows(c: Contact, accepted: seq<Sample>, begin: nat, stop: nat, s: Sample)
    requires MadeOf(c, accepted, begin, stop)
    ensures MadeOf(c, accepted + [s], begin, stop)
  {
    assert (accepted + [s])[begin..stop] == accepted[begin..stop];
  }

  lemma AcceptKeepsContacts(h: History, s: Sample)
    requires ContactsOk(h)
    ensures ContactsOk(h.(accepted := h.accepted + [s]))
  {
    forall k | 0 <= k < |h.finished|
      ensures ContactOk(h.finished[k], h.accepted + [s])
    {
      assert ContactOk(h.finished[k], h.accepted);
      MadeOfGrows(h.finished[k].contact, h.accepted, h.finished[k].begin, h.finished[k].stop, s);
    }
  }

  function Ending(o: Observer, h: History, contact: Contact, stop: nat): History {
    h.(finished := h.finished + [Finished(contact, h.begin, stop)], lost := if |o.queue| >= CAPACITY then h.lost + 1 else h.lost)
  }

  lemma FinishKeepsQueue(o: Observer, h: History, end: End, now: Millis, stop: nat)
    requires QueueOk(o, h)
    ensures QueueOk(Finish(o, end, now), Ending(o, h, Closed(o, end, now), stop))
  {
    var queue, n := Finish(o, end, now).queue, |h.finished|;
    var all := h.finished + [Finished(Closed(o, end, now), h.begin, stop)];
    var skip := if |o.queue| >= CAPACITY then 1 else 0;
    forall i | 0 <= i < |queue|
      ensures queue[i] == all[n + 1 - |queue| + i].contact
    {
      if i < |queue| - 1 { assert queue[i] == o.queue[i + skip]; }
    }
  }

  lemma FinishKeepsContacts(o: Observer, h: History, end: End, now: Millis, stop: nat)
    requires ContactsOk(h) && Follows(o.current, h.finished)
    requires MadeOf(o.current.(end := end), h.accepted, h.begin, stop)
    requires end == Released ==> !h.accepted[stop - 1].pressed && now == h.accepted[stop - 1].time
    ensures ContactsOk(Ending(o, h, Closed(o, end, now), stop))
  {
    var contact := Closed(o, end, now);
    var f := Finished(contact, h.begin, stop);
    var all := h.finished + [f];
    assert ContactOk(f, h.accepted);
    forall k | 0 <= k < |all|
      ensures ContactOk(all[k], h.accepted) && Follows(all[k].contact, all[..k])
    {
      if k < |h.finished| {
        assert all[..k] == h.finished[..k];
        assert ContactOk(h.finished[k], h.accepted) && Follows(h.finished[k].contact, h.finished[..k]);
      } else {
        assert all[..k] == h.finished;
      }
    }
  }

  /** Cutting the open contact off at the samples seen so far. */
  lemma CutKeeps(o: Observer, h: History, end: End, now: Millis, h': History)
    requires OpenOk(o, h) && IdleOk(o, h) && QueueOk(o, h) && ContactsOk(h) && o.touch.holding && end != Released
    requires h' == h || exists s :: h' == h.(accepted := h.accepted + [s])
    ensures var o' := Finish(o, end, now);
            var ended := Ending(o, h', Closed(o, end, now), |h.accepted|);
            QueueOk(o', ended) && ContactsOk(ended)
  {
    if h' != h {
      var s :| h' == h.(accepted := h.accepted + [s]);
      MadeOfGrows(o.current.(end := Lost), h.accepted, h.begin, |h.accepted|, s);
      AcceptKeepsContacts(h, s);
    }
    FinishKeepsQueue(o, h', end, now, |h.accepted|);
    FinishKeepsContacts(o, h', end, now, |h.accepted|);
  }

  lemma CloseKeeps(w: World, end: End, now: Millis)
    requires Inv(w) && w.o.touch.holding && end != Released
    ensures Inv(World(Ended(Finish(w.o, end, now)), Ending(w.o, w.h, Closed(w.o, end, now), |w.h.accepted|)))
  {
    CutKeeps(w.o, w.h, end, now, w.h);
  }

  /** The contact a step closes, in the history. */
  lemma RecordedEnding(o: Observer, h: History, end: End, now: Millis, seen: nat, o': Observer)
    requires o.touch.holding && end != Released && !o'.touch.holding && o'.current == Closed(o, end, now)
    ensures Recorded(o, o', h, seen) == Ending(o, h, Closed(o, end, now), seen)
  {
  }

  lemma TickedKeeps(w: World, now: Millis)
    requires Inv(w)
    ensures Inv(World(Ticked(w.o, now), Recorded(w.o, Ticked(w.o, now), w.h, |w.h.accepted|)))
  {
    if w.o.session.enabled && Over(w.o, now) {
      if w.o.touch.holding {
        CloseKeeps(w, Expired, Deadline(w.o));
        RecordedEnding(w.o, w.h, Expired, Deadline(w.o), |w.h.accepted|, Ticked(w.o, now));
      }
    }
  }

  lemma StopKeeps(w: World, now: Millis)
    requires Inv(w)
    ensures Inv(World(Stop(w.o, now), Recorded(w.o, Stop(w.o, now), w.h, |w.h.accepted|)))
  {
    if !w.o.session.enabled || Over(w.o, now) {
      assert Stop(w.o, now) == Ticked(w.o, now);
      TickedKeeps(w, now);
    } else if w.o.touch.holding {
      CloseKeeps(w, Stopped, now);
      RecordedEnding(w.o, w.h, Stopped, now, |w.h.accepted|, Stop(w.o, now));
    }
  }

  lemma OneMorePressed(c: Contact, accepted: seq<Sample>, begin: nat, s: Sample)
    requires MadeOf(c, accepted, begin, |accepted|) && c.end == Lost && Real(s)
    ensures var moved := Moved(c, s.at);
            && (s.pressed ==> MadeOf(moved, accepted + [s], begin, |accepted| + 1))
            && (!s.pressed ==> MadeOf(moved.(end := Released), accepted + [s], begin, |accepted| + 1))
  {
    var all := accepted + [s];
    ExtentNext(accepted, begin, s);
    assert forall i | 0 <= i < |accepted| :: all[i] == accepted[i];
  }

  lemma ExtentNext(accepted: seq<Sample>, begin: nat, s: Sample)
    requires begin < |accepted|
    ensures var all := accepted + [s];
            && MaxDx(all[begin..|all|]) == Larger(MaxDx(accepted[begin..|accepted|]), Distance(s.at.x, accepted[begin].at.x))
            && MaxDy(all[begin..|all|]) == Larger(MaxDy(accepted[begin..|accepted|]), Distance(s.at.y, accepted[begin].at.y))
  {
    var all := accepted + [s];
    var before, part := accepted[begin..|accepted|], all[begin..|all|];
    assert part == before + [s];
    assert part[..|part| - 1] == before;
  }

  lemma PressedKeeps(o: Observer, h: History, s: Sample)
    requires IdleOk(o, h) && o.session.enabled && !o.touch.wait && !o.touch.holding && Real(s) && s.pressed
    ensures OpenOk(Pressed(o, s), h.(accepted := h.accepted + [s], begin := |h.accepted|))
  {
    var all := h.accepted + [s];
    assert all[|h.accepted|..|all|] == [s];
  }

  // ---------------------------------------------------------------- one accepted sample

  /** What a sample the session accepts does to the history. */
  function Taken(w: World, s: Sample): World {
    var o' := Accepted(w.o, s);
    var h' := Recorded(w.o, o', w.h.(accepted := w.h.accepted + [s]), |w.h.accepted|);
    World(o', if !w.o.touch.holding && o'.touch.holding then h'.(begin := |w.h.accepted|) else h')
  }

  lemma CancelKeeps(w: World, s: Sample, end: End)
    requires Inv(w) && w.o.session.enabled && !Real(s) && end != Released
    ensures w.o.touch.holding ==>
              var o' := Finish(w.o, end, s.time);
              forall t: Touch | t.wait && !t.previous && !t.holding ::
                Inv(World(o'.(touch := t), Ending(w.o, w.h.(accepted := w.h.accepted + [s]), Closed(w.o, end, s.time), |w.h.accepted|)))
    ensures !w.o.touch.holding ==>
              forall t: Touch | t.wait && !t.previous && !t.holding ::
                Inv(World(w.o.(touch := t), w.h.(accepted := w.h.accepted + [s])))
  {
    var h := w.h.(accepted := w.h.accepted + [s]);
    if w.o.touch.holding { CutKeeps(w.o, w.h, end, s.time, h); } else { AcceptKeepsContacts(w.h, s); }
  }

  lemma UnrealKeeps(w: World, s: Sample)
    requires Inv(w) && w.o.session.enabled && !Real(s)
    ensures Inv(Taken(w, s))
  {
    if !s.eligible {
      CancelKeeps(w, s, Ineligible);
    } else {
      CancelKeeps(w, s, Lost);
    }
  }

  lemma ReleaseKeeps(w: World, s: Sample)
    requires Inv(w) && w.o.touch.holding && Real(s) && !s.pressed
    ensures Inv(Taken(w, s))
  {
    var moved := w.o.(current := Moved(w.o.current, s.at));
    var h := w.h.(accepted := w.h.accepted + [s]);
    OneMorePressed(w.o.current.(end := Lost), w.h.accepted, w.h.begin, s);
    AcceptKeepsContacts(w.h, s);
    FinishKeepsQueue(moved, h, Released, s.time, |h.accepted|);
    FinishKeepsContacts(moved, h, Released, s.time, |h.accepted|);
  }

  lemma MoveKeeps(w: World, s: Sample)
    requires Inv(w) && w.o.touch.holding && Real(s) && s.pressed
    ensures Inv(Taken(w, s))
  {
    var moved := w.o.(current := Moved(w.o.current, s.at));
    var h := w.h.(accepted := w.h.accepted + [s]);
    assert Taken(w, s) == World(moved, h);
    OneMorePressed(w.o.current.(end := Lost), w.h.accepted, w.h.begin, s);
    AcceptKeepsContacts(w.h, s);
    assert OpenOk(moved, h) && IdleOk(moved, h) && QueueOk(moved, h);
  }

  lemma PressKeeps(w: World, s: Sample)
    requires Inv(w) && w.o.session.enabled && !w.o.touch.holding && !w.o.touch.wait && Real(s) && s.pressed
    ensures Inv(Taken(w, s))
  {
    var h := w.h.(accepted := w.h.accepted + [s], begin := |w.h.accepted|);
    assert Taken(w, s) == World(Pressed(w.o, s), h);
    AcceptKeepsContacts(w.h, s);
    PressedKeeps(w.o, w.h, s);
    assert QueueOk(Pressed(w.o, s), h);
  }

  lemma RestKeeps(w: World, s: Sample)
    requires Inv(w) && w.o.session.enabled && !w.o.touch.holding && Real(s) && (w.o.touch.wait || !s.pressed)
    ensures Inv(Taken(w, s))
  {
    var h := w.h.(accepted := w.h.accepted + [s]);
    AcceptKeepsContacts(w.h, s);
    assert Taken(w, s).h == h && !Taken(w, s).o.touch.holding;
    assert QueueOk(Taken(w, s).o, h);
  }

  lemma TakenKeeps(w: World, s: Sample)
    requires Inv(w) && w.o.session.enabled
    ensures Inv(Taken(w, s))
  {
    if !Real(s) { UnrealKeeps(w, s); }
    else if !w.o.touch.holding { if w.o.touch.wait || !s.pressed { RestKeeps(w, s); } else { PressKeeps(w, s); } }
    else if s.pressed { MoveKeeps(w, s); }
    else { ReleaseKeeps(w, s); }
  }

  lemma FedKeeps(w: World, s: Sample)
    requires Inv(w)
    ensures Inv(Fed(w, s))
  {
    if Ignored(w.o, s) {
      TickedKeeps(w, s.time);
    } else {
      assert Ticked(w.o, s.time) == w.o;
      TakenKeeps(w, s);
    }
  }

  lemma PopKeeps(w: World)
    requires Inv(w)
    ensures Inv(Next(w, Take))
  {
    assert |w.o.queue| > 0 ==> forall i | 0 <= i < |w.o.queue| - 1 :: w.o.queue[1..][i] == w.o.queue[i + 1];
  }

  lemma BeginKeeps(w: World, now: Millis, duration: Millis)
    ensures Inv(Next(w, Begin(now, duration)))
  {
  }

  lemma NextKeeps(w: World, e: Event)
    requires Inv(w)
    ensures Inv(Next(w, e))
  {
    match e
    case Begin(now, duration) => BeginKeeps(w, now, duration);
    case Halt(now) => StopKeeps(w, now);
    case Ask(now) => TickedKeeps(w, now);
    case Feed(s) => FedKeeps(w, s);
    case Take => PopKeeps(w);
  }

  lemma {:induction false} RunKeeps(w: World, es: seq<Event>)
    requires Inv(w)
    ensures Inv(Run(w, es))
    decreases |es|
  {
    if |es| > 0 {
      NextKeeps(w, es[0]);
      RunKeeps(Next(w, es[0]), es[1..]);
    }
  }

  // ---------------------------------------------------------------- what holds in every run

  /** Counting: every contact finished since the start was popped, or pushed out and counted in
      `dropped`, or is one of the at most 64 most recent ones still queued, in order. */
  lemma QueueIsMostRecent(es: seq<Event>)
    ensures var (o, h) := (Run(START, es).o, Run(START, es).h);
            && |h.finished| == h.popped + h.lost + |o.queue| && |o.queue| <= CAPACITY
            && o.dropped == h.lost % WORD
            && forall i | 0 <= i < |o.queue| :: o.queue[i] == h.finished[|h.finished| - |o.queue| + i].contact
  {
    RunKeeps(START, es);
  }

  /** The extents are true maxima over the samples, reached by one of them. */
  lemma {:induction false} MaxDxIsTrue(part: seq<Sample>) returns (i: nat)
    requires |part| > 0
    ensures forall k | 0 <= k < |part| :: Distance(part[k].at.x, part[0].at.x) <= MaxDx(part)
    ensures i < |part| && Distance(part[i].at.x, part[0].at.x) == MaxDx(part)
  {
    i := |part| - 1;
    if |part| > 1 {
      var init := part[..|part| - 1];
      var j := MaxDxIsTrue(init);
      if Distance(part[i].at.x, part[0].at.x) < MaxDx(part) { i := j; }
      forall k | 0 <= k < |part|
        ensures Distance(part[k].at.x, part[0].at.x) <= MaxDx(part)
      {
        if k < |init| { assert init[k] == part[k]; }
      }
    }
  }

  lemma {:induction false} MaxDyIsTrue(part: seq<Sample>) returns (i: nat)
    requires |part| > 0
    ensures forall k | 0 <= k < |part| :: Distance(part[k].at.y, part[0].at.y) <= MaxDy(part)
    ensures i < |part| && Distance(part[i].at.y, part[0].at.y) == MaxDy(part)
  {
    i := |part| - 1;
    if |part| > 1 {
      var init := part[..|part| - 1];
      var j := MaxDyIsTrue(init);
      if Distance(part[i].at.y, part[0].at.y) < MaxDy(part) { i := j; }
      forall k | 0 <= k < |part|
        ensures Distance(part[k].at.y, part[0].at.y) <= MaxDy(part)
      {
        if k < |init| { assert init[k] == part[k]; }
      }
    }
  }

  /** A contact with a record of samples behind it: a real released sample, then real pressed ones up
      to a real release, with the times, end points and true extents of exactly those samples. */
  ghost predicate Genuine(c: Contact, accepted: seq<Sample>, begin: nat, stop: nat) {
    && 0 < begin < stop <= |accepted|
    && Real(accepted[begin - 1]) && !accepted[begin - 1].pressed
    && (forall i | begin <= i < stop :: Real(accepted[i]))
    && (forall i | begin <= i < stop - 1 :: accepted[i].pressed)
    && (c.end == Released <==> !accepted[stop - 1].pressed)
    && (c.end == Released ==> c.release == accepted[stop - 1].time)
    && c.press == accepted[begin].time && c.start == accepted[begin].at && c.last == accepted[stop - 1].at
    && c.duration == Since(c.release, c.press)
    && (forall i | begin <= i < stop ::
          Distance(accepted[i].at.x, c.start.x) <= c.maxDx && Distance(accepted[i].at.y, c.start.y) <= c.maxDy)
    && (exists i :: begin <= i < stop && Distance(accepted[i].at.x, c.start.x) == c.maxDx)
    && (exists i :: begin <= i < stop && Distance(accepted[i].at.y, c.start.y) == c.maxDy)
  }

  lemma ContactIsGenuine(f: Finished, accepted: seq<Sample>)
    requires ContactOk(f, accepted)
    ensures Genuine(f.contact, accepted, f.begin, f.stop)
  {
    var part := accepted[f.begin..f.stop];
    var i := MaxDxIsTrue(part);
    var j := MaxDyIsTrue(part);
    assert forall k | f.begin <= k < f.stop :: accepted[k] == part[k - f.begin];
    assert Distance(accepted[f.begin + i].at.x, f.contact.start.x) == f.contact.maxDx;
    assert Distance(accepted[f.begin + j].at.y, f.contact.start.y) == f.contact.maxDy;
  }

  /** Every contact read out is genuine, and its gap is measured from the release of the contact just
      before it in the session. */
  lemma PoppedContactIsGenuine(es: seq<Event>)
    requires |Run(START, es).o.queue| > 0
    ensures var c := Run(START, es).o.queue[0];
            var h := Run(START, es).h;
            Pop(Run(START, es).o).1 == Some(c) &&
            exists k: nat :: k < |h.finished| && h.finished[k].contact == c
              && Genuine(c, h.accepted, h.finished[k].begin, h.finished[k].stop) && Follows(c, h.finished[..k])
  {
    var w := Run(START, es);
    RunKeeps(START, es);
    var k := |w.h.finished| - |w.o.queue|;
    assert w.o.queue[0] == w.h.finished[k + 0].contact;
    assert ContactOk(w.h.finished[k], w.h.accepted) && Follows(w.h.finished[k].contact, w.h.finished[..k]);
    ContactIsGenuine(w.h.finished[k], w.h.accepted);
  }

  // ---------------------------------------------------------------- nothing missed, nothing twice

  /** Contacts use up the samples from left to right, the open one last. */
  ghost predicate Apart(w: World) {
    && (forall j, k | 0 <= j < k < |w.h.finished| :: w.h.finished[j].stop <= w.h.finished[k].begin)
    && (w.o.touch.holding ==> forall k | 0 <= k < |w.h.finished| :: w.h.finished[k].stop <= w.h.begin)
  }

  /** A real press right after a real release. */
  predicate PressAt(accepted: seq<Sample>, i: int) {
    && 0 < i < |accepted| && Real(accepted[i - 1]) && !accepted[i - 1].pressed && Real(accepted[i]) && accepted[i].pressed
  }

  ghost predicate BeganAt(w: World, i: int) {
    (w.o.touch.holding && w.h.begin == i) || exists k :: 0 <= k < |w.h.finished| && w.h.finished[k].begin == i
  }

  /** After a real release the next press is taken. */
  predicate Ready(w: World) {
    var n := |w.h.accepted|;
    w.o.session.enabled && 0 < n && Real(w.h.accepted[n - 1]) && !w.h.accepted[n - 1].pressed ==>
      w.o.touch.eligible && !w.o.touch.wait && !w.o.touch.holding
  }

  ghost predicate Covered(w: World) {
    Apart(w) && Ready(w) && forall i | PressAt(w.h.accepted, i) :: BeganAt(w, i)
  }

  /** A contact goes on, or ends and is recorded with the sample it began with. */
  predicate Continues(w: World, w': World) {
    || (w'.h.finished == w.h.finished && (w.o.touch.holding ==> w'.o.touch.holding && w'.h.begin == w.h.begin))
    || (w.o.touch.holding && !w'.o.touch.holding && EndsWith(w.h.finished, w'.h.finished, w.h.begin))
  }

  predicate EndsWith(before: seq<Finished>, after: seq<Finished>, begin: nat) {
    |after| == |before| + 1 && after[..|before|] == before && after[|before|].begin == begin
  }

  lemma ContinuesKeepsBeginnings(w: World, w': World, i: int)
    requires Continues(w, w') && BeganAt(w, i)
    ensures BeganAt(w', i)
  {
    if w'.h.finished != w.h.finished {
      var n := |w.h.finished|;
      assert w'.h.finished[n].begin == w.h.begin;
      assert forall k | 0 <= k < n :: w'.h.finished[k] == w'.h.finished[..n][k];
    }
  }

  /** A contact that begins does so at the sample just accepted; otherwise the open one continues. */
  lemma ContinuesKeepsApart(w: World, w': World)
    requires Apart(w) && Continues(w, w') && ContactsOk(w.h) && |w.h.accepted| <= |w'.h.accepted|
    requires w'.o.touch.holding && !w.o.touch.holding ==> w'.h.begin == |w.h.accepted|
    ensures Apart(w')
  {
    assert forall k | 0 <= k < |w.h.finished| :: w.h.finished[k].stop <= |w.h.accepted| by {
      forall k | 0 <= k < |w.h.finished|
        ensures w.h.finished[k].stop <= |w.h.accepted|
      {
        assert ContactOk(w.h.finished[k], w.h.accepted);
      }
    }
    if w'.h.finished != w.h.finished {
      var n := |w.h.finished|;
      assert forall k | 0 <= k < n :: w'.h.finished[k] == w'.h.finished[..n][k];
    }
  }

  lemma RecordedContinues(o: Observer, o': Observer, h: History, seen: nat)
    ensures var h' := Recorded(o, o', h, seen);
            && h'.accepted == h.accepted && h'.begin == h.begin
            && Continues(World(o, h), World(o', h'))
  {
  }

  /** One more accepted sample: a press after a release is the beginning of a contact. */
  lemma TakenCovered(w: World, s: Sample)
    requires Inv(w) && Covered(w) && w.o.session.enabled
    ensures Covered(Taken(w, s))
  {
    var w' := Taken(w, s);
    var all := w.h.accepted + [s];
    RecordedContinues(w.o, w'.o, w.h.(accepted := all), |w.h.accepted|);
    assert w'.h.accepted == all && Continues(w, w');
    ContinuesKeepsApart(w, w');
    TakenReady(w, s);
    forall i | PressAt(all, i)
      ensures BeganAt(w', i)
    {
      if i < |w.h.accepted| {
        assert PressAt(w.h.accepted, i);
        ContinuesKeepsBeginnings(w, w', i);
      } else {
        assert all[i - 1] == w.h.accepted[i - 1];
        assert w'.o == Pressed(w.o, s);
      }
    }
  }

  lemma TakenReady(w: World, s: Sample)
    requires Inv(w) && w.o.session.enabled
    ensures Ready(Taken(w, s))
  {
    var all := w.h.accepted + [s];
    assert all[|all| - 1] == s;
    if Real(s) && !s.pressed {
      assert Accepted(w.o, s).touch.eligible;
    }
  }

  /** Without a new sample a contact may only end, and the session with it. */
  lemma TickedCovered(w: World, now: Millis)
    requires Inv(w) && Covered(w)
    ensures Covered(World(Ticked(w.o, now), Recorded(w.o, Ticked(w.o, now), w.h, |w.h.accepted|)))
  {
    EndingCovered(w, Ticked(w.o, now));
  }

  lemma EndingCovered(w: World, o': Observer)
    requires Inv(w) && Covered(w)
    requires o' == w.o || (!o'.session.enabled && !o'.touch.holding)
    ensures Covered(World(o', Recorded(w.o, o', w.h, |w.h.accepted|)))
  {
    var w' := World(o', Recorded(w.o, o', w.h, |w.h.accepted|));
    RecordedContinues(w.o, o', w.h, |w.h.accepted|);
    ContinuesKeepsApart(w, w');
    forall i | PressAt(w.h.accepted, i)
      ensures BeganAt(w', i)
    {
      ContinuesKeepsBeginnings(w, w', i);
    }
  }

  lemma NextCovered(w: World, e: Event)
    requires Inv(w) && Covered(w)
    ensures Covered(Next(w, e))
  {
    match e
    case Begin(_, _) =>
    case Halt(now) => EndingCovered(w, Stop(w.o, now));
    case Ask(now) => TickedCovered(w, now);
    case Feed(s) =>
      if Ignored(w.o, s) {
        TickedCovered(w, s.time);
      } else {
        assert Ticked(w.o, s.time) == w.o;
        TakenCovered(w, s);
      }
    case Take =>
      assert Continues(w, Next(w, e));
      forall i | PressAt(w.h.accepted, i)
        ensures BeganAt(Next(w, e), i)
      {
        ContinuesKeepsBeginnings(w, Next(w, e), i);
      }
  }

  lemma {:induction false} RunCovered(w: World, es: seq<Event>)
    requires Inv(w) && Covered(w)
    ensures Inv(Run(w, es)) && Covered(Run(w, es))
    decreases |es|
  {
    if |es| > 0 {
      NextKeeps(w, es[0]);
      NextCovered(w, es[0]);
      RunCovered(Next(w, es[0]), es[1..]);
    }
  }

  /** Every real press that follows a real release is recorded as exactly one contact, open or
      finished, and no sample belongs to two contacts. */
  lemma EveryPressIsRecordedOnce(es: seq<Event>, i: nat)
    requires PressAt(Run(START, es).h.accepted, i)
    ensures var w := Run(START, es);
            && BeganAt(w, i)
            && (forall j, k | 0 <= j < k < |w.h.finished| :: w.h.finished[j].stop <= w.h.finished[k].begin)
            && (w.o.touch.holding ==> forall k | 0 <= k < |w.h.finished| :: w.h.finished[k].stop <= w.h.begin)
            && (forall j, k | 0 <= j < |w.h.finished| && 0 <= k < |w.h.finished|
                  && w.h.finished[j].begin == i && w.h.finished[k].begin == i :: j == k)
  {
    RunCovered(START, es);
    var w := Run(START, es);
    forall j, k | 0 <= j < |w.h.finished| && 0 <= k < |w.h.finished|
        && w.h.finished[j].begin == i && w.h.finished[k].begin == i
      ensures j == k
    {
      assert ContactOk(w.h.finished[j], w.h.accepted) && ContactOk(w.h.finished[k], w.h.accepted);
    }
  }

  function RingOf(records: seq<Contact>, head: nat, count: nat): (q: seq<Contact>)
    requires |records| == CAPACITY && head < CAPACITY && count <= CAPACITY
    ensures |q| == count && forall i | 0 <= i < count :: q[i] == records[(head + i) % CAPACITY]
  {
    seq(count, i requires 0 <= i < count => records[(head + i) % CAPACITY])
  }

  lemma RingDrops(records: seq<Contact>, head: nat, count: nat)
    requires |records| == CAPACITY && head < CAPACITY && 0 < count <= CAPACITY
    ensures RingOf(records, (head + 1) % CAPACITY, count - 1) == RingOf(records, head, count)[1..]
  {
    var q, r := RingOf(records, head, count), RingOf(records, (head + 1) % CAPACITY, count - 1);
    forall i | 0 <= i < count - 1
      ensures r[i] == q[1..][i]
    {
      assert ((head + 1) % CAPACITY + i) % CAPACITY == (head + (i + 1)) % CAPACITY;
    }
  }

  lemma RingAdds(records: seq<Contact>, head: nat, count: nat, c: Contact)
    requires |records| == CAPACITY && head < CAPACITY && count < CAPACITY
    ensures RingOf(records[(head + count) % CAPACITY := c], head, count + 1) == RingOf(records, head, count) + [c]
  {
    var at := (head + count) % CAPACITY;
    var q, r := RingOf(records, head, count) + [c], RingOf(records[at := c], head, count + 1);
    forall i | 0 <= i < count + 1
      ensures r[i] == q[i]
    {
      if i < count { assert (head + i) % CAPACITY != at; }
    }
  }

  // ---------------------------------------------------------------- the ring

  class Observation {
    var records: array<Contact>
    var current: Contact
    var head: nat
    var count: nat
    var started: Millis
    var duration: nat
    var previousRelease: Millis
    var dropped: Millis
    var enabled: bool
    var holding: bool
    var eligible: bool
    var previous: bool
    var waitRelease: bool

    ghost predicate Valid()
      reads this
    {
      records.Length == CAPACITY && head < CAPACITY && count <= CAPACITY
    }

    ghost function View(): Observer
      requires Valid()
      reads this, records
    {
      Observer(Session(enabled, started, duration), Touch(holding, eligible, previous, waitRelease, previousRelease),
               current, RingOf(records[..], head, count), dropped)
    }

    constructor ()
      ensures Valid() && View() == FRESH && fresh(records)
    {
      records := new Contact[CAPACITY](_ => NO_CONTACT);
      current, head, count, started, duration, previousRelease, dropped := NO_CONTACT, 0, 0, 0, 0, 0, 0;
      enabled, holding, eligible, previous, waitRelease := false, false, false, false, true;
    }

    method StartSession(now: Millis, limit: Millis)
      requires Valid()
      modifies this
      ensures Valid() && records == old(records) && View() == Start(old(View()), now, limit)
    {
      head, count, dropped, started := 0, 0, 0, now;
      duration := if limit > MAX_DURATION then MAX_DURATION else limit;
      enabled := duration != 0;
      holding, eligible, previous, waitRelease := false, false, false, true;
      assert View().queue == [];
    }

    /** The oldest record makes room when the ring is full. */
    method Enqueue(c: Contact)
      requires Valid()
      modifies `head, `count, `dropped, records
      ensures Valid() && records == old(records)
      ensures var full := old(count) == CAPACITY;
              var queue := old(RingOf(records[..], head, count));
              && RingOf(records[..], head, count) == (if full then queue[1..] else queue) + [c]
              && dropped == if full then (old(dropped) + 1) % WORD else old(dropped)
    {
      if count == CAPACITY {
        RingDrops(records[..], head, count);
        head := (head + 1) % CAPACITY;
        count := count - 1;
        dropped := (dropped + 1) % WORD;
      }
      RingAdds(records[..], head, count, c);
      ghost var before := records[..];
      records[(head + count) % CAPACITY] := c;
      assert records[..] == before[(head + count) % CAPACITY := c];
      count := count + 1;
    }

    method FinishContact(end: End, now: Millis)
      requires Valid()
      modifies this, records
      ensures Valid() && records == old(records) && View() == Finish(old(View()), end, now)
    {
      current := current.(release := now, duration := Since(now, current.press), end := end);
      Enqueue(current);
      holding := false;
      previous := end == Released;
      if previous { previousRelease := now; }
    }

    method Quieten()
      requires Valid()
      modifies this
      ensures Valid() && records == old(records) && View() == old(View()).(touch := Quiet(old(View().touch)))
    {
      eligible, previous, waitRelease := false, false, true;
    }

    method Active(now: Millis) returns (still: bool)
      requires Valid()
      modifies this, records
      ensures Valid() && records == old(records) && View() == Ticked(old(View()), now) && still == View().session.enabled
    {
      if !enabled { return false; }
      var elapsed := Since(now, started);
      if elapsed < HALF && elapsed >= duration {
        if holding { FinishContact(Expired, (started + duration) % WORD); }
        Quieten();
        enabled := false;
      }
      still := enabled;
    }

    method StopSession(now: Millis)
      requires Valid()
      modifies this, records
      ensures Valid() && records == old(records) && View() == Stop(old(View()), now)
    {
      var still := Active(now);
      if !still { return; }
      if holding { FinishContact(Stopped, now); }
      Quieten();
      enabled := false;
    }

    method ObserveSample(s: Sample)
      requires Valid()
      modifies this, records
      ensures Valid() && records == old(records) && View() == Observe(old(View()), s)
    {
      if Since(s.time, started) >= HALF { return; }
      var still := Active(s.time);
      if !still { return; }
      Accept(s);
    }

    method Accept(s: Sample)
      requires Valid()
      modifies this, records
      ensures Valid() && records == old(records) && View() == Accepted(old(View()), s)
    {
      if !s.eligible {
        if holding { FinishContact(Ineligible, s.time); }
        Quieten();
        return;
      }
      if !eligible {
        eligible, previous, waitRelease := true, false, true;
      }
      if !s.valid || !s.sensor {
        if holding { FinishContact(Lost, s.time); }
        previous, waitRelease := false, true;
        return;
      }
      Track(s);
    }

    method Track(s: Sample)
      requires Valid()
      modifies this, records
      ensures Valid() && records == old(records) && View() == Tracked(old(View()), s)
    {
      if waitRelease {
        if !s.pressed { waitRelease := false; }
        return;
      }
      if !holding {
        if !s.pressed { return; }
        current := NO_CONTACT.(press := s.time, start := s.at, last := s.at, hasPrevious := previous);
        if previous { current := current.(gap := Since(s.time, previousRelease)); }
        holding := true;
        return;
      }
      current := Moved(current, s.at);
      if !s.pressed { FinishContact(Released, s.time); }
    }

    method PopContact() returns (result: Option<Contact>)
      requires Valid()
      modifies this
      ensures Valid() && records == old(records) && (View(), result) == Pop(old(View()))
    {
      if count == 0 { return None; }
      RingDrops(records[..], head, count);
      result := Some(records[head]);
      head := (head + 1) % CAPACITY;
      count := count - 1;
    }
  }
}
