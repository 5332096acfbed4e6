/** The Home page of the browser client: the hero slider that ping-pongs
    through five slides on a timer, and the feedback section that checks the
    form, posts it and prepends the saved record. */
module HomePage {
  import opened Common
  import opened Ids
  import FeedbackBoard

  /** The number of hero slides. */
  const SlideCount: int := 5

  datatype SlideState = SlideState(current: int, direction: int)

  ghost predicate ValidSlide(s: SlideState) {
    0 <= s.current < SlideCount && (s.direction == 1 || s.direction == -1)
  }

  /** The timer step: from the last slide go back one and face backwards;
      from the first go forward one and face forwards; elsewhere move one in
      the current direction. Every step moves to a neighbouring slide, in the
      direction the new state faces. */
  function Next(s: SlideState): (r: SlideState)
    ensures ValidSlide(s) ==> ValidSlide(r) && r.current == s.current + r.direction
    ensures 0 < s.current < SlideCount - 1 ==> r.direction == s.direction
  {
    if s.current == SlideCount - 1 then SlideState(s.current - 1, -1)
    else if s.current == 0 then SlideState(s.current + 1, 1)
    else SlideState(s.current + s.direction, s.direction)
  }

  /** `n` timer steps. */
  function Steps(s: SlideState, n: nat): SlideState
    decreases n
  {
    if n == 0 then s else Steps(Next(s), n - 1)
  }

  /** The states the slider returns to: everything except facing out of the
      first slide or into the last one's far side, which the first step
      leaves for good. */
  ghost predicate OnCycle(s: SlideState) {
    ValidSlide(s) && !(s.current == 0 && s.direction == 1)
    && !(s.current == SlideCount - 1 && s.direction == -1)
  }

  /** After one step the slider is on its cycle. */
  lemma FirstStepEntersCycle(s: SlideState)
    requires ValidSlide(s)
    ensures OnCycle(Next(s))
  {
  }

  lemma {:induction false} StepsAdd(s: SlideState, m: nat, n: nat)
    ensures Steps(s, m + n) == Steps(Steps(s, m), n)
    decreases m
  {
    if m > 0 {
      StepsAdd(Next(s), m - 1, n);
    }
  }

  /** The slider ping-pongs with period 8: 1, 2, 3, 4, 3, 2, 1, 0 and again. */
  lemma {:induction false} PingPongPeriod(s: SlideState)
    requires OnCycle(s)
    ensures Steps(s, 8) == s
  {
    StepsAdd(s, 4, 4);
    var t := Steps(s, 4);
    StepsFour(s);
    StepsFour(t);
    var u := SlideState(4 - s.current, -s.direction);
    assert t == u by { FourStepsMirror(s); }
    assert Steps(t, 4) == s by { FourStepsMirror(u); }
  }

  /** Four steps from a cycle state land on the mirrored slide, facing the
      other way. */
  lemma FourStepsMirror(s: SlideState)
    requires OnCycle(s)
    ensures Next(Next(Next(Next(s)))) == SlideState(4 - s.current, -s.direction)
  {
    var c := s.current;
    if s.direction == 1 {
      if c == 1 {} else if c == 2 {} else if c == 3 {} else {}
    } else {
      if c == 0 {} else if c == 1 {} else if c == 2 {} else {}
    }
  }

  lemma StepsFour(s: SlideState)
    ensures Steps(s, 4) == Next(Next(Next(Next(s))))
  {
    assert Steps(s, 4) == Steps(Next(Next(Next(Next(s)))), 0);
  }

  /** Within eight steps of any state every slide is shown. */
  lemma {:induction false} EverySlideShown(s: SlideState, i: int)
    requires ValidSlide(s) && 0 <= i < SlideCount
    ensures exists k :: 0 < k <= 8 && Steps(s, k).current == i
  {
    var t := Next(s);
    FirstStepEntersCycle(s);
    // On the cycle, the slide reached after k more steps.
    var k: nat := if t.direction == 1 then
                    (if i >= t.current then i - t.current else 8 - t.current - i)
                  else
                    (if i <= t.current then t.current - i else t.current + i);
    assert k < 8;
    StepsFromCycle(t, k, i);
    assert Steps(s, k + 1) == Steps(t, k);
  }

  /** Helper: the slide reached from a cycle state by walking `k` steps. */
  lemma {:induction false} StepsFromCycle(t: SlideState, k: nat, i: int)
    requires OnCycle(t) && 0 <= i < SlideCount && k < 8
    requires k == (if t.direction == 1 then
                    (if i >= t.current then i - t.current else 8 - t.current - i)
                  else
                    (if i <= t.current then t.current - i else t.current + i))
    ensures Steps(t, k).current == i
    decreases k
  {
    if k > 0 {
      var u := Next(t);
      var k' := k - 1;
      if u.direction == 1 {
        assert k' == (if i >= u.current then i - u.current else 8 - u.current - i);
      } else {
        assert k' == (if i <= u.current then u.current - i else u.current + i);
      }
      StepsFromCycle(u, k', i);
    }
  }

  /** The slider component's state. */
  class HeroSlider {
    var current: int
    var direction: int

    ghost predicate Valid()
      reads this
    {
      ValidSlide(SlideState(current, direction))
    }

    constructor ()
      ensures Valid() && current == 0 && direction == 1
    {
      current := 0;
      direction := 1;
    }

    /** The timer firing once. */
    method Tick()
      requires Valid()
      modifies this
      ensures Valid()
      ensures SlideState(current, direction) == Next(SlideState(old(current), old(direction)))
    {
      if current == SlideCount - 1 {
        direction := -1;
        current := current - 1;
      } else if current == 0 {
        direction := 1;
        current := current + 1;
      } else {
        current := current + direction;
      }
    }

    /** A dot click: the slider jumps to slide `i` and keeps its direction. */
    method GoTo(i: int)
      requires Valid() && 0 <= i < SlideCount
      modifies this
      ensures Valid() && current == i && direction == old(direction)
    {
      current := i;
    }
  }

  /** The form check before posting: refused when the trimmed name or the
      trimmed review is empty. */
  predicate SubmitAllowed(name: string, review: string) {
    JsTrim(name) != "" && JsTrim(review) != ""
  }

  lemma {:induction false} JsTrimIdempotent(s: string)
    ensures JsTrim(JsTrim(s)) == JsTrim(s)
  {
    var t := JsTrim(s);
    if t != [] {
      StripKeepsInner(t, IsJsSpace);
    } else {
      StripOfAllSpace(t, IsJsSpace);
    }
  }

  /** The page posts the trimmed fields, so a form the page lets through always
      passes the server's own presence check (never 400), and the server's
      trimming leaves the posted name and review as they are. */
  lemma {:induction false} ClientCheckPassesRouteCheck(name: string, city: string, review: string, id: ObjectId, now: int)
    requires SubmitAllowed(name, review)
    ensures FeedbackBoard.PostFeedback(Some(JsTrim(name)), Some(JsTrim(city)), Some(JsTrim(review)), id, now).0 != 400
    ensures JsTrim(JsTrim(name)) == JsTrim(name) && JsTrim(JsTrim(review)) == JsTrim(review)
  {
    JsTrimIdempotent(name);
    JsTrimIdempotent(review);
  }

  /** The page's check is weaker than the schema: a one-letter name (any
      non-space character) passes it, and so does a one-letter review. */
  lemma ClientCheckWeakerThanSchema(c: char, d: char)
    requires !IsJsSpace(c) && !IsJsSpace(d)
    ensures SubmitAllowed([c], [d])
    ensures |JsTrim([c])| < FeedbackBoard.NameMinLength && |JsTrim([d])| < FeedbackBoard.ReviewMinLength
  {
    StripKeepsInner([c], IsJsSpace);
    StripKeepsInner([d], IsJsSpace);
  }

  datatype SubmitOutcome = Refused | Failed | Posted

  /** The feedback section: the listed feedback, newest first as received
      and then prepended to, and the form's three fields. */
  class FeedbackSection {
    var feedbacks: seq<FeedbackBoard.Feedback>
    var name: string
    var city: string
    var review: string

    constructor (loaded: seq<FeedbackBoard.Feedback>)
      ensures feedbacks == loaded && name == "" && city == "" && review == ""
    {
      feedbacks := loaded;
      name := "";
      city := "";
      review := "";
    }

    /** Submitting the form. `reply` is the saved record from a successful
        response, or None for a failed request. A refused form sends nothing;
        a failed request changes nothing; a saved record goes to the front of
        the list and the form is cleared. */
    method Submit(reply: Option<FeedbackBoard.Feedback>) returns (outcome: SubmitOutcome)
      modifies this
      ensures outcome == Refused <==> !SubmitAllowed(old(name), old(review))
      ensures outcome == Posted <==> SubmitAllowed(old(name), old(review)) && reply.Some?
      ensures outcome != Posted ==>
        feedbacks == old(feedbacks) && name == old(name) && city == old(city) && review == old(review)
      ensures outcome == Posted ==>
        feedbacks == [reply.value] + old(feedbacks) && name == "" && city == "" && review == ""
    {
      if !SubmitAllowed(name, review) {
        outcome := Refused;
      } else {
        outcome := Deliver(reply);
      }
    }

    /** The response to a form that was sent: a saved record is prepended and
        the form cleared; a failed request changes nothing. */
    method Deliver(reply: Option<FeedbackBoard.Feedback>) returns (outcome: SubmitOutcome)
      modifies this
      ensures outcome == (if reply.Some? then Posted else Failed)
      ensures reply.None? ==>
        feedbacks == old(feedbacks) && name == old(name) && city == old(city) && review == old(review)
      ensures reply.Some? ==>
        feedbacks == [reply.value] + old(feedbacks) && name == "" && city == "" && review == ""
    {
      if reply.None? {
        outcome := Failed;
      } else {
        feedbacks, name, city, review := [reply.value] + feedbacks, [], [], [];
        outcome := Posted;
      }
    }
  }
}
