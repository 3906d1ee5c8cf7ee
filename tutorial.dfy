/** The onboarding overlay: six pages walked through with "next", "previous"
    and "skip" buttons. Its state is the current page and whether the
    overlay is open; once it is closed it renders nothing while the
    component stays mounted. */
module TutorialComponent {
  import opened Types

  /** The titles of the six pages, in order (the page bodies are markup). */
  const STEP_TITLES: seq<string> := [
    "Welcome to Pathfinding Visualizer",
    "Picking an Algorithm",
    "Understand the algorithms",
    "Adding walls",
    "Node Positioning",
    "You\U{2019}re All Set!!"
  ]

  const LAST_STEP: int := |STEP_TITLES| - 1

  datatype TutorialState = TutorialState(currentStep: int, isTutorialOpen: bool)

  /** The overlay opens on the first page. */
  const INITIAL: TutorialState := TutorialState(0, true)

  /** The current page is one of the six. */
  predicate StepInRange(s: TutorialState)
  {
    0 <= s.currentStep <= LAST_STEP
  }

  /** "Next": one page on, or, on the last page, close the overlay and stay there. */
  function Next(s: TutorialState): TutorialState
  {
    if s.currentStep < LAST_STEP then s.(currentStep := s.currentStep + 1)
    else s.(isTutorialOpen := false)
  }

  /** "Previous": one page back, or nothing on the first page. */
  function Prev(s: TutorialState): TutorialState
  {
    if s.currentStep > 0 then s.(currentStep := s.currentStep - 1) else s
  }

  /** "Skip": close the overlay from any page. */
  function Skip(s: TutorialState): TutorialState
  {
    s.(isTutorialOpen := false)
  }

  /** What the overlay shows: the current page's title while open, nothing once closed. */
  function Rendered(s: TutorialState): (title: Option<string>)
    requires StepInRange(s)
    ensures title.None? <==> !s.isTutorialOpen
    ensures title.Some? ==> title.value in STEP_TITLES
  {
    if !s.isTutorialOpen then None else Some(STEP_TITLES[s.currentStep])
  }

  datatype TutorialEvent = NextClicked | PrevClicked | SkipClicked

  function Apply(s: TutorialState, e: TutorialEvent): TutorialState
  {
    match e
    case NextClicked => Next(s)
    case PrevClicked => Prev(s)
    case SkipClicked => Skip(s)
  }

  /** The state after a sequence of clicks, in order. */
  function Replay(s: TutorialState, events: seq<TutorialEvent>): TutorialState
    decreases |events|
  {
    if events == [] then s else Replay(Apply(s, events[0]), events[1..])
  }

  function Repeat(e: TutorialEvent, n: nat): (events: seq<TutorialEvent>)
    ensures |events| == n && forall k :: 0 <= k < n ==> events[k] == e
  {
    if n == 0 then [] else [e] + Repeat(e, n - 1)
  }

  /** No sequence of clicks moves the page outside the six. */
  lemma {:induction false} ReplayKeepsStepInRange(s: TutorialState, events: seq<TutorialEvent>)
    requires StepInRange(s)
    ensures StepInRange(Replay(s, events))
    decreases |events|
  {
    if events != [] {
      ReplayKeepsStepInRange(Apply(s, events[0]), events[1..]);
    }
  }

  /** No click reopens a closed overlay, so once closed it renders nothing
      for as long as it stays mounted; while closed, clicks move no further
      than the page range. */
  lemma {:induction false} ClosedStaysClosed(s: TutorialState, events: seq<TutorialEvent>)
    requires StepInRange(s) && !s.isTutorialOpen
    ensures !Replay(s, events).isTutorialOpen
    ensures StepInRange(Replay(s, events)) && Rendered(Replay(s, events)) == None
    decreases |events|
  {
    if events != [] {
      ClosedStaysClosed(Apply(s, events[0]), events[1..]);
    }
  }

  /** From an open page i, n presses of "next" reach page i + n while that
      is a page; past the last page the overlay is closed on the last page. */
  lemma {:induction false} NextWalksThePages(i: int, n: nat)
    requires 0 <= i <= LAST_STEP
    ensures Replay(TutorialState(i, true), Repeat(NextClicked, n))
         == if i + n <= LAST_STEP then TutorialState(i + n, true) else TutorialState(LAST_STEP, false)
    decreases n
  {
    if n > 0 {
      var events := Repeat(NextClicked, n);
      assert events[1..] == Repeat(NextClicked, n - 1);
      if i < LAST_STEP {
        NextWalksThePages(i + 1, n - 1);
      } else {
        ClosedNextIsIdle(n - 1);
      }
    }
  }

  /** On the last page with the overlay closed, further "next" presses change nothing. */
  lemma {:induction false} ClosedNextIsIdle(n: nat)
    ensures Replay(TutorialState(LAST_STEP, false), Repeat(NextClicked, n)) == TutorialState(LAST_STEP, false)
    decreases n
  {
    if n > 0 {
      assert Repeat(NextClicked, n)[1..] == Repeat(NextClicked, n - 1);
      ClosedNextIsIdle(n - 1);
    }
  }

  /** The overlay component: the two state fields and the three click handlers. */
  class Tutorial {
    var currentStep: int
    var isTutorialOpen: bool

    function State(): TutorialState
      reads this
    {
      TutorialState(currentStep, isTutorialOpen)
    }

    predicate Valid()
      reads this
    {
      StepInRange(State())
    }

    constructor ()
      ensures Valid() && State() == INITIAL
    {
      currentStep := 0;
      isTutorialOpen := true;
    }

    method HandleNext()
      requires Valid()
      modifies this
      ensures Valid() && State() == Next(old(State()))
    {
      if currentStep < |STEP_TITLES| - 1 {
        currentStep := currentStep + 1;
      } else {
        isTutorialOpen := false;
      }
    }

    method HandlePrev()
      requires Valid()
      modifies this
      ensures Valid() && State() == Prev(old(State()))
    {
      if currentStep > 0 {
        currentStep := currentStep - 1;
      }
    }

    method HandleSkip()
      requires Valid()
      modifies this
      ensures Valid() && State() == Skip(old(State()))
    {
      isTutorialOpen := false;
    }

    /** The page title on display, or nothing once the overlay is closed. */
    method Render() returns (title: Option<string>)
      requires Valid()
      ensures title.None? <==> !isTutorialOpen
      ensures title.Some? ==> title.value == STEP_TITLES[currentStep]
      ensures title == Rendered(State())
    {
      if !isTutorialOpen {
        return None;
      }
      title := Some(STEP_TITLES[currentStep]);
    }
  }
}
