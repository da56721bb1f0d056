/** The hero banner's typewriter: one timer tick at a time it types a phrase,
    pauses, deletes it and moves on to the next of four phrases. */
module Typewriter {
  import opened Wrappers

  const TextArray: seq<string> :=
    ["Software Developer", "Full Stack Engineer", "Problem Solver", "Tech Enthusiast"]

  datatype TypewriterState = TypewriterState(currentText: string, isTyping: bool, currentIndex: nat)

  const Initial := TypewriterState("", true, 0)

  function Target(s: TypewriterState): string
    requires s.currentIndex < |TextArray|
  {
    TextArray[s.currentIndex]
  }

  /** The invariant every reachable state keeps: a valid phrase index and a
      text that is a prefix of that phrase. */
  predicate Valid(s: TypewriterState) {
    s.currentIndex < |TextArray| && s.currentText <= TextArray[s.currentIndex]
  }

  /** The four branches of the effect, in the order the source tests them. */
  datatype Branch = TypeNext | PauseAtEnd | DeleteLast | NextPhrase

  /** The guard of each branch, on its own. */
  predicate Applies(s: TypewriterState, b: Branch)
    requires s.currentIndex < |TextArray|
  {
    match b
    case TypeNext => s.isTyping && |s.currentText| < |Target(s)|
    case PauseAtEnd => s.isTyping && |s.currentText| == |Target(s)|
    case DeleteLast => !s.isTyping && |s.currentText| > 0
    case NextPhrase => !s.isTyping && |s.currentText| == 0
  }

  /** The branch whose timer the effect schedules; None if no guard holds. */
  function Scheduled(s: TypewriterState): (b: Option<Branch>)
    requires s.currentIndex < |TextArray|
    ensures b.Some? ==> Applies(s, b.value)
    ensures Valid(s) ==> b.Some?
  {
    assert Valid(s) ==> |s.currentText| <= |Target(s)|;
    if Applies(s, TypeNext) then Some(TypeNext)
    else if Applies(s, PauseAtEnd) then Some(PauseAtEnd)
    else if Applies(s, DeleteLast) then Some(DeleteLast)
    else if Applies(s, NextPhrase) then Some(NextPhrase)
    else None
  }

  /** The timer delay, in milliseconds, of each branch. */
  function Delay(b: Branch): (ms: nat)
    ensures 50 <= ms <= 2000
  {
    match b
    case TypeNext => 100
    case PauseAtEnd => 2000
    case DeleteLast => 50
    case NextPhrase => 300
  }

  /** The state after the scheduled timer fired. With no branch scheduled no
      timer exists and the state stays as it is. */
  function Step(s: TypewriterState): (r: TypewriterState)
    requires s.currentIndex < |TextArray|
    ensures r.currentIndex < |TextArray|
  {
    match Scheduled(s)
    case None => s
    case Some(TypeNext) => s.(currentText := Target(s)[..|s.currentText| + 1])
    case Some(PauseAtEnd) => s.(isTyping := false)
    case Some(DeleteLast) => s.(currentText := s.currentText[..|s.currentText| - 1])
    case Some(NextPhrase) => s.(currentIndex := (s.currentIndex + 1) % |TextArray|, isTyping := true)
  }

  /** In a valid state exactly one branch applies, and it is the scheduled one. */
  lemma ExactlyOneBranch(s: TypewriterState)
    requires Valid(s)
    ensures Scheduled(s).Some?
    ensures forall b :: Applies(s, b) <==> b == Scheduled(s).value
  {
    assert |s.currentText| <= |Target(s)|;
  }

  /** The delays of the four branches are 100, 2000, 50 and 300 ms. */
  lemma ScheduledDelay(s: TypewriterState)
    requires Valid(s)
    ensures s.isTyping && s.currentText != Target(s) ==> Delay(Scheduled(s).value) == 100
    ensures s.isTyping && s.currentText == Target(s) ==> Delay(Scheduled(s).value) == 2000
    ensures !s.isTyping && s.currentText != [] ==> Delay(Scheduled(s).value) == 50
    ensures !s.isTyping && s.currentText == [] ==> Delay(Scheduled(s).value) == 300
  {
  }

  /** What one tick does in a valid state: typing appends the target's next
      character; at the end of the phrase typing switches to deleting with
      the text unchanged; deleting drops exactly the last character; with
      nothing left the next phrase (modulo four) is typed. */
  lemma StepEffect(s: TypewriterState)
    requires Valid(s)
    ensures var r := Step(s);
            s.isTyping && |s.currentText| < |Target(s)| ==>
              r == s.(currentText := s.currentText + [Target(s)[|s.currentText|]])
    ensures var r := Step(s);
            s.isTyping && s.currentText == Target(s) ==> r == s.(isTyping := false)
    ensures var r := Step(s);
            !s.isTyping && s.currentText != [] ==>
              r.currentText + [s.currentText[|s.currentText| - 1]] == s.currentText
              && r.isTyping == s.isTyping && r.currentIndex == s.currentIndex
    ensures var r := Step(s);
            !s.isTyping && s.currentText == [] ==>
              r == TypewriterState("", true, (s.currentIndex + 1) % 4)
  {
    var t := Target(s);
    if s.isTyping && |s.currentText| < |t| {
      assert t[..|s.currentText| + 1] == t[..|s.currentText|] + [t[|s.currentText|]];
    }
  }

  /** Every tick keeps the invariant. */
  lemma StepPreservesValid(s: TypewriterState)
    requires Valid(s)
    ensures Valid(Step(s))
  {
    var t := Target(s);
    match Scheduled(s).value
    case TypeNext =>
      assert t[..|s.currentText| + 1] <= t;
    case PauseAtEnd =>
    case DeleteLast =>
      assert s.currentText[..|s.currentText| - 1] <= t;
    case NextPhrase =>
  }

  /** The state after `n` ticks. */
  function Run(s: TypewriterState, n: nat): (r: TypewriterState)
    requires s.currentIndex < |TextArray|
    ensures r.currentIndex < |TextArray|
    decreases n
  {
    if n == 0 then s else Run(Step(s), n - 1)
  }

  lemma {:induction false} RunPreservesValid(s: TypewriterState, n: nat)
    requires Valid(s)
    ensures Valid(Run(s, n))
    decreases n
  {
    if n > 0 {
      StepPreservesValid(s);
      RunPreservesValid(Step(s), n - 1);
    }
  }

  lemma {:induction false} RunAdd(s: TypewriterState, m: nat, n: nat)
    requires s.currentIndex < |TextArray|
    ensures Run(s, m + n) == Run(Run(s, m), n)
    decreases m
  {
    if m > 0 {
      RunAdd(Step(s), m - 1, n);
    }
  }

  /** Typing from a prefix of length k reaches the whole phrase after
      |phrase| - k ticks. */
  lemma {:induction false} TypingReachesPhrase(i: nat, k: nat)
    requires i < |TextArray| && k <= |TextArray[i]|
    ensures Run(TypewriterState(TextArray[i][..k], true, i), |TextArray[i]| - k)
            == TypewriterState(TextArray[i], true, i)
    decreases |TextArray[i]| - k
  {
    var t := TextArray[i];
    var s := TypewriterState(t[..k], true, i);
    if k == |t| {
      assert t[..k] == t;
    } else {
      assert Step(s) == TypewriterState(t[..k + 1], true, i);
      TypingReachesPhrase(i, k + 1);
    }
  }

  /** Deleting from a prefix of length k empties the text after k ticks. */
  lemma {:induction false} DeletingEmptiesText(i: nat, k: nat)
    requires i < |TextArray| && k <= |TextArray[i]|
    ensures Run(TypewriterState(TextArray[i][..k], false, i), k) == TypewriterState("", false, i)
  {
    var t := TextArray[i];
    if k > 0 {
      assert t[..k][..k - 1] == t[..k - 1];
      DeletingEmptiesText(i, k - 1);
    }
  }

  /** One full cycle: starting to type phrase i with an empty text, after
      2 * |phrase| + 2 ticks the typewriter starts phrase (i + 1) mod 4. */
  lemma FullCycle(i: nat)
    requires i < |TextArray|
    ensures Run(TypewriterState("", true, i), 2 * |TextArray[i]| + 2)
            == TypewriterState("", true, (i + 1) % 4)
  {
    var t := TextArray[i];
    var start := TypewriterState("", true, i);
    assert t[..0] == "";
    TypingReachesPhrase(i, 0);
    var typed := TypewriterState(t, true, i);
    assert Step(typed) == TypewriterState(t[..|t|], false, i);
    DeletingEmptiesText(i, |t|);
    var emptied := TypewriterState("", false, i);
    assert Run(emptied, 1) == TypewriterState("", true, (i + 1) % 4);
    RunAdd(start, |t|, 1);
    RunAdd(start, |t| + 1, |t|);
    RunAdd(start, 2 * |t| + 1, 1);
  }

  /** The component's state variables, updated in place by each timer tick. */
  class TypewriterEffect {
    var currentText: string
    var isTyping: bool
    var currentIndex: nat

    function State(): TypewriterState
      reads this
    {
      TypewriterState(currentText, isTyping, currentIndex)
    }

    constructor ()
      ensures State() == Initial && Valid(State())
    {
      currentText := "";
      isTyping := true;
      currentIndex := 0;
    }

    /** The delay of the timer the effect has scheduled, if any. */
    function PendingDelay(): (d: Option<nat>)
      reads this
      requires currentIndex < |TextArray|
      ensures Valid(State()) ==> d.Some?
    {
      match Scheduled(State())
      case None => None
      case Some(b) => Some(Delay(b))
    }

    /** The scheduled timer fires. */
    method Tick()
      requires currentIndex < |TextArray|
      modifies this
      ensures State() == Step(old(State()))
      ensures old(Valid(State())) ==> Valid(State())
    {
      if Valid(State()) {
        StepPreservesValid(State());
      }
      var targetText := TextArray[currentIndex];
      if isTyping && |currentText| < |targetText| {
        currentText := targetText[..|currentText| + 1];
      } else if isTyping && |currentText| == |targetText| {
        isTyping := false;
      } else if !isTyping && |currentText| > 0 {
        currentText := currentText[..|currentText| - 1];
      } else if !isTyping && |currentText| == 0 {
        currentIndex := (currentIndex + 1) % |TextArray|;
        isTyping := true;
      }
    }
  }
}
