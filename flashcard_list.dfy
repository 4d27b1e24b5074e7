/** The study session of the flash-card list component: the index of the card on
    show, which wraps around at either end, whether that card is flipped, and the
    set of card indices marked as mastered. */
module StudySession {

  /** A card as the front end receives it. */
  datatype Flashcard = Flashcard(prompt: string, answer: string, category: string, difficulty: string)

  /** JavaScript's `a % b`: the remainder of a division truncated toward zero, which
      takes the sign of `a`. */
  function JsRem(a: int, b: int): (r: int)
    requires b != 0
    ensures a >= 0 ==> 0 <= r < (if b > 0 then b else -b)
    ensures a <= 0 ==> -(if b > 0 then b else -b) < r <= 0
    ensures exists q :: a == q * b + r
  {
    var m := if b > 0 then b else -b;
    var r := if a >= 0 then a % m else -((-a) % m);
    assert a == (if a >= 0 then a / m else -((-a) / m)) * m + r;
    assert a == (if a >= 0 then a / m else -((-a) / m)) * (if b > 0 then 1 else -1) * b + r;
    r
  }

  /** The index `handleNext` moves to in a list of `n` cards. */
  function NextIndex(index: int, n: int): (r: int)
    requires n != 0
    ensures 0 <= index < n ==> 0 <= r < n
  {
    JsRem(index + 1, n)
  }

  /** The index `handlePrevious` moves to in a list of `n` cards. */
  function PreviousIndex(index: int, n: int): (r: int)
    requires n != 0
    ensures 0 <= index < n ==> 0 <= r < n
  {
    JsRem(index - 1 + n, n)
  }

  /** Next moves one card on, from the last card back to the first. */
  lemma NextWraps(index: int, n: int)
    requires 0 <= index < n
    ensures NextIndex(index, n) == if index == n - 1 then 0 else index + 1
  {
  }

  /** Previous moves one card back, from the first card to the last. */
  lemma PreviousWraps(index: int, n: int)
    requires 0 <= index < n
    ensures PreviousIndex(index, n) == if index == 0 then n - 1 else index - 1
  {
  }

  /** Previous after next, and next after previous, come back to the same card. */
  lemma NextPreviousInverse(index: int, n: int)
    requires 0 <= index < n
    ensures PreviousIndex(NextIndex(index, n), n) == index
    ensures NextIndex(PreviousIndex(index, n), n) == index
  {
    NextWraps(index, n);
    PreviousWraps(index, n);
    NextWraps(PreviousIndex(index, n), n);
    PreviousWraps(NextIndex(index, n), n);
  }

  /** `toggleMastered`'s new set: `index` leaves the set if it was in it and joins it
      otherwise; no other index changes. */
  function Toggled(mastered: set<int>, index: int): (r: set<int>)
    ensures index in r <==> index !in mastered
    ensures forall j :: j != index ==> (j in r <==> j in mastered)
  {
    if index in mastered then mastered - {index} else mastered + {index}
  }

  /** Toggling the same index twice gives back the set. */
  lemma ToggleTwice(mastered: set<int>, index: int)
    ensures Toggled(Toggled(mastered, index), index) == mastered
  {
  }

  /** A set of card indices has at most as many members as there are cards. */
  lemma {:induction false} MasteredBound(mastered: set<int>, n: nat)
    requires forall j :: j in mastered ==> 0 <= j < n
    ensures |mastered| <= n
    decreases n
  {
    if n == 0 {
      assert forall j :: j !in mastered;
      assert mastered == {};
    } else {
      var rest := mastered - {n - 1};
      MasteredBound(rest, n - 1);
      if n - 1 in mastered {
        assert mastered == rest + {n - 1};
      } else {
        assert mastered == rest;
      }
    }
  }

  /** The state of a session. */
  datatype Session = Session(index: int, flipped: bool, mastered: set<int>)

  /** What a user can do. */
  datatype Action = Next | Previous | ToggleMastered | Flip

  /** The state a freshly shown list starts in. */
  const Initial := Session(0, false, {})

  /** The index names a card and only cards are marked as mastered. */
  predicate ValidSession(s: Session, n: nat) {
    0 <= s.index < n && forall j :: j in s.mastered ==> 0 <= j < n
  }

  /** One user action on a list of `n` cards. */
  function Step(s: Session, n: nat, action: Action): (r: Session)
    requires n > 0
    ensures action != ToggleMastered ==> r.mastered == s.mastered
    ensures action == ToggleMastered || action == Flip ==> r.index == s.index
    ensures action == Next || action == Previous ==> !r.flipped
    ensures action == ToggleMastered ==> r.flipped == s.flipped
  {
    match action
    case Next => Session(NextIndex(s.index, n), false, s.mastered)
    case Previous => Session(PreviousIndex(s.index, n), false, s.mastered)
    case ToggleMastered => s.(mastered := Toggled(s.mastered, s.index))
    case Flip => s.(flipped := !s.flipped)
  }

  /** A sequence of user actions. */
  function Run(s: Session, n: nat, actions: seq<Action>): Session
    requires n > 0
    decreases |actions|
  {
    if actions == [] then s else Run(Step(s, n, actions[0]), n, actions[1..])
  }

  /** Every action keeps the session valid. */
  lemma StepKeepsValid(s: Session, n: nat, action: Action)
    requires n > 0 && ValidSession(s, n)
    ensures ValidSession(Step(s, n, action), n)
  {
    match action
    case Next => NextWraps(s.index, n);
    case Previous => PreviousWraps(s.index, n);
    case ToggleMastered =>
    case Flip =>
  }

  /** From the initial state, any sequence of actions keeps the index on a card and
      the mastered count within the number of cards. */
  lemma {:induction false} RunKeepsValid(s: Session, n: nat, actions: seq<Action>)
    requires n > 0 && ValidSession(s, n)
    ensures ValidSession(Run(s, n, actions), n)
    ensures |Run(s, n, actions).mastered| <= n
    decreases |actions|
  {
    if actions == [] {
      MasteredBound(s.mastered, n);
    } else {
      StepKeepsValid(s, n, actions[0]);
      RunKeepsValid(Step(s, n, actions[0]), n, actions[1..]);
    }
  }

  /** The flash-card list component's state. */
  class FlashcardList {
    const flashcards: seq<Flashcard>
    var currentIndex: int
    var isFlipped: bool
    var mastered: set<int>

    /** The state as a session value. */
    function State(): Session
      reads this
    {
      Session(currentIndex, isFlipped, mastered)
    }

    predicate Valid()
      reads this
    {
      ValidSession(State(), |flashcards|)
    }

    /** The list is only shown with at least one card. */
    constructor (flashcards: seq<Flashcard>)
      requires |flashcards| > 0
      ensures this.flashcards == flashcards
      ensures State() == Initial
      ensures Valid()
    {
      this.flashcards := flashcards;
      currentIndex := 0;
      isFlipped := false;
      mastered := {};
    }

    /** `currentCard` */
    function CurrentCard(): (card: Flashcard)
      requires Valid()
      reads this
      ensures card in flashcards
    {
      flashcards[currentIndex]
    }

    /** The "Mastered" count: in a valid state, never more than the number of cards. */
    function MasteredCount(): (count: int)
      reads this
      ensures Valid() ==> 0 <= count <= |flashcards|
    {
      assert Valid() ==> |mastered| <= |flashcards| by {
        if Valid() {
          MasteredBound(mastered, |flashcards|);
        }
      }
      |mastered|
    }

    /** The "Remaining" count: never negative, and with the mastered count it adds up
        to the number of cards. */
    function Remaining(): (count: int)
      requires Valid()
      reads this
      ensures count >= 0
      ensures MasteredCount() + count == |flashcards|
    {
      MasteredBound(mastered, |flashcards|);
      |flashcards| - |mastered|
    }

    /** `handleNext` */
    method HandleNext()
      requires Valid()
      modifies this
      ensures State() == Step(old(State()), |flashcards|, Next)
      ensures currentIndex == (if old(currentIndex) == |flashcards| - 1 then 0 else old(currentIndex) + 1)
      ensures !isFlipped && mastered == old(mastered)
      ensures Valid()
    {
      NextWraps(currentIndex, |flashcards|);
      isFlipped := false;
      currentIndex := JsRem(currentIndex + 1, |flashcards|);
    }

    /** `handlePrevious` */
    method HandlePrevious()
      requires Valid()
      modifies this
      ensures State() == Step(old(State()), |flashcards|, Previous)
      ensures currentIndex == (if old(currentIndex) == 0 then |flashcards| - 1 else old(currentIndex) - 1)
      ensures !isFlipped && mastered == old(mastered)
      ensures Valid()
    {
      PreviousWraps(currentIndex, |flashcards|);
      isFlipped := false;
      currentIndex := JsRem(currentIndex - 1 + |flashcards|, |flashcards|);
    }

    /** `toggleMastered`: a copy of the set, with the current index added or deleted. */
    method ToggleMastered()
      requires Valid()
      modifies this
      ensures State() == Step(old(State()), |flashcards|, Action.ToggleMastered)
      ensures currentIndex == old(currentIndex) && isFlipped == old(isFlipped)
      ensures Valid()
    {
      var newMastered := mastered;
      if currentIndex in newMastered {
        newMastered := newMastered - {currentIndex};
      } else {
        newMastered := newMastered + {currentIndex};
      }
      mastered := newMastered;
    }

    /** A click on the card. */
    method Flip()
      requires Valid()
      modifies this
      ensures State() == Step(old(State()), |flashcards|, Action.Flip)
      ensures isFlipped == !old(isFlipped)
      ensures currentIndex == old(currentIndex) && mastered == old(mastered)
      ensures Valid()
    {
      isFlipped := !isFlipped;
    }
  }
}
