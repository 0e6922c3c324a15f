/**
  The back-navigation history of lib/navigation-test.ts: a stack of page
  numbers that starts at WELCOME, grows on every forward move and shrinks
  by one on every "back", never below its first entry.
 */
module NavigationHistory {
  import opened Options

  /** Page number of the wizard's first page. */
  const Welcome: int := 1

  /** What one "back" request gives: the page gone back to, if any, and the history left. */
  datatype BackStep = BackStep(previous: Option<int>, history: seq<int>)

  /**
    Specification of one "back" request on history `h`: refused (no page,
    history untouched) while at most one entry remains; otherwise exactly the
    last entry is dropped and the page gone back to is the new last entry.
   */
  function Back(h: seq<int>): (r: BackStep)
    ensures |h| <= 1 <==> r.previous == None
    ensures |h| <= 1 ==> r.history == h
    ensures |h| > 1 ==> |r.history| >= 1 && r.history + [h[|h| - 1]] == h
    ensures |h| > 1 ==> r.previous == Some(r.history[|r.history| - 1])
  {
    if |h| <= 1 then BackStep(None, h)
    else
      var popped := h[..|h| - 1];
      BackStep(Some(popped[|popped| - 1]), popped)
  }

  /** Going back right after a forward move undoes it and lands on the page before. */
  lemma BackUndoesForward(h: seq<int>, page: int)
    requires |h| >= 1
    ensures Back(h + [page]) == BackStep(Some(h[|h| - 1]), h)
  {
  }

  /** Going back never empties a non-empty history. */
  lemma NeverEmpty(h: seq<int>)
    requires |h| >= 1
    ensures |Back(h).history| >= 1
  {
  }

  class History {
    /** The pages visited, oldest first; the last entry is the current page. */
    var history: seq<int>

    /** The stack is never empty. */
    ghost predicate Valid()
      reads this
    {
      |history| >= 1
    }

    /** The history starts as the single entry WELCOME. */
    constructor ()
      ensures Valid()
      ensures history == [Welcome]
    {
      history := [Welcome];
    }

    /** `addToHistory`: appends the page; earlier entries are unchanged. */
    method AddToHistory(page: int)
      modifies this
      ensures Valid()
      ensures history == old(history) + [page]
    {
      history := history + [page];
    }

    /** `goBack`: `null` while at most one entry remains, else pop and return the new top. */
    method GoBack() returns (previous: Option<int>)
      modifies this
      ensures Valid() == old(Valid())
      ensures BackStep(previous, history) == Back(old(history))
    {
      if |history| <= 1 {
        return None;
      }
      history := history[..|history| - 1];
      previous := Some(history[|history| - 1]);
    }
  }

  /**
    The forward/backward walk of the navigation test: WELCOME, then pages 2,
    3, 7 and 8 forward, then five "back" requests, the last of them refused.
   */
  method NavigationFlow() returns (wentBackTo: seq<Option<int>>, finalHistory: seq<int>)
    ensures wentBackTo == [Some(7), Some(3), Some(2), Some(Welcome), None]
    ensures finalHistory == [Welcome]
  {
    var nav := new History();
    nav.AddToHistory(2);
    nav.AddToHistory(3);
    nav.AddToHistory(7);
    nav.AddToHistory(8);
    assert nav.history == [1, 2, 3, 7, 8];
    var back1 := nav.GoBack();
    var back2 := nav.GoBack();
    var back3 := nav.GoBack();
    var back4 := nav.GoBack();
    var back5 := nav.GoBack();
    wentBackTo := [back1, back2, back3, back4, back5];
    finalHistory := nav.history;
  }
}
