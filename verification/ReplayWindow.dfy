/** The replay guard of the monitor recovery endpoint: a queue and a set behind one lock, which together
    are a sliding window over the accepted challenges. */
module ReplayWindow {
  type Challenge = string

  const LIMIT: nat := 128

  datatype Guard = Guard(order: seq<Challenge>, seen: set<Challenge>)

  /** What the guard becomes, and whether the challenge is accepted. */
  function Consume(g: Guard, c: Challenge): (Guard, bool) {
    if c in g.seen then (g, false)
    else if |g.order| >= LIMIT then
      (Guard(g.order[1..] + [c], g.seen - {g.order[0]} + {c}), true)
    else (Guard(g.order + [c], g.seen + {c}), true)
  }

  class ReplayGuard {
    var order: seq<Challenge>
    var seen: set<Challenge>

    function Contents(): Guard
      reads this
    {
      Guard(order, seen)
    }

    constructor ()
      ensures Contents() == Guard([], {})
    {
      order, seen := [], {};
    }

    method ConsumeChallenge(c: Challenge) returns (accepted: bool)
      modifies this
      ensures (Contents(), accepted) == Consume(old(Contents()), c)
    {
      if c in seen { return false; }
      if |order| >= LIMIT {
        var oldest := order[0];
        order, seen := order[1..], seen - {oldest};
      }
      order, seen := order + [c], seen + {c};
      accepted := true;
    }
  }

  // ---------------------------------------------------------------- the sliding window

  function Last(accepted: seq<Challenge>): seq<Challenge> {
    if |accepted| > LIMIT then accepted[|accepted| - LIMIT..] else accepted
  }

  /** The accepted challenges of a run, by the window rule alone. */
  function Accepted(challenges: seq<Challenge>): seq<Challenge> {
    if challenges == [] then []
    else
      var before, c := Accepted(challenges[..|challenges| - 1]), challenges[|challenges| - 1];
      if c in Last(before) then before else before + [c]
  }

  function AfterRun(challenges: seq<Challenge>): Guard {
    if challenges == [] then Guard([], {})
    else Consume(AfterRun(challenges[..|challenges| - 1]), challenges[|challenges| - 1]).0
  }

  predicate Distinct(s: seq<Challenge>) { forall i, j :: 0 <= i < j < |s| ==> s[i] != s[j] }

  predicate Agree(g: Guard) { |g.order| <= LIMIT && Distinct(g.order) && g.seen == set c | c in g.order }

  lemma ConsumeKeepsAgreement(g: Guard, c: Challenge)
    requires Agree(g)
    ensures Agree(Consume(g, c).0)
  {
    if c !in g.seen && |g.order| >= LIMIT {
      var next := Consume(g, c).0;
      forall d ensures d in next.seen <==> d in next.order {
        assert g.order == [g.order[0]] + g.order[1..];
        if d in g.order[1..] {
          var i :| 0 <= i < |g.order[1..]| && g.order[1..][i] == d;
          assert g.order[i + 1] == d;
        }
      }
    }
  }

  lemma WindowSlides(accepted: seq<Challenge>, c: Challenge)
    ensures |Last(accepted)| == if |accepted| < LIMIT then |accepted| else LIMIT
    ensures Last(accepted + [c]) == if |accepted| >= LIMIT then Last(accepted)[1..] + [c] else Last(accepted) + [c]
  {
  }

  /** The queue and the set refine the window: after any run the queue is the last accepted challenges, at
      most 128 and all distinct, the set holds the same ones, and the next challenge is accepted if and only
      if it is not among the last 128 accepted. */
  lemma {:induction false} GuardIsWindow(challenges: seq<Challenge>, next: Challenge)
    ensures var g := AfterRun(challenges);
            && Agree(g) && g.order == Last(Accepted(challenges))
            && (Consume(g, next).1 <==> next !in Last(Accepted(challenges)))
    decreases |challenges|
  {
    hide Last, Distinct;
    if challenges == [] {
      NothingAccepted();
    } else {
      var before, c := challenges[..|challenges| - 1], challenges[|challenges| - 1];
      GuardIsWindow(before, c);
      ConsumeKeepsAgreement(AfterRun(before), c);
      WindowSlides(Accepted(before), c);
    }
  }

  lemma NothingAccepted()
    ensures Last([]) == [] && Distinct([])
  {
  }

  /** The window is 128 wide: the guard remembers just the last 128 accepted challenges, or all if there are fewer. */
  lemma WindowIs128(challenges: seq<Challenge>)
    ensures var g, accepted := AfterRun(challenges), Accepted(challenges);
            g.order == if |accepted| < 128 then accepted else accepted[|accepted| - 128..]
  {
    GuardIsWindow(challenges, "");
  }
}
