/**
 * Points, games, sets and serve of the hook-and-ring game (the "Scoring / Sets"
 * block of visual/app.js). Everything here is a function of the `game` record;
 * the in-place updates of that record live in Play.Table.
 */
module Scoring {
  import opened Wrappers

  /** Points needed to take a game. */
  const TARGET: nat := 21
  /** Games in a match. */
  const BEST_OF: nat := 3

  datatype Player = P1 | P2

  /** The opponent: the source's `(x === 1) ? 2 : 1`. */
  function Other(p: Player): (q: Player)
    ensures q != p
  {
    if p == P1 then P2 else P1
  }

  /** The `game` record: points in the running game, sets won, and who plays the next attempt. */
  datatype Game = Game(p1: nat, p2: nat, sets1: nat, sets2: nat, current: Player)

  /** The record a match starts from (and `hardReset` restores). */
  const NewMatch: Game := Game(0, 0, 0, 0, P1)

  function Max(a: int, b: int): int { if a >= b then a else b }
  function Min(a: int, b: int): int { if a <= b then a else b }

  /** `winByTwo(a, b, t)`: the leader has reached `t` and is at least two points clear. */
  function WinByTwo(a: int, b: int, t: int): (r: bool)
    ensures r <==> (a >= t && a - b >= 2) || (b >= t && b - a >= 2)
  {
    var hi := Max(a, b);
    var lo := Min(a, b);
    hi >= t && hi - lo >= 2
  }

  /** `setsToWin()`: the smallest number of sets that is a strict majority of BEST_OF. */
  function SetsToWin(): (n: nat)
    ensures BEST_OF < 2 * n <= BEST_OF + 2
  {
    BEST_OF / 2 + 1
  }

  /** `gameWinner()`: who has won the running game, if anyone. */
  function GameWinner(g: Game): (w: Option<Player>)
    ensures w == Some(P1) <==> g.p1 >= TARGET && g.p1 >= g.p2 + 2
    ensures w == Some(P2) <==> g.p2 >= TARGET && g.p2 >= g.p1 + 2
  {
    if WinByTwo(g.p1, g.p2, TARGET) then (if g.p1 > g.p2 then Some(P1) else Some(P2)) else None
  }

  /** `matchWinner()`: who has won the match; player 1 is looked at first. */
  function MatchWinner(g: Game): (w: Option<Player>)
    ensures w == Some(P1) <==> g.sets1 >= SetsToWin()
    ensures w == Some(P2) <==> g.sets1 < SetsToWin() <= g.sets2
    ensures w.None? <==> g.sets1 < SetsToWin() && g.sets2 < SetsToWin()
  {
    var n := SetsToWin();
    if g.sets1 >= n then Some(P1) else if g.sets2 >= n then Some(P2) else None
  }

  /** Nothing is decided on the board: no won game and no won match. */
  predicate InPlay(g: Game)
  {
    GameWinner(g).None? && MatchWinner(g).None?
  }

  /** `game.p1++` or `game.p2++`: the player whose turn it is takes the point. */
  function Award(g: Game): (r: Game)
    ensures r.current == g.current && r.sets1 == g.sets1 && r.sets2 == g.sets2
    ensures g.current == P1 ==> r.p1 == g.p1 + 1 && r.p2 == g.p2
    ensures g.current == P2 ==> r.p2 == g.p2 + 1 && r.p1 == g.p1
  {
    if g.current == P1 then g.(p1 := g.p1 + 1) else g.(p2 := g.p2 + 1)
  }

  /** The turn change `endAttempt` makes after every attempt. */
  function PassServe(g: Game): (r: Game)
    // only the turn changes, and passing it twice gives it back
    ensures r.current != g.current && r.(current := g.current) == g
    ensures Other(r.current) == g.current
  {
    g.(current := Other(g.current))
  }

  /**
   * The effect of `scorePoint`: the new record, and the winner whose
   * "announce, then hardReset" callback it scheduled (None when it scheduled nothing).
   */
  datatype Scored = Scored(game: Game, matchOver: Option<Player>)

  /** `scorePoint()` as a function of the record it starts from. */
  function AfterPoint(g: Game): (r: Scored)
    // unless the match is over, no won game is left on the board
    ensures r.matchOver.None? ==> GameWinner(r.game).None?
    // the callback is scheduled for exactly the player the record shows as match winner
    ensures r.matchOver.Some? ==> r.matchOver == MatchWinner(r.game)
    // one point awards at most one set
    ensures r.game.sets1 + r.game.sets2 <= g.sets1 + g.sets2 + 1
  {
    var g1 := Award(g);
    match GameWinner(g1)
    case None => Scored(g1, None)
    case Some(w) =>
      var g2 := if w == P1 then g1.(sets1 := g1.sets1 + 1) else g1.(sets2 := g1.sets2 + 1);
      var mw := MatchWinner(g2);
      if mw.Some? then Scored(g2, mw)
      else Scored(g2.(p1 := 0, p2 := 0, current := Other(w)), None)
  }

  /** A point that wins no game changes only the scorer's points. */
  lemma ServerOnlyScores(g: Game)
    requires GameWinner(Award(g)).None?
    ensures var r := AfterPoint(g);
      && r.matchOver.None?
      && r.game.sets1 == g.sets1 && r.game.sets2 == g.sets2 && r.game.current == g.current
      && (g.current == P1 ==> r.game.p1 == g.p1 + 1 && r.game.p2 == g.p2)
      && (g.current == P2 ==> r.game.p2 == g.p2 + 1 && r.game.p1 == g.p1)
  {
  }

  /** From a board with nothing decided, only the player who just scored can win the game. */
  lemma GameGoesToScorer(g: Game)
    requires InPlay(g)
    ensures GameWinner(Award(g)) != Some(Other(g.current))
  {
  }

  /** A game win short of the match: one more set for the scorer, points cleared, serve to the loser. */
  lemma GameWinClearsBoard(g: Game)
    requires InPlay(g) && GameWinner(Award(g)).Some? && AfterPoint(g).matchOver.None?
    ensures var r := AfterPoint(g).game;
      && r.p1 == 0 && r.p2 == 0 && r.current == Other(g.current)
      && (g.current == P1 ==> r.sets1 == g.sets1 + 1 && r.sets2 == g.sets2)
      && (g.current == P2 ==> r.sets2 == g.sets2 + 1 && r.sets1 == g.sets1)
  {
    GameGoesToScorer(g);
  }

  /**
   * A match win goes to the scorer with exactly SetsToWin() sets; `scorePoint`
   * returns early, so the points are not cleared and the serve is not changed.
   */
  lemma MatchWinKeepsPoints(g: Game)
    requires InPlay(g) && AfterPoint(g).matchOver.Some?
    ensures AfterPoint(g).matchOver == Some(g.current)
    ensures var r := AfterPoint(g).game;
      && r.p1 == Award(g).p1 && r.p2 == Award(g).p2 && r.current == g.current
      && (if g.current == P1 then r.sets1 else r.sets2) == SetsToWin()
      && (g.current == P1 ==> r.sets1 == g.sets1 + 1 && r.sets2 == g.sets2)
      && (g.current == P2 ==> r.sets2 == g.sets2 + 1 && r.sets1 == g.sets1)
  {
    GameGoesToScorer(g);
  }

  /** `scorePoint` keeps the board undecided unless it has scheduled the match reset. */
  lemma AfterPointInPlay(g: Game)
    requires InPlay(g) && AfterPoint(g).matchOver.None?
    ensures InPlay(AfterPoint(g).game)
  {
  }

  /**
   * A capture runs `scorePoint` and then `endAttempt`, which passes the serve once more:
   * the winner of a game plays the next attempt; otherwise the turn passes.
   */
  lemma CaptureServeOrder(g: Game)
    requires InPlay(g) && AfterPoint(g).matchOver.None?
    ensures GameWinner(Award(g)).Some? ==> PassServe(AfterPoint(g).game).current == g.current
    ensures GameWinner(Award(g)).None? ==> PassServe(AfterPoint(g).game).current == Other(g.current)
  {
    GameGoesToScorer(g);
  }

  /** 21-20 is not a game; 22-20 is; two sets win a best-of-three match. */
  lemma WinByTwoExamples()
    ensures !WinByTwo(21, 20, TARGET) && WinByTwo(22, 20, TARGET)
    ensures SetsToWin() == 2
  {
  }

  /** Player 1 takes the 21st point at 20-0: sets 1-0, points 0-0, player 2 to serve. */
  lemma TwentyOneLove()
    ensures AfterPoint(Game(20, 0, 0, 0, P1)) == Scored(Game(0, 0, 1, 0, P2), None)
  {
  }

  /** From 20-20 the server reaches 21-20 without a game, then takes it at 22-20. */
  lemma DeuceNeedsTwo()
    ensures AfterPoint(Game(20, 20, 0, 0, P1)) == Scored(Game(21, 20, 0, 0, P1), None)
    ensures AfterPoint(Game(21, 20, 0, 0, P1)) == Scored(Game(0, 0, 1, 0, P2), None)
  {
  }

  /** How an attempt ended: the ring was captured, or it settled or timed out. */
  datatype Attempt = Captured | Missed

  /**
   * The record once an attempt has run its course: a miss runs `endAttempt`; a capture
   * runs `scorePoint` then `endAttempt`, and a won match is then reset by its callback
   * (taken here to fire before the next attempt).
   */
  function AfterAttempt(g: Game, a: Attempt): (r: Game)
    ensures a == Missed ==> r == PassServe(g)
    ensures a == Captured && AfterPoint(g).matchOver.Some? ==> r == NewMatch
    ensures a == Captured && AfterPoint(g).matchOver.None? ==> r == PassServe(AfterPoint(g).game)
    // one attempt never leaves a decided game or match on an undecided board
    ensures InPlay(g) ==> InPlay(r)
  {
    match a
    case Missed => PassServe(g)
    case Captured =>
      var s := AfterPoint(g);
      if s.matchOver.Some? then NewMatch
      else
        assert InPlay(g) ==> InPlay(s.game) by {
          if InPlay(g) { AfterPointInPlay(g); }
        }
        PassServe(s.game)
  }

  /** The record after a sequence of attempts. */
  function Replay(g: Game, attempts: seq<Attempt>): (r: Game)
    // attempts that all miss never change points or sets
    ensures (forall i :: 0 <= i < |attempts| ==> attempts[i] == Missed) ==>
      r.p1 == g.p1 && r.p2 == g.p2 && r.sets1 == g.sets1 && r.sets2 == g.sets2
    decreases |attempts|
  {
    if attempts == [] then g else Replay(AfterAttempt(g, attempts[0]), attempts[1..])
  }

  /** Over any sequence of attempts, no decided game or match is ever left on the board. */
  lemma {:induction false} ReplayStaysInPlay(g: Game, attempts: seq<Attempt>)
    requires InPlay(g)
    ensures InPlay(Replay(g, attempts))
    decreases |attempts|
  {
    if attempts != [] {
      ReplayStaysInPlay(AfterAttempt(g, attempts[0]), attempts[1..]);
    }
  }

  /** Misses only alternate the turn: after n of them the points and sets are as they were. */
  lemma {:induction false} MissesAlternate(g: Game, n: nat)
    ensures Replay(g, seq(n, _ => Missed)) == if n % 2 == 0 then g else PassServe(g)
    decreases n
  {
    if n > 0 {
      var misses := seq(n, _ => Missed);
      assert misses[1..] == seq(n - 1, _ => Missed);
      MissesAlternate(PassServe(g), n - 1);
    }
  }
}
