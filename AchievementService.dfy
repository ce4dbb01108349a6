/**
 * The achievement evaluator of services/achievementService.js: the decision
 * for one achievement, and the loop that unlocks every achievement the user
 * does not hold yet. The database reads and writes become values and one
 * mutable set: the ids of the achievements the user holds.
 */
module AchievementService {
  import opened Wrappers
  import opened AchievementCatalogue

  /** The counters of the user row the evaluator reads. */
  datatype Stats = Stats(gamesWon: int, winStreak: int, gamesPlayed: int)

  /** A recorded move; only its timestamp, in milliseconds, is read. */
  datatype MoveRecord = MoveRecord(timestamp: int)

  /** The finished game the evaluator is called for. */
  datatype GameResult = GameResult(result: string, moves: seq<MoveRecord>)

  /** The error raised when the `fast_win` test reads the timestamp of a move that does not exist. */
  datatype Fault = MissingMove

  /** An Achievement row: its primary key and the catalogue fields it was seeded with. */
  datatype Stored = Stored(id: nat, achievement: Achievement)

  const Win: string := "win"
  const PerfectMoveLimit: int := 5
  const FastWinMillis: int := 10000

  /** The conditions the evaluator has a branch for; any other never unlocks. */
  const HandledConditions: seq<string> := ["wins", "streak", "games", "perfect", "diagonal_wins", "fast_win"]

  /** The three conditions that compare a user counter against the threshold. */
  predicate IsCounterCondition(condition: string)
  {
    condition == "wins" || condition == "streak" || condition == "games"
  }

  /** The counter a counter condition compares. */
  function Counter(user: Stats, condition: string): int
    requires IsCounterCondition(condition)
  {
    if condition == "wins" then user.gamesWon
    else if condition == "streak" then user.winStreak
    else user.gamesPlayed
  }

  // ---------------------------------------------------------------------------
  // checkAchievementCondition
  // ---------------------------------------------------------------------------

  /**
   * Whether `a` is earned. `diagonalWins` stands for `checkDiagonalWins`,
   * which is not part of this model. The `fast_win` test indexes the move
   * list only after the result test, so it faults only on a won game without
   * moves.
   */
  function CheckAchievementCondition(user: Stats, a: Achievement, game: GameResult,
                                     diagonalWins: (Stats, int) -> bool): (r: Result<bool, Fault>)
    ensures r.Failure? <==> a.condition == "fast_win" && game.result == Win && |game.moves| == 0
    ensures r == Success(true) ==> a.condition in HandledConditions
  {
    if a.condition == "wins" then Success(user.gamesWon >= a.threshold)
    else if a.condition == "streak" then Success(user.winStreak >= a.threshold)
    else if a.condition == "games" then Success(user.gamesPlayed >= a.threshold)
    else if a.condition == "perfect" then Success(|game.moves| <= PerfectMoveLimit && game.result == Win)
    else if a.condition == "diagonal_wins" then Success(diagonalWins(user, a.threshold))
    else if a.condition == "fast_win" then
      if game.result != Win then Success(false)
      else if |game.moves| == 0 then Failure(MissingMove)
      else Success(game.moves[|game.moves| - 1].timestamp - game.moves[0].timestamp <= FastWinMillis)
    else Success(false)
  }

  /** A counter condition is a threshold on its counter: it unlocks exactly from the threshold upward. */
  lemma CounterConditionIsThreshold(u: Stats, v: Stats, a: Achievement, g: GameResult, h: GameResult,
                                    diagonalWins: (Stats, int) -> bool)
    requires IsCounterCondition(a.condition)
    ensures CheckAchievementCondition(u, a, g, diagonalWins) == Success(Counter(u, a.condition) >= a.threshold)
    ensures Counter(u, a.condition) <= Counter(v, a.condition) && CheckAchievementCondition(u, a, g, diagonalWins) == Success(true)
            ==> CheckAchievementCondition(v, a, h, diagonalWins) == Success(true)
  {
  }

  /** `perfect` and `fast_win` are never earned by a game that was not won, whatever the counters. */
  lemma OnlyAWinEarnsGameConditions(u: Stats, a: Achievement, g: GameResult, diagonalWins: (Stats, int) -> bool)
    requires a.condition == "perfect" || a.condition == "fast_win"
    requires g.result != Win
    ensures CheckAchievementCondition(u, a, g, diagonalWins) == Success(false)
  {
  }

  /** A won game earns `perfect` exactly when it took at most five moves, whatever the threshold. */
  lemma PerfectIsShortWin(u: Stats, a: Achievement, g: GameResult, diagonalWins: (Stats, int) -> bool)
    requires a.condition == "perfect" && g.result == Win
    ensures CheckAchievementCondition(u, a, g, diagonalWins) == Success(|g.moves| <= 5)
  {
  }

  /** A won game with moves earns `fast_win` exactly when its first and last moves are at most ten seconds apart. */
  lemma FastWinIsQuickWin(u: Stats, a: Achievement, g: GameResult, diagonalWins: (Stats, int) -> bool)
    requires a.condition == "fast_win" && g.result == Win && |g.moves| > 0
    ensures CheckAchievementCondition(u, a, g, diagonalWins)
         == Success(g.moves[|g.moves| - 1].timestamp - g.moves[0].timestamp <= 10000)
  {
  }

  /** A condition without a branch, such as `comeback` or `unique_opponents`, is never earned. */
  lemma UnhandledConditionNeverUnlocks(u: Stats, a: Achievement, g: GameResult, diagonalWins: (Stats, int) -> bool)
    requires a.condition !in HandledConditions
    ensures CheckAchievementCondition(u, a, g, diagonalWins) == Success(false)
  {
  }

  /** Of the catalogue, Comeback King and Social Butterfly can never be earned, whatever the user and the game. */
  lemma ComebackAndSocialNeverUnlock(u: Stats, g: GameResult, diagonalWins: (Stats, int) -> bool)
    ensures CheckAchievementCondition(u, Catalogue()[6], g, diagonalWins) == Success(false)
    ensures CheckAchievementCondition(u, Catalogue()[7], g, diagonalWins) == Success(false)
  {
    UnhandledConditionNeverUnlocks(u, Catalogue()[6], g, diagonalWins);
    UnhandledConditionNeverUnlocks(u, Catalogue()[7], g, diagonalWins);
  }

  /** First Victory is earned exactly once the user has won a game. */
  lemma FirstVictoryMeansOneWin(u: Stats, g: GameResult, diagonalWins: (Stats, int) -> bool)
    ensures CheckAchievementCondition(u, Catalogue()[0], g, diagonalWins) == Success(u.gamesWon >= 1)
  {
  }

  // ---------------------------------------------------------------------------
  // checkAchievements: the unlock loop
  // ---------------------------------------------------------------------------

  /** The ids of some rows. */
  function Ids(rows: seq<Stored>): (ids: set<nat>)
    ensures forall x :: x in rows ==> x.id in ids
    ensures forall id :: id in ids ==> exists x :: x in rows && x.id == id
  {
    set x | x in rows :: x.id
  }

  /** What the loop has done after the rows `rows`: the rows unlocked, and the fault that stopped it, if one did. */
  datatype Progress = Progress(unlocked: seq<Stored>, fault: Option<Fault>)

  /**
   * The loop over the Achievement rows, in the order they are read: a row
   * whose id the user held when the loop started is skipped, any other is
   * unlocked when its condition holds, and a fault ends the loop.
   */
  function Scan(user: Stats, held: set<nat>, rows: seq<Stored>, game: GameResult,
                diagonalWins: (Stats, int) -> bool): (p: Progress)
    ensures |p.unlocked| <= |rows|
    ensures forall x :: x in p.unlocked ==>
      && x in rows
      && x.id !in held
      && CheckAchievementCondition(user, x.achievement, game, diagonalWins) == Success(true)
  {
    if rows == [] then Progress([], None)
    else
      var p := Scan(user, held, rows[..|rows| - 1], game, diagonalWins);
      var row := rows[|rows| - 1];
      if p.fault.Some? || row.id in held then p
      else
        match CheckAchievementCondition(user, row.achievement, game, diagonalWins)
        case Failure(e) => Progress(p.unlocked, Some(e))
        case Success(earned) => if earned then Progress(p.unlocked + [row], None) else p
  }

  /** Without a fault, every row not held whose condition holds is unlocked: with `Scan`'s own contract, the unlocked rows are exactly those. */
  lemma {:induction false} ScanComplete(user: Stats, held: set<nat>, rows: seq<Stored>, game: GameResult,
                                         diagonalWins: (Stats, int) -> bool)
    requires Scan(user, held, rows, game, diagonalWins).fault.None?
    ensures forall x :: (x in rows && x.id !in held &&
      CheckAchievementCondition(user, x.achievement, game, diagonalWins) == Success(true)) ==>
        x in Scan(user, held, rows, game, diagonalWins).unlocked
  {
    if rows != [] {
      var init := rows[..|rows| - 1];
      assert Scan(user, held, init, game, diagonalWins).fault.None?;
      ScanComplete(user, held, init, game, diagonalWins);
      assert rows == init + [rows[|rows| - 1]];
    }
  }

  /** `s` occurs in `t` in order, possibly with gaps. */
  ghost predicate Subsequence<T>(s: seq<T>, t: seq<T>)
    decreases |t|
  {
    s == [] ||
    (t != [] &&
      (Subsequence(s, t[..|t| - 1]) ||
       (s[|s| - 1] == t[|t| - 1] && Subsequence(s[..|s| - 1], t[..|t| - 1]))))
  }

  /** Adding an element to the end of the longer sequence keeps a subsequence one. */
  lemma SubsequenceExtend<T>(s: seq<T>, t: seq<T>, x: T)
    requires Subsequence(s, t)
    ensures Subsequence(s, t + [x]) && Subsequence(s + [x], t + [x])
  {
    assert (t + [x])[..|t|] == t;
    assert (s + [x])[..|s|] == s;
  }

  /** The unlocked rows appear in the order of the rows read. */
  lemma {:induction false} ScanFollowsRowOrder(user: Stats, held: set<nat>, rows: seq<Stored>, game: GameResult,
                                                diagonalWins: (Stats, int) -> bool)
    ensures Subsequence(Scan(user, held, rows, game, diagonalWins).unlocked, rows)
  {
    if rows != [] {
      var init := rows[..|rows| - 1];
      ScanFollowsRowOrder(user, held, init, game, diagonalWins);
      SubsequenceExtend(Scan(user, held, init, game, diagonalWins).unlocked, init, rows[|rows| - 1]);
      assert init + [rows[|rows| - 1]] == rows;
    }
  }

  /** Row ids are primary keys: no two rows share one. */
  predicate DistinctIds(rows: seq<Stored>)
  {
    forall i, j :: 0 <= i < j < |rows| ==> rows[i].id != rows[j].id
  }

  /** With distinct row ids, each achievement is unlocked at most once. */
  lemma {:induction false} ScanUnlocksEachOnce(user: Stats, held: set<nat>, rows: seq<Stored>, game: GameResult,
                                                diagonalWins: (Stats, int) -> bool)
    requires DistinctIds(rows)
    ensures DistinctIds(Scan(user, held, rows, game, diagonalWins).unlocked)
  {
    if rows != [] {
      var init := rows[..|rows| - 1];
      var row := rows[|rows| - 1];
      assert DistinctIds(init);
      ScanUnlocksEachOnce(user, held, init, game, diagonalWins);
      var u := Scan(user, held, init, game, diagonalWins).unlocked;
      forall x | x in u ensures x.id != row.id {
        var k :| 0 <= k < |init| && init[k] == x;
      }
    }
  }

  /** Once a fault has stopped the loop, later rows change nothing. */
  lemma {:induction false} ScanStopsAtFault(user: Stats, held: set<nat>, rows: seq<Stored>, k: nat, m: nat,
                                             game: GameResult, diagonalWins: (Stats, int) -> bool)
    requires k <= m <= |rows|
    requires Scan(user, held, rows[..k], game, diagonalWins).fault.Some?
    ensures Scan(user, held, rows[..m], game, diagonalWins) == Scan(user, held, rows[..k], game, diagonalWins)
    decreases m
  {
    if m > k {
      ScanStopsAtFault(user, held, rows, k, m - 1, game, diagonalWins);
      assert rows[..m][..m - 1] == rows[..m - 1];
    }
  }

  /** A fault comes only from a won game without moves. */
  lemma {:induction false} ScanFaultsOnlyOnEmptyWin(user: Stats, held: set<nat>, rows: seq<Stored>, game: GameResult,
                                                     diagonalWins: (Stats, int) -> bool)
    requires Scan(user, held, rows, game, diagonalWins).fault.Some?
    ensures game.result == Win && |game.moves| == 0
  {
    var init := rows[..|rows| - 1];
    if Scan(user, held, init, game, diagonalWins).fault.Some? {
      ScanFaultsOnlyOnEmptyWin(user, held, init, game, diagonalWins);
    }
  }

  /**
   * Running the loop again with the same counters and game, against the held
   * set the first run left behind, unlocks nothing: every row is either held
   * now or failed its condition the first time.
   */
  lemma {:induction false} RescanUnlocksNothing(user: Stats, held: set<nat>, after: set<nat>, rows: seq<Stored>,
                                                 game: GameResult, diagonalWins: (Stats, int) -> bool)
    requires Scan(user, held, rows, game, diagonalWins).fault.None?
    requires held + Ids(Scan(user, held, rows, game, diagonalWins).unlocked) <= after
    ensures Scan(user, after, rows, game, diagonalWins) == Progress([], None)
  {
    if rows != [] {
      var init := rows[..|rows| - 1];
      var row := rows[|rows| - 1];
      var first := Scan(user, held, init, game, diagonalWins);
      assert first.fault.None?;
      assert Ids(first.unlocked) <= Ids(Scan(user, held, rows, game, diagonalWins).unlocked);
      RescanUnlocksNothing(user, held, after, init, game, diagonalWins);
    }
  }

  /**
   * The same holds after a faulted first run, whose unlocks were written
   * before the fault: when the held set is now exactly what the first run
   * left, a second run unlocks nothing and stops at the same fault.
   */
  lemma {:induction false} RescanRepeatsOnlyTheFault(user: Stats, held: set<nat>, after: set<nat>, rows: seq<Stored>,
                                                      game: GameResult, diagonalWins: (Stats, int) -> bool)
    requires DistinctIds(rows)
    requires forall x :: x in rows ==>
      (x.id in after <==> x.id in held || x.id in Ids(Scan(user, held, rows, game, diagonalWins).unlocked))
    ensures Scan(user, after, rows, game, diagonalWins) == Progress([], Scan(user, held, rows, game, diagonalWins).fault)
  {
    if rows != [] {
      var init := rows[..|rows| - 1];
      var row := rows[|rows| - 1];
      var first := Scan(user, held, init, game, diagonalWins);
      assert DistinctIds(init);
      forall x | x in init ensures x.id != row.id {
        var k :| 0 <= k < |init| && init[k] == x;
      }
      assert Ids(first.unlocked) <= Ids(Scan(user, held, rows, game, diagonalWins).unlocked);
      assert Ids(Scan(user, held, rows, game, diagonalWins).unlocked) <= Ids(first.unlocked) + {row.id};
      RescanRepeatsOnlyTheFault(user, held, after, init, game, diagonalWins);
    }
  }

  /** The rows that can be unlocked never include an entry whose condition has no branch. */
  lemma ScanNeverUnlocksUnhandled(user: Stats, held: set<nat>, rows: seq<Stored>, game: GameResult,
                                  diagonalWins: (Stats, int) -> bool)
    ensures forall x :: x in Scan(user, held, rows, game, diagonalWins).unlocked ==>
      x.achievement != Catalogue()[6] && x.achievement != Catalogue()[7]
  {
    forall x | x in Scan(user, held, rows, game, diagonalWins).unlocked
      ensures x.achievement != Catalogue()[6] && x.achievement != Catalogue()[7]
    {
      ComebackAndSocialNeverUnlock(user, game, diagonalWins);
    }
  }

  /** One more row after a prefix that did not fault: skipped if held, else judged by its condition. */
  lemma ScanOneMore(user: Stats, held: set<nat>, rows: seq<Stored>, i: nat, game: GameResult,
                    diagonalWins: (Stats, int) -> bool)
    requires i < |rows| && Scan(user, held, rows[..i], game, diagonalWins).fault.None?
    ensures var p := Scan(user, held, rows[..i], game, diagonalWins);
      Scan(user, held, rows[..i + 1], game, diagonalWins)
      == if rows[i].id in held then p
         else match CheckAchievementCondition(user, rows[i].achievement, game, diagonalWins)
           case Failure(e) => Progress(p.unlocked, Some(e))
           case Success(earned) => if earned then Progress(p.unlocked + [rows[i]], None) else p
  {
    assert rows[..i + 1][..i] == rows[..i];
  }

  /** The state of the unlock loop after `i` rows: no fault so far, and the held set grown by the unlocked ids. */
  ghost predicate Unlocking(user: Stats, loaded: set<nat>, rows: seq<Stored>, i: nat, game: GameResult,
                            diagonalWins: (Stats, int) -> bool, unlocked: seq<Stored>, held: set<nat>)
  {
    i <= |rows| &&
    Scan(user, loaded, rows[..i], game, diagonalWins) == Progress(unlocked, None) &&
    held == loaded + Ids(unlocked)
  }

  /** One more row of the unlock loop: skipped if held, unlocked if its condition holds, and a fault ends the loop. */
  lemma UnlockingStep(user: Stats, loaded: set<nat>, rows: seq<Stored>, i: nat, game: GameResult,
                      diagonalWins: (Stats, int) -> bool, unlocked: seq<Stored>, held: set<nat>)
    requires i < |rows| && Unlocking(user, loaded, rows, i, game, diagonalWins, unlocked, held)
    ensures var c := CheckAchievementCondition(user, rows[i].achievement, game, diagonalWins);
      && (rows[i].id in loaded || c == Success(false) ==>
            Unlocking(user, loaded, rows, i + 1, game, diagonalWins, unlocked, held))
      && (rows[i].id !in loaded && c == Success(true) ==>
            Unlocking(user, loaded, rows, i + 1, game, diagonalWins, unlocked + [rows[i]], held + {rows[i].id}))
      && (rows[i].id !in loaded && c.Failure? ==>
            Scan(user, loaded, rows, game, diagonalWins) == Progress(unlocked, Some(c.error)))
  {
    ScanOneMore(user, loaded, rows, i, game, diagonalWins);
    var c := CheckAchievementCondition(user, rows[i].achievement, game, diagonalWins);
    if rows[i].id !in loaded && c.Failure? {
      ScanStopsAtFault(user, loaded, rows, i + 1, |rows|, game, diagonalWins);
      assert rows[..|rows|] == rows;
    }
    if rows[i].id !in loaded && c == Success(true) {
      assert Ids(unlocked + [rows[i]]) == Ids(unlocked) + {rows[i].id};
    }
  }

  /** A user's record, as far as the evaluator reads and changes it. */
  class Account {
    const stats: Stats
    /** The ids of the achievements the user holds. */
    var held: set<nat>

    constructor (stats: Stats, held: set<nat>)
      ensures this.stats == stats && this.held == held
    {
      this.stats := stats;
      this.held := held;
    }

    /**
     * `checkAchievements`: visits the Achievement rows in order and grants each
     * one the user did not hold when the loop started and whose condition
     * holds. A fault ends the loop and is passed on; what was granted before
     * it stays granted.
     */
    method CheckAchievements(rows: seq<Stored>, game: GameResult, diagonalWins: (Stats, int) -> bool)
      returns (r: Result<seq<Stored>, Fault>)
      modifies this`held
      ensures var p := Scan(stats, old(held), rows, game, diagonalWins);
        && held == old(held) + Ids(p.unlocked)
        && r == (if p.fault.Some? then Failure(p.fault.value) else Success(p.unlocked))
    {
      var loaded := held;
      var newAchievements: seq<Stored> := [];
      var i := 0;
      assert rows[..0] == [];
      while i < |rows|
        invariant i <= |rows|
        invariant Unlocking(stats, loaded, rows, i, game, diagonalWins, newAchievements, held)
      {
        var row := rows[i];
        UnlockingStep(stats, loaded, rows, i, game, diagonalWins, newAchievements, held);
        if row.id !in loaded {
          var unlocked := CheckAchievementCondition(stats, row.achievement, game, diagonalWins);
          if unlocked.Failure? {
            return Failure(unlocked.error);
          }
          if unlocked.value {
            held := held + {row.id};
            newAchievements := newAchievements + [row];
          }
        }
        i := i + 1;
      }
      assert rows[..i] == rows;
      return Success(newAchievements);
    }
  }
}
