/** The whole match as a state machine on values: the state is the two
    scores and the tree stack, each round resolves two choices, credits
    the winner and updates the stack with the new score difference. */
module Match {
  import opened Rps
  import opened Tree

  datatype MatchState = MatchState(score1: nat, score2: nat, tree: seq<string>)

  /** The state before the first round. */
  const Initial: MatchState := MatchState(0, 0, [])

  function Min(a: int, b: int): int {
    if a <= b then a else b
  }

  /** One round: the winner's name is compared with each agent's name, the
      matching agent scores a point, then the stack moves one step. */
  function Round(s: MatchState, name1: string, name2: string, choice1: Choice, choice2: Choice): (r: MatchState)
    requires ValidNames(name1, name2)
    ensures Beats(choice1, choice2) ==> r.score1 == s.score1 + 1 && r.score2 == s.score2
    ensures Beats(choice2, choice1) ==> r.score1 == s.score1 && r.score2 == s.score2 + 1
    ensures choice1 == choice2 ==> r.score1 == s.score1 && r.score2 == s.score2
    ensures r.score1 + r.score2 <= s.score1 + s.score2 + 1
    ensures r.tree == TreeStep(s.tree, r.score1 - r.score2)
  {
    var winner := DecideWinner(name1, choice1, name2, choice2);
    var score1 := if winner == name1 then s.score1 + 1 else s.score1;
    var score2 := if winner != name1 && winner == name2 then s.score2 + 1 else s.score2;
    MatchState(score1, score2, TreeStep(s.tree, score1 - score2))
  }

  /** The state after playing the given rounds, in order, from the start. */
  function Run(name1: string, name2: string, rounds: seq<(Choice, Choice)>): MatchState
    requires ValidNames(name1, name2)
    decreases |rounds|
  {
    if rounds == [] then Initial
    else
      var last := rounds[|rounds| - 1];
      Round(Run(name1, name2, rounds[..|rounds| - 1]), name1, name2, last.0, last.1)
  }

  /** Number of rounds whose first choice beats the second. */
  function FirstWins(rounds: seq<(Choice, Choice)>): nat
    decreases |rounds|
  {
    if rounds == [] then 0
    else
      var last := rounds[|rounds| - 1];
      FirstWins(rounds[..|rounds| - 1]) + (if Beats(last.0, last.1) then 1 else 0)
  }

  /** Number of rounds whose second choice beats the first. */
  function SecondWins(rounds: seq<(Choice, Choice)>): nat
    decreases |rounds|
  {
    if rounds == [] then 0
    else
      var last := rounds[|rounds| - 1];
      SecondWins(rounds[..|rounds| - 1]) + (if Beats(last.1, last.0) then 1 else 0)
  }

  /** Each score counts exactly the rounds that agent's choice won; ties
      count for nobody. */
  lemma {:induction false} RunScores(name1: string, name2: string, rounds: seq<(Choice, Choice)>)
    requires ValidNames(name1, name2)
    ensures Run(name1, name2, rounds).score1 == FirstWins(rounds)
    ensures Run(name1, name2, rounds).score2 == SecondWins(rounds)
    decreases |rounds|
  {
    if rounds != [] {
      var last := rounds[|rounds| - 1];
      RunScores(name1, name2, rounds[..|rounds| - 1]);
      BeatsTrichotomy(last.0, last.1);
    }
  }

  /** After any number of rounds the stack is a prefix of the tree's parts
      (so it holds at most five parts) and no longer than the number of
      rounds played. */
  lemma {:induction false} RunTreeIsPrefix(name1: string, name2: string, rounds: seq<(Choice, Choice)>)
    requires ValidNames(name1, name2)
    ensures IsTreePrefix(Run(name1, name2, rounds).tree)
    ensures |Run(name1, name2, rounds).tree| <= Min(|rounds|, |TreeParts|)
    decreases |rounds|
  {
    if rounds != [] {
      RunTreeIsPrefix(name1, name2, rounds[..|rounds| - 1]);
    }
  }

  /** Scores never decrease: playing more rounds never lowers either score. */
  lemma {:induction false} RunScoresMonotone(name1: string, name2: string, rounds: seq<(Choice, Choice)>, k: nat)
    requires ValidNames(name1, name2)
    requires k <= |rounds|
    ensures Run(name1, name2, rounds[..k]).score1 <= Run(name1, name2, rounds).score1
    ensures Run(name1, name2, rounds[..k]).score2 <= Run(name1, name2, rounds).score2
    decreases |rounds|
  {
    if k < |rounds| {
      var prefix := rounds[..|rounds| - 1];
      assert rounds[..k] == prefix[..k];
      RunScoresMonotone(name1, name2, prefix, k);
    } else {
      assert rounds[..k] == rounds;
    }
  }

  /** When the first agent wins every round, the stack grows by one part per
      round until the tree is complete and then stays complete. */
  lemma {:induction false} FirstAlwaysWins(name1: string, name2: string, rounds: seq<(Choice, Choice)>)
    requires ValidNames(name1, name2)
    requires forall i :: 0 <= i < |rounds| ==> Beats(rounds[i].0, rounds[i].1)
    ensures Run(name1, name2, rounds).score1 == |rounds|
    ensures Run(name1, name2, rounds).score2 == 0
    ensures Run(name1, name2, rounds).tree == TreeParts[..Min(|rounds|, |TreeParts|)]
    decreases |rounds|
  {
    if rounds != [] {
      var prefix := rounds[..|rounds| - 1];
      assert forall i :: 0 <= i < |prefix| ==> prefix[i] == rounds[i];
      FirstAlwaysWins(name1, name2, prefix);
      var last := rounds[|rounds| - 1];
      BeatsTrichotomy(last.0, last.1);
    }
  }

  /** When the second agent wins every round, the stack stays empty. */
  lemma {:induction false} SecondAlwaysWins(name1: string, name2: string, rounds: seq<(Choice, Choice)>)
    requires ValidNames(name1, name2)
    requires forall i :: 0 <= i < |rounds| ==> Beats(rounds[i].1, rounds[i].0)
    ensures Run(name1, name2, rounds).score1 == 0
    ensures Run(name1, name2, rounds).score2 == |rounds|
    ensures Run(name1, name2, rounds).tree == []
    decreases |rounds|
  {
    if rounds != [] {
      var prefix := rounds[..|rounds| - 1];
      assert forall i :: 0 <= i < |prefix| ==> prefix[i] == rounds[i];
      SecondAlwaysWins(name1, name2, prefix);
      var last := rounds[|rounds| - 1];
      BeatsTrichotomy(last.0, last.1);
    }
  }

  /** The unfolding of `Run` for one more round: the state after it is one
      round step from the state before it. */
  lemma RunSnoc(name1: string, name2: string, rounds: seq<(Choice, Choice)>, next: (Choice, Choice))
    requires ValidNames(name1, name2)
    ensures Run(name1, name2, rounds + [next]) == Round(Run(name1, name2, rounds), name1, name2, next.0, next.1)
  {
  }

  /** The stack is updated one step per round, not recomputed from the lead.
      After three wins of the first agent and one of the second, the lead is
      two but the stack holds four parts. The next round, (Paper, Scissors),
      cuts the lead to one, yet the stack grows to all five parts. The round
      after it levels the score and keeps five parts. The last round puts the
      first agent one behind and pops the stack back to four parts. */
  lemma TreeLagsLead(name1: string, name2: string)
    requires ValidNames(name1, name2)
    ensures var s := Run(name1, name2, [(Rock, Scissors), (Rock, Scissors), (Rock, Scissors), (Scissors, Rock)]);
      s.score1 - s.score2 == 2 && s.tree == TreeParts[..4]
    ensures var s := Run(name1, name2, [(Rock, Scissors), (Rock, Scissors), (Rock, Scissors), (Scissors, Rock)] +
                                       [(Paper, Scissors), (Scissors, Rock), (Rock, Paper)]);
      s.score1 - s.score2 == -1 && s.tree == TreeParts[..4]
  {
    var r3: seq<(Choice, Choice)> := [(Rock, Scissors), (Rock, Scissors), (Rock, Scissors)];
    FirstAlwaysWins(name1, name2, r3);
    assert Run(name1, name2, r3) == MatchState(3, 0, TreeParts[..3]);
    var r4 := r3 + [(Scissors, Rock)];
    RunSnoc(name1, name2, r3, (Scissors, Rock));
    assert Run(name1, name2, r4) == MatchState(3, 1, TreeParts[..4]);
    var r5 := r4 + [(Paper, Scissors)];
    RunSnoc(name1, name2, r4, (Paper, Scissors));
    assert Run(name1, name2, r5) == MatchState(3, 2, TreeParts);
    var r6 := r5 + [(Scissors, Rock)];
    RunSnoc(name1, name2, r5, (Scissors, Rock));
    assert Run(name1, name2, r6) == MatchState(3, 3, TreeParts);
    var r7 := r6 + [(Rock, Paper)];
    RunSnoc(name1, name2, r6, (Rock, Paper));
    assert Run(name1, name2, r7) == MatchState(3, 4, TreeParts[..4]);
    assert r4 == [(Rock, Scissors), (Rock, Scissors), (Rock, Scissors), (Scissors, Rock)];
    assert r7 == r4 + [(Paper, Scissors), (Scissors, Rock), (Rock, Paper)];
  }
}
