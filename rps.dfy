/** The round resolver: the three choices, the cyclic rule that decides
    which of two choices wins, and the winner function of one round. */
module Rps {

  /** One of the three moves an agent draws from. */
  datatype Choice = Rock | Paper | Scissors

  /** The value a round resolves to when nobody wins. */
  const TieResult: string := "Tie"

  /** A rank for each choice such that the winner's rank is one more than
      the loser's, modulo 3. */
  function Rank(c: Choice): (r: int)
    ensures 0 <= r < 3
  {
    match c
    case Rock => 0
    case Paper => 1
    case Scissors => 2
  }

  /** Reference definition of the dominance relation, by rank arithmetic
      (Dafny's % is Euclidean, so the difference -2 gives 1). */
  predicate Beats(a: Choice, b: Choice) {
    (Rank(a) - Rank(b)) % 3 == 1
  }

  /** The agents' names are distinct and neither is the tie result, so the
      string a round returns identifies its outcome unambiguously. */
  predicate ValidNames(name1: string, name2: string) {
    name1 != name2 && name1 != TieResult && name2 != TieResult
  }

  /** The result of one round: the tie result, the first agent's name or
      the second agent's name, decided by the explicit case table. */
  function DecideWinner(name1: string, choice1: Choice, name2: string, choice2: Choice): (r: string)
    ensures r == TieResult || r == name1 || r == name2
    ensures choice1 == choice2 ==> r == TieResult
    ensures Beats(choice1, choice2) ==> r == name1
    ensures Beats(choice2, choice1) ==> r == name2
  {
    if choice1 == choice2 then
      TieResult
    else if (choice1 == Rock && choice2 == Scissors) ||
            (choice1 == Scissors && choice2 == Paper) ||
            (choice1 == Paper && choice2 == Rock) then
      name1
    else
      name2
  }

  /** For two choices exactly one of "equal", "first beats second",
      "second beats first" holds. */
  lemma BeatsTrichotomy(a: Choice, b: Choice)
    ensures a == b || Beats(a, b) || Beats(b, a)
    ensures !(a == b && Beats(a, b)) && !(a == b && Beats(b, a)) && !(Beats(a, b) && Beats(b, a))
  {
  }

  /** The three pairs listed in the case table are exactly the pairs the
      rank relation calls wins. */
  lemma BeatsTable(a: Choice, b: Choice)
    ensures Beats(a, b) <==> (a == Rock && b == Scissors) || (a == Scissors && b == Paper) || (a == Paper && b == Rock)
  {
  }

  /** With valid names the returned string tells the outcome both ways:
      tie exactly for equal choices, a name exactly when that agent's
      choice beats the other's. */
  lemma DecideWinnerOutcomes(name1: string, choice1: Choice, name2: string, choice2: Choice)
    requires ValidNames(name1, name2)
    ensures DecideWinner(name1, choice1, name2, choice2) == TieResult <==> choice1 == choice2
    ensures DecideWinner(name1, choice1, name2, choice2) == name1 <==> Beats(choice1, choice2)
    ensures DecideWinner(name1, choice1, name2, choice2) == name2 <==> Beats(choice2, choice1)
  {
  }

  /** Swapping the two agents does not change who wins; swapping only their
      choices hands the win to the other agent. */
  lemma DecideWinnerSwap(name1: string, choice1: Choice, name2: string, choice2: Choice)
    ensures DecideWinner(name2, choice2, name1, choice1) == DecideWinner(name1, choice1, name2, choice2)
    ensures choice1 != choice2 ==>
      DecideWinner(name1, choice2, name2, choice1) ==
        (if DecideWinner(name1, choice1, name2, choice2) == name1 then name2 else name1)
  {
  }
}
