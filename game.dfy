/** The match as the program keeps it: two agent objects whose choice and
    score fields are updated in place, and a game object whose tree stack
    is grown and shrunk in place once per round. */
module Game {
  import opened Rps
  import opened Tree
  import opened Match

  datatype Option<T> = None | Some(value: T)

  /** The names the game gives its two agents. */
  const FirstName: string := "AI 1"
  const SecondName: string := "AI 2"

  /** A scripted player: a fixed name, the choice drawn last (none before
      the first round) and the number of rounds it has won. */
  class Agent {
    const name: string
    var currentChoice: Option<Choice>
    var score: nat

    constructor (name: string)
      ensures this.name == name && currentChoice == None && score == 0
    {
      this.name := name;
      currentChoice := None;
      score := 0;
    }

    /** Records the drawn choice as the agent's current choice and returns
        it; the draw itself is the caller's argument. */
    method Play(choice: Choice) returns (r: Choice)
      modifies this`currentChoice
      ensures currentChoice == Some(choice) && r == choice
    {
      currentChoice := Some(choice);
      r := currentChoice.value;
    }
  }

  /** The game logic without its widgets: the two agents, the tree stack,
      and (as a ghost) the rounds played so far. */
  class RpsGame {
    const ai1: Agent
    const ai2: Agent
    var treeState: seq<string>
    ghost var history: seq<(Choice, Choice)>

    /** The scores and the stack are exactly those of the state machine
        after the rounds played so far. */
    ghost predicate Valid()
      reads this, ai1, ai2
    {
      ai1 != ai2 &&
      ValidNames(ai1.name, ai2.name) &&
      State() == Run(ai1.name, ai2.name, history)
    }

    ghost function State(): MatchState
      reads this, ai1, ai2
    {
      MatchState(ai1.score, ai2.score, treeState)
    }

    constructor ()
      ensures Valid() && fresh(ai1) && fresh(ai2)
      ensures ai1.name == FirstName && ai2.name == SecondName
      ensures ai1.currentChoice == None && ai2.currentChoice == None
      ensures State() == Initial && history == []
    {
      ai1 := new Agent(FirstName);
      ai2 := new Agent(SecondName);
      treeState := [];
      history := [];
    }

    /** One step of the stack for the current score difference: append the
        next part or pop the last one. */
    method UpdateTree()
      modifies this`treeState
      ensures treeState == TreeStep(old(treeState), ai1.score - ai2.score)
    {
      var scoreDiff := ai1.score - ai2.score;
      if scoreDiff > 0 {
        if |treeState| < |TreeParts| {
          treeState := treeState + [TreeParts[|treeState|]];
        }
      } else if scoreDiff < 0 {
        if |treeState| > 0 {
          treeState := treeState[..|treeState| - 1];
        }
      }
    }

    /** One round with the two drawn choices: record them, decide the
        winner, credit the agent whose name is the winner, update the stack.
        Returns the winner string the round's display shows. */
    method PlayRound(choice1: Choice, choice2: Choice) returns (winner: string)
      requires Valid()
      modifies this, ai1, ai2
      ensures Valid()
      ensures history == old(history) + [(choice1, choice2)]
      ensures State() == Round(old(State()), ai1.name, ai2.name, choice1, choice2)
      ensures winner == DecideWinner(ai1.name, choice1, ai2.name, choice2)
      ensures ai1.currentChoice == Some(choice1) && ai2.currentChoice == Some(choice2)
      ensures old(ai1.score) <= ai1.score && old(ai2.score) <= ai2.score
      ensures ai1.score + ai2.score <= old(ai1.score) + old(ai2.score) + 1
      ensures IsTreePrefix(treeState)
      ensures |old(treeState)| - 1 <= |treeState| <= |old(treeState)| + 1
    {
      ghost var before := State();
      ghost var after := Round(before, ai1.name, ai2.name, choice1, choice2);
      var c1 := ai1.Play(choice1);
      var c2 := ai2.Play(choice2);
      winner := DecideWinner(ai1.name, c1, ai2.name, c2);

      if winner == ai1.name {
        ai1.score := ai1.score + 1;
      } else if winner == ai2.name {
        ai2.score := ai2.score + 1;
      }

      assert ai1.score == after.score1 && ai2.score == after.score2;
      UpdateTree();
      assert State() == after;
      RunSnoc(ai1.name, ai2.name, history, (choice1, choice2));
      history := history + [(choice1, choice2)];
      RunTreeIsPrefix(ai1.name, ai2.name, history);
    }
  }

  /** A client that sees only the contracts above plays three rounds: Rock
      against Scissors, won by the first agent's Rock; Rock against Paper,
      won by the second agent's Paper; and Scissors against Scissors, a tie
      that changes neither score. */
  method Scenario()
  {
    var game := new RpsGame();
    var w := game.PlayRound(Rock, Scissors);
    assert w == FirstName;
    assert game.ai1.score == 1 && game.ai2.score == 0;
    assert game.treeState == ["star"];
    w := game.PlayRound(Rock, Paper);
    assert w == SecondName;
    assert game.ai1.score == 1 && game.ai2.score == 1;
    assert game.treeState == ["star"];
    w := game.PlayRound(Scissors, Scissors);
    assert w == TieResult;
    assert game.ai1.score == 1 && game.ai2.score == 1;
    assert game.treeState == ["star"];
  }
}
