# Rock-paper-scissors AI vs AI: verified game logic

This project models the game logic of a small simulator in which two scripted
agents ("AI 1" and "AI 2") play rock-paper-scissors against each other, round
after round. Each round has four steps:

- Each agent draws a choice.
- The round resolves to `"Tie"` or to the winning agent's name.
- The agent whose name matches the winner gains one point.
- A "Christmas tree" of up to five parts (star, top, middle, bottom, trunk)
  grows or shrinks by one part, following the sign of the difference between
  the first and second agent's scores.

The model has four modules:

- `Rps` (`rps.dfy`): the three choices and the round resolver
  `DecideWinner`, which uses the program's own case table. The table is
  proved equal to an independent rank-modulo-3 definition of "beats"
  (`Beats`).
- `Tree` (`tree.dfy`): the five tree parts and one stack update
  (`TreeStep`), with its properties in the contract.
- `Match` (`match.dfy`): the match as a state machine on values. The state
  is `(score1, score2, tree)`, starting from `(0, 0, [])`. `Round` is one
  round and `Run` folds a sequence of rounds. The lemmas here cover scores,
  the prefix invariant, saturation and the deliberate lag of the stack
  behind the lead.
- `Game` (`game.dfy`): the in-place version. Class `Agent` has a mutable
  current choice and score. Class `RpsGame` owns two agents and a mutable
  tree stack. Its `PlayRound` method is proved to perform exactly one
  `Round` of the state machine. Its invariant `Valid()` ties the object's
  fields to `Run` over the rounds played so far, kept in a ghost field.

The random draw is not modelled. The two choices of a round are parameters
of `PlayRound`.

The model follows the code:

- The resolver returns a plain string (`"Tie"` or a name), as
  `decide_winner` does.
- The stack is not recomputed from the lead: `update_tree` moves it one part
  per round, so its length is not `min(5, max(0, lead))`.
  `Match.TreeLagsLead` exhibits this. After three wins of the first agent
  and one of the second, the lead is 2 and the stack holds four parts. The
  next round, (Paper, Scissors), cuts the lead from 2 to 1, yet the stack
  grows from four parts to five. The round after that levels the score and
  keeps five parts. Only when the first agent falls behind by one does the
  stack pop back to four parts.

## Model

| member | source | states |
|---|---|---|
| `Rps.DecideWinner` | index.py:17-34 | The result is always `"Tie"`, the first name or the second name. Equal choices give `"Tie"`. When one choice beats the other under the rank relation, that agent's name is returned. |
| `Rps.BeatsTable` | index.py:27-31 | The three pairs in the source's table (Rock/Scissors, Scissors/Paper, Paper/Rock) are exactly the pairs where the first choice beats the second under the rank-mod-3 relation. |
| `Rps.BeatsTrichotomy` | index.py:24-34 | For any two choices exactly one holds: they are equal, the first beats the second, or the second beats the first. |
| `Rps.DecideWinnerOutcomes` | index.py:24-34 | With distinct names, neither of them `"Tie"`, each result in both directions: `"Tie"` exactly when the choices are equal; a name exactly when that agent's choice beats the other's. |
| `Rps.DecideWinnerSwap` | index.py:17-34 | Swapping the two agents returns the same winner name. For distinct choices, swapping only the choices hands the win to the other name. |
| `Tree.TreeStep` | index.py:168-178 | Zero difference: the stack is unchanged. It grows by one exactly when the difference is positive and fewer than five parts are shown; the new part is `TreeParts[len]`. It shrinks by one exactly when the difference is negative and the stack is non-empty, by dropping the last part. The length changes by at most one. Earlier entries never change. A prefix of the tree parts stays a prefix. |
| `Match.Round` | index.py:182-201 | If the first choice beats the second, the first score goes up by exactly one and the second is unchanged, and symmetrically. A tie changes neither score. The tree then takes one `TreeStep` with the new score difference. |
| `Match.RunSnoc` | index.py:182-201 | The unfolding lemma of `Run`: the state after one more round is one `Round` step from the state before it. It is a helper for `PlayRound` and `TreeLagsLead`, not a property of `play_game` itself. |
| `Match.RunScores` | index.py:191-194 | After any sequence of rounds, each score equals the number of rounds won by that agent's choice. Ties count for nobody. |
| `Match.RunScoresMonotone` | index.py:191-194 | Scores never decrease: the scores after a prefix of the rounds are at most the scores after all of them. |
| `Match.RunTreeIsPrefix` | index.py:79-86 | From the empty initial stack, every reachable stack is a prefix of the five tree parts, and its length is at most the number of rounds played (and at most 5). |
| `Match.FirstAlwaysWins` | index.py:171-175 | If the first agent wins every round, it scores every round, the second agent scores nothing, and the stack is the first `min(rounds, 5)` tree parts. So it grows to length 5 and then stays there. |
| `Match.SecondAlwaysWins` | index.py:176-178 | If the second agent wins every round, it scores every round and the stack stays empty, because popping an empty stack does nothing. |
| `Match.TreeLagsLead` | index.py:168-180 | The stack moves one step per round, not by a formula on the lead. After the run 3-1 the lead is 2 with four parts shown. After three more wins of the second agent, the stack has grown to five parts while the lead shrank, then popped back to four, with the first agent one point behind. |
| `Game.Agent.constructor` | index.py:8-11 | A new agent has the given name, no current choice and score 0. |
| `Game.Agent.Play` | index.py:13-15 | The drawn choice becomes the agent's current choice and is returned. The score is untouched. |
| `Game.RpsGame.constructor` | index.py:42-43 | The game creates two fresh agents named "AI 1" and "AI 2" and an empty stack. It starts in the state machine's initial state. |
| `Game.RpsGame.UpdateTree` | index.py:168-180 | The stack field is replaced by `TreeStep(old stack, ai1.score - ai2.score)`, through the same append and pop branches as the source. |
| `Game.RpsGame.PlayRound` | index.py:182-201 | The object after the call is exactly one `Round` of the state machine from the object before it, and `Valid()` is preserved. The returned string is the resolver's result. Both agents record their choices. Neither score goes down, and at most one goes up. The stack stays a prefix of the tree parts and changes length by at most one. |

## Left out

- All widget and canvas work is left out, because it is rendering only: the
  window, labels, buttons, `draw_tree` and the `config(text=...)` updates of
  the score and result labels (index.py:36-121, index.py:138-166,
  index.py:187-188, index.py:196-198, index.py:203-206).
- The start/pause toggle, `play_continuous`, the timer delay and the event
  loop are left out, because they only schedule rounds
  (index.py:46-47, index.py:123-136, index.py:208-211). In the model, each
  scheduled call is one `PlayRound`.
- `random.choice` in `RPSAI.play` (index.py:14) is left out, because it is
  a randomness source. The drawn choices are parameters of `PlayRound` and
  `Agent.Play`, so the uniform distribution is not modelled.
- The initial empty-string choice (index.py:10) is modelled as `None`.
  Comparing choices before any draw is never done by the program and is not
  modelled.
- The unused `time` import (index.py:3) is left out.
- A match reset operation is left out, because the program has none.
