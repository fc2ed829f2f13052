/** The turn schedule shared by both conversation loops: rounds 1..rounds, and
    in each round llm1 speaks first and llm2 second. Turns are numbered from 0
    across rounds. */
module Turns {

  /** The two models, `"llm1"` and `"llm2"`. */
  datatype LlmKey = Llm1 | Llm2

  function KeyName(llmKey: LlmKey): string
  {
    match llmKey
    case Llm1 => "llm1"
    case Llm2 => "llm2"
  }

  /** The other model. */
  function Other(llmKey: LlmKey): LlmKey
  {
    if llmKey == Llm1 then Llm2 else Llm1
  }

  /** llm1 speaks on even turns, llm2 on odd ones. */
  function KeyOf(t: nat): LlmKey
  {
    if t % 2 == 0 then Llm1 else Llm2
  }

  /** The speakers alternate. */
  lemma KeyOfAlternates(t: nat)
    ensures KeyOf(t + 1) == Other(KeyOf(t)) && Other(KeyOf(t + 1)) == KeyOf(t)
  {
  }

  /** In round r (from 0) llm1 takes turn 2r and llm2 turn 2r + 1. */
  lemma KeyOfRound(r: nat, j: nat)
    requires j < 2
    ensures KeyOf(2 * r + j) == if j == 0 then Llm1 else Llm2
  {
  }

  /** Turn k = t + j of a round that starts at turn t is taken by the model
      in place j of `seats`, llm1 then llm2. */
  lemma KeyOfSeat(seats: seq<LlmKey>, t: nat, j: nat, k: nat)
    requires seats == [Llm1, Llm2] && j < 2 && k == t + j
    requires KeyOf(t) == Llm1
    ensures KeyOf(k) == seats[j]
  {
  }

  /** `range(1, rounds + 1)` times two models; no turn at all when rounds is
      zero or negative. */
  function TurnCount(rounds: int): nat
  {
    if rounds <= 0 then 0 else 2 * rounds
  }
}
