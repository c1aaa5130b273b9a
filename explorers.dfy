/** The two exploration strategies as the mockup writes them. Each wraps a
    policy (a function from contexts to actions). The model keeps the
    configuration (epsilon or lambda, the number of actions) in the datatype;
    the source's constructors discard it. The key handed to an explorer is
    ignored. */
module Explorers {
  import opened Values

  /** The closed set of explorers a decision engine accepts. */
  datatype Explorer<!Ctx> =
    | EpsilonGreedy(epsilon: Float32, numActions: U32, policy: Ctx -> U32)
    | Softmax(lambda: Float32, numActions: U32, policy: Ctx -> U32)

  /** `EpsilonGreedy::Choose_Action`: the policy's action, reported with
      probability `0.f`. */
  function EpsilonGreedyChooseAction<Ctx>(explorer: Explorer<Ctx>, context: Ctx, uniqueKey: string): (d: Decision)
    requires explorer.EpsilonGreedy?
    ensures d.action == explorer.policy(context)
    ensures d.probability == PositiveZero
  {
    Decision(explorer.policy(context), PositiveZero)
  }

  /** `Softmax::Choose_Action`: the policy's action, reported with
      probability `0.f`. */
  function SoftmaxChooseAction<Ctx>(explorer: Explorer<Ctx>, context: Ctx, uniqueKey: string): (d: Decision)
    requires explorer.Softmax?
    ensures d.action == explorer.policy(context)
    ensures d.probability == PositiveZero
  {
    Decision(explorer.policy(context), PositiveZero)
  }

  /** The statically resolved call `explorer.Choose_Action(context, key)`:
      each kind of explorer goes to its own selection function. */
  function ChooseAction<Ctx>(explorer: Explorer<Ctx>, context: Ctx, uniqueKey: string): (d: Decision)
    ensures explorer.EpsilonGreedy? ==> d == EpsilonGreedyChooseAction(explorer, context, uniqueKey)
    ensures explorer.Softmax? ==> d == SoftmaxChooseAction(explorer, context, uniqueKey)
  {
    match explorer
    case EpsilonGreedy(_, _, _) => EpsilonGreedyChooseAction(explorer, context, uniqueKey)
    case Softmax(_, _, _) => SoftmaxChooseAction(explorer, context, uniqueKey)
  }

  /** As written, the decision does not depend on the key (nor, hence, on
      the seed built from it): two keys give the same decision. */
  lemma KeyIgnored<Ctx>(explorer: Explorer<Ctx>, context: Ctx, key1: string, key2: string)
    ensures ChooseAction(explorer, context, key1) == ChooseAction(explorer, context, key2)
  {
  }

  /** As written, the decision depends only on the policy: an epsilon-greedy
      and a softmax explorer over the same policy decide alike, whatever
      their configuration. */
  lemma ExplorersAgree<Ctx>(policy: Ctx -> U32, epsilon: Float32, lambda: Float32,
                            n1: U32, n2: U32, context: Ctx, key: string)
    ensures ChooseAction(EpsilonGreedy(epsilon, n1, policy), context, key)
         == ChooseAction(Softmax(lambda, n2, policy), context, key)
         == Decision(policy(context), PositiveZero)
  {
  }
}
