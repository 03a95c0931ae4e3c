/** One intersection's deep Q-learning agent (agents/dqn_agent.py): epsilon-greedy action
    choice, a bounded replay memory, the training step's bookkeeping (epsilon decay, step
    counter, periodic hard copy of the online network into the target network), and
    save/load of its state. The networks themselves are abstract: a parameter vector and an
    architecture function from parameters and an observation to one value per action. */
module DqnAgent {
  import opened Common

  /** The parameters of one network, flattened (a state_dict). */
  type Weights = seq<real>

  /** The architecture: parameters and an observation give the action values. */
  type Network = (Weights, seq<real>) -> seq<real>

  /** The architecture ends in a layer of width n, whatever the parameters and the input. */
  ghost predicate HasOutputs(network: Network, n: nat) {
    forall w: Weights, s: seq<real> :: |network(w, s)| == n
  }

  /** The recognised configuration keys; a missing key is None and takes its default. */
  datatype Config = Config(
    learningRate: Option<real>,
    bufferSize: Option<int>,
    gamma: Option<real>,
    epsilonStart: Option<real>,
    epsilonMin: Option<real>,
    epsilonDecay: Option<real>,
    batchSize: Option<int>,
    targetUpdateFreq: Option<int>,
    centralBufferSize: Option<int>,
    enableCommunication: Option<bool>)

  /** The Experience named tuple. */
  datatype Experience = Experience(state: seq<real>, action: int, reward: real, nextState: seq<real>, done: bool)

  /** What save writes and load reads back. */
  datatype Checkpoint = Checkpoint(
    qNetwork: Weights,
    targetNetwork: Weights,
    optimizer: seq<real>,
    epsilon: real,
    trainingStep: int)

  /** What one call of train reports: the early return (the source returns 0), or the sampled
      experiences with the chosen-action values and the bootstrapped targets the loss compares. */
  datatype TrainReport =
    | Skipped
    | Trained(samples: seq<Experience>, current: seq<real>, targets: seq<real>)

  /** epsilon = max(epsilon_min, epsilon * epsilon_decay). */
  function DecayedEpsilon(epsilon: real, epsilonMin: real, epsilonDecay: real): (e: real)
    ensures e >= epsilonMin
    ensures e >= epsilon * epsilonDecay
    ensures e == epsilonMin || e == epsilon * epsilonDecay
  {
    if epsilonMin >= epsilon * epsilonDecay then epsilonMin else epsilon * epsilonDecay
  }

  /** With a decay factor of at most 1 a non-negative epsilon at or above its floor never
      grows and never drops below the floor. */
  lemma DecayNeverIncreases(epsilon: real, epsilonMin: real, epsilonDecay: real)
    requires epsilonDecay <= 1.0 && 0.0 <= epsilon && epsilonMin <= epsilon
    ensures epsilonMin <= DecayedEpsilon(epsilon, epsilonMin, epsilonDecay) <= epsilon
  {
    assert epsilon * epsilonDecay <= epsilon * 1.0;
  }

  /** Epsilon after n training steps that trained. */
  function EpsilonAfter(epsilon: real, epsilonMin: real, epsilonDecay: real, n: nat): real
  {
    if n == 0 then epsilon
    else DecayedEpsilon(EpsilonAfter(epsilon, epsilonMin, epsilonDecay, n - 1), epsilonMin, epsilonDecay)
  }

  /** Over any run of training steps epsilon is non-increasing and stays within
      [epsilon_min, epsilon_start]. */
  lemma {:induction false} EpsilonScheduleMonotone(epsilon: real, epsilonMin: real, epsilonDecay: real, n: nat)
    requires epsilonDecay <= 1.0 && 0.0 <= epsilonMin <= epsilon
    ensures epsilonMin <= EpsilonAfter(epsilon, epsilonMin, epsilonDecay, n) <= epsilon
    ensures EpsilonAfter(epsilon, epsilonMin, epsilonDecay, n + 1) <= EpsilonAfter(epsilon, epsilonMin, epsilonDecay, n)
  {
    if n > 0 {
      EpsilonScheduleMonotone(epsilon, epsilonMin, epsilonDecay, n - 1);
    }
    DecayNeverIncreases(EpsilonAfter(epsilon, epsilonMin, epsilonDecay, n), epsilonMin, epsilonDecay);
  }

  /** A done flag as the float the target formula multiplies with. */
  function DoneFlag(done: bool): real {
    if done then 1.0 else 0.0
  }

  /** target = reward + (1 - done) * gamma * next value. */
  function TdTarget(reward: real, done: bool, gamma: real, nextValue: real): real {
    reward + (1.0 - DoneFlag(done)) * gamma * nextValue
  }

  /** A terminal experience's target is its reward; otherwise the discounted next value is added. */
  lemma TdTargetCases(reward: real, done: bool, gamma: real, nextValue: real)
    ensures done ==> TdTarget(reward, done, gamma, nextValue) == reward
    ensures !done ==> TdTarget(reward, done, gamma, nextValue) == reward + gamma * nextValue
    ensures gamma == 0.0 ==> TdTarget(reward, done, gamma, nextValue) == reward
  {
  }

  class DQNAgent {
    const agentId: string
    const stateDim: int
    const actionDim: nat
    const network: Network
    const learningRate: real
    const bufferSize: nat
    const gamma: real
    const epsilonMin: real
    const epsilonDecay: real
    const batchSize: int
    const targetUpdateFreq: int

    var qNetwork: Weights
    var targetNetwork: Weights
    var optimizer: seq<real>
    var memory: seq<Experience>
    var epsilon: real
    var trainingStep: int

    /** The architecture facts every operation relies on: at least one action, and one output
        per action whatever the parameters and the input. They concern constants only. */
    ghost predicate Valid() {
      && actionDim > 0
      && HasOutputs(network, actionDim)
    }

    /** Builds both networks from the same initial parameters (the target loads the online
        network's state_dict), an empty optimizer state and an empty memory, and reads every
        setting from the configuration with its default. */
    constructor (stateDim: int, actionDim: nat, agentId: string, config: Config, network: Network, init: Weights)
      requires actionDim > 0 && HasOutputs(network, actionDim)
      requires config.bufferSize.GetOr(10000) >= 0
      ensures Valid()
      ensures targetNetwork == qNetwork == init
      ensures this.agentId == agentId && this.stateDim == stateDim && this.actionDim == actionDim
      ensures this.network == network
      ensures learningRate == config.learningRate.GetOr(0.001)
      ensures bufferSize == config.bufferSize.GetOr(10000)
      ensures gamma == config.gamma.GetOr(0.99)
      ensures epsilon == config.epsilonStart.GetOr(1.0)
      ensures epsilonMin == config.epsilonMin.GetOr(0.01)
      ensures epsilonDecay == config.epsilonDecay.GetOr(0.995)
      ensures batchSize == config.batchSize.GetOr(32)
      ensures targetUpdateFreq == config.targetUpdateFreq.GetOr(10)
      ensures trainingStep == 0 && memory == [] && optimizer == []
    {
      this.agentId := agentId;
      this.stateDim := stateDim;
      this.actionDim := actionDim;
      this.network := network;
      qNetwork := init;
      targetNetwork := init;
      learningRate := config.learningRate.GetOr(0.001);
      optimizer := [];
      bufferSize := config.bufferSize.GetOr(10000);
      memory := [];
      gamma := config.gamma.GetOr(0.99);
      epsilon := config.epsilonStart.GetOr(1.0);
      epsilonMin := config.epsilonMin.GetOr(0.01);
      epsilonDecay := config.epsilonDecay.GetOr(0.995);
      batchSize := config.batchSize.GetOr(32);
      targetUpdateFreq := config.targetUpdateFreq.GetOr(10);
      trainingStep := 0;
    }

    /** get_q_values: the online network's value for every action. */
    function QValues(state: seq<real>): (q: seq<real>)
      reads this
      requires Valid()
      ensures |q| == actionDim
    {
      network(qNetwork, state)
    }

    /** The exploiting choice: the first action of largest online value (proved below). */
    function Greedy(state: seq<real>): (a: nat)
      reads this
      requires Valid()
      ensures a < actionDim
    {
      Argmax(QValues(state))
    }

    /** No action has a larger online value than the greedy one, and every action before it
        has a smaller one. */
    lemma GreedyIsFirstBest(state: seq<real>)
      requires Valid()
      ensures forall j :: 0 <= j < actionDim ==> QValues(state)[j] <= QValues(state)[Greedy(state)]
      ensures forall j :: 0 <= j < Greedy(state) ==> QValues(state)[j] < QValues(state)[Greedy(state)]
    {
      ArgmaxIsFirstMax(QValues(state));
    }

    /** act: with explore on and a uniform draw below epsilon, any action chosen uniformly;
        otherwise the greedy one. */
    method Act(state: seq<real>, explore: bool) returns (action: nat)
      requires Valid()
      ensures action < actionDim
      ensures !explore ==> action == Greedy(state)
      ensures epsilon <= 0.0 ==> action == Greedy(state)
    {
      if explore {
        var draw: real :| 0.0 <= draw < 1.0;
        if draw < epsilon {
          action :| action < actionDim;
          return;
        }
      }
      action := Greedy(state);
    }

    /** remember: the memory is a deque with maxlen buffer_size, which drops its oldest entry
        when full (and stays empty when maxlen is 0). */
    method Remember(experience: Experience)
      modifies this`memory
      ensures |memory| <= bufferSize
      ensures memory == LastN(old(memory) + [experience], bufferSize)
    {
      memory := LastN(memory + [experience], bufferSize);
    }

    /** train: does nothing below batch_size experiences; otherwise samples batch_size distinct
        experiences, takes an optimizer step on the online network (numerics left abstract),
        decays epsilon, counts the step and copies the online network into the target network
        when the new count is a multiple of target_update_freq. Sampling zero experiences
        raises in the source, so batch_size must be positive; the modulo needs a non-zero
        frequency; the gather needs every stored action to be a valid index. */
    method Train() returns (report: TrainReport, ghost indices: seq<nat>)
      requires Valid()
      requires batchSize > 0
      requires |memory| >= batchSize ==> targetUpdateFreq != 0
      requires forall k :: 0 <= k < |memory| ==> 0 <= memory[k].action < actionDim
      modifies this`qNetwork, this`targetNetwork, this`optimizer, this`epsilon, this`trainingStep
      ensures |memory| < batchSize ==>
        && report == Skipped
        && qNetwork == old(qNetwork) && targetNetwork == old(targetNetwork) && optimizer == old(optimizer)
        && epsilon == old(epsilon) && trainingStep == old(trainingStep)
      ensures |memory| >= batchSize ==>
        && report.Trained?
        && |indices| == batchSize && IsSample(indices, |memory|)
        && report.samples == Pick(memory, indices)
        && |report.current| == |report.targets| == batchSize
        && (forall k :: 0 <= k < batchSize ==>
              && report.current[k] == network(old(qNetwork), report.samples[k].state)[report.samples[k].action]
              && report.targets[k] == TdTarget(report.samples[k].reward, report.samples[k].done, gamma,
                                               Max(network(old(targetNetwork), report.samples[k].nextState))))
        && epsilon == DecayedEpsilon(old(epsilon), epsilonMin, epsilonDecay)
        && trainingStep == old(trainingStep) + 1
        && targetNetwork == if trainingStep % targetUpdateFreq == 0 then qNetwork else old(targetNetwork)
    {
      if |memory| < batchSize {
        return Skipped, [];
      }
      var chosen := ChooseDistinct(|memory|, batchSize);
      indices := chosen;
      var samples := Pick(memory, chosen);
      var online, target := qNetwork, targetNetwork;
      var current := seq(batchSize, k requires 0 <= k < batchSize =>
        network(online, samples[k].state)[samples[k].action]);
      var targets := seq(batchSize, k requires 0 <= k < batchSize =>
        TdTarget(samples[k].reward, samples[k].done, gamma, Max(network(target, samples[k].nextState))));
      report := Trained(samples, current, targets);

      // The optimizer step: new online parameters and optimizer state, left unspecified.
      var stepped: Weights :| true;
      var steppedOptimizer: seq<real> :| true;
      qNetwork := stepped;
      optimizer := steppedOptimizer;

      epsilon := DecayedEpsilon(epsilon, epsilonMin, epsilonDecay);
      trainingStep := trainingStep + 1;
      if trainingStep % targetUpdateFreq == 0 {
        targetNetwork := qNetwork;
      }
    }

    /** The state save writes. */
    function Snapshot(): (c: Checkpoint)
      reads this
    {
      Checkpoint(qNetwork, targetNetwork, optimizer, epsilon, trainingStep)
    }

    /** save: both networks, the optimizer state, epsilon and the step counter. */
    method Save() returns (checkpoint: Checkpoint)
      ensures checkpoint.qNetwork == qNetwork && checkpoint.targetNetwork == targetNetwork
      ensures checkpoint.optimizer == optimizer
      ensures checkpoint.epsilon == epsilon && checkpoint.trainingStep == trainingStep
    {
      checkpoint := Snapshot();
    }

    /** load: restores exactly what save wrote and nothing else, so saving after loading gives
        back the same checkpoint and loading what was just saved changes nothing. */
    method Load(checkpoint: Checkpoint)
      modifies this`qNetwork, this`targetNetwork, this`optimizer, this`epsilon, this`trainingStep
      ensures Snapshot() == checkpoint
      ensures old(Snapshot()) == checkpoint ==>
                qNetwork == old(qNetwork) && targetNetwork == old(targetNetwork) &&
                optimizer == old(optimizer) && epsilon == old(epsilon) && trainingStep == old(trainingStep)
    {
      qNetwork := checkpoint.qNetwork;
      targetNetwork := checkpoint.targetNetwork;
      optimizer := checkpoint.optimizer;
      epsilon := checkpoint.epsilon;
      trainingStep := checkpoint.trainingStep;
    }

    /** load on a file that may not hold a loadable checkpoint: None stands for content
        torch.load, load_state_dict or a key lookup rejects. Then load raises part way, and
        the fields it set before that hold values this model leaves unspecified; the replay
        memory is never touched. */
    method TryLoad(stored: Option<Checkpoint>) returns (ok: bool)
      modifies this`qNetwork, this`targetNetwork, this`optimizer, this`epsilon, this`trainingStep
      ensures ok <==> stored.Some?
      ensures ok ==> Snapshot() == stored.value
    {
      if stored.None? {
        var partial: Checkpoint :| true;
        qNetwork := partial.qNetwork;
        targetNetwork := partial.targetNetwork;
        optimizer := partial.optimizer;
        epsilon := partial.epsilon;
        trainingStep := partial.trainingStep;
        return false;
      }
      Load(stored.value);
      ok := true;
    }
  }
}
