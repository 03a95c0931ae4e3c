/** The coordinator of the intersection agents (agents/multi_agent_system.py): one DQN agent and
    one neighbour channel per intersection, a shared replay buffer, the team training step that
    trains every agent through the additive mixer, saving and loading of every agent, and
    action selection with and without the exchange of neighbour information. */
module MultiAgentSystem {
  import opened Common
  import opened DqnAgent
  import opened VdnMixer
  import opened Communication

  /** The fixed neighbour relation of the two-junction network; any other id has no neighbours. */
  function NeighborIds(agentId: AgentId): seq<AgentId> {
    if agentId == "J1_center" then ["J2_center"]
    else if agentId == "J2_center" then ["J1_center"]
    else []
  }

  /** The same relation as a set. */
  function NeighborSet(agentId: AgentId): (s: set<AgentId>)
    ensures s == set n | n in NeighborIds(agentId)
  {
    if agentId == "J1_center" then {"J2_center"}
    else if agentId == "J2_center" then {"J1_center"}
    else {}
  }

  /** The neighbour relation is symmetric and nobody is their own neighbour. */
  lemma NeighborsSymmetric(a: AgentId, b: AgentId)
    ensures b in NeighborIds(a) <==> a in NeighborIds(b)
    ensures a !in NeighborIds(a)
    ensures |NeighborIds(a)| <= 1
  {
  }

  /** The position of an id in the list of agent ids. */
  function IndexOf(ids: seq<AgentId>, id: AgentId): (i: nat)
    requires id in ids
    ensures i < |ids| && ids[i] == id
    ensures forall j :: 0 <= j < i ==> ids[j] != id
  {
    if ids[0] == id then 0 else 1 + IndexOf(ids[1..], id)
  }

  predicate Distinct(ids: seq<AgentId>) {
    forall i, j :: 0 <= i < j < |ids| ==> ids[i] != ids[j]
  }

  /** The slot of sender o in mailbox after is the one it had in before, or o is one of the
      heard senders and the slot holds what that sender announced. */
  predicate HeardOrKept(heard: map<AgentId, Entry>, before: seq<Mail>, after: seq<Mail>, o: AgentId) {
    || Lookup(after, o) == Lookup(before, o)
    || (o in heard && Lookup(after, o) == Some(heard[o]))
  }

  /** Every slot of a mailbox comes from one of the given senders. */
  predicate HearsOnlyFrom(box: seq<Mail>, senders: set<AgentId>) {
    forall s :: s in Senders(box) ==> s in senders
  }

  // ---------------------------------------------------------------------------------------
  // Neighbour features of the enhanced state
  // ---------------------------------------------------------------------------------------

  /** What one received message contributes: its queue values, then its current phase and its
      intended action (0 when absent); nothing when the data has no queue. */
  function NeighborBlock(entry: Entry): seq<real> {
    match entry.data.queue
    case Some(queue) =>
      queue + [entry.data.currentPhase.GetOr(0) as real, entry.data.intendedAction.GetOr(0) as real]
    case None => []
  }

  /** The neighbour_info list, message by message in mailbox order. */
  function NeighborInfo(box: seq<Mail>): seq<real> {
    if box == [] then [] else NeighborInfo(box[..|box| - 1]) + NeighborBlock(box[|box| - 1].entry)
  }

  /** Zero-padded to ten entries, then cut to the first ten. */
  function Fit10(info: seq<real>): seq<real> {
    if |info| < 10 then info + Zeros(10 - |info|) else info[..10]
  }

  /** The neighbour features are always ten values: the neighbour information as far as it
      fits, and zeros after it. */
  lemma Fit10Shape(info: seq<real>)
    ensures |Fit10(info)| == 10
    ensures forall k :: 0 <= k < 10 && k < |info| ==> Fit10(info)[k] == info[k]
    ensures forall k :: |info| <= k < 10 ==> Fit10(info)[k] == 0.0
  {
  }

  /** A mailbox whose messages carry no queue contributes nothing, so the features are all zero;
      in particular an empty mailbox gives ten zeros. */
  lemma {:induction false} QueuelessMailIsIgnored(box: seq<Mail>)
    requires forall k :: 0 <= k < |box| ==> box[k].entry.data.queue.None?
    ensures NeighborInfo(box) == []
    ensures Fit10(NeighborInfo(box)) == Zeros(10)
  {
    if box != [] {
      QueuelessMailIsIgnored(box[..|box| - 1]);
    }
  }

  /** The layout for one neighbour that announced four queue values: the queues, its phase, its
      intended action, then four zeros. */
  lemma OneNeighborLayout(sender: AgentId, entry: Entry)
    requires entry.data.queue.Some? && |entry.data.queue.value| == 4
    ensures Fit10(NeighborInfo([Mail(sender, entry)])) ==
            entry.data.queue.value
            + [entry.data.currentPhase.GetOr(0) as real, entry.data.intendedAction.GetOr(0) as real]
            + Zeros(4)
  {
    assert [Mail(sender, entry)][..0] == [];
  }

  /** Python's int(state[8] * 8) on a one-hot flag: the announced "current phase" is 8 when the
      flag is set and 0 when it is not. */
  lemma AnnouncedPhaseOfFlag(flag: real)
    requires flag == 0.0 || flag == 1.0
    ensures Trunc(flag * 8.0) == if flag == 1.0 then 8 else 0
  {
  }

  // ---------------------------------------------------------------------------------------
  // The team training step
  // ---------------------------------------------------------------------------------------

  /** A stored joint experience the team step can use: one state, action and next state per
      agent, each action a valid index. */
  predicate WellFormed(t: Transition, agentCount: nat, actionDim: nat) {
    && |t.states| == agentCount && |t.actions| == agentCount && |t.nextStates| == agentCount
    && forall i :: 0 <= i < agentCount ==> 0 <= t.actions[i] < actionDim
  }

  /** Each agent's online value of its own chosen action in one joint experience. */
  function ChosenRow(network: Network, actionDim: nat, online: seq<Weights>, t: Transition): (q: seq<real>)
    requires HasOutputs(network, actionDim) && WellFormed(t, |online|, actionDim)
    ensures |q| == |online|
  {
    seq(|online|, i requires 0 <= i < |online| => network(online[i], t.states[i])[t.actions[i]])
  }

  /** The chosen-action value of every agent on every sampled experience ([batch][agent]). */
  function ChosenValues(network: Network, actionDim: nat, online: seq<Weights>, samples: seq<Transition>): (q: seq<seq<real>>)
    requires HasOutputs(network, actionDim)
    requires forall k :: 0 <= k < |samples| ==> WellFormed(samples[k], |online|, actionDim)
    ensures |q| == |samples|
  {
    seq(|samples|, k requires 0 <= k < |samples| => ChosenRow(network, actionDim, online, samples[k]))
  }

  /** Each agent's largest target-network value on its next state in one joint experience. */
  function NextRow(network: Network, actionDim: nat, target: seq<Weights>, t: Transition): (q: seq<real>)
    requires actionDim > 0 && HasOutputs(network, actionDim) && WellFormed(t, |target|, actionDim)
    ensures |q| == |target|
  {
    seq(|target|, i requires 0 <= i < |target| => Max(network(target[i], t.nextStates[i])))
  }

  /** The largest target-network value of every agent on every sampled next state. */
  function NextValues(network: Network, actionDim: nat, target: seq<Weights>, samples: seq<Transition>): (q: seq<seq<real>>)
    requires actionDim > 0 && HasOutputs(network, actionDim)
    requires forall k :: 0 <= k < |samples| ==> WellFormed(samples[k], |target|, actionDim)
    ensures |q| == |samples|
  {
    seq(|samples|, k requires 0 <= k < |samples| => NextRow(network, actionDim, target, samples[k]))
  }

  /** What one team step reports: the early return (the source returns (0, 0)), or the sampled
      experiences with the mixed chosen values and the team targets the loss compares. */
  datatype TeamReport =
    | NoTraining
    | TeamTrained(samples: seq<Transition>, current: seq<real>, targets: seq<real>)

  /** One element of receive_messages' result. */
  datatype Received = Received(sender: AgentId, state: Payload, timestamp: real)

  function ModelPath(path: string, agentId: AgentId): string {
    path + "/" + agentId + "_model.pth"
  }

  /** The model file of every agent, in id order. */
  function ModelFiles(path: string, ids: seq<AgentId>): (files: seq<string>)
    ensures |files| == |ids| && forall i :: 0 <= i < |ids| ==> files[i] == ModelPath(path, ids[i])
  {
    seq(|ids|, i requires 0 <= i < |ids| => ModelPath(path, ids[i]))
  }

  /** Different agents are saved to different files. */
  lemma ModelPathInjective(path: string, a: AgentId, b: AgentId)
    requires ModelPath(path, a) == ModelPath(path, b)
    ensures a == b
  {
    var p := ModelPath(path, a);
    assert |a| == |b|;
    assert a == p[|path| + 1..|path| + 1 + |a|];
    assert b == p[|path| + 1..|path| + 1 + |b|];
  }

  class MultiAgentSystem {
    const agentIds: seq<AgentId>
    const stateDim: int
    const actionDim: nat
    const network: Network
    const agents: seq<DQNAgent>
    const comms: seq<AgentCommunication>
    const centralBuffer: CentralizedBuffer
    const targetUpdateFreq: int
    const communicationEnabled: bool
    var trainingStep: int
    var previousActions: map<AgentId, int>

    // How the coordinator is wired: one agent and one channel per distinct id, in id order,
    // all agents sharing one architecture. The first three predicates concern constants only;
    // each operation asks for the parts it relies on.

    /** One ready agent per distinct id, all with the coordinator's action count. */
    ghost predicate AgentsReady() {
      && |agents| == |agentIds| && Distinct(agentIds)
      && forall i :: 0 <= i < |agents| ==> agents[i].Valid() && agents[i].actionDim == actionDim
    }

    /** The agents are distinct objects under their own ids, sharing one architecture with at
        least one action. */
    ghost predicate AgentsWired() {
      && AgentsReady()
      && (forall i, j :: 0 <= i < j < |agents| ==> agents[i] != agents[j])
      && actionDim > 0 && HasOutputs(network, actionDim)
      && forall i :: 0 <= i < |agents| ==> agents[i].agentId == agentIds[i] && agents[i].network == network
    }

    /** One distinct channel per id, subscribed to that id's neighbours. */
    ghost predicate ChannelsWired() {
      && |comms| == |agentIds|
      && (forall i, j :: 0 <= i < j < |comms| ==> comms[i] != comms[j])
      && forall i :: 0 <= i < |comms| ==>
           && comms[i].agentId == agentIds[i] && comms[i].neighborIds == NeighborIds(agentIds[i])
           && comms[i].subscriptions == NeighborSet(agentIds[i])
    }

    /** Every mailbox keeps one slot per sender, from subscribed senders only. */
    ghost predicate MailboxesValid()
      reads comms
    {
      forall i :: 0 <= i < |comms| ==> comms[i].Valid()
    }

    ghost predicate Valid()
      reads this, comms, centralBuffer
    {
      && AgentsWired() && ChannelsWired() && MailboxesValid()
      && centralBuffer.Valid()
    }

    /** One agent, with its own initial parameters, and one channel per id; the channels
        subscribe to the neighbour map's entries. The team counter starts at 0 and every
        previous action at 0. Duplicate ids are excluded: the source's dictionaries would merge
        them while its training loop still counts them. */
    constructor (agentIds: seq<AgentId>, stateDim: int, actionDim: nat, config: Config,
                 network: Network, inits: seq<Weights>)
      requires Distinct(agentIds) && |inits| == |agentIds|
      requires actionDim > 0 && HasOutputs(network, actionDim)
      requires config.bufferSize.GetOr(10000) >= 0
      ensures Valid()
      ensures this.agentIds == agentIds && this.actionDim == actionDim && this.network == network
      ensures targetUpdateFreq == config.targetUpdateFreq.GetOr(10)
      ensures centralBuffer.capacity == config.centralBufferSize.GetOr(10000) && centralBuffer.buffer == []
      ensures communicationEnabled == config.enableCommunication.GetOr(true)
      ensures trainingStep == 0
      ensures previousActions == map id | id in agentIds :: 0
      ensures forall i :: 0 <= i < |agents| ==>
                agents[i].qNetwork == agents[i].targetNetwork == inits[i] && agents[i].memory == []
                && agents[i].trainingStep == 0 && comms[i].received == []
    {
      var made := MakeAgents(agentIds, stateDim, actionDim, config, network, inits);
      var channels := MakeChannels(agentIds);
      this.agentIds := agentIds;
      this.stateDim := stateDim;
      this.actionDim := actionDim;
      this.network := network;
      agents := made;
      comms := channels;
      centralBuffer := new CentralizedBuffer(config.centralBufferSize.GetOr(10000));
      targetUpdateFreq := config.targetUpdateFreq.GetOr(10);
      communicationEnabled := config.enableCommunication.GetOr(true);
      trainingStep := 0;
      previousActions := map id | id in agentIds :: 0;
    }

    /** One new agent per id, built from that id's initial parameters. */
    static method MakeAgents(agentIds: seq<AgentId>, stateDim: int, actionDim: nat, config: Config,
                             network: Network, inits: seq<Weights>) returns (made: seq<DQNAgent>)
      requires |inits| == |agentIds|
      requires actionDim > 0 && HasOutputs(network, actionDim)
      requires config.bufferSize.GetOr(10000) >= 0
      ensures |made| == |agentIds|
      ensures forall k, l :: 0 <= k < l < |made| ==> made[k] != made[l]
      ensures forall k :: 0 <= k < |made| ==>
                && fresh(made[k]) && made[k].Valid() && made[k].agentId == agentIds[k]
                && made[k].network == network && made[k].actionDim == actionDim
                && made[k].qNetwork == made[k].targetNetwork == inits[k] && made[k].memory == []
                && made[k].trainingStep == 0
    {
      made := [];
      var i := 0;
      while i < |agentIds|
        invariant 0 <= i <= |agentIds| && |made| == i
        invariant forall k, l :: 0 <= k < l < i ==> made[k] != made[l]
        invariant forall k :: 0 <= k < i ==>
                    && fresh(made[k]) && made[k].Valid() && made[k].agentId == agentIds[k]
                    && made[k].network == network && made[k].actionDim == actionDim
                    && made[k].qNetwork == made[k].targetNetwork == inits[k] && made[k].memory == []
                    && made[k].trainingStep == 0
      {
        var agent := new DQNAgent(stateDim, actionDim, agentIds[i], config, network, inits[i]);
        made := made + [agent];
        i := i + 1;
      }
    }

    /** One new channel per id, subscribed to that id's neighbours, with an empty mailbox. */
    static method MakeChannels(agentIds: seq<AgentId>) returns (channels: seq<AgentCommunication>)
      ensures |channels| == |agentIds|
      ensures forall k, l :: 0 <= k < l < |channels| ==> channels[k] != channels[l]
      ensures forall k :: 0 <= k < |channels| ==>
                && fresh(channels[k]) && channels[k].Valid() && channels[k].agentId == agentIds[k]
                && channels[k].subscriptions == NeighborSet(agentIds[k])
                && channels[k].neighborIds == NeighborIds(agentIds[k])
                && channels[k].received == []
    {
      channels := [];
      var i := 0;
      while i < |agentIds|
        invariant 0 <= i <= |agentIds| && |channels| == i
        invariant forall k, l :: 0 <= k < l < i ==> channels[k] != channels[l]
        invariant forall k :: 0 <= k < i ==>
                    && fresh(channels[k]) && channels[k].Valid() && channels[k].agentId == agentIds[k]
                    && channels[k].subscriptions == NeighborSet(agentIds[k])
                    && channels[k].neighborIds == NeighborIds(agentIds[k])
                    && channels[k].received == []
      {
        var channel := new AgentCommunication(agentIds[i], NeighborIds(agentIds[i]));
        channels := channels + [channel];
        i := i + 1;
      }
    }

    /** Every agent's online parameters, in agent order. */
    function OnlineWeights(): (w: seq<Weights>)
      reads agents
      ensures |w| == |agents| && forall i :: 0 <= i < |agents| ==> w[i] == agents[i].qNetwork
    {
      seq(|agents|, i reads agents requires 0 <= i < |agents| => agents[i].qNetwork)
    }

    /** Every agent's target parameters, in agent order. */
    function TargetWeights(): (w: seq<Weights>)
      reads agents
      ensures |w| == |agents| && forall i :: 0 <= i < |agents| ==> w[i] == agents[i].targetNetwork
    {
      seq(|agents|, i reads agents requires 0 <= i < |agents| => agents[i].targetNetwork)
    }

    /** train_step: below batch_size stored experiences nothing happens. Otherwise batch_size
        distinct joint experiences are sampled; the team value of each is the mixer's sum of
        the agents' chosen-action values under the online networks, and its target is
        reward + (1 - done) * gamma * the mixer's sum of the agents' best target-network values,
        with the first agent's gamma. Every agent takes an optimizer step (numerics left
        abstract), the team counter is incremented, every target network takes a copy of its
        online network when the new count is a multiple of target_update_freq, and every
        epsilon decays once. The agents' own step counters and memories are not touched.
        A batch_size of 0 or less fails in the source's tensor indexing, the modulo needs a
        non-zero frequency, the first agent must exist, and every sampled experience must have
        one state, action and next state per agent with a valid action. */
    method TrainStep(batchSize: int) returns (report: TeamReport, ghost indices: seq<nat>)
      requires Valid()
      requires batchSize > 0
      requires |centralBuffer.buffer| >= batchSize ==>
                 && targetUpdateFreq != 0 && |agents| > 0
                 && forall k :: 0 <= k < |centralBuffer.buffer| ==> WellFormed(centralBuffer.buffer[k], |agents|, actionDim)
      modifies this`trainingStep, agents
      ensures Valid()
      ensures forall i :: 0 <= i < |agents| ==>
                agents[i].memory == old(agents[i].memory) && agents[i].trainingStep == old(agents[i].trainingStep)
      ensures |centralBuffer.buffer| < batchSize ==>
                && report == NoTraining && trainingStep == old(trainingStep)
                && forall i :: 0 <= i < |agents| ==> agents[i].Snapshot() == old(agents[i].Snapshot())
      ensures |centralBuffer.buffer| >= batchSize ==>
                && report.TeamTrained?
                && |indices| == batchSize && IsSample(indices, |centralBuffer.buffer|)
                && report.samples == Pick(centralBuffer.buffer, indices)
                && report.current == Mix(ChosenValues(network, actionDim, old(OnlineWeights()), report.samples))
                && |report.targets| == batchSize
                && (forall k :: 0 <= k < batchSize ==>
                      report.targets[k] == TdTarget(report.samples[k].reward, report.samples[k].done, agents[0].gamma,
                                                    Mix(NextValues(network, actionDim, old(TargetWeights()), report.samples))[k]))
                && trainingStep == old(trainingStep) + 1
                && (forall i :: 0 <= i < |agents| ==>
                      && agents[i].epsilon == DecayedEpsilon(old(agents[i].epsilon), agents[i].epsilonMin, agents[i].epsilonDecay)
                      && agents[i].targetNetwork ==
                           if trainingStep % targetUpdateFreq == 0 then agents[i].qNetwork else old(agents[i].targetNetwork))
    {
      if centralBuffer.Len() < batchSize {
        return NoTraining, [];
      }
      report, indices := TeamTargets(batchSize);
      trainingStep := trainingStep + 1;
      UpdateAgents(trainingStep % targetUpdateFreq == 0);
    }

    /** The loss terms of one team step: batch_size sampled experiences, their mixed
        chosen-action values under the online networks and their team targets under the target
        networks with the first agent's gamma. Nothing is changed. */
    method TeamTargets(batchSize: nat) returns (report: TeamReport, ghost indices: seq<nat>)
      requires AgentsWired() && |agents| > 0
      requires batchSize <= |centralBuffer.buffer|
      requires forall k :: 0 <= k < |centralBuffer.buffer| ==> WellFormed(centralBuffer.buffer[k], |agents|, actionDim)
      ensures report.TeamTrained?
      ensures |indices| == batchSize && IsSample(indices, |centralBuffer.buffer|)
      ensures report.samples == Pick(centralBuffer.buffer, indices)
      ensures report.current == Mix(ChosenValues(network, actionDim, OnlineWeights(), report.samples))
      ensures |report.targets| == batchSize
      ensures forall k :: 0 <= k < batchSize ==>
                report.targets[k] == TdTarget(report.samples[k].reward, report.samples[k].done, agents[0].gamma,
                                              Mix(NextValues(network, actionDim, TargetWeights(), report.samples))[k])
    {
      var batch;
      batch, indices := centralBuffer.Sample(batchSize);
      var samples := seq(batchSize, k requires 0 <= k < batchSize => Row(batch, k));
      assert samples == Pick(centralBuffer.buffer, indices);
      var online := OnlineWeights();
      var target := TargetWeights();
      var gamma := agents[0].gamma;
      var current := Mix(ChosenValues(network, actionDim, online, samples));
      var nextTeam := Mix(NextValues(network, actionDim, target, samples));
      var targets := seq(batchSize, k requires 0 <= k < batchSize =>
        TdTarget(samples[k].reward, samples[k].done, gamma, nextTeam[k]));
      report := TeamTrained(samples, current, targets);
    }

    /** The per-agent part of train_step: every agent takes an optimizer step (numerics left
        abstract), copies its online network into its target network when sync holds, and
        decays its epsilon once; its memory and step counter are untouched. The source's three
        per-agent loops touch each agent independently, so they are taken agent by agent. */
    method UpdateAgents(sync: bool)
      requires AgentsWired()
      modifies agents
      ensures forall i :: 0 <= i < |agents| ==>
                && agents[i].memory == old(agents[i].memory) && agents[i].trainingStep == old(agents[i].trainingStep)
                && agents[i].epsilon == DecayedEpsilon(old(agents[i].epsilon), agents[i].epsilonMin, agents[i].epsilonDecay)
                && agents[i].targetNetwork == if sync then agents[i].qNetwork else old(agents[i].targetNetwork)
    {
      var i := 0;
      while i < |agents|
        invariant 0 <= i <= |agents|
        invariant forall j :: 0 <= j < |agents| ==>
                    agents[j].memory == old(agents[j].memory) && agents[j].trainingStep == old(agents[j].trainingStep)
        invariant forall j :: 0 <= j < i ==>
                    && agents[j].epsilon == DecayedEpsilon(old(agents[j].epsilon), agents[j].epsilonMin, agents[j].epsilonDecay)
                    && agents[j].targetNetwork == if sync then agents[j].qNetwork else old(agents[j].targetNetwork)
        invariant forall j :: i <= j < |agents| ==>
                    agents[j].epsilon == old(agents[j].epsilon) && agents[j].targetNetwork == old(agents[j].targetNetwork)
      {
        var agent := agents[i];
        var stepped: Weights :| true;
        var steppedOptimizer: seq<real> :| true;
        agent.qNetwork := stepped;
        agent.optimizer := steppedOptimizer;
        if sync {
          agent.targetNetwork := agent.qNetwork;
        }
        agent.epsilon := DecayedEpsilon(agent.epsilon, agent.epsilonMin, agent.epsilonDecay);
        i := i + 1;
      }
    }

    /** remember: the joint experience goes to the shared buffer. */
    method Remember(experience: Transition) returns (ok: bool)
      requires Valid()
      modifies centralBuffer
      ensures Valid()
      ensures ok <==> centralBuffer.capacity > 0
      ensures ok ==> centralBuffer.buffer == LastN(old(centralBuffer.buffer) + [experience], centralBuffer.capacity as nat)
      ensures !ok ==> centralBuffer.buffer == old(centralBuffer.buffer)
    {
      ok := centralBuffer.Add(experience);
    }

    /** save_models: every agent's checkpoint is written to <path>/<id>_model.pth; the rest of
        the file store is left alone. A file holds None when its content does not load. */
    method SaveModels(path: string, disk: map<string, Option<Checkpoint>>) returns (written: map<string, Option<Checkpoint>>)
      requires |agents| == |agentIds| && Distinct(agentIds)
      ensures forall i :: 0 <= i < |agents| ==>
                ModelPath(path, agentIds[i]) in written && written[ModelPath(path, agentIds[i])] == Some(agents[i].Snapshot())
      ensures forall p :: p in written <==> p in disk || p in ModelFiles(path, agentIds)
      ensures forall p :: p in disk && p !in ModelFiles(path, agentIds) ==> written[p] == disk[p]
    {
      var checkpoints: seq<Checkpoint> := [];
      var i := 0;
      while i < |agents|
        invariant 0 <= i <= |agents| && |checkpoints| == i
        invariant forall j :: 0 <= j < i ==> checkpoints[j] == agents[j].Snapshot()
      {
        var checkpoint := agents[i].Save();
        checkpoints := checkpoints + [checkpoint];
        i := i + 1;
      }
      var files := ModelFiles(path, agentIds);
      forall j, k | 0 <= j < k < |files|
        ensures files[j] != files[k]
      {
        if files[j] == files[k] {
          ModelPathInjective(path, agentIds[j], agentIds[k]);
        }
      }
      written := WriteFiles(disk, files, checkpoints);
    }

    /** The file store after writing each checkpoint under its own file name. */
    static method WriteFiles(disk: map<string, Option<Checkpoint>>, files: seq<string>, checkpoints: seq<Checkpoint>)
      returns (written: map<string, Option<Checkpoint>>)
      requires |files| == |checkpoints|
      requires forall j, k :: 0 <= j < k < |files| ==> files[j] != files[k]
      ensures forall i :: 0 <= i < |files| ==> files[i] in written && written[files[i]] == Some(checkpoints[i])
      ensures forall p :: p in written <==> p in disk || p in files
      ensures forall p :: p in disk && p !in files ==> written[p] == disk[p]
    {
      written := disk;
      var i := 0;
      while i < |files|
        invariant 0 <= i <= |files|
        invariant forall j :: 0 <= j < i ==> files[j] in written && written[files[j]] == Some(checkpoints[j])
        invariant forall p :: p in written <==> p in disk || p in files[..i]
        invariant forall p :: p in disk && p !in files[..i] ==> written[p] == disk[p]
      {
        written := written[files[i] := Some(checkpoints[i])];
        assert files[..i + 1] == files[..i] + [files[i]];
        i := i + 1;
      }
      assert files[..i] == files;
    }

    /** Whether the file store holds a loadable checkpoint under this file name. */
    predicate Loadable(disk: map<string, Option<Checkpoint>>, file: string) {
      file in disk && disk[file].Some?
    }

    /** load_models: agents are loaded in order; at the first agent whose file is missing or
        does not load the call stops and reports failure. The agents before it are loaded, the
        agents after it untouched; that agent itself is untouched when its file is missing and
        left in an unspecified state when its file does not load. */
    method LoadModels(path: string, disk: map<string, Option<Checkpoint>>) returns (ok: bool)
      requires AgentsWired()
      modifies agents
      ensures AgentsWired()
      ensures forall i :: 0 <= i < |agents| ==> agents[i].memory == old(agents[i].memory)
      ensures ok <==> forall i :: 0 <= i < |agentIds| ==> Loadable(disk, ModelPath(path, agentIds[i]))
      ensures ok ==> forall i :: 0 <= i < |agents| ==> Some(agents[i].Snapshot()) == disk[ModelPath(path, agentIds[i])]
      ensures !ok ==> exists m :: (
                && 0 <= m < |agents| && !Loadable(disk, ModelPath(path, agentIds[m]))
                && (forall i :: 0 <= i < m ==>
                      Loadable(disk, ModelPath(path, agentIds[i])) && Some(agents[i].Snapshot()) == disk[ModelPath(path, agentIds[i])])
                && (ModelPath(path, agentIds[m]) !in disk ==> agents[m].Snapshot() == old(agents[m].Snapshot()))
                && (forall i :: m < i < |agents| ==> agents[i].Snapshot() == old(agents[i].Snapshot())))
    {
      var i := 0;
      while i < |agents|
        invariant 0 <= i <= |agents|
        invariant AgentsWired()
        invariant forall j :: 0 <= j < |agents| ==> agents[j].memory == old(agents[j].memory)
        invariant forall j :: 0 <= j < i ==>
                    Loadable(disk, ModelPath(path, agentIds[j])) && Some(agents[j].Snapshot()) == disk[ModelPath(path, agentIds[j])]
        invariant forall j :: i <= j < |agents| ==> agents[j].Snapshot() == old(agents[j].Snapshot())
      {
        var file := ModelPath(path, agentIds[i]);
        if file !in disk {
          return false;
        }
        var loaded := agents[i].TryLoad(disk[file]);
        if !loaded {
          return false;
        }
        i := i + 1;
      }
      ok := true;
    }

    /** The PUB/SUB fan-out of one published message: every channel subscribed to the sender
        may or may not have stored it by the time it is drained; no other channel sees it. */
    method Publish(senderIndex: nat, message: Message)
      requires ChannelsWired() && MailboxesValid() && senderIndex < |agentIds|
      requires Decode(message).Some? && Decode(message).value.sender == agentIds[senderIndex]
      modifies comms
      ensures MailboxesValid()
      ensures forall j :: 0 <= j < |comms| ==>
                || comms[j].received == old(comms[j].received)
                || (&& agentIds[senderIndex] in comms[j].subscriptions
                    && comms[j].received == Put(old(comms[j].received), agentIds[senderIndex], Decode(message).value.entry))
      ensures forall j, o :: 0 <= j < |comms| ==>
                || Lookup(comms[j].received, o) == Lookup(old(comms[j].received), o)
                || (o == agentIds[senderIndex] && Lookup(comms[j].received, o) == Some(Decode(message).value.entry))
    {
      var j := 0;
      while j < |comms|
        invariant 0 <= j <= |comms|
        invariant MailboxesValid()
        invariant forall l :: 0 <= l < |comms| ==>
                    || comms[l].received == old(comms[l].received)
                    || (&& l < j && agentIds[senderIndex] in comms[l].subscriptions
                        && comms[l].received == Put(old(comms[l].received), agentIds[senderIndex], Decode(message).value.entry))
      {
        if agentIds[senderIndex] in comms[j].subscriptions {
          if * {
            comms[j].Store(message);
          }
        }
        j := j + 1;
      }
      forall l, o | 0 <= l < |comms|
        ensures || Lookup(comms[l].received, o) == Lookup(old(comms[l].received), o)
                || (o == agentIds[senderIndex] && Lookup(comms[l].received, o) == Some(Decode(message).value.entry))
      {
        if comms[l].received != old(comms[l].received) {
          PutThenLookup(old(comms[l].received), agentIds[senderIndex], Decode(message).value.entry, o);
        }
      }
    }

    /** receive_messages: nothing when communication is off or the id is unknown; otherwise the
        receiver's mailbox is drained and each slot becomes (sender, data, timestamp), in order. */
    method ReceiveMessages(receiverId: AgentId) returns (out: seq<Received>)
      requires ChannelsWired() && MailboxesValid()
      modifies comms
      ensures MailboxesValid()
      ensures !communicationEnabled || receiverId !in agentIds ==>
                out == [] && forall j :: 0 <= j < |comms| ==> comms[j].received == old(comms[j].received)
      ensures communicationEnabled && receiverId in agentIds ==>
                var r := IndexOf(agentIds, receiverId);
                && |out| == |old(comms[r].received)|
                && (forall k :: 0 <= k < |out| ==>
                      out[k] == Received(old(comms[r].received)[k].sender, old(comms[r].received)[k].entry.data,
                                         old(comms[r].received)[k].entry.timestamp))
                && comms[r].received == []
                && forall j :: 0 <= j < |comms| && j != r ==> comms[j].received == old(comms[j].received)
    {
      if !communicationEnabled || receiverId !in agentIds {
        return [];
      }
      var r := IndexOf(agentIds, receiverId);
      var messages := comms[r].GetNeighborMessages();
      out := [];
      var k := 0;
      while k < |messages|
        invariant 0 <= k <= |messages| && |out| == k
        invariant forall l :: 0 <= l < k ==>
                    out[l] == Received(messages[l].sender, messages[l].entry.data, messages[l].entry.timestamp)
      {
        out := out + [Received(messages[k].sender, messages[k].entry.data, messages[k].entry.timestamp)];
        k := k + 1;
      }
    }

    /** The first half of act: every agent publishes its first four state values, its full
        state and the time. */
    method AnnounceStates(states: map<AgentId, seq<real>>, now: real)
      requires ChannelsWired() && MailboxesValid()
      requires forall i :: 0 <= i < |agentIds| ==> agentIds[i] in states
      modifies comms
      ensures MailboxesValid()
    {
      var i := 0;
      while i < |agentIds|
        invariant 0 <= i <= |agentIds|
        invariant MailboxesValid()
      {
        var state := states[agentIds[i]];
        var stateInfo := Payload(Some(state[..if |state| < 4 then |state| else 4]), None, None, Some(state), Some(now));
        Publish(i, comms[i].SendState(stateInfo, now));
        i := i + 1;
      }
    }

    /** receive_messages for every agent with a state, in id order: each such mailbox is
        drained and its messages returned at the agent's position; the others are left alone. */
    method DrainMailboxes(states: map<AgentId, seq<real>>) returns (boxes: seq<seq<Mail>>)
      requires |comms| == |agentIds| && (forall i, j :: 0 <= i < j < |comms| ==> comms[i] != comms[j])
      requires MailboxesValid()
      modifies comms
      ensures MailboxesValid()
      ensures |boxes| == |agentIds|
      ensures forall i :: 0 <= i < |agentIds| && agentIds[i] in states ==> boxes[i] == old(comms[i].received)
      ensures forall i :: 0 <= i < |comms| && agentIds[i] in states ==> comms[i].received == []
      ensures forall i :: 0 <= i < |comms| && agentIds[i] !in states ==> comms[i].received == old(comms[i].received)
    {
      boxes := [];
      var i := 0;
      while i < |agentIds|
        invariant 0 <= i <= |agentIds| && |boxes| == i
        invariant MailboxesValid()
        invariant forall j :: 0 <= j < i && agentIds[j] in states ==> boxes[j] == old(comms[j].received)
        invariant forall j :: 0 <= j < i && agentIds[j] in states ==> comms[j].received == []
        invariant forall j :: 0 <= j < |comms| && (i <= j || agentIds[j] !in states) ==> comms[j].received == old(comms[j].received)
      {
        var messages: seq<Mail> := [];
        if agentIds[i] in states {
          messages := comms[i].GetNeighborMessages();
        }
        boxes := boxes + [messages];
        i := i + 1;
      }
    }

    /** The choosing loop: every agent with an input acts on it, epsilon-greedily, or greedily
        when exploring is off. */
    method ChooseActions(inputs: map<AgentId, seq<real>>, explore: bool) returns (actions: map<AgentId, int>)
      requires AgentsReady()
      requires forall id :: id in inputs ==> id in agentIds
      ensures actions.Keys == inputs.Keys
      ensures forall id :: id in actions ==> 0 <= actions[id] < actionDim
      ensures !explore ==> forall i :: 0 <= i < |agentIds| && agentIds[i] in inputs ==>
                actions[agentIds[i]] == agents[i].Greedy(inputs[agentIds[i]])
    {
      actions := map[];
      var i := 0;
      while i < |agentIds|
        invariant 0 <= i <= |agentIds|
        invariant forall id :: id in actions <==> id in inputs && id in agentIds[..i]
        invariant forall id :: id in actions ==> 0 <= actions[id] < actionDim
        invariant !explore ==> forall j :: 0 <= j < i && agentIds[j] in inputs ==>
                    actions[agentIds[j]] == agents[j].Greedy(inputs[agentIds[j]])
      {
        var id := agentIds[i];
        if id in inputs {
          var action := agents[i].Act(inputs[id], explore);
          actions := actions[id := action];
        }
        assert agentIds[..i + 1] == agentIds[..i] + [id];
        i := i + 1;
      }
      assert agentIds[..i] == agentIds;
    }

    /** act: with communication on, every agent first publishes its first four state values,
        its full state and the time; then each agent with a state drains its mailbox (the
        messages are not used) and chooses epsilon-greedily, or greedily outside training.
        Every agent must have a state when communication is on, and every state must belong
        to an agent. */
    method Act(states: map<AgentId, seq<real>>, trainingMode: bool, now: real) returns (actions: map<AgentId, int>)
      requires Valid()
      requires forall id :: id in states ==> id in agentIds
      requires communicationEnabled ==> forall i :: 0 <= i < |agentIds| ==> agentIds[i] in states
      modifies comms
      ensures Valid()
      ensures actions.Keys == states.Keys
      ensures forall id :: id in actions ==> 0 <= actions[id] < actionDim
      ensures !trainingMode ==> forall i :: 0 <= i < |agentIds| && agentIds[i] in states ==>
                actions[agentIds[i]] == agents[i].Greedy(states[agentIds[i]])
      ensures communicationEnabled ==> forall i :: 0 <= i < |comms| ==> comms[i].received == []
    {
      if communicationEnabled {
        AnnounceStates(states, now);
        // The source drains each mailbox just before the agent chooses; the drained messages
        // are not used, so draining them all first gives the same choices and mailboxes.
        var unused := DrainMailboxes(states);
      }
      actions := ChooseActions(states, trainingMode);
    }

    /** get_enhanced_state: drains the agent's mailbox and appends ten neighbour features to the
        base state: each message with a queue contributes its queue, its phase and its intended
        action, in mailbox order, padded with zeros and cut to ten. */
    method GetEnhancedState(baseState: seq<real>, agentId: AgentId) returns (enhanced: seq<real>, ghost drained: seq<Mail>)
      requires ChannelsWired() && MailboxesValid() && agentId in agentIds
      modifies comms
      ensures MailboxesValid()
      ensures drained == old(comms[IndexOf(agentIds, agentId)].received)
      ensures HearsOnlyFrom(drained, set n | n in NeighborIds(agentId)) && UniqueSenders(drained)
      ensures enhanced == baseState + Fit10(NeighborInfo(drained))
      ensures comms[IndexOf(agentIds, agentId)].received == []
      ensures forall j :: 0 <= j < |comms| && agentIds[j] != agentId ==> comms[j].received == old(comms[j].received)
    {
      var r := IndexOf(agentIds, agentId);
      enhanced, drained := EnhanceAt(r, baseState);
    }

    /** get_enhanced_state for the agent at position r. */
    method EnhanceAt(r: nat, baseState: seq<real>) returns (enhanced: seq<real>, ghost drained: seq<Mail>)
      requires ChannelsWired() && MailboxesValid() && r < |agentIds|
      modifies comms[r]
      ensures MailboxesValid()
      ensures drained == old(comms[r].received) && comms[r].received == []
      ensures HearsOnlyFrom(drained, NeighborSet(agentIds[r])) && UniqueSenders(drained)
      ensures enhanced == baseState + Fit10(NeighborInfo(drained))
    {
      var messages := comms[r].GetNeighborMessages();
      drained := messages;
      enhanced := Enhance(baseState, messages);
    }

    /** The base state followed by the ten neighbour features of the drained messages. */
    static method Enhance(baseState: seq<real>, messages: seq<Mail>) returns (enhanced: seq<real>)
      ensures enhanced == baseState + Fit10(NeighborInfo(messages))
    {
      var info := CollectNeighborInfo(messages);
      var features := PadToTen(info);
      enhanced := baseState + features;
    }

    /** The neighbour_info loop of get_enhanced_state. */
    static method CollectNeighborInfo(messages: seq<Mail>) returns (info: seq<real>)
      ensures info == NeighborInfo(messages)
    {
      info := [];
      var k := 0;
      while k < |messages|
        invariant 0 <= k <= |messages|
        invariant info == NeighborInfo(messages[..k])
      {
        assert messages[..k + 1][..k] == messages[..k];
        var data := messages[k].entry.data;
        if data.queue.Some? {
          info := info + data.queue.value;
          info := info + [data.currentPhase.GetOr(0) as real];
          info := info + [data.intendedAction.GetOr(0) as real];
        }
        k := k + 1;
      }
      assert messages[..k] == messages;
    }

    /** The padding loop (append zeros while shorter than ten) and the cut to ten. */
    static method PadToTen(info: seq<real>) returns (features: seq<real>)
      ensures features == Fit10(info)
    {
      var padded := info;
      while |padded| < 10
        invariant |info| <= |padded|
        invariant |info| < 10 ==> |padded| <= 10 && padded == info + Zeros(|padded| - |info|)
        invariant |info| >= 10 ==> padded == info
        decreases 10 - |padded|
      {
        assert Zeros(|padded| + 1 - |info|) == Zeros(|padded| - |info|) + [0.0];
        padded := padded + [0.0];
      }
      features := padded[..10];
    }

    /** What the agent at position i announces in act_with_coordination for state s at time
        now: its first four state values, int(s[8] * 8) as its current phase, and the action
        it would take greedily on s followed by ten zeros. */
    ghost function Announcement(i: nat, s: seq<real>, now: real): Entry
      reads agents
      requires AgentsReady() && i < |agents| && |s| > 8
    {
      Entry(Payload(Some(s[..4]), Some(Trunc(s[8] * 8.0)), Some(agents[i].Greedy(s + Zeros(10))), None, None),
            now, "state_update")
    }

    /** The announcement of every agent that has a state, keyed by its id. */
    ghost function Announcements(states: map<AgentId, seq<real>>, now: real): (heard: map<AgentId, Entry>)
      reads agents
      requires AgentsReady() && forall id :: id in states ==> |states[id]| > 8
      ensures forall o :: o in heard <==> o in states && o in agentIds
    {
      map o | o in states && o in agentIds :: Announcement(IndexOf(agentIds, o), states[o], now)
    }

    /** The first phase of act_with_coordination: every agent with a state publishes its
        announcement; a mailbox that receives it keeps it in the sender's slot, and every
        other slot stays as it was. */
    method AnnounceIntentions(states: map<AgentId, seq<real>>, now: real)
      requires AgentsReady() && ChannelsWired() && MailboxesValid()
      requires forall id :: id in states ==> |states[id]| > 8
      modifies comms
      ensures MailboxesValid()
      ensures forall j, o :: 0 <= j < |comms| ==> HeardOrKept(old(Announcements(states, now)), old(comms[j].received), comms[j].received, o)
    {
      var i := 0;
      while i < |agentIds|
        invariant 0 <= i <= |agentIds|
        invariant MailboxesValid()
        invariant forall j, o :: 0 <= j < |comms| ==> HeardOrKept(old(Announcements(states, now)), old(comms[j].received), comms[j].received, o)
      {
        var id := agentIds[i];
        if id in states {
          label Before:
          Announce(i, states[id], now);
          assert IndexOf(agentIds, id) == i;
          assert old(Announcements(states, now))[id] == Announcement(i, states[id], now);
          forall j, o | 0 <= j < |comms|
            ensures HeardOrKept(old(Announcements(states, now)), old(comms[j].received), comms[j].received, o)
          {
            assert HeardOrKept(old(Announcements(states, now)), old(comms[j].received), old@Before(comms[j].received), o);
          }
        }
        i := i + 1;
      }
    }

    /** One agent's announcement in act_with_coordination: it reaches the subscribed mailboxes
        in the agent's slot and changes no other slot. */
    method Announce(i: nat, state: seq<real>, now: real)
      requires AgentsReady() && ChannelsWired() && MailboxesValid()
      requires i < |agentIds| && |state| > 8
      modifies comms
      ensures MailboxesValid()
      ensures forall j, o :: 0 <= j < |comms| ==>
                || Lookup(comms[j].received, o) == Lookup(old(comms[j].received), o)
                || (o == agentIds[i] && Lookup(comms[j].received, o) == Some(Announcement(i, state, now)))
    {
      var intended := agents[i].Act(state + Zeros(10), false);
      var stateInfo := Payload(Some(state[..4]), Some(Trunc(state[8] * 8.0)), Some(intended), None, None);
      assert Entry(stateInfo, now, "state_update") == Announcement(i, state, now);
      Publish(i, comms[i].SendState(stateInfo, now));
    }

    /** get_enhanced_state's feature building for every agent with a state, on the messages
        drained from its mailbox. */
    static method EnhanceStates(ids: seq<AgentId>, states: map<AgentId, seq<real>>, boxes: seq<seq<Mail>>)
      returns (enhanced: map<AgentId, seq<real>>)
      requires Distinct(ids) && |boxes| == |ids|
      requires forall id :: id in states ==> id in ids
      ensures enhanced.Keys == states.Keys
      ensures forall i :: 0 <= i < |ids| && ids[i] in states ==>
                enhanced[ids[i]] == states[ids[i]] + Fit10(NeighborInfo(boxes[i]))
    {
      var features := FeatureRows(ids, states, boxes);
      enhanced := KeyByAgent(ids, states.Keys, features);
    }

    /** The enhanced state of every listed agent that has a state, in id order (empty for the
        others). */
    static method FeatureRows(ids: seq<AgentId>, states: map<AgentId, seq<real>>, boxes: seq<seq<Mail>>)
      returns (features: seq<seq<real>>)
      requires |boxes| == |ids|
      ensures |features| == |ids|
      ensures forall j :: 0 <= j < |ids| && ids[j] in states ==>
                features[j] == states[ids[j]] + Fit10(NeighborInfo(boxes[j]))
    {
      ghost var target := seq(|ids|, j requires 0 <= j < |ids| =>
        if ids[j] in states then states[ids[j]] + Fit10(NeighborInfo(boxes[j])) else []);
      features := [];
      var i := 0;
      while i < |ids|
        invariant 0 <= i <= |ids|
        invariant features == target[..i]
      {
        var f := [];
        if ids[i] in states {
          f := Enhance(states[ids[i]], boxes[i]);
        }
        features := features + [f];
        i := i + 1;
      }
      assert features == target;
    }

    /** The map from each listed agent that has a state to the value at its position. */
    static method KeyByAgent(ids: seq<AgentId>, keys: set<AgentId>, values: seq<seq<real>>)
      returns (m: map<AgentId, seq<real>>)
      requires Distinct(ids) && |values| == |ids|
      requires forall id :: id in keys ==> id in ids
      ensures m.Keys == keys
      ensures forall i :: 0 <= i < |ids| && ids[i] in keys ==> m[ids[i]] == values[i]
    {
      m := map[];
      var i := 0;
      while i < |ids|
        invariant 0 <= i <= |ids|
        invariant forall id :: id in m <==> id in keys && id in ids[..i]
        invariant forall j :: 0 <= j < i && ids[j] in keys ==> m[ids[j]] == values[j]
      {
        if ids[i] in keys {
          m := m[ids[i] := values[i]];
        }
        assert ids[..i + 1] == ids[..i] + [ids[i]];
        i := i + 1;
      }
      assert ids[..i] == ids;
    }

    /** Every channel's mailbox, in id order; each holds at most one message per sender and
        only messages from the agent's neighbours. */
    ghost function Mailboxes(): (boxes: seq<seq<Mail>>)
      requires ChannelsWired() && MailboxesValid()
      reads this, comms
      ensures |boxes| == |comms|
      ensures forall i :: 0 <= i < |comms| ==>
                && boxes[i] == comms[i].received
                && HearsOnlyFrom(boxes[i], NeighborSet(agentIds[i])) && UniqueSenders(boxes[i])
    {
      seq(|comms|, j reads comms requires 0 <= j < |comms| => comms[j].received)
    }

    /** act_with_coordination: first every agent with a state announces its intention, then
        every such agent chooses on its enhanced state and records the choice as its previous
        action. seen holds, per agent position, the mailbox its enhanced state was built from:
        the mailbox on entry with the announcements of this call put in their senders' slots.
        Index 8 of every state must exist and every state must belong to an agent. */
    method ActWithCoordination(states: map<AgentId, seq<real>>, trainingMode: bool, now: real)
      returns (actions: map<AgentId, int>, ghost seen: seq<seq<Mail>>)
      requires Valid()
      requires forall id :: id in states ==> id in agentIds && |states[id]| > 8
      modifies this`previousActions, comms
      ensures Valid()
      ensures actions.Keys == states.Keys && |seen| == |agentIds|
      ensures forall id :: id in actions ==> 0 <= actions[id] < actionDim
      ensures previousActions == old(previousActions) + actions
      ensures forall i :: 0 <= i < |agentIds| ==> HearsOnlyFrom(seen[i], NeighborSet(agentIds[i])) && UniqueSenders(seen[i])
      ensures !trainingMode ==> forall i :: 0 <= i < |agentIds| && agentIds[i] in states ==>
                actions[agentIds[i]] == agents[i].Greedy(states[agentIds[i]] + Fit10(NeighborInfo(seen[i])))
      ensures forall i :: 0 <= i < |comms| ==> comms[i].received == if agentIds[i] in states then [] else seen[i]
      ensures forall i, o :: 0 <= i < |agentIds| ==> HeardOrKept(old(Announcements(states, now)), old(comms[i].received), seen[i], o)
    {
      var boxes;
      boxes, seen := Coordinate(states, now);
      var enhanced := EnhanceStates(agentIds, states, boxes);
      actions := ChooseActions(enhanced, trainingMode);
      // The source records each choice as it is made; nothing in between reads them.
      previousActions := previousActions + actions;
    }

    /** The message exchange of act_with_coordination: every agent with a state announces its
        intention, then every such agent drains its mailbox. seen holds, per agent position,
        the mailbox after the announcements; boxes the drained ones. */
    method Coordinate(states: map<AgentId, seq<real>>, now: real) returns (boxes: seq<seq<Mail>>, ghost seen: seq<seq<Mail>>)
      requires AgentsReady() && ChannelsWired() && MailboxesValid()
      requires forall id :: id in states ==> |states[id]| > 8
      modifies comms
      ensures MailboxesValid()
      ensures |boxes| == |agentIds| && |seen| == |agentIds|
      ensures forall i :: 0 <= i < |agentIds| ==> HearsOnlyFrom(seen[i], NeighborSet(agentIds[i])) && UniqueSenders(seen[i])
      ensures forall i :: 0 <= i < |agentIds| && agentIds[i] in states ==> boxes[i] == seen[i]
      ensures forall i :: 0 <= i < |comms| ==> comms[i].received == if agentIds[i] in states then [] else seen[i]
      ensures forall i, o :: 0 <= i < |agentIds| ==> HeardOrKept(old(Announcements(states, now)), old(comms[i].received), seen[i], o)
    {
      AnnounceIntentions(states, now);
      seen := Mailboxes();
      // The source drains each mailbox and builds the agent's enhanced state just before the
      // agent chooses; no step reads another agent's mailbox or choice, so taking the steps
      // phase by phase gives the same choices and mailboxes.
      boxes := DrainMailboxes(states);
    }
  }
}
