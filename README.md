# traffic-marl-vdn in Dafny

A Dafny model of the control core of traffic-marl-vdn. That repository controls the traffic lights of two
junctions (J1_center, J2_center) with cooperative multi-agent deep Q-learning: one DQN agent per junction,
trained together through an additive value-decomposition (VDN) mixer from a shared replay buffer, and
exchanging their queues and intended actions over a neighbour channel. A fixed-time signal controller serves
as the baseline, and a SUMO environment wrapper turns simulator readings into observations and rewards.

The model covers, one Dafny module per source file:

- `VdnMixer` (agents/vdn_mixer.py): the mixer as a row sum, and the centralized buffer as a class over a
  sequence that evicts its oldest entry first.
- `DqnAgent` (agents/dqn_agent.py): the agent's bookkeeping.
  - Epsilon-greedy choice.
  - The bounded memory.
  - The training step's epsilon decay, step counter, target sync and TD targets.
  - Save and load.
  - The networks are abstract: a parameter vector plus one architecture function.
- `Communication` (agents/communication.py): the messages an agent publishes, and the mailbox its receive
  loop fills and `get_neighbor_messages` drains.
  - The mailbox is kept as an association list that behaves like a Python dict: one slot per sender, the
    latest message wins, insertion order is kept.
- `MultiAgentSystem` (agents/multi_agent_system.py):
  - the neighbour map;
  - the team training step;
  - saving and loading of every agent;
  - `act`;
  - the enhanced observation (base state plus ten neighbour features);
  - the two-phase `act_with_coordination`.
- `FixedTimeController` (normal_traffic/fixed_time_controller.py): the eight-phase green/yellow cycle, the
  cycle position modulo 4, the phase/direction lookups and the step counters.
- `TrafficActions` (utils/traffic_actions.py): the phase an action leads to, and the light commands it sends.
- `SumoEnv` (utils/sumo_env_new.py):
  - lane classification and the phase-to-direction map;
  - the 13-feature observation;
  - the reward, including its empty-road case;
  - the episode counter with its 1800-step horizon.
- `Common`: shared helpers (sums and maxima, a bounded FIFO window, Python's `int()` truncation, sampling
  without replacement).

What the simulator, the clock and the network would provide is passed in as arguments:

- lane and vehicle readings;
- the current time;
- the departed count;
- the file store, as a map from path to file content: a checkpoint, or `None` for content that does not load.

Light commands (`setPhase`, `setPhaseDuration`) are returned as a list of `LightCommand` values instead of
being sent. Random choices (`random.random`, `randrange`, `random.sample`, `np.random.choice`) and message
delivery are nondeterministic choices under the constraints the source guarantees.

Where the documented design and the code differ, the model follows the code:

- `load_models` is described as all-or-nothing. The code loads agents in order and returns `False` at the
  first file that is missing or raises while loading, so the agents before it stay loaded.
  `MultiAgentSystem.MultiAgentSystem.LoadModels` states this partial outcome.
- The coordination round announces `int(state[8] * 8)` as the "current phase". `state[8]` is the west-green
  one-hot flag, so the announced value is 8 or 0, not a phase index (`MultiAgentSystem.AnnouncedPhaseOfFlag`).

## Model

| member | source | states |
|---|---|---|
| Common.ArgmaxIsFirstMax | traffic-marl-vdn/agents/dqn_agent.py:62-64 | torch.argmax's pick: no action has a larger value, and every earlier action has a strictly smaller one |
| Common.Max | traffic-marl-vdn/agents/dqn_agent.py:91 | the row maximum is one of the row's values and bounds all of them |
| Common.Trunc | traffic-marl-vdn/agents/multi_agent_system.py:320 | Python's `int()` on a float truncates toward zero: within one of the argument, on the side of zero |
| Common.LastN | traffic-marl-vdn/agents/dqn_agent.py:32 | a window of capacity n holds min(len, n) elements, the newest ones, in their original order |
| Common.LastNAppend | traffic-marl-vdn/agents/vdn_mixer.py:44-46 | appending to a trimmed window and trimming again equals trimming the whole history, so eviction never loses a newer entry |
| Common.AppendAllIsLastN | traffic-marl-vdn/agents/vdn_mixer.py:42-46 | any run of single appends to a bounded FIFO leaves exactly the newest min(total, n) elements, oldest first |
| Common.ChooseDistinct | traffic-marl-vdn/agents/vdn_mixer.py:50 | sampling without replacement gives k distinct positions, all below n; k <= n is required, since the source raises otherwise |
| Common.Pick | traffic-marl-vdn/agents/vdn_mixer.py:51 | the chosen experiences are the stored ones at the sampled positions, in sampling order |
| VdnMixer.Mix | traffic-marl-vdn/agents/vdn_mixer.py:14-25 | one team value per batch row |
| VdnMixer.MixIsRowSum | traffic-marl-vdn/agents/vdn_mixer.py:14-25 | each team value is the sum of the row's agent values (0 for no agents, the value itself for one agent) |
| VdnMixer.MixCreditAssignment | traffic-marl-vdn/agents/vdn_mixer.py:14-25 | additivity: moving one agent's value by delta moves that row's team value by exactly delta and leaves the other rows unchanged |
| VdnMixer.MixSplitsOverAgents | traffic-marl-vdn/agents/vdn_mixer.py:14-25 | the team value of two agent groups joined is the sum of the groups' team values |
| VdnMixer.Unzip | traffic-marl-vdn/agents/vdn_mixer.py:53-58 | the five separated arrays each have one entry per sampled experience |
| VdnMixer.UnzipRows | traffic-marl-vdn/agents/vdn_mixer.py:53-61 | position k of the five arrays, put back together, is the k-th sampled experience |
| VdnMixer.CentralizedBuffer.constructor | traffic-marl-vdn/agents/vdn_mixer.py:38-40 | the buffer starts empty, with the given capacity |
| VdnMixer.CentralizedBuffer.Add | traffic-marl-vdn/agents/vdn_mixer.py:42-46 | succeeds exactly when capacity > 0 (a capacity of 0 pops from an empty list); on success the buffer is the newest `capacity` entries of old contents plus the new one, on failure it is unchanged |
| VdnMixer.CentralizedBuffer.Sample | traffic-marl-vdn/agents/vdn_mixer.py:48-61 | batch_size <= len required; batch_size distinct in-range positions; the k-th entry of every array comes from the k-th chosen experience; the buffer is not changed |
| VdnMixer.CentralizedBuffer.Len | traffic-marl-vdn/agents/vdn_mixer.py:63-64 | the number of stored experiences |
| VdnMixer.AddManyKeepsNewest | traffic-marl-vdn/agents/vdn_mixer.py:42-46 | after any number of adds with capacity > 0 the buffer holds the last min(total, capacity) experiences in insertion order, the newest at the end |
| DqnAgent.DecayedEpsilon | traffic-marl-vdn/agents/dqn_agent.py:104 | the new epsilon is epsilon_min or epsilon * decay, whichever is larger, so never below epsilon_min |
| DqnAgent.DecayNeverIncreases | traffic-marl-vdn/agents/dqn_agent.py:104 | with decay at most 1 and epsilon >= max(0, epsilon_min), one decay never raises epsilon and never takes it below epsilon_min |
| DqnAgent.EpsilonScheduleMonotone | traffic-marl-vdn/agents/dqn_agent.py:103-104 | over any number of training steps epsilon is non-increasing and stays in [epsilon_min, epsilon_start] |
| DqnAgent.TdTargetCases | traffic-marl-vdn/agents/dqn_agent.py:92 | a terminal experience's target is its reward; otherwise it is reward + gamma * next value |
| DqnAgent.DQNAgent.constructor | traffic-marl-vdn/agents/dqn_agent.py:15-41 | the target network equals the online network; memory empty; counter 0; every setting read from the configuration with the source's defaults |
| DqnAgent.DQNAgent.QValues | traffic-marl-vdn/agents/dqn_agent.py:113-118 | one online value per action |
| DqnAgent.DQNAgent.Greedy | traffic-marl-vdn/agents/dqn_agent.py:61-64 | the exploiting action is a valid action index |
| DqnAgent.DQNAgent.GreedyIsFirstBest | traffic-marl-vdn/agents/dqn_agent.py:61-64 | the greedy action has the largest online value, and is the first such action |
| DqnAgent.DQNAgent.Act | traffic-marl-vdn/agents/dqn_agent.py:53-64 | any returned action is in [0, action_dim); with explore off, or epsilon <= 0, it is the greedy action |
| DqnAgent.DQNAgent.Remember | traffic-marl-vdn/agents/dqn_agent.py:66-68 | memory never exceeds buffer_size, and it holds the newest buffer_size experiences, oldest dropped first |
| DqnAgent.DQNAgent.Train | traffic-marl-vdn/agents/dqn_agent.py:70-109 | below batch_size experiences nothing changes. Otherwise: batch_size distinct experiences are sampled; chosen-action values come from the online network; targets are reward + (1 - done) * gamma * the target network's max; epsilon decays once; the counter rises by 1; the target network takes the online one exactly when the new count is a multiple of target_update_freq |
| DqnAgent.DQNAgent.Save | traffic-marl-vdn/agents/dqn_agent.py:120-128 | the checkpoint holds both networks, the optimizer state, epsilon and the step counter |
| DqnAgent.DQNAgent.Load | traffic-marl-vdn/agents/dqn_agent.py:130-137 | afterwards Save yields exactly the loaded checkpoint (the save/load round trip); loading what was just saved changes nothing |
| DqnAgent.DQNAgent.TryLoad | traffic-marl-vdn/agents/dqn_agent.py:130-137 | succeeds exactly when the file holds a loadable checkpoint, and then the agent's saved state is that checkpoint; the replay memory is never touched |
| Communication.PutThenLookup | traffic-marl-vdn/agents/communication.py:90-96 | after storing, the sender's entry is the new one, and every other sender's entry is as before |
| Communication.PutSenders | traffic-marl-vdn/agents/communication.py:92 | storing keeps the order of existing senders; a new sender goes last |
| Communication.PutKeepsOrder | traffic-marl-vdn/agents/communication.py:92 | as PutSenders, and the mailbox never holds two slots for one sender |
| Communication.PutOverwrites | traffic-marl-vdn/agents/communication.py:92-96 | of two messages from one sender before a drain, only the later is kept |
| Communication.AgentCommunication.constructor | traffic-marl-vdn/agents/communication.py:11-34 | exactly one subscription per neighbour id (none without neighbours), and an empty mailbox |
| Communication.AgentCommunication.Store | traffic-marl-vdn/agents/communication.py:90-96 | a message lacking sender, data or timestamp is dropped. Otherwise data and timestamp are kept verbatim and the type defaults to "unknown". The entry replaces that sender's old one, senders keep their order, and every other sender's entry is unchanged |
| Communication.AgentCommunication.GetNeighborMessages | traffic-marl-vdn/agents/communication.py:103-109 | returns the mailbox contents (one slot per sender) and leaves the mailbox empty, so an immediate second call returns nothing |
| Communication.PublishedMessagesDecode | traffic-marl-vdn/agents/communication.py:43-75 | each sent message carries the agent's id, the data and the time, with type "state_update", "prediction" or "emergency"; only the emergency has priority "high"; a receiver stores each one verbatim |
| MultiAgentSystem.NeighborSet | traffic-marl-vdn/agents/multi_agent_system.py:45-48 | the neighbour map's list for an id, as a set; no neighbours for an unknown id |
| MultiAgentSystem.NeighborsSymmetric | traffic-marl-vdn/agents/multi_agent_system.py:45-48 | J1_center and J2_center are each other's only neighbour: symmetric, and no agent is its own neighbour |
| MultiAgentSystem.Fit10Shape | traffic-marl-vdn/agents/multi_agent_system.py:268-273 | the neighbour features are always ten values: the collected information as far as it fits, then zeros |
| MultiAgentSystem.QueuelessMailIsIgnored | traffic-marl-vdn/agents/multi_agent_system.py:261-273 | messages without a queue contribute nothing, so an empty or queueless mailbox gives ten zeros |
| MultiAgentSystem.OneNeighborLayout | traffic-marl-vdn/agents/multi_agent_system.py:261-273 | one neighbour with four queue values gives its queues, its phase (0 if absent), its intended action (0 if absent), then four zeros |
| MultiAgentSystem.AnnouncedPhaseOfFlag | traffic-marl-vdn/agents/multi_agent_system.py:320 | int(state[8] * 8) on the one-hot west flag announces 8 when set and 0 when not |
| MultiAgentSystem.ModelPathInjective | traffic-marl-vdn/agents/multi_agent_system.py:237 | different agents are saved to different files under one directory |
| MultiAgentSystem.MultiAgentSystem.constructor | traffic-marl-vdn/agents/multi_agent_system.py:18-61 | one agent and one channel per id, each channel subscribed to its neighbours; every target equals its online network; team counter 0; every previous action 0; settings from the configuration with defaults |
| MultiAgentSystem.MultiAgentSystem.MakeAgents | traffic-marl-vdn/agents/multi_agent_system.py:26-28 | one fresh, distinct agent per id, under that id, target equal to online, memory empty |
| MultiAgentSystem.MultiAgentSystem.MakeChannels | traffic-marl-vdn/agents/multi_agent_system.py:50-58 | one fresh, distinct channel per id, subscribed to exactly that id's neighbours, with an empty mailbox |
| MultiAgentSystem.MultiAgentSystem.TrainStep | traffic-marl-vdn/agents/multi_agent_system.py:152-228 | below batch_size stored experiences: nothing changes (returns the 0, 0 sentinel). Otherwise: batch_size distinct experiences; team value = mixer sum of chosen-action online values; team target = reward + (1 - done) * gamma * mixer sum of best target values; counter +1; every target synced exactly when the count is a multiple of target_update_freq; every epsilon decayed once; agents' own counters and memories untouched |
| MultiAgentSystem.MultiAgentSystem.TeamTargets | traffic-marl-vdn/agents/multi_agent_system.py:154-196 | the sampled experiences and, per row, the mixed chosen-action value and the team TD target, with the first agent's gamma |
| MultiAgentSystem.MultiAgentSystem.UpdateAgents | traffic-marl-vdn/agents/multi_agent_system.py:202-226 | every agent's epsilon is decayed once and its target set to its online network exactly when sync holds; memory and counter untouched |
| MultiAgentSystem.MultiAgentSystem.Remember | traffic-marl-vdn/agents/multi_agent_system.py:230-232 | the experience goes to the shared buffer with the buffer's FIFO eviction; fails exactly when the capacity is 0 or less |
| MultiAgentSystem.MultiAgentSystem.SaveModels | traffic-marl-vdn/agents/multi_agent_system.py:234-237 | every agent's checkpoint is at <path>/<id>_model.pth, loadable; only those files are added or replaced; every other file is unchanged |
| MultiAgentSystem.MultiAgentSystem.LoadModels | traffic-marl-vdn/agents/multi_agent_system.py:239-253 | returns true exactly when every agent's file exists and loads, and then every agent holds its file's checkpoint. Otherwise there is a first agent whose file is missing or does not load: the agents before it are loaded, the agents after it are untouched, and that agent is untouched when its file is missing; no replay memory changes |
| MultiAgentSystem.MultiAgentSystem.Publish | traffic-marl-vdn/agents/multi_agent_system.py:133 | a published message reaches only channels subscribed to the sender; each of those either stored it under the sender or not yet |
| MultiAgentSystem.MultiAgentSystem.ReceiveMessages | traffic-marl-vdn/agents/multi_agent_system.py:100-115 | nothing (and no change) when communication is off or the id is unknown. Otherwise: the receiver's mailbox is drained, each slot becomes (sender, data, timestamp) in order, and other mailboxes are unchanged |
| MultiAgentSystem.MultiAgentSystem.AnnounceStates | traffic-marl-vdn/agents/multi_agent_system.py:122-135 | after every agent publishes its queue and full state, each mailbox still holds one slot per sender, from neighbours only |
| MultiAgentSystem.MultiAgentSystem.DrainMailboxes | traffic-marl-vdn/agents/multi_agent_system.py:138-143 | each agent with a state gets its mailbox's contents and the mailbox is emptied; the other mailboxes are unchanged |
| MultiAgentSystem.MultiAgentSystem.ChooseActions | traffic-marl-vdn/agents/multi_agent_system.py:138-148 | one action per state key, each in [0, action_dim); greedy on that agent's input when exploring is off |
| MultiAgentSystem.MultiAgentSystem.Act | traffic-marl-vdn/agents/multi_agent_system.py:117-150 | one valid action per key of states; greedy outside training; with communication on, every mailbox is empty afterwards |
| MultiAgentSystem.MultiAgentSystem.GetEnhancedState | traffic-marl-vdn/agents/multi_agent_system.py:255-289 | base state followed by ten neighbour features, taken from the drained mailbox (neighbours only, one slot each). The agent's mailbox is left empty, so an immediate second call sees no neighbour data; other mailboxes are unchanged |
| MultiAgentSystem.MultiAgentSystem.Enhance | traffic-marl-vdn/agents/multi_agent_system.py:261-282 | the enhanced state is the base state followed by the fitted neighbour information, so its length is len(base) + 10 |
| MultiAgentSystem.MultiAgentSystem.CollectNeighborInfo | traffic-marl-vdn/agents/multi_agent_system.py:261-266 | the collected values, message by message in mailbox order: queue, phase (0 if absent), intended action (0 if absent); nothing from messages without a queue |
| MultiAgentSystem.MultiAgentSystem.PadToTen | traffic-marl-vdn/agents/multi_agent_system.py:268-273 | the padding loop and the cut give exactly the fitted ten features |
| MultiAgentSystem.MultiAgentSystem.AnnounceIntentions | traffic-marl-vdn/agents/multi_agent_system.py:308-325 | each mailbox still holds one slot per sender, from neighbours only, and every slot is either the one it held before or the announcement of an agent with a state: its first four state values, int(state[8] * 8), and its greedy action on the state plus ten zeros, stamped with the current time |
| MultiAgentSystem.MultiAgentSystem.Announce | traffic-marl-vdn/agents/multi_agent_system.py:308-325 | one agent's announcement lands, if at all, in that agent's slot of each mailbox; no other slot changes |
| MultiAgentSystem.MultiAgentSystem.EnhanceStates | traffic-marl-vdn/agents/multi_agent_system.py:331-333 | one enhanced state per state key: the agent's state followed by the ten features of its drained mailbox |
| MultiAgentSystem.MultiAgentSystem.FeatureRows | traffic-marl-vdn/agents/multi_agent_system.py:331-333 | in id order, the enhanced state of each agent that has a state |
| MultiAgentSystem.MultiAgentSystem.Coordinate | traffic-marl-vdn/agents/multi_agent_system.py:308-333 | announcements first; then each agent with a state drains the mailbox it saw (neighbours only, one slot each); the other mailboxes keep what they received. Every slot of a seen mailbox is the one it held on entry or the announcement of an agent with a state |
| MultiAgentSystem.MultiAgentSystem.ActWithCoordination | traffic-marl-vdn/agents/multi_agent_system.py:303-342 | one valid action per state key, each recorded as the agent's previous action. Outside training, each action is greedy on the agent's state plus the ten features of the mailbox it saw after the announcements; every slot of that mailbox is the one it held on entry or the announcement of an agent with a state (state prefix, phase flag, greedy intention, time). Agents with a state end with an empty mailbox |
| FixedTimeController.PhaseDirectionsAgree | traffic-marl-vdn/normal_traffic/fixed_time_controller.py:138-148 | phases 2d and 2d + 1 have direction index d and that direction's name; any other phase has index 0 but the name "UNKNOWN" (the index lookup is at lines 206-216) |
| FixedTimeController.DirectionNamesDistinct | traffic-marl-vdn/normal_traffic/fixed_time_controller.py:336-339 | WEST/NORTH/EAST/SOUTH for 0..3 are pairwise distinct; "UNKNOWN" is returned exactly outside 0..3 |
| FixedTimeController.GreenTimeOfDirection | traffic-marl-vdn/normal_traffic/fixed_time_controller.py:126-136 | a green phase's time is its direction's schedule entry (west, north, east, south); any other phase gets 30 |
| FixedTimeController.NextLightAdvances | traffic-marl-vdn/normal_traffic/fixed_time_controller.py:97-121 | a light in step moves to (phase + 1) % 8, starting now, with position = new phase / 2, exactly when its phase time has elapsed; otherwise nothing changes |
| FixedTimeController.NextLightInStep | traffic-marl-vdn/normal_traffic/fixed_time_controller.py:101-121 | a light in step (phase 0..7, position 0..3, phase / 2 == position) stays in step |
| FixedTimeController.RunStaysInStep | traffic-marl-vdn/normal_traffic/fixed_time_controller.py:32-34 | from the initial light, whatever the clock reads: phase stays in 0..7 and position in 0..3; green = 2 * position and yellow = 2 * position + 1 |
| FixedTimeController.AdvanceAll | traffic-marl-vdn/normal_traffic/fixed_time_controller.py:96-121 | each light takes its own transition, independently of the others |
| FixedTimeController.CommandsOnlyForSwitches | traffic-marl-vdn/normal_traffic/fixed_time_controller.py:101-121 | every command of an update addresses a light that switches, and a phase command carries that light's new phase |
| FixedTimeController.SwitchesAreCommanded | traffic-marl-vdn/normal_traffic/fixed_time_controller.py:101-121 | every light that switches is sent its new phase |
| FixedTimeController.FixedTimeController.constructor | traffic-marl-vdn/normal_traffic/fixed_time_controller.py:16-44 | two lights on the 30/30/30/30/3 schedule, each at phase 0 and position 0 since time 0; step 0; empty histories |
| FixedTimeController.FixedTimeController.Start | traffic-marl-vdn/normal_traffic/fixed_time_controller.py:61-65 | each light is sent phase 0 for the west green time and its phase starts now; lights stay in step |
| FixedTimeController.FixedTimeController.Reset | traffic-marl-vdn/normal_traffic/fixed_time_controller.py:84-90 | restarts the lights as Start does and sets the step counter to 0; phases, positions and histories are kept |
| FixedTimeController.FixedTimeController.UpdateLights | traffic-marl-vdn/normal_traffic/fixed_time_controller.py:92-124 | every light takes its own transition and stays in step; a light that switches is sent its new phase and that phase's duration, in light order |
| FixedTimeController.FixedTimeController.Step | traffic-marl-vdn/normal_traffic/fixed_time_controller.py:270-288 | updates the lights, increments the step counter by exactly 1, and appends exactly one entry to each of the five histories |
| TrafficActions.ReturnedPhaseIsShown | traffic-marl-vdn/utils/traffic_actions.py:23-45 | the returned phase is the phase the light was last set to (the current one if none); every command addresses the given light; the result is always the current phase, 0 or 2 |
| TrafficActions.ActionTable | traffic-marl-vdn/utils/traffic_actions.py:25-45 | action 0 keeps the phase; 1 and 3 give 0; 2 gives 2; any other action keeps the phase and sends nothing |
| TrafficActions.SilentExactly | traffic-marl-vdn/utils/traffic_actions.py:29-45 | no command is sent exactly for action 1 on phase 0, action 2 on phase 2, and actions outside 0..3 |
| TrafficActions.AsWrittenFailsOnEveryCommand | traffic-marl-vdn/utils/traffic_actions.py:23-45 | as written (traci never imported), a call fails exactly when a command is due; otherwise it returns the intended phase |
| SumoEnv.LaneDirectionIsFirstMatch | traffic-marl-vdn/utils/sumo_env_new.py:81-91 | a lane goes to direction d exactly when d's name occurs in its lower-cased id and no earlier name (order west, north, east, south) does; it is skipped exactly when no name occurs |
| SumoEnv.LaneDirectionExamples | traffic-marl-vdn/utils/sumo_env_new.py:81-91 | the match ignores case ("J1_WEST_in" is west), and a lane naming two directions goes to the earlier one ("east_north" is north) |
| SumoEnv.PhaseDirection | traffic-marl-vdn/utils/sumo_env_new.py:113-122 | the green direction is always one of 0..3 |
| SumoEnv.PhaseDirectionAgainstController | traffic-marl-vdn/utils/sumo_env_new.py:113-122 | phases 2d and 2d + 1 give d, as in the controller; any other phase gives North here but West in the controller |
| SumoEnv.StoppedAtMostPresent | traffic-marl-vdn/utils/sumo_env_new.py:97-103 | no more vehicles are queued (speed < 0.1) on a lane than are on it |
| SumoEnv.QueueAtMostCount | traffic-marl-vdn/utils/sumo_env_new.py:81-106 | per direction, the queue is at least 0 and at most the vehicle count |
| SumoEnv.StateVectorLayout | traffic-marl-vdn/utils/sumo_env_new.py:124-146 | 13 entries. Entries 8..11 are one-hot at the green direction. Waiting and duration features are at most 1.0. Each queue feature lies between 0 and a tenth of the direction's vehicle count |
| SumoEnv.CountStopped | traffic-marl-vdn/utils/sumo_env_new.py:97-103 | the vehicle loop counts the stopped vehicles and sums their waiting times |
| SumoEnv.TallyLanes | traffic-marl-vdn/utils/sumo_env_new.py:77-106 | the lane loop's per-direction queue, waiting and vehicle totals over the classified lanes; skipped lanes add nothing |
| SumoEnv.ObserveLight | traffic-marl-vdn/utils/sumo_env_new.py:72-148 | one light's observation is the 13-feature vector of its lane totals, phase and phase duration |
| SumoEnv.TotalWaitingNonNegative | traffic-marl-vdn/utils/sumo_env_new.py:185 | the total waiting time is not negative when no vehicle's is |
| SumoEnv.RewardBound | traffic-marl-vdn/utils/sumo_env_new.py:178-208 | 0.0 without vehicles; otherwise at most the throughput bonus, and equal to it only when nobody waits and nobody is queued |
| SumoEnv.SumoEnv.constructor | traffic-marl-vdn/utils/sumo_env_new.py:10-17 | only the lights J1_center and J2_center; counter 0; previous phases 0 |
| SumoEnv.SumoEnv.GetState | traffic-marl-vdn/utils/sumo_env_new.py:68-150 | one observation per light, exactly the 13-feature vector of that light's readings |
| SumoEnv.SumoEnv.Reset | traffic-marl-vdn/utils/sumo_env_new.py:61-66 | episode counter 0, every previous phase 0, and the first observation |
| SumoEnv.SumoEnv.Step | traffic-marl-vdn/utils/sumo_env_new.py:210-239 | each action's commands, from the corrected execute_action, are issued on its light's reported phase, and as written execute_action fails exactly for the lights with commands; counter +1; done exactly when the counter is >= 1800; new observations; the reward (0.0 without vehicles); info with the step, vehicle count and average speed (0 without vehicles) |

## Left out

- Neural-network numerics: the forward pass, back-propagation, Adam, gradient clipping, the MSE loss value and
  the gradient-norm sum.
  - An optimizer step gives new online parameters and optimizer state, with nothing assumed about them.
  - `train` and `train_step` report the sampled experiences, chosen-action values and targets instead of the
    loss.
- Sockets, threads, ports and timing.
  - Left out: ZeroMQ publishers and subscribers, the background receive thread, poll timeouts, the lock,
    `hash(agent_id) % 100` ports, `close()` and `time.sleep`.
  - The receive loop is one `Store` per arrived message. A published message may or may not have arrived by
    the time a mailbox is drained.
- `setup_communication` (agents/multi_agent_system.py:63-86) is left out. It binds a second, all-to-all set of
  sockets that no modelled operation uses.
- `send_message` (agents/multi_agent_system.py:88-98) is left out. It publishes a raw message on the sender's
  channel, which `Publish` covers for the messages the core sends.
- `get_intended_action` (agents/multi_agent_system.py:291-301) is left out: it refers to a `self.device` the
  class never defines, and nothing calls it. The coordination round's own intention (lines 311-315) is
  modelled.
- `VDNMixer.get_individual_gradients` (agents/vdn_mixer.py:27-33) is left out: its body is empty. The property
  its comment relies on is `MixCreditAssignment`: every agent's value reaches the team value with weight 1.
- Simulator calls are outside the model.
  - `traci.start`, `load`, `simulationStep` and `close` are not modelled.
  - Readings (controlled lanes, vehicles, speeds, waiting times, phases, durations, departures, the clock)
    are arguments.
  - Light commands are returned.
  - `SumoEnv.start`/`close` and `_get_approaching_density` (utils/sumo_env_new.py:19-59, 152-176) are not
    called by the modelled operations.
- In the fixed-time controller, `get_traffic_state`, `get_performance_metrics`, `run_for_steps` and
  `get_dashboard_data` are float reporting over simulator readings. `Step` takes their per-step metrics as
  its `Metrics` argument and records them.
- Reward and metric formulas over floats are kept as the source writes them and proved only for the bounds
  above. Floating-point rounding is not modelled: reals are exact.
- Python dictionaries are modelled as follows.
  - The agent and channel dictionaries are sequences in `agent_ids` order. Duplicate agent ids are excluded:
    the dictionaries would merge them.
  - The controller's three per-light dictionaries are sequences parallel to its two light ids.
  - A mailbox is an association list that keeps dict insertion order.
- Lower-casing covers ASCII letters only; lane ids are ASCII.
- MultiAgentSystem.MultiAgentSystem.Act and MultiAgentSystem.MultiAgentSystem.ActWithCoordination: the steps
  are taken phase by phase rather than agent by agent. All announcements come first, then all drains, then
  all choices, then the record of previous actions.
  - The source interleaves drain, enhance and choose per agent.
  - No step reads another agent's mailbox or choice, so the outcome is the same.
- MultiAgentSystem.MultiAgentSystem.AnnounceStates states only that every mailbox stays well-formed (one slot
  per sender, neighbours only), not what the published queue and full state are.
- MultiAgentSystem.MultiAgentSystem.AnnounceIntentions, Coordinate and ActWithCoordination state what every
  announcement holds but not which have arrived when a mailbox is drained, because PUB/SUB delivery is not
  guaranteed.
- MultiAgentSystem.MultiAgentSystem.AnnounceIntentions goes through the agents in id order, where the source
  goes through the keys of `states`. Each mailbox keeps one slot per neighbour and every agent has at most one
  neighbour, so the order cannot show.
- MultiAgentSystem.MultiAgentSystem.Act: the source publishes for every agent id and raises `KeyError` on an
  agent without a state, so with communication on every agent must have one. A key of `states` that is not an
  agent id also raises `KeyError` (`self.agents[agent_id]`); the model requires every key to be an agent id
  instead of modelling the exception.
- MultiAgentSystem.MultiAgentSystem.ActWithCoordination requires every key of `states` to be an agent id and
  every state to have an index 8. The source raises `KeyError` or `IndexError` otherwise, after the earlier
  keys' announcements were sent; the exception is not modelled.
- MultiAgentSystem.MultiAgentSystem.GetEnhancedState requires the id to be an agent id. The source raises
  `KeyError` on `self.communications[agent_id]` otherwise, before changing anything; the exception is not
  modelled.
- MultiAgentSystem.MultiAgentSystem.Coordinate and MultiAgentSystem.MultiAgentSystem.AnnounceIntentions
  require every state to have an index 8, where the source raises `IndexError` on `state[8]`.
- DqnAgent.DQNAgent.Train requires a positive `batch_size`, where `random.sample` or the unpacking of an empty
  batch raises. It requires stored actions below the action count, where `gather` raises. It requires a
  non-zero `target_update_freq` once a batch is available: the source then raises `ZeroDivisionError` at
  agents/dqn_agent.py:108, after the optimizer step, the epsilon decay and the counter increment have happened.
  None of these exceptions is modelled.
- MultiAgentSystem.MultiAgentSystem.TrainStep requires a positive `batch_size`, at least one agent and
  well-formed stored experiences once a batch is available; the source raises on sampling, on
  `self.agent_ids[0]` or on tensor shapes otherwise. It requires a non-zero `target_update_freq`, where the
  source raises `ZeroDivisionError` at agents/multi_agent_system.py:220 after every optimizer step and the
  counter increment. None of these exceptions is modelled.
- DqnAgent.DQNAgent.constructor requires a non-negative `buffer_size`, where `deque(maxlen=...)` raises
  `ValueError`. It also requires at least one action: the source constructs an agent with none, but its
  every action choice (`randrange`, `argmax`) then raises.
- MultiAgentSystem.MultiAgentSystem.constructor requires the same of `buffer_size` and the action count, for
  the agents it builds.
- SumoEnv.StateVectorLayout: the queue bound is stated for totals whose queues lie between 0 and the vehicle
  counts. Every tally of lanes satisfies this (`QueueAtMostCount`), and the lemma is not restated over the
  tally itself.
- FixedTimeController.FixedTimeController.Reset keeps the controller's phase and position entries while the
  lights are sent phase 0, as the source does.
- The second per-episode epsilon decay in the training script, `main.py`, is not part of this model. The
  per-step rule is modelled as written.

## Findings

| source | as written | input that shows it | evidently intended | confidence | as-written member | corrected member |
|---|---|---|---|---|---|---|
| traffic-marl-vdn/utils/traffic_actions.py:23-45 | `execute_action` calls `traci.trafficlight.setPhase`/`setPhaseDuration`, but the file never imports `traci`, so every call that sends a command raises NameError | `execute_action("J1_center", 0, 0)`: action 0 always extends the phase, so it always fails | `import traci` at the top of the file; the action then sets the light and returns the new phase | not executed | TrafficActions.AsWrittenFailsOnEveryCommand | TrafficActions.ReturnedPhaseIsShown |
