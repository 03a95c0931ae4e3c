/** The additive value-decomposition mixer and the centralized replay buffer
    (agents/vdn_mixer.py). */
module VdnMixer {
  import opened Common

  /** One joint experience as the coordinator stores it:
      (per-agent states, joint action, team reward, per-agent next states, done). */
  datatype Transition = Transition(
    states: seq<seq<real>>,
    actions: seq<int>,
    reward: real,
    nextStates: seq<seq<real>>,
    done: bool)

  /** VDNMixer.forward: each row of agent values [batch][agent] collapses to the team value,
      the plain sum of that row. The mixer has no parameters. */
  function Mix(agentQs: seq<seq<real>>): (qTot: seq<real>)
    ensures |qTot| == |agentQs|
  {
    seq(|agentQs|, b requires 0 <= b < |agentQs| => Sum(agentQs[b]))
  }

  lemma {:induction false} SumConcat(a: seq<real>, b: seq<real>)
    ensures Sum(a + b) == Sum(a) + Sum(b)
  {
    if a != [] {
      assert (a + b)[1..] == a[1..] + b;
      SumConcat(a[1..], b);
    } else {
      assert a + b == b;
    }
  }

  lemma {:induction false} SumShift(s: seq<real>, i: nat, delta: real)
    requires i < |s|
    ensures Sum(s[i := s[i] + delta]) == Sum(s) + delta
  {
    if i > 0 {
      assert s[i := s[i] + delta][1..] == s[1..][i - 1 := s[i] + delta];
      SumShift(s[1..], i - 1, delta);
    }
  }

  /** Each team value is the sum of that row's agent values, one team value per row. */
  lemma MixIsRowSum(agentQs: seq<seq<real>>, b: nat)
    requires b < |agentQs|
    ensures |Mix(agentQs)| == |agentQs|
    ensures Mix(agentQs)[b] == Sum(agentQs[b])
    ensures agentQs[b] == [] ==> Mix(agentQs)[b] == 0.0
    ensures |agentQs[b]| == 1 ==> Mix(agentQs)[b] == agentQs[b][0]
  {
  }

  /** Credit assignment of the additive mixer: moving one agent's value by delta moves the
      team value of that row by exactly delta and leaves every other row alone, so the
      gradient of a team loss reaches each agent's value unchanged. */
  lemma {:induction false} MixCreditAssignment(agentQs: seq<seq<real>>, b: nat, i: nat, delta: real)
    requires b < |agentQs| && i < |agentQs[b]|
    ensures var moved := Mix(agentQs[b := agentQs[b][i := agentQs[b][i] + delta]]);
            |moved| == |agentQs| &&
            moved[b] == Mix(agentQs)[b] + delta &&
            forall c :: 0 <= c < |agentQs| && c != b ==> moved[c] == Mix(agentQs)[c]
  {
    SumShift(agentQs[b], i, delta);
  }

  /** Splitting the agents into two groups: the team value is the sum of the groups' team values. */
  lemma {:induction false} MixSplitsOverAgents(left: seq<seq<real>>, right: seq<seq<real>>)
    requires |left| == |right|
    ensures var joined := seq(|left|, b requires 0 <= b < |left| => left[b] + right[b]);
            forall b :: 0 <= b < |left| ==> Mix(joined)[b] == Mix(left)[b] + Mix(right)[b]
  {
    forall b | 0 <= b < |left| {
      SumConcat(left[b], right[b]);
    }
  }

  /** The five arrays CentralizedBuffer.sample returns. */
  datatype Batch = Batch(
    states: seq<seq<seq<real>>>,
    actions: seq<seq<int>>,
    rewards: seq<real>,
    nextStates: seq<seq<seq<real>>>,
    dones: seq<bool>)

  /** Separating the components of the sampled experiences, position by position. */
  function Unzip(ts: seq<Transition>): (b: Batch)
    ensures |b.states| == |b.actions| == |b.rewards| == |b.nextStates| == |b.dones| == |ts|
  {
    Batch(
      seq(|ts|, k requires 0 <= k < |ts| => ts[k].states),
      seq(|ts|, k requires 0 <= k < |ts| => ts[k].actions),
      seq(|ts|, k requires 0 <= k < |ts| => ts[k].reward),
      seq(|ts|, k requires 0 <= k < |ts| => ts[k].nextStates),
      seq(|ts|, k requires 0 <= k < |ts| => ts[k].done))
  }

  /** Row k of a batch, put back together. */
  function Row(b: Batch, k: nat): Transition
    requires k < |b.states| && k < |b.actions| && k < |b.rewards| && k < |b.nextStates| && k < |b.dones|
  {
    Transition(b.states[k], b.actions[k], b.rewards[k], b.nextStates[k], b.dones[k])
  }

  /** Every position of the five arrays comes from the same experience. */
  lemma UnzipRows(ts: seq<Transition>, k: nat)
    requires k < |ts|
    ensures |Unzip(ts).states| == |ts| && Row(Unzip(ts), k) == ts[k]
  {
  }

  /** The centralized replay buffer: a list with a capacity that drops its oldest entry first. */
  class CentralizedBuffer {
    const capacity: int
    var buffer: seq<Transition>

    ghost predicate Valid()
      reads this
    {
      |buffer| <= capacity || buffer == []
    }

    constructor (capacity: int)
      ensures Valid() && this.capacity == capacity && buffer == []
    {
      this.capacity := capacity;
      buffer := [];
    }

    /** add: at capacity the oldest entry is popped, then the new one appended.
        With a capacity of 0 or less the pop meets an empty list and raises; that is the
        failing outcome, with the buffer left as it was. */
    method Add(experience: Transition) returns (ok: bool)
      requires Valid()
      modifies this
      ensures Valid()
      ensures ok <==> capacity > 0
      ensures ok ==> buffer == LastN(old(buffer) + [experience], capacity as nat)
      ensures !ok ==> buffer == old(buffer)
    {
      if |buffer| >= capacity {
        if buffer == [] {
          return false;
        }
        buffer := buffer[1..];
      }
      buffer := buffer + [experience];
      ok := true;
    }

    /** sample: batchSize distinct stored experiences, separated into five arrays whose k-th
        entries all come from the k-th chosen experience. Sampling without replacement raises
        when batchSize exceeds the length, which the caller rules out. */
    method Sample(batchSize: nat) returns (batch: Batch, ghost indices: seq<nat>)
      requires batchSize <= |buffer|
      ensures |indices| == batchSize && IsSample(indices, |buffer|)
      ensures batch == Unzip(Pick(buffer, indices))
      ensures |batch.rewards| == batchSize
      ensures forall k :: 0 <= k < batchSize ==> Row(batch, k) == buffer[indices[k]]
    {
      var chosen := ChooseDistinct(|buffer|, batchSize);
      indices := chosen;
      var picked := Pick(buffer, chosen);
      batch := Unzip(picked);
      forall k | 0 <= k < batchSize
        ensures Row(batch, k) == buffer[indices[k]]
      {
        UnzipRows(picked, k);
      }
    }

    /** __len__: the number of stored experiences. */
    function Len(): (n: nat)
      reads this
      ensures n == |buffer|
    {
      |buffer|
    }
  }

  /** Adding experiences one after another to a buffer of capacity cap > 0 leaves exactly the
      newest min(total, cap) of everything added, oldest first; once full, its length stays cap. */
  lemma AddManyKeepsNewest(stored: seq<Transition>, cap: nat, added: seq<Transition>)
    requires 0 < cap && |stored| <= cap
    ensures AppendAll(stored, cap, added) == LastN(stored + added, cap)
    ensures |AppendAll(stored, cap, added)| == if |stored| + |added| <= cap then |stored| + |added| else cap
    ensures added != [] ==> AppendAll(stored, cap, added)[|AppendAll(stored, cap, added)| - 1] == added[|added| - 1]
  {
    AppendAllIsLastN(stored, cap, added);
  }
}
