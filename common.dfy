/** Small helpers shared by the agent, mixer, coordinator and environment models:
    optional values, traffic-light commands, sums and maxima over reals, bounded FIFO windows,
    Python's truncating int() and a choice of distinct sample indices. */
module Common {

  /** A value that may be absent: a missing dictionary key, an unset configuration option. */
  datatype Option<T> = None | Some(value: T) {
    /** dict.get(key, default) */
    function GetOr(default: T): T {
      match this
      case Some(v) => v
      case None => default
    }
  }

  /** A traffic-light command sent to the simulator (traci.trafficlight.setPhase and
      setPhaseDuration), recorded instead of performed. */
  datatype LightCommand =
    | SetPhase(tl: string, phase: int)
    | SetPhaseDuration(tl: string, seconds: real)

  /** Sum of a sequence of reals (torch.sum / Python sum). */
  function Sum(s: seq<real>): real {
    if s == [] then 0.0 else s[0] + Sum(s[1..])
  }

  lemma {:induction false} SumAppend(s: seq<real>, x: real)
    ensures Sum(s + [x]) == Sum(s) + x
  {
    if s != [] {
      assert (s + [x])[1..] == s[1..] + [x];
      SumAppend(s[1..], x);
    }
  }

  /** The first index holding the largest value, as torch.argmax picks it (proved below). */
  function Argmax(s: seq<real>): (r: nat)
    requires |s| > 0
    ensures r < |s|
  {
    if |s| == 1 then 0
    else
      var k := Argmax(s[..|s| - 1]);
      if s[|s| - 1] > s[k] then |s| - 1 else k
  }

  /** Argmax picks a largest value, and no earlier position holds one. */
  lemma {:induction false} ArgmaxIsFirstMax(s: seq<real>)
    requires |s| > 0
    ensures forall j :: 0 <= j < |s| ==> s[j] <= s[Argmax(s)]
    ensures forall j :: 0 <= j < Argmax(s) ==> s[j] < s[Argmax(s)]
  {
    if |s| > 1 {
      ArgmaxIsFirstMax(s[..|s| - 1]);
    }
  }

  /** The largest value (torch.max(..., dim=1)[0] on one row). */
  function Max(s: seq<real>): (r: real)
    requires |s| > 0
    ensures forall j :: 0 <= j < |s| ==> s[j] <= r
    ensures r in s
  {
    ArgmaxIsFirstMax(s);
    s[Argmax(s)]
  }

  /** n zeros. */
  function Zeros(n: nat): (z: seq<real>)
    ensures |z| == n && forall i :: 0 <= i < n ==> z[i] == 0.0
  {
    seq(n, _ => 0.0)
  }

  /** Python's int() on a float: truncation toward zero. */
  function Trunc(x: real): (r: int)
    ensures 0.0 <= x ==> r as real <= x < r as real + 1.0
    ensures x < 0.0 ==> r as real - 1.0 < x <= r as real
  {
    if 0.0 <= x then x.Floor else -((-x).Floor)
  }

  /** The last n elements of s (all of s when it is shorter): what a FIFO of
      capacity n that evicts its oldest entry first holds after taking s in order. */
  function LastN<T>(s: seq<T>, n: nat): (r: seq<T>)
    ensures |r| == if |s| <= n then |s| else n
    ensures forall i :: 0 <= i < |r| ==> r[i] == s[|s| - |r| + i]
  {
    if |s| <= n then s else s[|s| - n..]
  }

  /** Appending to a full window and then trimming is the same as trimming the whole history. */
  lemma LastNAppend<T>(s: seq<T>, x: T, n: nat)
    ensures LastN(LastN(s, n) + [x], n) == LastN(s + [x], n)
  {
    var l := LastN(s, n);
    var lhs := LastN(l + [x], n);
    var rhs := LastN(s + [x], n);
    assert |lhs| == |rhs|;
    forall i | 0 <= i < |lhs|
      ensures lhs[i] == rhs[i]
    {
      if i == |lhs| - 1 {
      } else {
        assert lhs[i] == l[|l| + 1 - |lhs| + i];
      }
    }
  }

  /** A bounded FIFO after taking every element of xs, one append at a time. */
  function AppendAll<T>(window: seq<T>, n: nat, xs: seq<T>): seq<T>
    decreases |xs|
  {
    if xs == [] then window
    else AppendAll(LastN(window + [xs[0]], n), n, xs[1..])
  }

  /** After any number of appends the window holds exactly the newest min(|history|, n)
      elements of everything it was given, oldest first. */
  lemma {:induction false} AppendAllIsLastN<T>(window: seq<T>, n: nat, xs: seq<T>)
    requires |window| <= n
    ensures AppendAll(window, n, xs) == LastN(window + xs, n)
  {
    AppendAllFrom(window, window, n, xs);
  }

  lemma {:induction false} AppendAllFrom<T>(w: seq<T>, h: seq<T>, n: nat, xs: seq<T>)
    requires w == LastN(h, n)
    ensures AppendAll(w, n, xs) == LastN(h + xs, n)
    decreases |xs|
  {
    if xs == [] {
      assert h + xs == h;
    } else {
      var h' := h + [xs[0]];
      var w' := LastN(w + [xs[0]], n);
      assert w' == LastN(h', n) by { LastNAppend(h, xs[0], n); }
      assert AppendAll(w, n, xs) == AppendAll(w', n, xs[1..]);
      AppendAllFrom(w', h', n, xs[1..]);
      ConcatCons(h, xs);
    }
  }

  lemma ConcatCons<T>(h: seq<T>, xs: seq<T>)
    requires xs != []
    ensures (h + [xs[0]]) + xs[1..] == h + xs
  {
  }

  /** Indices that could come out of sampling k of n positions without replacement. */
  predicate IsSample(idx: seq<nat>, n: nat) {
    && (forall i :: 0 <= i < |idx| ==> idx[i] < n)
    && (forall i, j :: 0 <= i < j < |idx| ==> idx[i] != idx[j])
  }

  /** np.random.choice(n, k, replace=False) / random.sample: any k distinct positions
      below n; the source raises when k > n. */
  method ChooseDistinct(n: nat, k: nat) returns (idx: seq<nat>)
    requires k <= n
    ensures |idx| == k && IsSample(idx, n)
  {
    var first: seq<nat> := seq(k, i requires 0 <= i => i);
    assert IsSample(first, n);
    idx :| |idx| == k && IsSample(idx, n);
  }

  /** The elements of s at the positions idx, in that order. */
  function Pick<T>(s: seq<T>, idx: seq<nat>): (r: seq<T>)
    requires forall i :: 0 <= i < |idx| ==> idx[i] < |s|
    ensures |r| == |idx| && forall k :: 0 <= k < |idx| ==> r[k] == s[idx[k]]
  {
    seq(|idx|, k requires 0 <= k < |idx| => s[idx[k]])
  }
}
