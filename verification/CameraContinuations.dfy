/** Building runs: what some continuation of a reachable state can do. */
module CameraContinuations {
  import opened CaptureControl
  import opened Camera
  import opened CameraInvariant
  import opened CameraTheorems

  lemma Prepend(s: State, a: Action, rest: seq<Action>)
    requires Enabled(s, a) && Legal(Next(s, a), rest)
    ensures Legal(s, [a] + rest) && Run(s, [a] + rest) == Run(Next(s, a), rest)
  {
    assert ([a] + rest)[1..] == rest;
  }

  lemma {:induction false} Concat(s: State, first: seq<Action>, second: seq<Action>)
    requires Legal(s, first) && Legal(Run(s, first), second)
    ensures Legal(s, first + second) && Run(s, first + second) == Run(Run(s, first), second)
    decreases |first|
  {
    hide Enabled, Next;
    if first == [] {
      assert first + second == second;
    } else {
      assert (first + second)[1..] == first[1..] + second;
      Concat(Next(s, first[0]), first[1..], second);
    }
  }

  /** Action k of a fixed list, then the rest of it. */
  lemma StepInto(list: seq<Action>, k: nat, s: State)
    requires k < |list| && Enabled(s, list[k]) && Legal(Next(s, list[k]), list[k + 1..])
    ensures Legal(s, list[k..]) && Run(s, list[k..]) == Run(Next(s, list[k]), list[k + 1..])
  {
    assert list[k..][1..] == list[k + 1..];
  }

  /** The thread has a dequeued frame that it copies if it is asked to. */
  predicate HasUsableFrame(s: State) {
    InFlight(s.thread) || (s.thread.Deciding? && 0 < s.thread.used <= |s.memory|)
  }

  /** In `s'` caller `i` is back from the call it was waiting in, with `frame`; nobody
      else moved and no request or image is left. */
  ghost predicate Served(s: State, s': State, i: nat, frame: nat) {
    && i < |s.callers| && s.callers[i].Waiting?
    && |s'.callers| == |s.callers| && s'.callers == s.callers[i := s'.callers[i]]
    && s'.callers[i].Holding? && s'.callers[i].since == s.callers[i].since
    && s'.callers[i].delivery.frame == frame
    && !s'.flags.requested && !s'.flags.ready && s'.clockFailed == s.clockFailed
  }

  /** A copy in flight can always be finished, published and handed to any waiter. */
  lemma FinishCopy(s: State, i: nat) returns (rest: seq<Action>)
    requires Inv(s) && s.flags.requested && s.thread.Copying?
    requires i < |s.callers| && s.callers[i].Waiting?
    ensures Legal(s, rest) && Served(s, Run(s, rest), i, s.thread.frame)
    ensures Run(s, rest).callers[i].delivery.began == s.thread.began
    decreases Remaining(s.thread)
  {
    if s.thread.done < s.thread.used {
      var a := ByThread(CopyByte);
      StepKeepsInv(s, a);
      var more := FinishCopy(Next(s, a), i);
      Prepend(s, a, more);
      rest := [a] + more;
    } else {
      var a, b := ByThread(PublishCopy(0)), ByCaller(Return(i, Woken));
      var s1 := Next(s, a);
      Prepend(s1, b, []);
      Prepend(s, a, [b] + []);
      rest := [a] + ([b] + []);
    }
  }

  /** So can every frame the thread would copy. */
  lemma FinishFrame(s: State, i: nat) returns (rest: seq<Action>)
    requires Inv(s) && s.flags.requested && HasUsableFrame(s)
    requires i < |s.callers| && s.callers[i].Waiting?
    ensures Legal(s, rest) && Served(s, Run(s, rest), i, s.thread.frame)
    decreases Stage(s.thread)
  {
    if s.thread.Copying? {
      rest := FinishCopy(s, i);
    } else {
      var a := ByThread(if s.thread.Deciding? then Decide else Stamp(true));
      StepKeepsInv(s, a);
      var more := FinishFrame(Next(s, a), i);
      Prepend(s, a, more);
      rest := [a] + more;
    }
  }
}
