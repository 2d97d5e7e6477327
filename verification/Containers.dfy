/** The numbered instances of one service and their up counters (internal/microservice/scale_container.go). */
module Containers {
  import opened Settings

  /** How often each numbered instance has been started since it was last stopped. */
  datatype Scale = Scale(up: map<int, nat>, multiple: bool)

  datatype Outcome = Done | OverScale | Missing | AlreadyStarted | AlreadyFinished | ProcessFailed

  function ScaleOf(ms: Microservice): nat {
    if ms.scale < 0 then 0 else ms.scale
  }

  function Zeroes(n: nat): map<int, nat> {
    if n == 0 then map[] else Zeroes(n - 1)[n := 0]
  }

  function NewScale(ms: Microservice): Scale {
    Scale(Zeroes(ScaleOf(ms)), ms.multiple)
  }

  function GetScale(s: Scale): nat {
    |s.up|
  }

  /** What a start request comes to when the process itself would start (`ok`) or not. */
  function StartOutcome(s: Scale, num: int, ok: bool): Outcome {
    if |s.up| < num then OverScale
    else if num !in s.up then Missing
    else if s.up[num] > 0 && !s.multiple then AlreadyStarted
    else if !ok then ProcessFailed
    else Done
  }

  function StopOutcome(s: Scale, num: int, ok: bool): Outcome {
    if |s.up| < num then OverScale
    else if num !in s.up then Missing
    else if s.up[num] == 0 then AlreadyFinished
    else if !ok then ProcessFailed
    else Done
  }

  function Started(s: Scale, num: int, ok: bool): Scale {
    if StartOutcome(s, num, ok).Done? then s.(up := s.up[num := s.up[num] + 1]) else s
  }

  function Stopped(s: Scale, num: int, ok: bool): Scale {
    if StopOutcome(s, num, ok).Done? then s.(up := s.up[num := 0]) else s
  }

  /** The instances are numbered 1 to `n`. */
  ghost predicate NumberedUpTo(s: Scale, n: nat) {
    |s.up| == n && forall i :: i in s.up <==> 1 <= i <= n
  }

  ghost predicate AtMostOnce(s: Scale) {
    !s.multiple ==> forall i | i in s.up :: s.up[i] <= 1
  }

  lemma {:induction false} ZeroesNumbered(n: nat)
    ensures |Zeroes(n)| == n
    ensures forall i :: i in Zeroes(n) <==> 1 <= i <= n
    ensures forall i | i in Zeroes(n) :: Zeroes(n)[i] == 0
  {
    if n > 0 {
      ZeroesNumbered(n - 1);
    }
  }

  lemma NewScaleNumbered(ms: Microservice)
    ensures NumberedUpTo(NewScale(ms), ScaleOf(ms)) && AtMostOnce(NewScale(ms))
    ensures forall i | i in NewScale(ms).up :: NewScale(ms).up[i] == 0
  {
    ZeroesNumbered(ScaleOf(ms));
  }

  /** With the numbering intact the checks boil down to the range, the counter and the process, in this order. */
  lemma Outcomes(s: Scale, n: nat, num: int, ok: bool)
    requires NumberedUpTo(s, n)
    ensures StartOutcome(s, num, ok).Done? <==> 1 <= num <= n && (s.multiple || s.up[num] == 0) && ok
    ensures StopOutcome(s, num, ok).Done? <==> 1 <= num <= n && s.up[num] > 0 && ok
    ensures StartOutcome(s, num, ok).Missing? <==> num <= 0
    ensures StopOutcome(s, num, ok).Missing? <==> num <= 0
    ensures StartOutcome(s, num, ok).OverScale? <==> num > n
    ensures StopOutcome(s, num, ok).OverScale? <==> num > n
    ensures StartOutcome(s, num, ok).AlreadyStarted? <==> 1 <= num <= n && s.up[num] > 0 && !s.multiple
    ensures StopOutcome(s, num, ok).AlreadyFinished? <==> 1 <= num <= n && s.up[num] == 0
    ensures Started(s, num, ok).multiple == s.multiple && Stopped(s, num, ok).multiple == s.multiple
    ensures NumberedUpTo(Started(s, num, ok), n) && NumberedUpTo(Stopped(s, num, ok), n)
    ensures AtMostOnce(s) ==> AtMostOnce(Started(s, num, ok)) && AtMostOnce(Stopped(s, num, ok))
  {
    if num in s.up {
      assert s.up[num := s.up[num] + 1].Keys == s.up.Keys;
      assert s.up[num := 0].Keys == s.up.Keys;
    }
  }

  class ScaleContainer {
    var containerList: map<int, nat>
    const multiple: bool

    function Value(): Scale
      reads this
    {
      Scale(containerList, multiple)
    }

    constructor (ms: Microservice)
      ensures Value() == NewScale(ms)
    {
      var list: map<int, nat> := map[];
      for i := 1 to ScaleOf(ms) + 1
        invariant list == Zeroes(i - 1)
      {
        list := list[i := 0];
      }
      containerList := list;
      multiple := ms.multiple;
    }

    method StartMicroservice(num: int, ok: bool) returns (r: Outcome)
      modifies this
      ensures r == StartOutcome(old(Value()), num, ok) && Value() == Started(old(Value()), num, ok)
    {
      if |containerList| < num {
        return OverScale;
      }
      if num !in containerList {
        return Missing;
      }
      if containerList[num] > 0 && !multiple {
        return AlreadyStarted;
      }
      if !ok {
        return ProcessFailed;
      }
      containerList := containerList[num := containerList[num] + 1];
      return Done;
    }

    method StopMicroservice(num: int, ok: bool) returns (r: Outcome)
      modifies this
      ensures r == StopOutcome(old(Value()), num, ok) && Value() == Stopped(old(Value()), num, ok)
    {
      if |containerList| < num {
        return OverScale;
      }
      if num !in containerList {
        return Missing;
      }
      if containerList[num] == 0 {
        return AlreadyFinished;
      }
      if !ok {
        return ProcessFailed;
      }
      containerList := containerList[num := 0];
      return Done;
    }
  }
}
