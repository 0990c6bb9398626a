/**
 The choice cache both cascading parameter classes keep beside the base
 class's "rebuilding" flag. While the flag is off every request for the
 choices runs the script again and remembers the answer; while it is on a
 remembered (non-null) answer is served as it is, and the script only runs
 when nothing is remembered yet.

 The script evaluation of the base class is an oracle: `eval(n)` is what
 the (n+1)-th `super.getChoices()` call returns, which may be null. The
 state counts those calls, so the proofs can say when `getChoices` runs the
 script; the evaluation done while rendering the choices as a string is not
 counted.
 */
module ChoiceCache {
  import opened Nullable

  /** A choice map's entries in its iteration order. */
  type ChoiceMap<K, V> = seq<(K, V)>

  /** The script evaluation behind `super.getChoices()`, by call number. */
  type Evaluator<K, V> = nat -> Option<ChoiceMap<K, V>>

  /** The base class's flag, this class's nullable `choices` field, and the
      number of script evaluations performed so far. */
  datatype State<K, V> = State(rebuilding: bool, cache: Option<ChoiceMap<K, V>>, evaluations: nat)

  /** A state after a call, with what the call returned. */
  datatype Reply<K, V> = Reply(next: State<K, V>, choices: Option<ChoiceMap<K, V>>)

  /** The state of a newly constructed parameter: nothing cached, nothing
      evaluated, and the flag as the base class initialises it. */
  function Initial<K, V>(rebuilding: bool): State<K, V>
  {
    State(rebuilding, None, 0)
  }

  /** Whether a request for the choices has to run the script. */
  predicate MustEvaluate<K, V>(s: State<K, V>) {
    !s.rebuilding || s.cache.None?
  }

  /** What one `getChoices` may do: either run the script once, remember its
      answer and return it, or change nothing and return the remembered
      answer; it never touches the flag. */
  ghost predicate Served<K, V>(s: State<K, V>, eval: Evaluator<K, V>, t: State<K, V>, answer: Option<ChoiceMap<K, V>>) {
    && t.rebuilding == s.rebuilding
    && (MustEvaluate(s) ==>
          t.evaluations == s.evaluations + 1 && answer == eval(s.evaluations) && t.cache == answer)
    && (!MustEvaluate(s) ==> t == s && answer == s.cache)
  }

  /** `getChoices`. */
  function GetChoices<K, V>(s: State<K, V>, eval: Evaluator<K, V>): (r: Reply<K, V>)
    ensures Served(s, eval, r.next, r.choices)
  {
    if s.rebuilding then
      if s.cache.None? then
        var answer := eval(s.evaluations);
        Reply(s.(cache := answer, evaluations := s.evaluations + 1), answer)
      else
        Reply(s, s.cache)
    else
      var answer := eval(s.evaluations);
      Reply(s.(cache := answer, evaluations := s.evaluations + 1), answer)
  }

  /** `setRebuilding`: a plain write of the base class's flag. */
  function SetRebuilding<K, V>(s: State<K, V>, flag: bool): (t: State<K, V>)
    ensures t.rebuilding == flag
    ensures t.cache == s.cache && t.evaluations == s.evaluations
  {
    s.(rebuilding := flag)
  }

  /** `getChoicesToRebuild`: switches the flag on, then `getChoices`. */
  function GetChoicesToRebuild<K, V>(s: State<K, V>, eval: Evaluator<K, V>): (r: Reply<K, V>)
    ensures r.next.rebuilding
    ensures s.cache.Some? ==> r.next == s.(rebuilding := true) && r.choices == s.cache
    ensures s.cache.None? ==>
              r.next.evaluations == s.evaluations + 1 && r.choices == eval(s.evaluations) && r.next.cache == r.choices
  {
    GetChoices(SetRebuilding(s, true), eval)
  }

  /** `setChoices`: replaces the remembered answer, nothing else. */
  function SetChoices<K, V>(s: State<K, V>, choices: Option<ChoiceMap<K, V>>): (t: State<K, V>)
    ensures t.cache == choices
    ensures t.rebuilding == s.rebuilding && t.evaluations == s.evaluations
  {
    s.(cache := choices)
  }

  // --- call sequences

  /** The calls a client can make on the cache. */
  datatype Call<K, V> =
    | GetChoicesCall
    | GetChoicesToRebuildCall
    | SetChoicesCall(choices: Option<ChoiceMap<K, V>>)
    | SetRebuildingCall(flag: bool)
  {
    /** The calls that return the choices. */
    predicate IsRead() {
      GetChoicesCall? || GetChoicesToRebuildCall?
    }
  }

  /** The state after `calls`, and the answers of its reading calls in order. */
  datatype Trace<K, V> = Trace(last: State<K, V>, answers: seq<Option<ChoiceMap<K, V>>>)

  /** Performs `calls` one after the other from `s`. */
  function Run<K, V>(s: State<K, V>, calls: seq<Call<K, V>>, eval: Evaluator<K, V>): (t: Trace<K, V>)
    decreases |calls|
  {
    if |calls| == 0 then Trace(s, [])
    else
      var rest := calls[1..];
      match calls[0]
      case GetChoicesCall =>
        var r := GetChoices(s, eval);
        var t := Run(r.next, rest, eval);
        Trace(t.last, [r.choices] + t.answers)
      case GetChoicesToRebuildCall =>
        var r := GetChoicesToRebuild(s, eval);
        var t := Run(r.next, rest, eval);
        Trace(t.last, [r.choices] + t.answers)
      case SetChoicesCall(m) =>
        Run(SetChoices(s, m), rest, eval)
      case SetRebuildingCall(b) =>
        Run(SetRebuilding(s, b), rest, eval)
  }

  /** Every call of the sequence returns the choices. */
  predicate AllReads<K, V>(calls: seq<Call<K, V>>) {
    forall i :: 0 <= i < |calls| ==> calls[i].IsRead()
  }

  /** While rebuilding with a remembered answer, any number of reads return
      that answer, run no script and leave the state as it is. */
  lemma {:induction false} CachedAnswerIsStable<K, V>(s: State<K, V>, calls: seq<Call<K, V>>, eval: Evaluator<K, V>)
    requires s.rebuilding && s.cache.Some?
    requires AllReads(calls)
    ensures Run(s, calls, eval).last == s
    ensures |Run(s, calls, eval).answers| == |calls|
    ensures forall i :: 0 <= i < |calls| ==> Run(s, calls, eval).answers[i] == s.cache
    decreases |calls|
  {
    if |calls| > 0 {
      assert calls[0].IsRead();
      assert AllReads(calls[1..]) by {
        forall i | 0 <= i < |calls[1..]|
          ensures calls[1..][i].IsRead()
        {
          assert calls[1..][i] == calls[i + 1];
        }
      }
      CachedAnswerIsStable(s, calls[1..], eval);
    }
  }

  /** With the flag off, each `getChoices` runs the script once more and
      returns that evaluation's answer; the last answer is what stays
      remembered. */
  lemma {:induction false} EveryReadEvaluatesWhenNotRebuilding<K, V>(s: State<K, V>, calls: seq<Call<K, V>>, eval: Evaluator<K, V>)
    requires !s.rebuilding
    requires forall i :: 0 <= i < |calls| ==> calls[i] == GetChoicesCall
    ensures Run(s, calls, eval).last.evaluations == s.evaluations + |calls|
    ensures !Run(s, calls, eval).last.rebuilding
    ensures |Run(s, calls, eval).answers| == |calls|
    ensures forall i :: 0 <= i < |calls| ==> Run(s, calls, eval).answers[i] == eval(s.evaluations + i)
    ensures |calls| > 0 ==> Run(s, calls, eval).last.cache == eval(s.evaluations + |calls| - 1)
    decreases |calls|
  {
    if |calls| > 0 {
      var r := GetChoices(s, eval);
      assert calls[0] == GetChoicesCall;
      assert forall i :: 0 <= i < |calls[1..]| ==> calls[1..][i] == GetChoicesCall by {
        forall i | 0 <= i < |calls[1..]|
          ensures calls[1..][i] == GetChoicesCall
        {
          assert calls[1..][i] == calls[i + 1];
        }
      }
      EveryReadEvaluatesWhenNotRebuilding(r.next, calls[1..], eval);
    }
  }

  /** Rebuilding, the script runs at most once over any number of reads, and
      every read returns the same answer, provided that the answer is not
      null (already remembered, or the first evaluation is non-null). */
  lemma EvaluatesAtMostOnceWhileRebuilding<K, V>(s: State<K, V>, calls: seq<Call<K, V>>, eval: Evaluator<K, V>)
    requires s.rebuilding && (s.cache.Some? || eval(s.evaluations).Some?)
    requires AllReads(calls)
    ensures Run(s, calls, eval).last.evaluations <= s.evaluations + 1
    ensures |Run(s, calls, eval).answers| == |calls|
    ensures forall i, j :: 0 <= i < j < |calls| ==> Run(s, calls, eval).answers[i] == Run(s, calls, eval).answers[j]
    ensures forall i :: 0 <= i < |calls| ==> Run(s, calls, eval).answers[i].Some?
  {
    if |calls| > 0 {
      var r := if calls[0].GetChoicesCall? then GetChoices(s, eval) else GetChoicesToRebuild(s, eval);
      assert r.next.rebuilding && r.next.cache.Some? && r.choices == r.next.cache;
      assert AllReads(calls[1..]) by {
        forall i | 0 <= i < |calls[1..]|
          ensures calls[1..][i].IsRead()
        {
          assert calls[1..][i] == calls[i + 1];
        }
      }
      CachedAnswerIsStable(r.next, calls[1..], eval);
    }
  }

  /** A null answer is never kept: while the script keeps answering null,
      rebuilding reads run it every time, just as when not rebuilding. */
  lemma {:induction false} NullAnswersAreNeverCached<K, V>(s: State<K, V>, calls: seq<Call<K, V>>, eval: Evaluator<K, V>)
    requires s.rebuilding && s.cache.None?
    requires AllReads(calls)
    requires forall n :: n >= s.evaluations ==> eval(n).None?
    ensures Run(s, calls, eval).last.evaluations == s.evaluations + |calls|
    ensures Run(s, calls, eval).last.cache.None?
    ensures forall i :: 0 <= i < |Run(s, calls, eval).answers| ==> Run(s, calls, eval).answers[i].None?
    decreases |calls|
  {
    if |calls| > 0 {
      var r := if calls[0].GetChoicesCall? then GetChoices(s, eval) else GetChoicesToRebuild(s, eval);
      assert r.next.rebuilding && r.next.cache.None? && r.next.evaluations == s.evaluations + 1;
      assert AllReads(calls[1..]) by {
        forall i | 0 <= i < |calls[1..]|
          ensures calls[1..][i].IsRead()
        {
          assert calls[1..][i] == calls[i + 1];
        }
      }
      NullAnswersAreNeverCached(r.next, calls[1..], eval);
    }
  }

  /** Choices injected with `setChoices` are what `getChoicesToRebuild`, and
      every read after it, return; the script does not run. */
  lemma InjectedChoicesAreServed<K, V>(s: State<K, V>, m: ChoiceMap<K, V>, calls: seq<Call<K, V>>, eval: Evaluator<K, V>)
    requires AllReads(calls)
    ensures var t := Run(s, [SetChoicesCall(Some(m)), GetChoicesToRebuildCall] + calls, eval);
            && t.last == State(true, Some(m), s.evaluations)
            && |t.answers| == |calls| + 1
            && forall i :: 0 <= i < |t.answers| ==> t.answers[i] == Some(m)
  {
    var all := [SetChoicesCall(Some(m)), GetChoicesToRebuildCall] + calls;
    var s1 := SetChoices(s, Some(m));
    var r := GetChoicesToRebuild(s1, eval);
    assert all[1..] == [GetChoicesToRebuildCall] + calls;
    assert all[1..][1..] == calls;
    CachedAnswerIsStable(r.next, calls, eval);
  }

  /** The number of calls in a sequence that return the choices. */
  function CountReads<K, V>(calls: seq<Call<K, V>>): (n: nat)
    ensures n <= |calls|
    ensures AllReads(calls) ==> n == |calls|
  {
    if |calls| == 0 then 0
    else (if calls[0].IsRead() then 1 else 0) + CountReads(calls[1..])
  }

  /** The number of `getChoicesToRebuild` calls in a sequence. */
  function CountRebuildCalls<K, V>(calls: seq<Call<K, V>>): (n: nat)
    ensures n <= |calls|
    ensures n == 0 <==> forall i :: 0 <= i < |calls| ==> !calls[i].GetChoicesToRebuildCall?
  {
    if |calls| == 0 then 0
    else (if calls[0].GetChoicesToRebuildCall? then 1 else 0) + CountRebuildCalls(calls[1..])
  }

  /** Nothing but `setRebuilding` switches the flag off: without it, the flag
      is on at the end exactly when it was on at the start or some call was
      `getChoicesToRebuild`. */
  lemma {:induction false} FlagIsSticky<K, V>(s: State<K, V>, calls: seq<Call<K, V>>, eval: Evaluator<K, V>)
    requires forall i :: 0 <= i < |calls| ==> !calls[i].SetRebuildingCall?
    ensures Run(s, calls, eval).last.rebuilding <==> s.rebuilding || CountRebuildCalls(calls) > 0
    decreases |calls|
  {
    if |calls| > 0 {
      var rest := calls[1..];
      assert forall i :: 0 <= i < |rest| ==> !rest[i].SetRebuildingCall? by {
        forall i | 0 <= i < |rest|
          ensures !rest[i].SetRebuildingCall?
        {
          assert rest[i] == calls[i + 1];
        }
      }
      match calls[0]
      case GetChoicesCall =>
        FlagIsSticky(GetChoices(s, eval).next, rest, eval);
      case GetChoicesToRebuildCall =>
        FlagIsSticky(GetChoicesToRebuild(s, eval).next, rest, eval);
      case SetChoicesCall(m) =>
        FlagIsSticky(SetChoices(s, m), rest, eval);
    }
  }

  /** The script runs at most once per reading call, and the evaluation
      count never goes down. */
  lemma {:induction false} EvaluationsBoundedByReads<K, V>(s: State<K, V>, calls: seq<Call<K, V>>, eval: Evaluator<K, V>)
    ensures s.evaluations <= Run(s, calls, eval).last.evaluations
    ensures Run(s, calls, eval).last.evaluations - s.evaluations <= |Run(s, calls, eval).answers|
    ensures |Run(s, calls, eval).answers| == CountReads(calls)
    decreases |calls|
  {
    if |calls| > 0 {
      var rest := calls[1..];
      match calls[0]
      case GetChoicesCall =>
        EvaluationsBoundedByReads(GetChoices(s, eval).next, rest, eval);
      case GetChoicesToRebuildCall =>
        EvaluationsBoundedByReads(GetChoicesToRebuild(s, eval).next, rest, eval);
      case SetChoicesCall(m) =>
        EvaluationsBoundedByReads(SetChoices(s, m), rest, eval);
      case SetRebuildingCall(b) =>
        EvaluationsBoundedByReads(SetRebuilding(s, b), rest, eval);
    }
  }
}
