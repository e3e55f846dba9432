/**
 * One node of the lexer's automaton: the code it reports, whether entering it
 * halts the machine, and its transitions, tried in insertion order.
 */
module LexStates {
  import opened TokenCodes
  import opened Patterns

  /** Returned by `getNext` when no transition matches. */
  const STOPPED: int := 0x7fff_ffff - 1
  /** Reserved error code; never a table index. */
  const ERROR: int := 0x7fff_ffff

  datatype Transition = Transition(pattern: Pattern, target: nat)

  datatype State = State(code: TSCode, forceStop: bool, transitions: seq<Transition>)

  /** The three constructors: `()` gives (NONE, no stop), `(code)` gives
      (code, no stop) and `(code, stop)` gives (code, stop); none has transitions. */
  function NewState(code: TSCode := TSCode.NONE, forceStop: bool := false): (s: State)
    ensures s.code == code && s.forceStop == forceStop && s.transitions == []
  {
    State(code, forceStop, [])
  }

  /** The shared empty state. */
  const EMPTY: State := NewState()

  /** `addTransition` appends, so it is tried after every earlier transition. */
  function AddTransition(s: State, pattern: Pattern, target: nat): (r: State)
    ensures r.code == s.code && r.forceStop == s.forceStop
    ensures r.transitions == s.transitions + [Transition(pattern, target)]
  {
    s.(transitions := s.transitions + [Transition(pattern, target)])
  }

  /** Whether some transition accepts `c`. */
  ghost predicate AnyMatches(ts: seq<Transition>, c: char)
  {
    exists k :: 0 <= k < |ts| && Matches(ts[k].pattern, c)
  }

  /** The first transition from index `k` on that accepts `c`, or STOPPED. */
  function FirstMatchFrom(ts: seq<Transition>, c: char, k: nat): int
    decreases |ts| - k
  {
    if k >= |ts| then STOPPED
    else if Matches(ts[k].pattern, c) then ts[k].target
    else FirstMatchFrom(ts, c, k + 1)
  }

  /** The target `getNext` returns: the first transition accepting `c`, or STOPPED. */
  function FirstMatch(ts: seq<Transition>, c: char): int
  {
    FirstMatchFrom(ts, c, 0)
  }

  lemma {:induction false} FirstMatchFromWins(ts: seq<Transition>, c: char, i: nat, k: nat)
    requires i <= k < |ts| && Matches(ts[k].pattern, c)
    requires forall j :: i <= j < k ==> !Matches(ts[j].pattern, c)
    ensures FirstMatchFrom(ts, c, i) == ts[k].target
    decreases k - i
  {
    if i < k {
      FirstMatchFromWins(ts, c, i + 1, k);
    }
  }

  /** First match wins: when transition `k` is the first to accept `c`, its target is
      the result. */
  lemma FirstMatchWins(ts: seq<Transition>, c: char, k: nat)
    requires k < |ts| && Matches(ts[k].pattern, c)
    requires forall j :: 0 <= j < k ==> !Matches(ts[j].pattern, c)
    ensures FirstMatch(ts, c) == ts[k].target
  {
    FirstMatchFromWins(ts, c, 0, k);
  }

  lemma {:induction false} NoMatchFromStops(ts: seq<Transition>, c: char, i: nat)
    requires forall j :: i <= j < |ts| ==> !Matches(ts[j].pattern, c)
    ensures FirstMatchFrom(ts, c, i) == STOPPED
    decreases |ts| - i
  {
    if i < |ts| {
      NoMatchFromStops(ts, c, i + 1);
    }
  }

  /** When no transition accepts `c`, the result is STOPPED. */
  lemma NoMatchStops(ts: seq<Transition>, c: char)
    requires !AnyMatches(ts, c)
    ensures FirstMatch(ts, c) == STOPPED
  {
    NoMatchFromStops(ts, c, 0);
  }

  lemma {:induction false} FirstMatchFromTarget(ts: seq<Transition>, c: char, i: nat, bound: int)
    requires forall k :: 0 <= k < |ts| ==> ts[k].target < bound
    ensures FirstMatchFrom(ts, c, i) == STOPPED || 0 <= FirstMatchFrom(ts, c, i) < bound
    decreases |ts| - i
  {
    if i < |ts| && !Matches(ts[i].pattern, c) {
      FirstMatchFromTarget(ts, c, i + 1, bound);
    }
  }

  lemma {:induction false} FirstMatchFromIsTarget(ts: seq<Transition>, c: char, i: nat)
    ensures FirstMatchFrom(ts, c, i) == STOPPED
      || exists k :: i <= k < |ts| && FirstMatchFrom(ts, c, i) == ts[k].target
    decreases |ts| - i
  {
    if i < |ts| && !Matches(ts[i].pattern, c) {
      FirstMatchFromIsTarget(ts, c, i + 1);
    }
  }

  /** The result is STOPPED or the target of some transition. */
  lemma FirstMatchIsTarget(ts: seq<Transition>, c: char)
    ensures FirstMatch(ts, c) == STOPPED || exists k :: 0 <= k < |ts| && FirstMatch(ts, c) == ts[k].target
  {
    FirstMatchFromIsTarget(ts, c, 0);
  }

  /** The result is STOPPED or the target of one of the transitions. */
  lemma FirstMatchTarget(ts: seq<Transition>, c: char, bound: int)
    requires forall k :: 0 <= k < |ts| ==> ts[k].target < bound
    ensures FirstMatch(ts, c) == STOPPED || 0 <= FirstMatch(ts, c) < bound
  {
    FirstMatchFromTarget(ts, c, 0, bound);
  }

  lemma {:induction false} AppendFrom(ts: seq<Transition>, t: Transition, c: char, i: nat)
    requires i <= |ts|
    ensures (exists k :: i <= k < |ts| && Matches(ts[k].pattern, c)) ==>
      FirstMatchFrom(ts + [t], c, i) == FirstMatchFrom(ts, c, i)
    ensures (forall k :: i <= k < |ts| ==> !Matches(ts[k].pattern, c)) ==>
      FirstMatchFrom(ts + [t], c, i) == if Matches(t.pattern, c) then t.target else STOPPED
    decreases |ts| - i
  {
    if i < |ts| {
      AppendFrom(ts, t, c, i + 1);
      assert (ts + [t])[i] == ts[i];
      if exists k :: i <= k < |ts| && Matches(ts[k].pattern, c) {
        var k :| i <= k < |ts| && Matches(ts[k].pattern, c);
        if k > i && !Matches(ts[i].pattern, c) {
          assert i + 1 <= k;
        }
      }
    } else {
      assert (ts + [t])[i] == t;
    }
  }

  /** Appending a transition never overrides an earlier one: it is reached only when
      no earlier transition accepts the character. */
  lemma AddTransitionPrecedence(s: State, pattern: Pattern, target: nat, c: char)
    ensures AnyMatches(s.transitions, c) ==>
      FirstMatch(AddTransition(s, pattern, target).transitions, c) == FirstMatch(s.transitions, c)
    ensures !AnyMatches(s.transitions, c) ==>
      FirstMatch(AddTransition(s, pattern, target).transitions, c)
        == if Matches(pattern, c) then target else STOPPED
  {
    AppendFrom(s.transitions, Transition(pattern, target), c, 0);
  }

  /** `getNext`: the first-match search over the transitions, in insertion order. */
  method GetNext(s: State, c: char) returns (next: int)
    ensures next == FirstMatch(s.transitions, c)
  {
    var i := 0;
    while i < |s.transitions|
      invariant 0 <= i <= |s.transitions|
      invariant FirstMatchFrom(s.transitions, c, i) == FirstMatch(s.transitions, c)
    {
      if Matches(s.transitions[i].pattern, c) {
        return s.transitions[i].target;
      }
      i := i + 1;
    }
    return STOPPED;
  }
}
