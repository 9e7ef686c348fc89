/**
 Operations as courses of durable writes, for systems that may stop after any of them.
 */
module Courses {

  /** The states an operation writes one after the other, and whether it then succeeds. */
  datatype Course<S> = Course(writes: seq<S>, done: bool)

  function End<S>(start: S, writes: seq<S>): S {
    if writes == [] then start else writes[|writes| - 1]
  }

  /** The state after at most `n` writes. */
  function After<S>(start: S, writes: seq<S>, n: nat): S {
    if n < |writes| then End(start, writes[..n]) else End(start, writes)
  }

  function Append<S>(first: Course<S>, second: Course<S>): Course<S> {
    if first.done then Course(first.writes + second.writes, second.done) else first
  }

  /** From `before`, with `allowed` writes, a course was followed to `now`, with `left` writes still allowed. */
  ghost predicate Follows<S>(before: S, allowed: nat, now: S, left: nat, course: Course<S>, ok: bool) {
    && now == After(before, course.writes, allowed)
    && left == (if allowed >= |course.writes| then allowed - |course.writes| else 0)
    && (ok <==> course.done && allowed >= |course.writes|)
  }

  lemma AfterIsOneOf<S>(start: S, writes: seq<S>, n: nat)
    ensures After(start, writes, n) == start || After(start, writes, n) in writes
    ensures n >= |writes| ==> After(start, writes, n) == End(start, writes)
  {
  }

  lemma EndOfAppend<S>(start: S, first: seq<S>, second: seq<S>)
    ensures End(start, first + second) == End(End(start, first), second)
    ensures forall e :: e in first + second <==> e in first || e in second
  {
  }

  lemma EndIsOneOf<S>(start: S, writes: seq<S>)
    ensures End(start, writes) == start || End(start, writes) in writes
  {
  }

  lemma NotFirst<S>(start: S, writes: seq<S>, n: nat)
    requires n > 0 && writes != []
    ensures After(start, writes, n) in writes
  {
  }

  /** Two courses one after the other. */
  lemma FollowsBoth<S>(before: S, allowed: nat, middle: S, between: nat, now: S, left: nat,
                       first: Course<S>, second: Course<S>, ok: bool)
    requires Follows(before, allowed, middle, between, first, true)
    requires Follows(middle, between, now, left, second, ok)
    ensures Follows(before, allowed, now, left, Append(first, second), ok)
  {
    var all := first.writes + second.writes;
    if between < |second.writes| {
      if between > 0 {
        assert all[..allowed] == first.writes + second.writes[..between];
        assert second.writes[..between][between - 1] == all[..allowed][allowed - 1];
      } else {
        assert all[..allowed] == first.writes;
      }
    }
  }

  lemma FollowsFirst<S>(before: S, allowed: nat, now: S, left: nat, first: Course<S>, second: Course<S>)
    requires Follows(before, allowed, now, left, first, false)
    ensures Follows(before, allowed, now, left, Append(first, second), false)
  {
    if first.done {
      assert (first.writes + second.writes)[..allowed] == first.writes[..allowed];
    }
  }
}
