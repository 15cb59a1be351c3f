/** Ask, check, and ask again with the complaints; then degrade or give up. */
module Validation {
  import opened Template

  /** What the model answers one call with; a call may also raise. */
  datatype Reply<+T> = Answer(value: T) | Raise

  /** The complaints about an answer, in the order the rules are given. */
  type Rule<!T, V> = T -> seq<V>

  /** What a call is told: its number, the complaints so far and the answer they were about. */
  datatype Context<+T, +V> = Context(attempt: nat, violations: seq<V>, previous: Option<T>)

  type Model<!T, !V> = Context<T, V> -> Reply<T>

  datatype Outcome<+T, +V> =
    | Accepted(value: T, attempts: nat)
    | Degraded(value: T, attempts: nat, violations: seq<V>)
    | Exhausted(violations: seq<V>)
    | Raised

  function Violations<T, V>(rules: seq<Rule<T, V>>, value: T): seq<V> {
    if rules == [] then [] else rules[0](value) + Violations(rules[1..], value)
  }

  /** The complaints and the answer a call is told about, if there are any. */
  function Told<T, V>(attempts: nat, violations: seq<V>, previous: Option<T>): Context<T, V> {
    if violations == [] then Context(attempts, [], None) else Context(attempts, violations, previous)
  }

  /** What is left to happen after some attempts. */
  function From<T, V>(model: Model<T, V>, rules: seq<Rule<T, V>>, fallback: Option<seq<V> -> T>, max: nat,
                      attempts: nat, violations: seq<V>, previous: Option<T>): Outcome<T, V>
    decreases max - attempts
  {
    if attempts >= max then
      if fallback.Some? then Degraded(fallback.value(violations), attempts, violations) else Exhausted(violations)
    else
      match model(Told(attempts, violations, previous))
      case Raise => Raised
      case Answer(value) =>
        var complaints := Violations(rules, value);
        if complaints == [] then Accepted(value, attempts + 1)
        else From(model, rules, fallback, max, attempts + 1, complaints, Some(value))
  }

  function Completed<T, V>(model: Model<T, V>, rules: seq<Rule<T, V>>, fallback: Option<seq<V> -> T>,
                           max: nat): Outcome<T, V> {
    From(model, rules, fallback, max, 0, [], None)
  }

  method CompleteValidated<T, V(==)>(model: Model<T, V>, rules: seq<Rule<T, V>>, fallback: Option<seq<V> -> T>,
                                     max: nat) returns (outcome: Outcome<T, V>)
    ensures outcome == Completed(model, rules, fallback, max)
  {
    var violations: seq<V>, previous: Option<T>, attempts := [], None, 0;
    while attempts < max
      invariant attempts <= max
      invariant From(model, rules, fallback, max, attempts, violations, previous)
          == Completed(model, rules, fallback, max)
    {
      var reply := model(Told(attempts, violations, previous));
      if reply.Raise? {
        return Raised;
      }
      attempts := attempts + 1;
      violations := Violations(rules, reply.value);
      if violations == [] {
        return Accepted(reply.value, attempts);
      }
      previous := Some(reply.value);
    }
    outcome := if fallback.Some? then Degraded(fallback.value(violations), attempts, violations)
               else Exhausted(violations);
  }

  // ------------------------------------------------------------------ what an outcome means

  lemma {:induction false} NoViolations<T, V>(rules: seq<Rule<T, V>>, value: T)
    ensures Violations(rules, value) == [] <==> forall rule :: rule in rules ==> rule(value) == []
  {
    if rules != [] {
      NoViolations(rules[1..], value);
      assert rules == [rules[0]] + rules[1..];
    }
  }

  /** What the model says at attempt `k` of a conversation: each call is told about the one before. */
  function ReplyAt<T, V>(model: Model<T, V>, rules: seq<Rule<T, V>>, k: nat): Reply<T> {
    if k == 0 then model(Told(0, [], None))
    else
      var before := ReplyAt(model, rules, k - 1);
      if before.Raise? then Raise
      else model(Told(k, Violations(rules, before.value), Some(before.value)))
  }

  /** The call at `k` is answered, and the answer breaks a rule. */
  predicate Rejected<T, V(==)>(model: Model<T, V>, rules: seq<Rule<T, V>>, k: nat) {
    var reply := ReplyAt(model, rules, k);
    reply.Answer? && Violations(rules, reply.value) != []
  }

  predicate Clean<T, V(==)>(model: Model<T, V>, rules: seq<Rule<T, V>>, k: nat) {
    var reply := ReplyAt(model, rules, k);
    reply.Answer? && Violations(rules, reply.value) == []
  }

  /** The conversation stands before call `attempts`, every earlier answer having been rejected. */
  ghost predicate Reached<T, V>(model: Model<T, V>, rules: seq<Rule<T, V>>, attempts: nat, violations: seq<V>,
                                previous: Option<T>) {
    && (forall k :: 0 <= k < attempts ==> Rejected(model, rules, k))
    && (attempts == 0 ==> violations == [] && previous == None)
    && (attempts > 0 ==>
          var last := ReplyAt(model, rules, attempts - 1);
          last.Answer? && violations == Violations(rules, last.value) && previous == Some(last.value))
  }

  /** The complaints are those about the answer of the last call; without a call there are none. */
  ghost predicate AboutTheLast<T, V>(model: Model<T, V>, rules: seq<Rule<T, V>>, max: nat, violations: seq<V>) {
    if max == 0 then violations == []
    else
      var last := ReplyAt(model, rules, max - 1);
      last.Answer? && violations == Violations(rules, last.value)
  }

  /** The outcome in terms of the conversation: the first clean answer within `max` calls is accepted;
      a call that raises ends it; else every call was rejected, and the fallback decides. */
  ghost predicate Means<T, V>(model: Model<T, V>, rules: seq<Rule<T, V>>, fallback: Option<seq<V> -> T>, max: nat,
                              outcome: Outcome<T, V>) {
    match outcome
    case Accepted(value, attempts) =>
      && 1 <= attempts <= max && Clean(model, rules, attempts - 1)
      && ReplyAt(model, rules, attempts - 1) == Answer(value)
      && forall k :: 0 <= k < attempts - 1 ==> Rejected(model, rules, k)
    case Degraded(value, attempts, violations) =>
      && attempts == max && fallback.Some? && value == fallback.value(violations)
      && (forall k :: 0 <= k < max ==> Rejected(model, rules, k)) && AboutTheLast(model, rules, max, violations)
    case Exhausted(violations) =>
      && fallback.None? && (forall k :: 0 <= k < max ==> Rejected(model, rules, k))
      && AboutTheLast(model, rules, max, violations)
    case Raised =>
      exists k :: 0 <= k < max && ReplyAt(model, rules, k).Raise?
                  && forall j :: 0 <= j < k ==> Rejected(model, rules, j)
  }

  lemma {:induction false} FromMeans<T, V>(model: Model<T, V>, rules: seq<Rule<T, V>>, fallback: Option<seq<V> -> T>,
                                           max: nat, attempts: nat, violations: seq<V>, previous: Option<T>)
    requires attempts <= max && Reached(model, rules, attempts, violations, previous)
    ensures Means(model, rules, fallback, max, From(model, rules, fallback, max, attempts, violations, previous))
    decreases max - attempts
  {
    if attempts < max {
      assert attempts > 0 ==> Rejected(model, rules, attempts - 1);
      assert ReplyAt(model, rules, attempts) == model(Told(attempts, violations, previous));
      var reply := ReplyAt(model, rules, attempts);
      if reply.Answer? && Violations(rules, reply.value) != [] {
        FromMeans(model, rules, fallback, max, attempts + 1, Violations(rules, reply.value), Some(reply.value));
      } else if reply.Answer? {
        assert Clean(model, rules, attempts);
      }
    }
  }

  /** The loop accepts the first clean answer it gets, and nothing else. */
  lemma OutcomeMeans<T, V>(model: Model<T, V>, rules: seq<Rule<T, V>>, fallback: Option<seq<V> -> T>, max: nat)
    ensures Means(model, rules, fallback, max, Completed(model, rules, fallback, max))
  {
    FromMeans(model, rules, fallback, max, 0, [], None);
  }

  /** An accepted value breaks no rule. */
  lemma AcceptedBreaksNoRule<T, V>(model: Model<T, V>, rules: seq<Rule<T, V>>, fallback: Option<seq<V> -> T>, max: nat,
                                   rule: Rule<T, V>)
    requires Completed(model, rules, fallback, max).Accepted? && rule in rules
    ensures rule(Completed(model, rules, fallback, max).value) == []
  {
    OutcomeMeans(model, rules, fallback, max);
    NoViolations(rules, Completed(model, rules, fallback, max).value);
  }

  /** The first clean answer is the one at `k`; no call before it raises. */
  ghost predicate FirstClean<T, V>(model: Model<T, V>, rules: seq<Rule<T, V>>, k: nat) {
    Clean(model, rules, k) && forall j :: 0 <= j < k ==> Rejected(model, rules, j)
  }

  /** Every call is told its number. The first is told no more; a call that follows a rejected answer is told
      the complaints about that answer, and the answer. */
  lemma CallsAreTold<T, V>(model: Model<T, V>, rules: seq<Rule<T, V>>, k: nat, x: T)
    ensures ReplyAt(model, rules, 0) == model(Context(0, [], None))
    ensures ReplyAt(model, rules, k) == Answer(x) && Violations(rules, x) != [] ==>
              ReplyAt(model, rules, k + 1) == model(Context(k + 1, Violations(rules, x), Some(x)))
  {
  }

  /** The complaints are those of each rule in turn. */
  lemma {:induction false} ViolationsConcat<T, V>(some: seq<Rule<T, V>>, more: seq<Rule<T, V>>, value: T)
    ensures Violations(some + more, value) == Violations(some, value) + Violations(more, value)
    ensures |some| == 1 ==> Violations(some, value) == some[0](value)
    ensures some == [] ==> Violations(some, value) == []
  {
    if some == [] {
      assert some + more == more;
    } else {
      assert (some + more)[1..] == some[1..] + more;
      ViolationsConcat(some[1..], more, value);
    }
  }

  /** Something is accepted exactly when some answer within reach is clean before any call raises. */
  lemma AcceptedExactly<T, V>(model: Model<T, V>, rules: seq<Rule<T, V>>, fallback: Option<seq<V> -> T>, max: nat)
    ensures Completed(model, rules, fallback, max).Accepted?
            <==> exists k :: 0 <= k < max && FirstClean(model, rules, k)
  {
    OutcomeMeans(model, rules, fallback, max);
    var outcome := Completed(model, rules, fallback, max);
    if outcome.Accepted? {
      assert FirstClean(model, rules, outcome.attempts - 1);
    } else if outcome.Raised? {
      var r :| 0 <= r < max && ReplyAt(model, rules, r).Raise? && forall j :: 0 <= j < r ==> Rejected(model, rules, j);
      forall k | 0 <= k < max ensures !FirstClean(model, rules, k) {
        assert k < r ==> Rejected(model, rules, k);
        assert r < k ==> !Rejected(model, rules, r);
      }
    } else {
      forall k | 0 <= k < max ensures !FirstClean(model, rules, k) {
        assert Rejected(model, rules, k);
      }
    }
  }
}
