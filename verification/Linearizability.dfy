/** Sequential models, histories and what it means for a history to be linearizable. */
module Linearizability {
  import opened Permutations

  /** One completed operation: its invocation and response times are read from a monotonic clock. */
  datatype Operation<I, O> = Operation(clientId: int, input: I, call: int, output: O, ret: int)

  /** A sequential specification. `step` says whether the output is possible and gives the next state. */
  datatype Model<!S, !I, !O> = Model(init: S, step: (S, I, O) -> (bool, S))

  type History<I, O> = seq<Operation<I, O>>

  /** A clock never runs backwards between an invocation and its response. */
  ghost predicate WellTimed<I, O>(h: History<I, O>) {
    forall i :: 0 <= i < |h| ==> h[i].call <= h[i].ret
  }

  /** `a` returned before `b` was invoked. */
  predicate Precedes<I, O>(a: Operation<I, O>, b: Operation<I, O>) {
    a.ret < b.call
  }

  /** No operation is placed before one that had returned before it was invoked. */
  ghost predicate RespectsRealTime<I, O>(s: History<I, O>) {
    forall i, j :: 0 <= i < j < |s| ==> !Precedes(s[j], s[i])
  }

  /** Every step along `s` is accepted, starting from `state`. */
  predicate Accepts<S, I, O>(m: Model<S, I, O>, state: S, s: History<I, O>) {
    s == [] ||
    (m.step(state, s[0].input, s[0].output).0 &&
     Accepts(m, m.step(state, s[0].input, s[0].output).1, s[1..]))
  }

  /** `s` is a reordering of `h` that respects real time and that the model accepts. */
  ghost predicate Linearizes<S, I, O>(m: Model<S, I, O>, h: History<I, O>, s: History<I, O>) {
    && multiset(s) == multiset(h)
    && RespectsRealTime(s)
    && Accepts(m, m.init, s)
  }

  ghost predicate Linearizable<S, I(!new), O(!new)>(m: Model<S, I, O>, h: History<I, O>) {
    exists s: History<I, O> :: Linearizes(m, h, s)
  }

  /** Two histories that differ only in how they date the same real-time order. */
  ghost predicate SameShape<I, O>(a: History<I, O>, b: History<I, O>) {
    && |a| == |b|
    && (forall i :: 0 <= i < |a| ==> a[i].input == b[i].input && a[i].output == b[i].output)
    && (forall i, j :: 0 <= i < |a| && 0 <= j < |a| ==> (Precedes(a[i], a[j]) <==> Precedes(b[i], b[j])))
  }

  lemma {:induction false} AcceptsSameValues<S, I, O>(m: Model<S, I, O>, state: S, a: History<I, O>, b: History<I, O>)
    requires |a| == |b|
    requires forall i :: 0 <= i < |a| ==> a[i].input == b[i].input && a[i].output == b[i].output
    requires Accepts(m, state, a)
    ensures Accepts(m, state, b)
    decreases a
  {
    if a != [] {
      AcceptsSameValues(m, m.step(state, a[0].input, a[0].output).1, a[1..], b[1..]);
    }
  }

  /** Only the order of invocations and responses matters, not their absolute times. */
  lemma LinearizableSameShape<S, I(!new), O(!new)>(m: Model<S, I, O>, a: History<I, O>, b: History<I, O>)
    requires SameShape(a, b) && Linearizable(m, a)
    ensures Linearizable(m, b)
  {
    var s :| Linearizes(m, a, s);
    var p := FindPermutation(s, a);
    var t := Select(b, p);
    SelectMultiset(b, p);
    assert forall i :: 0 <= i < |s| ==> s[i] == a[p[i]];
    assert forall i, j :: 0 <= i < j < |t| ==> (Precedes(t[j], t[i]) <==> Precedes(s[j], s[i]));
    AcceptsSameValues(m, m.init, s, t);
    assert Linearizes(m, b, t);
  }
}
