/**
 The service both dispatchers offer, without flags, alarms or threads: closures wait in submission
 order, are taken in that order, and each taken one is called once.
 */
module Fifo {

  /** `inHand` are the closures taken and not called yet; `log` and `called` are history. */
  datatype Service<T(==)> = Service(
    waiting: seq<T>,
    inHand: multiset<T>,
    submitted: seq<T>,
    taken: seq<T>,
    called: seq<T>)

  datatype Label<T> = Submit(x: T) | Take | Run(x: T) | Internal

  ghost predicate Empty<T>(v: Service<T>)
  {
    v == Service([], multiset{}, [], [], [])
  }

  ghost predicate Next<T>(v: Service<T>, l: Label<T>, v': Service<T>)
  {
    match l
    case Submit(x) => v' == v.(waiting := v.waiting + [x], submitted := v.submitted + [x])
    case Take =>
      && v.waiting != []
      && v' == v.(waiting := v.waiting[1..], inHand := v.inHand + multiset{v.waiting[0]},
      taken := v.taken + [v.waiting[0]])
    case Run(x) =>
      && x in v.inHand
      && v' == v.(inHand := v.inHand - multiset{x}, called := v.called + [x])
    case Internal => v' == v
  }

  ghost predicate Behaves<T(!new)>(v: Service<T>, ls: seq<Label<T>>, v': Service<T>)
    decreases |ls|
  {
    if ls == [] then v == v'
    else exists m :: Next(v, ls[0], m) && Behaves(m, ls[1..], v')
  }

  /** Taken is a prefix of submitted and the rest waits; what was taken is in hand or was called. */
  ghost predicate Ledger<T>(v: Service<T>)
  {
    && v.submitted == v.taken + v.waiting
    && multiset(v.taken) == multiset(v.called) + v.inHand
  }

  lemma NextLedger<T>(v: Service<T>, l: Label<T>, v': Service<T>)
    requires Ledger(v) && Next(v, l, v')
    ensures Ledger(v')
  {
    match l
    case Submit(x) => assert v'.submitted == v.taken + (v.waiting + [x]);
    case Take => assert v.waiting == [v.waiting[0]] + v.waiting[1..];
    case _ =>
  }

  /** First in, first out, and nothing called that was not submitted, in every behaviour. */
  lemma {:induction false} BehavesLedger<T(!new)>(v: Service<T>, ls: seq<Label<T>>, v': Service<T>)
    requires Ledger(v) && Behaves(v, ls, v')
    ensures Ledger(v')
    decreases |ls|
  {
    if ls != [] {
      var m :| Next(v, ls[0], m) && Behaves(m, ls[1..], v');
      NextLedger(v, ls[0], m);
      BehavesLedger(m, ls[1..], v');
    }
  }
}
