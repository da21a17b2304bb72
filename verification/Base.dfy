// Shared datatypes and one counting argument used by several protocols.
module Base {

  datatype Option<+T> = None | Some(value: T)

  // Instants and durations, in nanoseconds.
  type Time = int

  const SECOND: Time := 1_000_000_000

  // An injective map from `a` into `b` bounds the size of `a`.
  lemma {:induction false} InjectionBounds<A, B>(a: set<A>, b: set<B>, f: map<A, B>)
    requires a <= f.Keys
    requires forall x :: x in a ==> f[x] in b
    requires forall x, y :: x in a && y in a && f[x] == f[y] ==> x == y
    ensures |a| <= |b|
    decreases a
  {
    if a != {} {
      var x :| x in a;
      InjectionBounds(a - {x}, b - {f[x]}, f);
    }
  }
}
