/**
 * Query conditions, as built from Django `Q` objects with `&`, `|` and `~`,
 * and the exclusive-or combinator that tickle/models.py attaches to them.
 * A condition is a tree over atomic lookups of type `A`; `Eval` gives its
 * boolean meaning when exactly the atoms in a given set hold.
 */
module Conditions {

  datatype Cond<A> =
    | Atom(lookup: A)
    | And(left: Cond<A>, right: Cond<A>)
    | Or(left: Cond<A>, right: Cond<A>)
    | Not(operand: Cond<A>)

  /** The truth value of `c` when the atoms that hold are those in `v`. */
  function Eval<A(!new)>(c: Cond<A>, v: set<A>): bool
  {
    match c
    case Atom(l) => l in v
    case And(l, r) => Eval(l, v) && Eval(r, v)
    case Or(l, r) => Eval(l, v) || Eval(r, v)
    case Not(o) => !Eval(o, v)
  }

  /** `a ^ b` on conditions: `(a & ~b) | (~a & b)`. Whatever the atoms are
      worth, the combined condition holds exactly when the operands differ. */
  function Xor<A(!new)>(a: Cond<A>, b: Cond<A>): (r: Cond<A>)
    ensures forall v :: Eval(r, v) == (Eval(a, v) != Eval(b, v))
  {
    var r := Or(And(a, Not(b)), And(Not(a), b));
    assert forall v :: Eval(r, v) == (Eval(a, v) != Eval(b, v)) by {
      forall v ensures Eval(r, v) == (Eval(a, v) != Eval(b, v)) {
        assert Eval(And(a, Not(b)), v) == (Eval(a, v) && !Eval(b, v));
        assert Eval(And(Not(a), b), v) == (!Eval(a, v) && Eval(b, v));
      }
    }
    r
  }

  /** The combinator is symmetric in meaning (not in shape). */
  lemma XorSymmetric<A(!new)>(a: Cond<A>, b: Cond<A>, v: set<A>)
    ensures Eval(Xor(a, b), v) == Eval(Xor(b, a), v)
  {
  }
}
