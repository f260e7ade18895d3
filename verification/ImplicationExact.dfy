/** How much the syntactic prover proves: all that follows from AND and OR alone. */
module ImplicationExact {
  import opened Expressions
  import opened Implication

  predicate Atom(e: Ast) {
    !e.And? && !e.Or?
  }

  /** A disjunction of conditions that are not themselves built with AND or OR. */
  predicate Clause(e: Ast) {
    Atom(e) || (e.Or? && Clause(e.left) && Clause(e.right))
  }

  /** The truth of an expression when each condition is simply true or false. */
  ghost predicate Holds(truth: Ast -> bool, e: Ast) {
    if e.And? then Holds(truth, e.left) && Holds(truth, e.right)
    else if e.Or? then Holds(truth, e.left) || Holds(truth, e.right)
    else truth(e)
  }

  /** Conditions that differ only in their IN lists are the same condition. */
  ghost predicate Congruent(truth: Ast -> bool) {
    forall a, b :: SameAst(a, b) && truth(a) ==> truth(b)
  }

  /** The goal holds whenever the domain does, whatever the conditions mean. */
  ghost predicate Follows(domain: Ast, goal: Ast) {
    forall truth :: Congruent(truth) && Holds(truth, domain) ==> Holds(truth, goal)
  }

  lemma {:induction false} SameAstReflexive(a: Ast)
    ensures SameAst(a, a)
  {
    if a.In? {
      SameAstReflexive(a.source);
    }
  }

  lemma {:induction false} SameAstTransitive(a: Ast, b: Ast, c: Ast)
    requires SameAst(a, b) && SameAst(b, c)
    ensures SameAst(a, c)
  {
    if a.In? && b.In? && c.In? {
      SameAstReflexive(b.source);
      SameAstTransitive(a.source, b.source, c.source);
    }
  }

  lemma SameAstAtom(a: Ast, b: Ast)
    requires SameAst(a, b)
    ensures a == b || (Atom(a) && Atom(b))
  {
  }

  lemma {:induction false} ImpliesHolds(domain: Ast, goal: Ast, truth: Ast -> bool)
    requires Implies(domain, goal) && Congruent(truth) && Holds(truth, domain)
    ensures Holds(truth, goal)
    decreases domain, goal
  {
    if SameAst(domain, goal) {
      SameAstAtom(domain, goal);
    } else if domain.And? {
      if Implies(domain.left, goal) {
        ImpliesHolds(domain.left, goal, truth);
      } else {
        ImpliesHolds(domain.right, goal, truth);
      }
    } else if domain.Or? {
      if Holds(truth, domain.left) {
        ImpliesHolds(domain.left, goal, truth);
      } else {
        ImpliesHolds(domain.right, goal, truth);
      }
    } else if Implies(domain, goal.left) {
      ImpliesHolds(domain, goal.left, truth);
    } else {
      ImpliesHolds(domain, goal.right, truth);
    }
  }

  /** Some condition of the goal is this one. */
  predicate Listed(a: Ast, goal: Ast) {
    if goal.Or? then Listed(a, goal.left) || Listed(a, goal.right) else SameAst(a, goal)
  }

  lemma {:induction false} ListedCongruent(a: Ast, b: Ast, goal: Ast)
    requires SameAst(a, b) && Listed(b, goal)
    ensures Listed(a, goal)
  {
    if goal.Or? {
      if Listed(b, goal.left) {
        ListedCongruent(a, b, goal.left);
      } else {
        ListedCongruent(a, b, goal.right);
      }
    } else {
      SameAstTransitive(a, b, goal);
    }
  }

  lemma {:induction false} ListedImplied(a: Ast, goal: Ast)
    requires Atom(a) && Listed(a, goal)
    ensures Implies(a, goal)
  {
    if goal.Or? {
      if Listed(a, goal.left) {
        ListedImplied(a, goal.left);
      } else {
        ListedImplied(a, goal.right);
      }
    }
  }

  /** With exactly the goal's conditions false, a clause is false ... */
  lemma {:induction false} ClauseFails(part: Ast, truth: Ast -> bool)
    requires Clause(part) && forall a :: Listed(a, part) ==> !truth(a)
    ensures !Holds(truth, part)
  {
    if part.Or? {
      ClauseFails(part.left, truth);
      ClauseFails(part.right, truth);
    } else {
      SameAstReflexive(part);
    }
  }

  /** ... and every domain that does not imply it is true. */
  lemma {:induction false} DomainHolds(domain: Ast, goal: Ast, truth: Ast -> bool)
    requires !Implies(domain, goal) && forall a :: !Listed(a, goal) ==> truth(a)
    ensures Holds(truth, domain)
  {
    if domain.And? {
      DomainHolds(domain.left, goal, truth);
      DomainHolds(domain.right, goal, truth);
    } else if domain.Or? {
      if !Implies(domain.left, goal) {
        DomainHolds(domain.left, goal, truth);
      } else {
        DomainHolds(domain.right, goal, truth);
      }
    } else if Listed(domain, goal) {
      ListedImplied(domain, goal);
    }
  }

  /**
   * For a disjunction of plain conditions, which is what the coverage of a case is, the prover is exact:
   * it accepts if and only if the goal follows from the domain by AND and OR alone.
   */
  lemma ImpliesExactly(domain: Ast, goal: Ast)
    requires Clause(goal)
    ensures Implies(domain, goal) <==> Follows(domain, goal)
  {
    if Implies(domain, goal) {
      forall truth | Congruent(truth) && Holds(truth, domain) ensures Holds(truth, goal) {
        ImpliesHolds(domain, goal, truth);
      }
    } else {
      var truth := (a: Ast) => !Listed(a, goal);
      forall a, b | SameAst(a, b) && truth(a) ensures truth(b) {
        if Listed(b, goal) {
          ListedCongruent(a, b, goal);
        }
      }
      assert Congruent(truth);
      DomainHolds(domain, goal, truth);
      ClauseFails(goal, truth);
    }
  }
}
