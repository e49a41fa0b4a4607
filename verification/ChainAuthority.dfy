/** From single links to chains of any length: what the leaf of an accepted lineage may do. */
module ChainAuthority {
  import opened Prelude
  import opened Proposals
  import opened Canonical
  import opened PythonEquality
  import opened Delegation

  type ConstraintVerifiers = map<string, (Constraint, Proposal) -> bool>

  /** `_constraint_satisfied`: without a verifier a critical constraint fails and any other passes. */
  predicate Satisfied(verifiers: ConstraintVerifiers, c: Constraint, p: Proposal) {
    if c.name in verifiers then verifiers[c.name](c, p) else !c.critical
  }

  /** The grant permits the proposal: action, resource and every constraint. */
  predicate Permits(verifiers: ConstraintVerifiers, g: Grant, p: Proposal) {
    && g.action == p.action
    && ResourceMatches(g.resource, p.resource)
    && forall i :: 0 <= i < |g.constraints| ==> Satisfied(verifiers, g.constraints[i], p)
  }

  predicate CapsulePermits(verifiers: ConstraintVerifiers, c: Capsule, p: Proposal) {
    exists i :: 0 <= i < |c.authority| && Permits(verifiers, c.authority[i], p)
  }

  /** Whatever satisfies an attenuation of this constraint satisfies the constraint. */
  ghost predicate SatisfactionPasses(verifiers: ConstraintVerifiers, c: Constraint) {
    forall a: Constraint, p: Proposal :: a.name == c.name && Attenuates(a, c) && Satisfied(verifiers, a, p) ==>
      Satisfied(verifiers, c, p)
  }

  /** On this name the verifier never accepts a tighter constraint while refusing a looser one. */
  ghost predicate MonotoneOn(v: (Constraint, Proposal) -> bool, name: string) {
    forall a: Constraint, b: Constraint, p: Proposal :: a.name == name && b.name == name && Attenuates(a, b) && v(a, p) ==> v(b, p)
  }

  /** Where no verifier is registered, satisfaction is inherited exactly by constraints that are not
      critical: attenuation may drop `critical`. */
  lemma SatisfactionPassesIff(verifiers: ConstraintVerifiers, c: Constraint)
    requires c.name !in verifiers
    ensures SatisfactionPasses(verifiers, c) <==> !c.critical
  {
    if c.critical {
      var optional := c.(critical := false);
      var p := Proposal("", "", "", "", map[]);
      AttenuatesReflexive(c);
      assert Attenuates(optional, c) && Satisfied(verifiers, optional, p) && !Satisfied(verifiers, c, p);
    }
  }

  /** Every constraint of the grant is implied by the one that `_constraint_map` keeps for its name.
      Distinct names are a special case. */
  ghost predicate Consistent(g: Grant) {
    var m := ConstraintMap(g.constraints);
    forall c :: c in g.constraints ==> c.name in m && Attenuates(m[c.name], c)
  }

  ghost predicate DistinctNames(g: Grant) {
    forall i, j :: 0 <= i < j < |g.constraints| ==> g.constraints[i].name != g.constraints[j].name
  }

  lemma DistinctNamesAreConsistent(g: Grant)
    requires DistinctNames(g)
    ensures Consistent(g)
  {
    hide Attenuates;
    ConstraintMapIs(g.constraints);
    var m := ConstraintMap(g.constraints);
    forall c | c in g.constraints ensures c.name in m && Attenuates(m[c.name], c) {
      assert m[c.name] == c;
      AttenuatesReflexive(c);
    }
  }

  /** Registered verifiers are monotone, and what has no verifier is not critical. */
  ghost predicate Covered(verifiers: ConstraintVerifiers, g: Grant) {
    forall c :: c in g.constraints ==>
      if c.name in verifiers then MonotoneOn(verifiers[c.name], c.name) else !c.critical
  }

  /** Covered, and where a verifier looks at a name that is repeated, the constraint that is kept implies the
      others. */
  ghost predicate Guarded(verifiers: ConstraintVerifiers, g: Grant) {
    var m := ConstraintMap(g.constraints);
    && Covered(verifiers, g)
    && forall c :: c in g.constraints && c.name in verifiers ==> c.name in m && Attenuates(m[c.name], c)
  }

  lemma ConsistentIsGuarded(verifiers: ConstraintVerifiers, g: Grant)
    requires Consistent(g) && Covered(verifiers, g)
    ensures Guarded(verifiers, g)
  {
    hide Attenuates, ConstraintMap, MonotoneOn;
  }

  /** One link: what a contained grant permits, its parent grant permits. */
  lemma ContainmentPermits(verifiers: ConstraintVerifiers, child: Grant, parent: Grant, p: Proposal)
    requires GrantContained(child, parent) && Guarded(verifiers, parent)
    requires Permits(verifiers, child, p)
    ensures Permits(verifiers, parent, p)
  {
    hide Attenuates, ConstraintMap, ResourceMatches, ResourceContained, MonotoneOn;
    ResourceContainedExact(child.resource, parent.resource);
    assert ResourceMatches(parent.resource, p.resource);
    var mine, theirs := ConstraintMap(child.constraints), ConstraintMap(parent.constraints);
    ConstraintMapIs(child.constraints);
    ConstraintMapIs(parent.constraints);
    forall i | 0 <= i < |parent.constraints| ensures Satisfied(verifiers, parent.constraints[i], p) {
      var c := parent.constraints[i];
      assert c in parent.constraints;
      if c.name in verifiers {
        var kept := mine[c.name];
        AttenuatesTransitive(kept, theirs[c.name], c);
        assert Satisfied(verifiers, kept, p);
        Inherits(verifiers, kept, c, p);
      }
    }
  }

  lemma Inherits(verifiers: ConstraintVerifiers, a: Constraint, b: Constraint, p: Proposal)
    requires a.name == b.name && b.name in verifiers && MonotoneOn(verifiers[b.name], b.name)
    requires Attenuates(a, b) && Satisfied(verifiers, a, p)
    ensures Satisfied(verifiers, b, p)
  {
  }

  /** The containment check of `_grant_contained` is sound for a parent grant, whatever verifiers cover it. */
  ghost predicate ContainmentSound(parent: Grant) {
    forall verifiers: ConstraintVerifiers, child, p ::
      GrantContained(child, parent) && Covered(verifiers, parent) && Permits(verifiers, child, p) ==>
        Permits(verifiers, parent, p)
  }

  /** The verifier for a name that accepts exactly what the kept constraint attenuates to. */
  function WitnessVerifiers(kept: map<string, Constraint>): ConstraintVerifiers {
    map name | name in kept :: (c: Constraint, p: Proposal) => Attenuates(kept[name], c)
  }

  function KeptConstraints(m: map<string, Constraint>, constraints: seq<Constraint>): seq<Constraint>
    requires forall i :: 0 <= i < |constraints| ==> constraints[i].name in m
  {
    seq(|constraints|, i requires 0 <= i < |constraints| => m[constraints[i].name])
  }

  lemma {:induction false} KeptMap(m: map<string, Constraint>, constraints: seq<Constraint>)
    requires forall n :: n in m ==> m[n].name == n
    requires forall i :: 0 <= i < |constraints| ==> constraints[i].name in m
    ensures ConstraintMap(KeptConstraints(m, constraints)).Keys == ConstraintMap(constraints).Keys
    ensures forall n :: n in ConstraintMap(KeptConstraints(m, constraints)) ==>
      n in m && ConstraintMap(KeptConstraints(m, constraints))[n] == m[n]
  {
    if constraints != [] {
      var front := constraints[..|constraints| - 1];
      KeptMap(m, front);
      var kept := KeptConstraints(m, constraints);
      assert kept[..|kept| - 1] == KeptConstraints(m, front);
    }
  }

  /** Containment is sound for a parent grant exactly when the grant is consistent; a grant that
      repeats a name with an earlier, tighter constraint is the failing case. */
  lemma ContainmentSoundIff(parent: Grant)
    ensures ContainmentSound(parent) <==> Consistent(parent)
  {
    hide Attenuates, GrantContained, Covered, Permits, ConstraintMap, Guarded;
    if Consistent(parent) {
      forall verifiers: ConstraintVerifiers, child, p
        | GrantContained(child, parent) && Covered(verifiers, parent) && Permits(verifiers, child, p)
        ensures Permits(verifiers, parent, p)
      {
        ConsistentIsGuarded(verifiers, parent);
        ContainmentPermits(verifiers, child, parent, p);
      }
    } else {
      InconsistentEscapes(parent);
    }
  }

  lemma InconsistentEscapes(parent: Grant)
    requires !Consistent(parent)
    ensures !ContainmentSound(parent)
  {
    hide Attenuates, ConstraintMap, KeptConstraints, WitnessVerifiers;
    var m := ConstraintMap(parent.constraints);
    ConstraintMapIs(parent.constraints);
    var c :| c in parent.constraints && !Attenuates(m[c.name], c);
    var child := parent.(constraints := KeptConstraints(m, parent.constraints));
    var verifiers := WitnessVerifiers(m);
    var p := Proposal("", parent.action, parent.resource.uri, "", map[]);
    WitnessContained(parent, child, m);
    WitnessCovers(parent, m);
    WitnessPermits(parent, child, m, p);
    WitnessDecides(m, c, p);
    var i :| 0 <= i < |parent.constraints| && parent.constraints[i] == c;
    assert !Satisfied(verifiers, parent.constraints[i], p);
    assert GrantContained(child, parent) && Covered(verifiers, parent) && Permits(verifiers, child, p)
        && !Permits(verifiers, parent, p);
  }

  lemma WitnessDecides(m: map<string, Constraint>, c: Constraint, p: Proposal)
    requires c.name in m
    ensures Satisfied(WitnessVerifiers(m), c, p) == Attenuates(m[c.name], c)
  {
  }

  lemma WitnessContained(parent: Grant, child: Grant, m: map<string, Constraint>)
    requires m == ConstraintMap(parent.constraints)
    requires (forall n :: n in m ==> m[n].name == n) && (forall c :: c in parent.constraints ==> c.name in m)
    requires child == parent.(constraints := KeptConstraints(m, parent.constraints))
    ensures GrantContained(child, parent)
  {
    hide Attenuates, ConstraintMap, KeptConstraints;
    KeptMap(m, parent.constraints);
    PrefixReflexive(parent.resource.uri);
    forall n | n in m ensures Attenuates(m[n], m[n]) {
      AttenuatesReflexive(m[n]);
    }
  }

  lemma WitnessCovers(parent: Grant, m: map<string, Constraint>)
    requires forall c :: c in parent.constraints ==> c.name in m
    ensures Covered(WitnessVerifiers(m), parent)
  {
    hide Attenuates;
    forall c | c in parent.constraints
      ensures c.name in WitnessVerifiers(m) && MonotoneOn(WitnessVerifiers(m)[c.name], c.name)
    {
      forall a: Constraint, b: Constraint, p: Proposal | a.name == c.name && b.name == c.name && Attenuates(a, b) && WitnessVerifiers(m)[c.name](a, p)
        ensures WitnessVerifiers(m)[c.name](b, p)
      {
        AttenuatesTransitive(m[c.name], a, b);
      }
    }
  }

  lemma WitnessPermits(parent: Grant, child: Grant, m: map<string, Constraint>, p: Proposal)
    requires (forall n :: n in m ==> m[n].name == n) && (forall c :: c in parent.constraints ==> c.name in m)
    requires child == parent.(constraints := KeptConstraints(m, parent.constraints))
    requires p.action == parent.action && p.resource == parent.resource.uri
    ensures Permits(WitnessVerifiers(m), child, p)
  {
    hide Attenuates, WitnessVerifiers;
    PrefixReflexive(parent.resource.uri);
    forall i | 0 <= i < |child.constraints| ensures Satisfied(WitnessVerifiers(m), child.constraints[i], p) {
      var kept := child.constraints[i];
      AttenuatesReflexive(kept);
      WitnessDecides(m, kept, p);
    }
  }

  // ------------------------------------------ what some delegation would permit

  /** Action and resource match, and every kept constraint that has a verifier can be attenuated so that the
      verifier accepts. */
  ghost predicate AttenuationAllows(verifiers: ConstraintVerifiers, g: Grant, p: Proposal) {
    && g.action == p.action && ResourceMatches(g.resource, p.resource)
    && var m := ConstraintMap(g.constraints);
       forall name :: name in m && name in verifiers ==> SomeAttenuation(verifiers, m[name], name, p)
  }

  ghost predicate SomeAttenuation(verifiers: ConstraintVerifiers, c: Constraint, name: string, p: Proposal)
    requires name in verifiers
  {
    exists a: Constraint :: a.name == name && Attenuates(a, c) && verifiers[name](a, p)
  }

  /** For any table of verifiers: what the grants contained in a grant permit between them. */
  lemma SomeChildPermitsIff(verifiers: ConstraintVerifiers, g: Grant, p: Proposal)
    ensures (exists child :: GrantContained(child, g) && Permits(verifiers, child, p)) <==> AttenuationAllows(verifiers, g, p)
  {
    hide Attenuates, ConstraintMap, ResourceMatches, Permits, GrantContained, SomeAttenuation;
    if child :| GrantContained(child, g) && Permits(verifiers, child, p) {
      ChildPermitsWithin(verifiers, child, g, p);
    }
    if AttenuationAllows(verifiers, g, p) {
      var child := WeakestChild(verifiers, g, p);
    }
  }

  lemma ChildPermitsWithin(verifiers: ConstraintVerifiers, child: Grant, g: Grant, p: Proposal)
    requires GrantContained(child, g) && Permits(verifiers, child, p)
    ensures AttenuationAllows(verifiers, g, p)
  {
    hide Attenuates, ConstraintMap, ResourceMatches, ResourceContained;
    ResourceContainedExact(child.resource, g.resource);
    assert ResourceMatches(g.resource, p.resource);
    var mine, theirs := ConstraintMap(child.constraints), ConstraintMap(g.constraints);
    ConstraintMapIs(child.constraints);
    forall name | name in theirs && name in verifiers ensures SomeAttenuation(verifiers, theirs[name], name, p) {
      var kept := mine[name];
      var i :| 0 <= i < |child.constraints| && child.constraints[i] == kept;
      assert Satisfied(verifiers, child.constraints[i], p);
      assert kept.name == name && Attenuates(kept, theirs[name]) && verifiers[name](kept, p);
    }
  }

  /** The kept constraint where no verifier looks, with `critical` dropped; an accepted attenuation elsewhere. */
  ghost function Weakened(verifiers: ConstraintVerifiers, c: Constraint, name: string, p: Proposal): (a: Constraint)
    requires c.name == name && (name in verifiers ==> SomeAttenuation(verifiers, c, name, p))
    ensures a.name == name && Attenuates(a, c) && Satisfied(verifiers, a, p)
  {
    AttenuatesReflexive(c);
    if name in verifiers
    then var a: Constraint :| a.name == name && Attenuates(a, c) && verifiers[name](a, p); a
    else c.(critical := false)
  }

  lemma WeakestChild(verifiers: ConstraintVerifiers, g: Grant, p: Proposal) returns (child: Grant)
    requires AttenuationAllows(verifiers, g, p)
    ensures GrantContained(child, g) && Permits(verifiers, child, p)
    ensures child.action == g.action && child.resource == g.resource
  {
    hide Attenuates, ConstraintMap, ResourceMatches, KeptConstraints, Satisfied, Weakened, SomeAttenuation;
    var m := ConstraintMap(g.constraints);
    ConstraintMapIs(g.constraints);
    var w := map name | name in m :: Weakened(verifiers, m[name], name, p);
    forall i | 0 <= i < |g.constraints| ensures g.constraints[i].name in w {
      assert g.constraints[i] in g.constraints;
    }
    child := g.(constraints := KeptConstraints(w, g.constraints));
    KeptMap(w, g.constraints);
    KeptAre(w, g.constraints);
    SameResourceContained(g.resource);
    assert GrantContained(child, g);
  }

  lemma KeptAre(w: map<string, Constraint>, constraints: seq<Constraint>)
    requires forall i :: 0 <= i < |constraints| ==> constraints[i].name in w
    ensures var kept := KeptConstraints(w, constraints);
      |kept| == |constraints| && forall i :: 0 <= i < |kept| ==> kept[i] == w[constraints[i].name]
  {
  }

  lemma SameResourceContained(r: ResourceRule)
    ensures ResourceContained(r, r)
  {
    PrefixReflexive(r.uri);
  }

  /** Every registered verifier is monotone. */
  ghost predicate MonotoneTable(verifiers: ConstraintVerifiers) {
    forall name :: name in verifiers ==> MonotoneOn(verifiers[name], name)
  }

  /** With monotone verifiers it comes down to asking them about the kept constraints. */
  lemma MonotoneAllowsIff(verifiers: ConstraintVerifiers, g: Grant, p: Proposal)
    requires MonotoneTable(verifiers)
    ensures AttenuationAllows(verifiers, g, p) <==> KeptHold(verifiers, g, p)
  {
    hide Attenuates, ConstraintMap, ResourceMatches;
    var m := ConstraintMap(g.constraints);
    ConstraintMapIs(g.constraints);
    forall name | name in m && name in verifiers
      ensures SomeAttenuation(verifiers, m[name], name, p) <==> verifiers[name](m[name], p)
    {
      AttenuatesReflexive(m[name]);
      assert MonotoneOn(verifiers[name], name);
    }
  }

  predicate KeptHold(verifiers: ConstraintVerifiers, g: Grant, p: Proposal) {
    && g.action == p.action && ResourceMatches(g.resource, p.resource)
    && var m := ConstraintMap(g.constraints);
       forall name :: name in m && name in verifiers ==> verifiers[name](m[name], p)
  }

  /** For a fixed monotone table: some contained grant permits what its parent refuses exactly when the
      kept constraints hold and yet a constraint of the parent fails, be it critical without a verifier or
      shadowed by a later one of its name. */
  lemma EscapesIff(verifiers: ConstraintVerifiers, g: Grant, p: Proposal)
    requires MonotoneTable(verifiers)
    ensures (exists child :: GrantContained(child, g) && Permits(verifiers, child, p) && !Permits(verifiers, g, p)) <==>
      KeptHold(verifiers, g, p) && exists c :: c in g.constraints && !Satisfied(verifiers, c, p)
  {
    hide Attenuates, ConstraintMap, ResourceMatches, GrantContained, KeptHold, AttenuationAllows, Satisfied, MonotoneTable;
    SomeChildPermitsIff(verifiers, g, p);
    MonotoneAllowsIff(verifiers, g, p);
    if KeptHold(verifiers, g, p) {
      KeptMatch(verifiers, g, p);
    }
    if c :| c in g.constraints && !Satisfied(verifiers, c, p) {
      var i :| 0 <= i < |g.constraints| && g.constraints[i] == c;
      assert !Permits(verifiers, g, p);
    }
  }

  lemma KeptMatch(verifiers: ConstraintVerifiers, g: Grant, p: Proposal)
    requires KeptHold(verifiers, g, p)
    ensures g.action == p.action && ResourceMatches(g.resource, p.resource)
  {
  }

  // ------------------------------------------------------------------ chains

  /** Consecutive capsules are linked by accepted delegations, and no id repeats. */
  ghost predicate Chain(hash: Capsule -> string, capsules: seq<Capsule>) {
    && |capsules| >= 1
    && (forall i :: 0 <= i < |capsules| - 1 ==> Link(hash, capsules[i], capsules[i + 1]))
    && (forall i, j :: 0 <= i < j < |capsules| ==> capsules[i].capsuleId != capsules[j].capsuleId)
  }

  /** The grants of every capsule above the leaf are guarded. */
  ghost predicate Disciplined(verifiers: ConstraintVerifiers, capsules: seq<Capsule>) {
    forall i, g :: 0 <= i < |capsules| - 1 && g in capsules[i].authority ==> Guarded(verifiers, g)
  }

  /** Without any verifier, discipline means that nothing above the leaf is critical. */
  lemma DisciplinedWithoutVerifiers(capsules: seq<Capsule>)
    ensures Disciplined(map[], capsules) <==>
      forall i, g: Grant, c: Constraint :: 0 <= i < |capsules| - 1 && g in capsules[i].authority && c in g.constraints ==> !c.critical
  {
    if Disciplined(map[], capsules) {
      forall i, g: Grant, c: Constraint | 0 <= i < |capsules| - 1 && g in capsules[i].authority && c in g.constraints ensures !c.critical {
        assert Guarded(map[], g);
      }
    }
  }

  lemma LinkPermits(hash: Capsule -> string, verifiers: ConstraintVerifiers, parent: Capsule, child: Capsule, p: Proposal)
    requires Link(hash, parent, child) && CapsulePermits(verifiers, child, p)
    requires forall g :: g in parent.authority ==> Guarded(verifiers, g)
    ensures CapsulePermits(verifiers, parent, p)
  {
    hide GrantContained, Guarded, Permits, BudgetsWithin;
    var i :| 0 <= i < |child.authority| && Permits(verifiers, child.authority[i], p);
    var j :| 0 <= j < |parent.authority| && GrantContained(child.authority[i], parent.authority[j]);
    ContainmentPermits(verifiers, child.authority[i], parent.authority[j], p);
  }

  /** Whatever the leaf of a chain permits, every capsule above it permits, the first one included. */
  lemma {:induction false} ChainPermits(hash: Capsule -> string, verifiers: ConstraintVerifiers, capsules: seq<Capsule>,
                                        p: Proposal, k: nat)
    requires Chain(hash, capsules) && Disciplined(verifiers, capsules) && k < |capsules|
    requires CapsulePermits(verifiers, capsules[|capsules| - 1], p)
    ensures CapsulePermits(verifiers, capsules[k], p)
    decreases |capsules| - k
  {
    hide Link, CapsulePermits, Guarded;
    if k < |capsules| - 1 {
      ChainPermits(hash, verifiers, capsules, p, k + 1);
      LinkPermits(hash, verifiers, capsules[k], capsules[k + 1], p);
    }
  }

  /** Some grant of the capsule matches in action and resource and can be attenuated to accept. */
  ghost predicate CapsuleAllows(verifiers: ConstraintVerifiers, c: Capsule, p: Proposal) {
    exists i :: 0 <= i < |c.authority| && AttenuationAllows(verifiers, c.authority[i], p)
  }

  lemma {:induction false} ContainedAbove(hash: Capsule -> string, capsules: seq<Capsule>, k: nat, g: Grant) returns (top: Grant)
    requires Chain(hash, capsules) && k < |capsules| && g in capsules[|capsules| - 1].authority
    ensures top in capsules[k].authority && (top == g || GrantContained(g, top))
    decreases |capsules| - k
  {
    hide GrantContained, BudgetsWithin;
    if k == |capsules| - 1 {
      top := g;
    } else {
      var next := ContainedAbove(hash, capsules, k + 1, g);
      assert Link(hash, capsules[k], capsules[k + 1]);
      var i :| 0 <= i < |capsules[k + 1].authority| && capsules[k + 1].authority[i] == next;
      var j :| 0 <= j < |capsules[k].authority| && GrantContained(capsules[k + 1].authority[i], capsules[k].authority[j]);
      top := capsules[k].authority[j];
      if next != g {
        GrantContainedTransitive(g, next, top);
      }
    }
  }

  /** Without any discipline: what the leaf permits is within some grant of every capsule above it, up to
      constraints that no verifier looks at. */
  lemma ChainAllows(hash: Capsule -> string, verifiers: ConstraintVerifiers, capsules: seq<Capsule>, p: Proposal, k: nat)
    requires Chain(hash, capsules) && k < |capsules| && CapsulePermits(verifiers, capsules[|capsules| - 1], p)
    ensures CapsuleAllows(verifiers, capsules[k], p)
  {
    hide Chain, GrantContained, Permits, AttenuationAllows;
    var leaf := capsules[|capsules| - 1];
    var i :| 0 <= i < |leaf.authority| && Permits(verifiers, leaf.authority[i], p);
    var top := ContainedAbove(hash, capsules, k, leaf.authority[i]);
    if top == leaf.authority[i] {
      GrantContainsItself(top);
    }
    ChildPermitsWithin(verifiers, leaf.authority[i], top, p);
    var j :| 0 <= j < |capsules[k].authority| && capsules[k].authority[j] == top;
  }

  lemma GrantContainsItself(g: Grant)
    ensures GrantContained(g, g)
  {
    hide Attenuates, ConstraintMap;
    SameResourceContained(g.resource);
    var m := ConstraintMap(g.constraints);
    forall n | n in m ensures Attenuates(m[n], m[n]) {
      AttenuatesReflexive(m[n]);
    }
  }

  /** The capsule may be delegated at all: depth is left, and mandatory obligations of one id agree. */
  ghost predicate Delegable(c: Capsule) {
    && c.delegationDepth > 0
    && forall a, b :: a in c.obligations && b in c.obligations && a.mandatory && b.mandatory && a.obligationId == b.obligationId ==>
         SameObligation(a, b)
  }

  function Mandatory(obligations: seq<Obligation>): seq<Obligation> {
    if obligations == [] then []
    else Mandatory(obligations[..|obligations| - 1]) +
         (if obligations[|obligations| - 1].mandatory then [obligations[|obligations| - 1]] else [])
  }

  lemma {:induction false} MandatoryAre(obligations: seq<Obligation>, o: Obligation)
    ensures o in Mandatory(obligations) <==> o in obligations && o.mandatory
  {
    if obligations != [] {
      MandatoryAre(obligations[..|obligations| - 1], o);
      assert obligations == obligations[..|obligations| - 1] + [obligations[|obligations| - 1]];
    }
  }

  lemma {:induction false} ObligationMapHas(obligations: seq<Obligation>, o: Obligation)
    requires o in obligations
    ensures o.obligationId in ObligationMap(obligations)
    ensures ObligationMap(obligations)[o.obligationId].obligationId == o.obligationId
    ensures ObligationMap(obligations)[o.obligationId] in obligations
  {
    if obligations != [] {
      var front := obligations[..|obligations| - 1];
      assert obligations == front + [obligations[|obligations| - 1]];
      if o in front {
        ObligationMapHas(front, o);
      }
    }
  }

  lemma MandatoryHandedOn(c: Capsule, o: Obligation)
    requires Delegable(c) && o in c.obligations && o.mandatory
    ensures var m := ObligationMap(Mandatory(c.obligations));
      o.obligationId in m && SameObligation(m[o.obligationId], o)
  {
    hide SameObligation;
    MandatoryAre(c.obligations, o);
    ObligationMapHas(Mandatory(c.obligations), o);
    MandatoryAre(c.obligations, ObligationMap(Mandatory(c.obligations))[o.obligationId]);
  }

  lemma AgreesWhenDelegated(parent: Capsule, child: Capsule, a: Obligation, b: Obligation)
    requires CheckObligations(parent.obligations, ObligationMap(child.obligations)).Ok?
    requires a in parent.obligations && b in parent.obligations && a.mandatory && b.mandatory && a.obligationId == b.obligationId
    ensures SameObligation(a, b)
  {
    CheckedObligations(parent.obligations, ObligationMap(child.obligations));
  }

  /** What a single accepted delegation of this capsule can bring about, exactly. */
  lemma OneLinkIff(hash: Capsule -> string, verifiers: ConstraintVerifiers, root: Capsule, p: Proposal)
    ensures (exists child :: ValidateDelegation(hash, root, child, []).Ok? && CapsulePermits(verifiers, child, p)) <==>
      Delegable(root) && CapsuleAllows(verifiers, root, p)
  {
    hide ValidateDelegation, CapsulePermits, CapsuleAllows, Delegable;
    if child :| ValidateDelegation(hash, root, child, []).Ok? && CapsulePermits(verifiers, child, p) {
      ChildWithin(hash, verifiers, root, child, p);
    }
    if Delegable(root) && CapsuleAllows(verifiers, root, p) {
      var child := SomeDelegation(hash, verifiers, root, p);
    }
  }

  lemma ChildWithin(hash: Capsule -> string, verifiers: ConstraintVerifiers, root: Capsule, child: Capsule, p: Proposal)
    requires ValidateDelegation(hash, root, child, []).Ok? && CapsulePermits(verifiers, child, p)
    ensures Delegable(root) && CapsuleAllows(verifiers, root, p)
  {
    hide GrantContained, Permits, AttenuationAllows, CheckBudgets, CheckObligations, SameObligation, ObligationMap, BudgetMap;
    var i :| 0 <= i < |child.authority| && Permits(verifiers, child.authority[i], p);
    var j :| 0 <= j < |root.authority| && GrantContained(child.authority[i], root.authority[j]);
    ChildPermitsWithin(verifiers, child.authority[i], root.authority[j], p);
    forall a, b | a in root.obligations && b in root.obligations && a.mandatory && b.mandatory && a.obligationId == b.obligationId
      ensures SameObligation(a, b)
    {
      AgreesWhenDelegated(root, child, a, b);
    }
  }

  lemma SomeDelegation(hash: Capsule -> string, verifiers: ConstraintVerifiers, root: Capsule, p: Proposal) returns (child: Capsule)
    requires Delegable(root) && CapsuleAllows(verifiers, root, p)
    ensures ValidateDelegation(hash, root, child, []).Ok? && CapsulePermits(verifiers, child, p)
  {
    hide GrantContained, Permits, AttenuationAllows, SameObligation, ObligationMap, BudgetMap, ValidateDelegation, BudgetsWithin;
    var i :| 0 <= i < |root.authority| && AttenuationAllows(verifiers, root.authority[i], p);
    var grant := WeakestChild(verifiers, root.authority[i], p);
    child := root.(kind := Derived, capsuleId := root.capsuleId + "/", parent := Some(CapsuleRef(root.capsuleId, root.taskId, hash(root))),
                   authority := [grant], obligations := Mandatory(root.obligations), delegationDepth := 0);
    assert |child.capsuleId| != |root.capsuleId|;
    assert child.authority[0] == grant;
    assert AuthorityContained(child, root);
    forall o | o in root.obligations && o.mandatory
      ensures o.obligationId in ObligationMap(child.obligations) && SameObligation(ObligationMap(child.obligations)[o.obligationId], o)
    {
      MandatoryHandedOn(root, o);
    }
    BudgetsWithinItself(BudgetMap(root.budgets));
    ValidateDelegationIff(hash, root, child, []);
  }

  lemma BudgetsWithinItself(m: map<string, BudgetItem>)
    ensures BudgetsWithin(m, m)
  {
  }

  /** A critical limit that no verifier knows: the capsule that carries it permits nothing, and yet there is an
      accepted child of it that permits any payment of its grant, by not calling the limit critical. */
  lemma DroppedCriticalEscapes(hash: Capsule -> string, root: Capsule, p: Proposal) returns (child: Capsule)
    requires root.delegationDepth == 1 && root.obligations == []
    requires root.authority == [Grant("g", "pay", Prefix("vendor/"), [Constraint("limit", DecimalLte("10.00"), true)])]
    requires p.action == "pay" && StartsWith(p.resource, "vendor/")
    ensures Chain(hash, [root, child]) && ValidateDelegation(hash, root, child, []).Ok?
    ensures CapsulePermits(map[], child, p) && !CapsulePermits(map[], root, p)
  {
    hide ValidateDelegation, Link, AttenuationAllows;
    assert AttenuationAllows(map[], root.authority[0], p) by {
      NothingVerified(root.authority[0], p);
    }
    child := SomeDelegation(hash, map[], root, p);
    ValidatedIsLink(hash, root, child, []);
    assert !Satisfied(map[], root.authority[0].constraints[0], p);
  }

  lemma NothingVerified(g: Grant, p: Proposal)
    ensures AttenuationAllows(map[], g, p) <==> g.action == p.action && ResourceMatches(g.resource, p.resource)
  {
    hide ConstraintMap;
  }

  lemma SameKind(a: Obligation, b: Obligation)
    requires SameObligation(a, b)
    ensures a.mandatory == b.mandatory && a.point == b.point
  {
  }

  lemma SameAsItself(o: Obligation)
    ensures SameObligation(o, o)
  {
  }

  lemma SameObligationTransitive(a: Obligation, b: Obligation, c: Obligation)
    requires SameObligation(a, b) && SameObligation(b, c)
    ensures SameObligation(a, c)
  {
  }

  /** The leaf carries every mandatory obligation of any capsule of its chain. */
  lemma {:induction false} ChainObligations(hash: Capsule -> string, capsules: seq<Capsule>, k: nat, o: Obligation)
    requires Chain(hash, capsules) && k < |capsules| && o in capsules[k].obligations && o.mandatory
    ensures Carries(capsules[|capsules| - 1].obligations, o)
    decreases |capsules| - k
  {
    hide AuthorityContained, BudgetsWithin, SameObligation;
    if k < |capsules| - 1 {
      assert Link(hash, capsules[k], capsules[k + 1]);
      var next, leaf := capsules[k + 1].obligations, capsules[|capsules| - 1].obligations;
      var i :| 0 <= i < |next| && SameObligation(next[i], o);
      SameKind(next[i], o);
      ChainObligations(hash, capsules, k + 1, next[i]);
      var j :| 0 <= j < |leaf| && SameObligation(leaf[j], next[i]);
      SameObligationTransitive(leaf[j], next[i], o);
    } else {
      var i :| 0 <= i < |capsules[k].obligations| && capsules[k].obligations[i] == o;
      SameAsItself(o);
    }
  }

  ghost predicate CanonicalBodies(obligations: seq<Obligation>) {
    forall o :: o in obligations ==> Accepted(o.body)
  }

  /** Among capsules, which are canonical, an obligation is handed on unchanged in every case exactly when
      its body holds no boolean and neither 0 nor 1. */
  lemma ObligationUnchangedIff(o: Obligation)
    requires Accepted(o.body)
    ensures (forall mine: seq<Obligation> :: CanonicalBodies(mine) && Carries(mine, o) ==> o in mine) <==> Bitless(o.body)
  {
    hide PythonEqual, Bitless, Accepted;
    if Bitless(o.body) {
      forall mine: seq<Obligation> | CanonicalBodies(mine) && Carries(mine, o) ensures o in mine {
        var i :| 0 <= i < |mine| && SameObligation(mine[i], o);
        PythonEqualSymmetric(mine[i].body, o.body);
        EqualIsSame(o.body, mine[i].body);
        assert mine[i] == o;
      }
    } else {
      var w := BitTwin(o.body);
      var twin := o.(body := w);
      PythonEqualSymmetric(o.body, w);
      assert SameObligation([twin][0], o);
      assert CanonicalBodies([twin]) && Carries([twin], o) && o !in [twin];
    }
  }

  /** Attenuation from the first capsule to the k-th: depth counts the links, validity windows nest,
      budgets shrink, and the workflow stays the same. */
  lemma {:induction false} ChainAttenuates(hash: Capsule -> string, capsules: seq<Capsule>, k: nat)
    requires Chain(hash, capsules) && k < |capsules|
    ensures capsules[k].delegationDepth + k <= capsules[0].delegationDepth
    ensures capsules[0].notBefore <= capsules[k].notBefore && capsules[k].expiresAt <= capsules[0].expiresAt
    ensures k > 0 ==> BudgetsWithin(BudgetMap(capsules[k].budgets), BudgetMap(capsules[0].budgets))
    ensures capsules[k].workflowId == capsules[0].workflowId
  {
    hide AuthorityContained, BudgetsWithin, BudgetMap;
    if k > 0 {
      ChainAttenuates(hash, capsules, k - 1);
      assert Link(hash, capsules[k - 1], capsules[k - 1 + 1]);
      if k > 1 {
        BudgetsWithinTransitive(BudgetMap(capsules[k].budgets), BudgetMap(capsules[k - 1].budgets), BudgetMap(capsules[0].budgets));
      }
    }
  }

  ghost predicate Backs(backing: BudgetItem, item: BudgetItem) {
    && backing.dimension == item.dimension && backing.unit == item.unit
    && DecimalOf(item.quantity) <= DecimalOf(backing.quantity)
  }

  /** With distinct dimensions, each budget line of the leaf is backed by a line of the first capsule
      in the same unit and at least as large. */
  lemma LeafBudgetBacked(hash: Capsule -> string, capsules: seq<Capsule>, item: BudgetItem)
    requires Chain(hash, capsules) && |capsules| > 1
    requires DistinctDimensions(capsules[|capsules| - 1].budgets) && item in capsules[|capsules| - 1].budgets
    ensures exists backing :: backing in capsules[0].budgets && Backs(backing, item)
  {
    hide DecimalOf, Link, BudgetMap;
    var leaf := capsules[|capsules| - 1];
    ChainAttenuates(hash, capsules, |capsules| - 1);
    BudgetMapIs(leaf.budgets);
    BudgetMapIs(capsules[0].budgets);
    var i :| 0 <= i < |leaf.budgets| && leaf.budgets[i] == item;
    var backing := BudgetMap(capsules[0].budgets)[item.dimension];
    assert backing in capsules[0].budgets && Backs(backing, item);
  }
}
