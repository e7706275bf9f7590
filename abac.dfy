/**
 * The access-request evaluator the retrieval nodes delegate to (py_abac's
 * `PDP(storage, EvaluationAlgorithm.ALLOW_OVERRIDES)`). The library itself is
 * not part of this model; this module states the semantics the policy data is
 * written against:
 *  - a policy's rules hold when every condition on `subject`, `resource` and
 *    `context` holds and at least one of its `action` alternatives holds;
 *  - a condition on an attribute the request lacks fails;
 *  - an empty rule map constrains nothing;
 *  - allow-overrides: the request is allowed iff some policy with effect
 *    `allow` matches it; otherwise (no match, or only `deny` matches) it is denied.
 * Attribute paths `$.name` are written as the bare attribute name.
 */
module Abac {
  import opened Values

  datatype Condition =
    | Equals(value: string)
    | IsIn(values: seq<string>)
    | AnyIn(values: seq<string>)

  type RuleSet = map<string, Condition>

  datatype Rules = Rules(subject: RuleSet, resource: RuleSet, action: seq<RuleSet>, context: RuleSet)

  datatype Effect = Allow | Deny

  datatype Policy = Policy(uid: string, description: string, effect: Effect, rules: Rules, priority: int)

  datatype AccessRequest = AccessRequest(subject: Attrs, resource: Attrs, action: Attrs, context: Attrs)

  /** A decision point over one policy list, evaluated with allow-overrides. */
  datatype Pdp = Pdp(policies: seq<Policy>)

  /** The action every retrieval request carries: `{"method": "read"}`. */
  const READ: Attrs := map["method" := Str("read")]

  /** The `action` rule every policy in the system uses. */
  const READ_ACTION: seq<RuleSet> := [map["method" := Equals("read")]]

  /** The request a node or document check builds: `read` with an empty context. */
  function ReadRequest(subject: Attrs, resource: Attrs): AccessRequest {
    AccessRequest(subject, resource, READ, map[])
  }

  predicate Satisfied(c: Condition, v: Value) {
    match c
    case Equals(x) => v == Str(x)
    case IsIn(xs) => v.Str? && v.s in xs
    case AnyIn(xs) => v.Strs? && exists a :: a in v.items && a in xs
  }

  /** Every condition of `rs` holds on an attribute present in `attrs`. */
  predicate RuleSetMatches(rs: RuleSet, attrs: Attrs) {
    forall key :: key in rs ==> key in attrs && Satisfied(rs[key], attrs[key])
  }

  /** The action rules are alternatives: one of them must match. */
  predicate AnyRuleSetMatches(alternatives: seq<RuleSet>, attrs: Attrs) {
    exists i :: 0 <= i < |alternatives| && RuleSetMatches(alternatives[i], attrs)
  }

  predicate Matches(p: Policy, req: AccessRequest) {
    && RuleSetMatches(p.rules.subject, req.subject)
    && RuleSetMatches(p.rules.resource, req.resource)
    && AnyRuleSetMatches(p.rules.action, req.action)
    && RuleSetMatches(p.rules.context, req.context)
  }

  predicate Grants(p: Policy, req: AccessRequest) {
    p.effect == Allow && Matches(p, req)
  }

  /** Allow-overrides, evaluated by walking the policy list. */
  function AllowOverrides(ps: seq<Policy>, req: AccessRequest): bool {
    if ps == [] then false
    else Grants(ps[0], req) || AllowOverrides(ps[1..], req)
  }

  /** `pdp.is_allowed(request)` */
  function IsAllowed(pdp: Pdp, req: AccessRequest): bool {
    AllowOverrides(pdp.policies, req)
  }

  /** The walk decides exactly "some allow policy matches" (default deny). */
  lemma {:induction false} AllowOverridesSpec(ps: seq<Policy>, req: AccessRequest)
    ensures AllowOverrides(ps, req) <==> exists i :: 0 <= i < |ps| && Grants(ps[i], req)
  {
    if ps != [] {
      AllowOverridesSpec(ps[1..], req);
      if AllowOverrides(ps[1..], req) {
        var i :| 0 <= i < |ps[1..]| && Grants(ps[1..][i], req);
        assert Grants(ps[i + 1], req);
      }
      if exists i :: 0 <= i < |ps| && Grants(ps[i], req) {
        var i :| 0 <= i < |ps| && Grants(ps[i], req);
        if i > 0 { assert Grants(ps[1..][i - 1], req); }
      }
    }
  }

  /** The decision does not depend on the order the storage hands policies out in. */
  lemma AllowOverridesOrderIndependent(ps: seq<Policy>, qs: seq<Policy>, req: AccessRequest)
    requires multiset(ps) == multiset(qs)
    ensures AllowOverrides(ps, req) == AllowOverrides(qs, req)
  {
    AllowOverridesSpec(ps, req);
    AllowOverridesSpec(qs, req);
    if exists i :: 0 <= i < |ps| && Grants(ps[i], req) {
      var i :| 0 <= i < |ps| && Grants(ps[i], req);
      assert ps[i] in multiset(qs);
      var j :| 0 <= j < |qs| && qs[j] == ps[i];
      assert Grants(qs[j], req);
    }
    if exists j :: 0 <= j < |qs| && Grants(qs[j], req) {
      var j :| 0 <= j < |qs| && Grants(qs[j], req);
      assert qs[j] in multiset(ps);
      var i :| 0 <= i < |ps| && ps[i] == qs[j];
      assert Grants(ps[i], req);
    }
  }

  /** A policy list without an allow policy denies every request. */
  lemma DefaultDeny(ps: seq<Policy>, req: AccessRequest)
    requires forall i :: 0 <= i < |ps| ==> ps[i].effect == Deny
    ensures !AllowOverrides(ps, req)
  {
    AllowOverridesSpec(ps, req);
  }

  /** Adding a policy never revokes an allow, and an allow policy that matches decides alone. */
  lemma AllowOverridesAppend(ps: seq<Policy>, qs: seq<Policy>, req: AccessRequest)
    ensures AllowOverrides(ps + qs, req) == (AllowOverrides(ps, req) || AllowOverrides(qs, req))
  {
    AllowOverridesSpec(ps, req);
    AllowOverridesSpec(qs, req);
    AllowOverridesSpec(ps + qs, req);
    if exists i :: 0 <= i < |ps + qs| && Grants((ps + qs)[i], req) {
      var i :| 0 <= i < |ps + qs| && Grants((ps + qs)[i], req);
      if i < |ps| { assert Grants(ps[i], req); } else { assert Grants(qs[i - |ps|], req); }
    }
    if exists i :: 0 <= i < |ps| && Grants(ps[i], req) {
      var i :| 0 <= i < |ps| && Grants(ps[i], req);
      assert Grants((ps + qs)[i], req);
    }
    if exists i :: 0 <= i < |qs| && Grants(qs[i], req) {
      var i :| 0 <= i < |qs| && Grants(qs[i], req);
      assert Grants((ps + qs)[|ps| + i], req);
    }
  }

  /** `attrs'` carries every attribute of `attrs` with the same value. */
  predicate Extends(attrs': Attrs, attrs: Attrs) {
    forall key :: key in attrs ==> key in attrs' && attrs'[key] == attrs[key]
  }

  /**
   * Conditions only test attributes that are present, so a subject with more
   * attributes (same values) is allowed wherever the smaller one is.
   */
  lemma {:induction false} MoreSubjectAttributesNeverRevoke(ps: seq<Policy>, subject: Attrs, subject': Attrs, resource: Attrs)
    requires Extends(subject', subject)
    requires AllowOverrides(ps, ReadRequest(subject, resource))
    ensures AllowOverrides(ps, ReadRequest(subject', resource))
  {
    AllowOverridesSpec(ps, ReadRequest(subject, resource));
    AllowOverridesSpec(ps, ReadRequest(subject', resource));
    var i :| 0 <= i < |ps| && Grants(ps[i], ReadRequest(subject, resource));
    assert Grants(ps[i], ReadRequest(subject', resource));
  }

  // ---------------------------------------------------------------------------
  // The shape every policy of the system has

  /** An `allow` policy for `read` with the given subject and resource rules, no context rule, priority 0. */
  function ReadPolicy(uid: string, description: string, subject: RuleSet, resource: RuleSet): Policy {
    Policy(uid, description, Allow, Rules(subject, resource, READ_ACTION, map[]), 0)
  }

  /** The attribute is the string `v`. */
  predicate Is(attrs: Attrs, key: string, v: string) {
    key in attrs && attrs[key] == Str(v)
  }

  /** The attribute is one of the strings `vs`. */
  predicate IsOneOf(attrs: Attrs, key: string, vs: seq<string>) {
    key in attrs && attrs[key].Str? && attrs[key].s in vs
  }

  /** The attribute is a list sharing an element with `vs`. */
  predicate HasAnyOf(attrs: Attrs, key: string, vs: seq<string>) {
    key in attrs && attrs[key].Strs? && exists a :: a in attrs[key].items && a in vs
  }

  /** A policy of the `ReadPolicy` shape. */
  predicate IsReadPolicy(p: Policy) {
    p.effect == Allow && p.rules.action == READ_ACTION && p.rules.context == map[]
  }

  /** The rules of a read policy held by a read request. */
  predicate ReadRulesHold(p: Policy, s: Attrs, r: Attrs) {
    RuleSetMatches(p.rules.subject, s) && RuleSetMatches(p.rules.resource, r)
  }

  /** Allow-overrides over one to three read policies, spelled out. */
  lemma AllowedSmall(ps: seq<Policy>, s: Attrs, r: Attrs)
    requires 1 <= |ps| <= 3
    requires forall i :: 0 <= i < |ps| ==> IsReadPolicy(ps[i])
    ensures AllowOverrides(ps, ReadRequest(s, r)) <==>
      ReadRulesHold(ps[0], s, r) || (|ps| >= 2 && ReadRulesHold(ps[1], s, r)) || (|ps| == 3 && ReadRulesHold(ps[2], s, r))
  {
    AllowOverridesSpec(ps, ReadRequest(s, r));
    assert RuleSetMatches(READ_ACTION[0], READ);
  }

  lemma MatchesOne(k1: string, c1: Condition, a: Attrs)
    ensures RuleSetMatches(map[k1 := c1], a) <==> k1 in a && Satisfied(c1, a[k1])
  {
    if k1 in a && Satisfied(c1, a[k1]) {
      forall key | key in map[k1 := c1] ensures key in a && Satisfied(map[k1 := c1][key], a[key]) {
        assert key == k1;
      }
    }
  }

  lemma MatchesTwo(k1: string, c1: Condition, k2: string, c2: Condition, a: Attrs)
    requires k1 != k2
    ensures RuleSetMatches(map[k1 := c1, k2 := c2], a) <==>
      k1 in a && Satisfied(c1, a[k1]) && k2 in a && Satisfied(c2, a[k2])
  {
    var m := map[k1 := c1, k2 := c2];
    assert k1 in m && m[k1] == c1 && k2 in m && m[k2] == c2;
  }

  lemma MatchesThree(k1: string, c1: Condition, k2: string, c2: Condition, k3: string, c3: Condition, a: Attrs)
    requires k1 != k2 && k1 != k3 && k2 != k3
    ensures RuleSetMatches(map[k1 := c1, k2 := c2, k3 := c3], a) <==>
      k1 in a && Satisfied(c1, a[k1]) && k2 in a && Satisfied(c2, a[k2]) && k3 in a && Satisfied(c3, a[k3])
  {
    var m := map[k1 := c1, k2 := c2, k3 := c3];
    assert k1 in m && m[k1] == c1 && k2 in m && m[k2] == c2 && k3 in m && m[k3] == c3;
  }
}
