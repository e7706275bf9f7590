/**
 * Hospital C's access policies, as data: the org router's gate, one gate list
 * shared by both department leaves, and the document policies (allow-all).
 */
module HospitalCPolicy {
  import opened Values
  import opened Abac

  /** The policy every document check uses: anybody may read anything. */
  const ALLOW_ALL: seq<Policy> := [ReadPolicy("1", "Everybody can access all records", map[], map[])]

  /** The org router's gate. */
  const ORG_POLICIES: seq<Policy> := [
    ReadPolicy("1", "Only requesters part of hospital A or C can access hospital C records",
               map["org" := IsIn(["A", "C"])], map[])
  ]

  /** C's own clinical staff and researchers, and A physicians affiliated with C's neurology. */
  const C_GATE_POLICY: seq<Policy> := [
    ReadPolicy("1", "Physicians, nurses, technicians, and researchers at hospital C can access records",
               map["org" := Equals("C"), "role" := IsIn(["physician", "nurse", "technician", "researcher"])], map[]),
    ReadPolicy("2", "Physicians at hospital A affiliated with C_neuro can access records",
               map["org" := Equals("A"), "role" := Equals("physician"), "affiliations" := AnyIn(["C_neuro"])], map[])
  ]

  /** The gate list of each department leaf. */
  const DEPT_GATE_POLICIES: map<string, seq<Policy>> := map[
    "admissions" := C_GATE_POLICY,
    "neurology" := C_GATE_POLICY
  ]

  /** The document policies of each department leaf. */
  const DEPT_POLICIES: map<string, seq<Policy>> := map[
    "admissions" := ALLOW_ALL,
    "neurology" := ALLOW_ALL
  ]

  function Allowed(ps: seq<Policy>, s: Attrs, r: Attrs): bool {
    IsAllowed(Pdp(ps), ReadRequest(s, r))
  }

  // ---------------------------------------------------------------------------
  // What each list decides, for every subject and resource

  lemma AllowAllAllowsEveryRead(s: Attrs, r: Attrs)
    ensures Allowed(ALLOW_ALL, s, r)
  {
    AllowedSmall(ALLOW_ALL, s, r);
  }

  /** The org gate lets in exactly the subjects of hospitals A and C: B is shut out. */
  lemma OrgGate(s: Attrs, r: Attrs)
    ensures Allowed(ORG_POLICIES, s, r) <==> IsOneOf(s, "org", ["A", "C"])
  {
    AllowedSmall(ORG_POLICIES, s, r);
    MatchesOne("org", IsIn(["A", "C"]), s);
  }

  /**
   * The department gate ignores the resource: C physicians, nurses,
   * technicians and researchers, or A physicians with "C_neuro" among their affiliations.
   */
  lemma DeptGate(s: Attrs, r: Attrs)
    ensures Allowed(C_GATE_POLICY, s, r) <==>
      (Is(s, "org", "C") && IsOneOf(s, "role", ["physician", "nurse", "technician", "researcher"]))
      || (Is(s, "org", "A") && Is(s, "role", "physician") && HasAnyOf(s, "affiliations", ["C_neuro"]))
  {
    AllowedSmall(C_GATE_POLICY, s, r);
    MatchesTwo("org", Equals("C"), "role", IsIn(["physician", "nurse", "technician", "researcher"]), s);
    MatchesThree("org", Equals("A"), "role", Equals("physician"), "affiliations", AnyIn(["C_neuro"]), s);
    assert RuleSetMatches(map[], r);
  }

  /** Both department gates decide alike, for every subject and whatever node they guard. */
  lemma DeptGatesAgree(s: Attrs, r: Attrs, r': Attrs)
    ensures DEPT_GATE_POLICIES.Keys == DEPT_POLICIES.Keys == {"admissions", "neurology"}
    ensures Allowed(DEPT_GATE_POLICIES["admissions"], s, r) == Allowed(DEPT_GATE_POLICIES["neurology"], s, r')
  {
    DeptGate(s, r);
    DeptGate(s, r');
  }

  /** No document check drops anything. */
  lemma DocumentChecksAllowAll(dept: string, s: Attrs, r: Attrs)
    requires dept in DEPT_POLICIES
    ensures Allowed(DEPT_POLICIES[dept], s, r)
  {
    AllowAllAllowsEveryRead(s, r);
  }
}
