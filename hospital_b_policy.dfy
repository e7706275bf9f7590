/**
 * Hospital B's access policies, as data: the org router's gate, one gate list
 * per department leaf, and the document policies (allow-all everywhere).
 */
module HospitalBPolicy {
  import opened Values
  import opened Abac

  /** The policy every document check uses: anybody may read anything. */
  const ALLOW_ALL: seq<Policy> := [ReadPolicy("1", "Everybody can access all records", map[], map[])]

  /** The org router's gate. */
  const ORG_POLICIES: seq<Policy> := [
    ReadPolicy("1", "Only requesters part of hospital A and hospital B can access hospital B records",
               map["org" := IsIn(["A", "B"])], map[])
  ]

  function DeptIs(dept: string): RuleSet {
    map["dept_id" := Equals(dept)]
  }

  const ADMISSIONS_POLICIES: seq<Policy> := [
    ReadPolicy("1", "Physicians, nurses, and administrative staff at hospital B can access admissions records",
               map["org" := Equals("B"), "role" := IsIn(["physician", "nurse", "admin"])], DeptIs("admissions")),
    ReadPolicy("2", "Physicians and nurses at hospital A can access admissions records",
               map["org" := Equals("A"), "role" := IsIn(["physician", "nurse"])], DeptIs("admissions"))
  ]

  const CARDIOLOGY_POLICIES: seq<Policy> := [
    ReadPolicy("1", "Physicians and nurses at hospitals A and B can access cardiology records",
               map["org" := IsIn(["A", "B"]), "role" := IsIn(["physician", "nurse"])], DeptIs("cardiology"))
  ]

  const MEDICINE_POLICIES: seq<Policy> := [
    ReadPolicy("1", "Physicians and nurses at hospital A and B can access medicine records",
               map["org" := IsIn(["A", "B"]), "role" := IsIn(["physician", "nurse"])], DeptIs("medicine"))
  ]

  /** The gate list of each department leaf. */
  const DEPT_GATE_POLICIES: map<string, seq<Policy>> := map[
    "admissions" := ADMISSIONS_POLICIES,
    "medicine" := MEDICINE_POLICIES,
    "cardiology" := CARDIOLOGY_POLICIES
  ]

  /** The document policies of each department leaf. */
  const DEPT_POLICIES: map<string, seq<Policy>> := map[
    "admissions" := ALLOW_ALL,
    "medicine" := ALLOW_ALL,
    "cardiology" := ALLOW_ALL
  ]

  function Allowed(ps: seq<Policy>, s: Attrs, r: Attrs): bool {
    IsAllowed(Pdp(ps), ReadRequest(s, r))
  }

  // ---------------------------------------------------------------------------
  // What each list decides, for every subject and resource

  lemma AllowAllAllowsEveryRead(s: Attrs, r: Attrs)
    ensures Allowed(ALLOW_ALL, s, r)
  {
    AllowedSmall(ALLOW_ALL, s, r);
  }

  /** The org gate lets in exactly the subjects of hospitals A and B. */
  lemma OrgGate(s: Attrs, r: Attrs)
    ensures Allowed(ORG_POLICIES, s, r) <==> IsOneOf(s, "org", ["A", "B"])
  {
    AllowedSmall(ORG_POLICIES, s, r);
    MatchesOne("org", IsIn(["A", "B"]), s);
  }

  /** Admissions: B physicians, nurses and admins; A physicians and nurses. */
  lemma AdmissionsGate(s: Attrs, r: Attrs)
    ensures Allowed(ADMISSIONS_POLICIES, s, r) <==>
      Is(r, "dept_id", "admissions") &&
      ((Is(s, "org", "B") && IsOneOf(s, "role", ["physician", "nurse", "admin"]))
       || (Is(s, "org", "A") && IsOneOf(s, "role", ["physician", "nurse"])))
  {
    AllowedSmall(ADMISSIONS_POLICIES, s, r);
    MatchesTwo("org", Equals("B"), "role", IsIn(["physician", "nurse", "admin"]), s);
    MatchesTwo("org", Equals("A"), "role", IsIn(["physician", "nurse"]), s);
    MatchesOne("dept_id", Equals("admissions"), r);
  }

  /** Cardiology: physicians and nurses of A and B. */
  lemma CardiologyGate(s: Attrs, r: Attrs)
    ensures Allowed(CARDIOLOGY_POLICIES, s, r) <==>
      Is(r, "dept_id", "cardiology") && IsOneOf(s, "org", ["A", "B"]) && IsOneOf(s, "role", ["physician", "nurse"])
  {
    AllowedSmall(CARDIOLOGY_POLICIES, s, r);
    MatchesTwo("org", IsIn(["A", "B"]), "role", IsIn(["physician", "nurse"]), s);
    MatchesOne("dept_id", Equals("cardiology"), r);
  }

  /** Medicine: physicians and nurses of A and B. */
  lemma MedicineGate(s: Attrs, r: Attrs)
    ensures Allowed(MEDICINE_POLICIES, s, r) <==>
      Is(r, "dept_id", "medicine") && IsOneOf(s, "org", ["A", "B"]) && IsOneOf(s, "role", ["physician", "nurse"])
  {
    AllowedSmall(MEDICINE_POLICIES, s, r);
    MatchesTwo("org", IsIn(["A", "B"]), "role", IsIn(["physician", "nurse"]), s);
    MatchesOne("dept_id", Equals("medicine"), r);
  }

  /** Both maps cover the same three departments, and no document check drops anything. */
  lemma DeptMaps(dept: string, s: Attrs, r: Attrs)
    ensures DEPT_GATE_POLICIES.Keys == DEPT_POLICIES.Keys == {"admissions", "medicine", "cardiology"}
    ensures dept in DEPT_POLICIES ==> Allowed(DEPT_POLICIES[dept], s, r)
  {
    if dept in DEPT_POLICIES {
      AllowAllAllowsEveryRead(s, r);
    }
  }
}
