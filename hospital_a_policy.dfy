/**
 * Hospital A's access policies, as data: the org router's gate, one gate list
 * per department leaf, and the document policies (allow-all everywhere).
 */
module HospitalAPolicy {
  import opened Values
  import opened Abac

  /** The policy every document check uses: anybody may read anything. */
  const ALLOW_ALL: seq<Policy> := [ReadPolicy("1", "Everybody can access all records", map[], map[])]

  /** The org router's gate. */
  const ORG_POLICIES: seq<Policy> := [
    ReadPolicy("1", "Only requesters part of hospital A and hospital B can access hospital A records",
               map["org" := IsIn(["A", "B"])], map[])
  ]

  function DeptIs(dept: string): RuleSet {
    map["dept_id" := Equals(dept)]
  }

  const ADMISSIONS_POLICIES: seq<Policy> := [
    ReadPolicy("1", "Physicians, nurses, and administrative staff at hospital A can access admissions records",
               map["org" := Equals("A"), "role" := IsIn(["physician", "nurse", "admin"])], DeptIs("admissions")),
    ReadPolicy("2", "Physicians and nurses at hospital B can access admissions records",
               map["org" := Equals("B"), "role" := IsIn(["physician", "nurse"])], DeptIs("admissions"))
  ]

  const MEDICINE_POLICIES: seq<Policy> := [
    ReadPolicy("1", "Physicians and nurses at hospital A can access medicine records",
               map["org" := Equals("A"), "role" := IsIn(["physician", "nurse"])], DeptIs("medicine")),
    ReadPolicy("2", "Physicians at hospital B can access medicine records",
               map["org" := Equals("B"), "role" := Equals("physician")], DeptIs("medicine"))
  ]

  const ORTHOPAEDICS_POLICIES: seq<Policy> := [
    ReadPolicy("1", "Physicians and nurses at hospital A can access orthopedics records",
               map["org" := Equals("A"), "role" := IsIn(["physician", "nurse"])], DeptIs("orthopaedics")),
    ReadPolicy("2", "Radiology technicians at hospital A can access orthopedics records",
               map["org" := Equals("A"), "role" := Equals("technician"), "dept" := Equals("radiology")], DeptIs("orthopaedics")),
    ReadPolicy("3", "Physicians at hospital B can access orthopedics records",
               map["org" := Equals("B"), "role" := Equals("physician")], DeptIs("orthopaedics"))
  ]

  const PSYCHIATRY_POLICIES: seq<Policy> := [
    ReadPolicy("1", "Physicians, nurses, and psychologists at hospital A can access psychiatry records",
               map["org" := Equals("A"), "role" := IsIn(["physician", "nurse", "psychologist"])], DeptIs("psychiatry")),
    ReadPolicy("2", "Psychiatric technicians at hospital A can access psychiatry records",
               map["org" := Equals("A"), "role" := Equals("technician"), "dept" := Equals("psychiatry")], DeptIs("psychiatry")),
    ReadPolicy("3", "Physicians at hospital B can access psychiatry records",
               map["org" := Equals("B"), "role" := Equals("physician")], DeptIs("psychiatry"))
  ]

  const SURGERY_POLICIES: seq<Policy> := [
    ReadPolicy("1", "Physicians and nurses at hospital A can access surgery records",
               map["org" := Equals("A"), "role" := IsIn(["physician", "nurse"])], DeptIs("surgery")),
    ReadPolicy("2", "Physicians at hospital B can access surgery records",
               map["org" := Equals("B"), "role" := Equals("physician")], DeptIs("surgery"))
  ]

  /** The gate list of each department leaf. */
  const DEPT_GATE_POLICIES: map<string, seq<Policy>> := map[
    "admissions" := ADMISSIONS_POLICIES,
    "medicine" := MEDICINE_POLICIES,
    "psychiatry" := PSYCHIATRY_POLICIES,
    "orthopaedics" := ORTHOPAEDICS_POLICIES,
    "surgery" := SURGERY_POLICIES
  ]

  /** The document policies of each department leaf. */
  const DEPT_POLICIES: map<string, seq<Policy>> := map[
    "admissions" := ALLOW_ALL,
    "medicine" := ALLOW_ALL,
    "psychiatry" := ALLOW_ALL,
    "orthopaedics" := ALLOW_ALL,
    "surgery" := ALLOW_ALL
  ]

  function Allowed(ps: seq<Policy>, s: Attrs, r: Attrs): bool {
    IsAllowed(Pdp(ps), ReadRequest(s, r))
  }

  // ---------------------------------------------------------------------------
  // What each list decides, for every subject and resource

  /** `ALLOW_ALL` allows every read. */
  lemma AllowAllAllowsEveryRead(s: Attrs, r: Attrs)
    ensures Allowed(ALLOW_ALL, s, r)
  {
    AllowedSmall(ALLOW_ALL, s, r);
  }

  /** The org gate lets in exactly the subjects of hospitals A and B. */
  lemma OrgGate(s: Attrs, r: Attrs)
    ensures Allowed(ORG_POLICIES, s, r) <==> IsOneOf(s, "org", ["A", "B"])
  {
    AllowedSmall(ORG_POLICIES, s, r);
    MatchesOne("org", IsIn(["A", "B"]), s);
  }

  lemma AdmissionsGate(s: Attrs, r: Attrs)
    ensures Allowed(ADMISSIONS_POLICIES, s, r) <==>
      Is(r, "dept_id", "admissions") &&
      ((Is(s, "org", "A") && IsOneOf(s, "role", ["physician", "nurse", "admin"]))
       || (Is(s, "org", "B") && IsOneOf(s, "role", ["physician", "nurse"])))
  {
    AllowedSmall(ADMISSIONS_POLICIES, s, r);
    MatchesTwo("org", Equals("A"), "role", IsIn(["physician", "nurse", "admin"]), s);
    MatchesTwo("org", Equals("B"), "role", IsIn(["physician", "nurse"]), s);
    MatchesOne("dept_id", Equals("admissions"), r);
  }

  lemma MedicineGate(s: Attrs, r: Attrs)
    ensures Allowed(MEDICINE_POLICIES, s, r) <==>
      Is(r, "dept_id", "medicine") &&
      ((Is(s, "org", "A") && IsOneOf(s, "role", ["physician", "nurse"]))
       || (Is(s, "org", "B") && Is(s, "role", "physician")))
  {
    AllowedSmall(MEDICINE_POLICIES, s, r);
    MatchesTwo("org", Equals("A"), "role", IsIn(["physician", "nurse"]), s);
    MatchesTwo("org", Equals("B"), "role", Equals("physician"), s);
    MatchesOne("dept_id", Equals("medicine"), r);
  }

  /** Orthopaedics: A physicians and nurses, A technicians of radiology, B physicians. */
  lemma OrthopaedicsGate(s: Attrs, r: Attrs)
    ensures Allowed(ORTHOPAEDICS_POLICIES, s, r) <==>
      Is(r, "dept_id", "orthopaedics") &&
      ((Is(s, "org", "A") && IsOneOf(s, "role", ["physician", "nurse"]))
       || (Is(s, "org", "A") && Is(s, "role", "technician") && Is(s, "dept", "radiology"))
       || (Is(s, "org", "B") && Is(s, "role", "physician")))
  {
    AllowedSmall(ORTHOPAEDICS_POLICIES, s, r);
    MatchesTwo("org", Equals("A"), "role", IsIn(["physician", "nurse"]), s);
    MatchesThree("org", Equals("A"), "role", Equals("technician"), "dept", Equals("radiology"), s);
    MatchesTwo("org", Equals("B"), "role", Equals("physician"), s);
    MatchesOne("dept_id", Equals("orthopaedics"), r);
  }

  /** Psychiatry: A physicians, nurses and psychologists, A technicians of psychiatry, B physicians. */
  lemma PsychiatryGate(s: Attrs, r: Attrs)
    ensures Allowed(PSYCHIATRY_POLICIES, s, r) <==>
      Is(r, "dept_id", "psychiatry") &&
      ((Is(s, "org", "A") && IsOneOf(s, "role", ["physician", "nurse", "psychologist"]))
       || (Is(s, "org", "A") && Is(s, "role", "technician") && Is(s, "dept", "psychiatry"))
       || (Is(s, "org", "B") && Is(s, "role", "physician")))
  {
    AllowedSmall(PSYCHIATRY_POLICIES, s, r);
    MatchesTwo("org", Equals("A"), "role", IsIn(["physician", "nurse", "psychologist"]), s);
    MatchesThree("org", Equals("A"), "role", Equals("technician"), "dept", Equals("psychiatry"), s);
    MatchesTwo("org", Equals("B"), "role", Equals("physician"), s);
    MatchesOne("dept_id", Equals("psychiatry"), r);
  }

  lemma SurgeryGate(s: Attrs, r: Attrs)
    ensures Allowed(SURGERY_POLICIES, s, r) <==>
      Is(r, "dept_id", "surgery") &&
      ((Is(s, "org", "A") && IsOneOf(s, "role", ["physician", "nurse"]))
       || (Is(s, "org", "B") && Is(s, "role", "physician")))
  {
    AllowedSmall(SURGERY_POLICIES, s, r);
    MatchesTwo("org", Equals("A"), "role", IsIn(["physician", "nurse"]), s);
    MatchesTwo("org", Equals("B"), "role", Equals("physician"), s);
    MatchesOne("dept_id", Equals("surgery"), r);
  }

  /** Both maps cover the same five departments, and no document check drops anything. */
  lemma DeptMaps(dept: string, s: Attrs, r: Attrs)
    ensures DEPT_GATE_POLICIES.Keys == DEPT_POLICIES.Keys
    ensures DEPT_POLICIES.Keys == {"admissions", "medicine", "psychiatry", "orthopaedics", "surgery"}
    ensures dept in DEPT_POLICIES ==> Allowed(DEPT_POLICIES[dept], s, r)
  {
    if dept in DEPT_POLICIES {
      AllowAllAllowsEveryRead(s, r);
    }
  }

  /** Each department's gate requires its own `dept_id`: put on another node, it denies everyone. */
  lemma GateRequiresOwnDept(dept: string, s: Attrs, r: Attrs)
    requires dept in DEPT_GATE_POLICIES && !Is(r, "dept_id", dept)
    ensures !Allowed(DEPT_GATE_POLICIES[dept], s, r)
  {
    AdmissionsGate(s, r);
    MedicineGate(s, r);
    OrthopaedicsGate(s, r);
    PsychiatryGate(s, r);
    SurgeryGate(s, r);
  }
}
