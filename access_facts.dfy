/**
 * Which department leaves each evaluated user can search. A department leaf
 * is reached when the hospital's org router gate and the leaf's own gate both
 * allow the user; a router is guarded by `{"org": H}` and a leaf by
 * `{"org": H, "dept_id": dept}` (hospital C's wiring, used for A and B too).
 * Each hospital's reach is first restated as a table over the user's
 * attributes, then evaluated for every user of the evaluation.
 */
module AccessFacts {
  import opened Values
  import opened Abac
  import E = Evaluation
  import HA = HospitalAPolicy
  import HB = HospitalBPolicy
  import CP = HospitalCPolicy

  function OrgNode(org: string): Attrs {
    map["org" := Str(org)]
  }

  function DeptNode(org: string, dept: string): Attrs {
    map["org" := Str(org), "dept_id" := Str(dept)]
  }

  predicate ReachesA(u: Attrs, dept: string) {
    && dept in HA.DEPT_GATE_POLICIES
    && HA.Allowed(HA.ORG_POLICIES, u, OrgNode("A"))
    && HA.Allowed(HA.DEPT_GATE_POLICIES[dept], u, DeptNode("A", dept))
  }

  predicate ReachesB(u: Attrs, dept: string) {
    && dept in HB.DEPT_GATE_POLICIES
    && HB.Allowed(HB.ORG_POLICIES, u, OrgNode("B"))
    && HB.Allowed(HB.DEPT_GATE_POLICIES[dept], u, DeptNode("B", dept))
  }

  predicate ReachesC(u: Attrs, dept: string) {
    && dept in CP.DEPT_GATE_POLICIES
    && CP.Allowed(CP.ORG_POLICIES, u, OrgNode("C"))
    && CP.Allowed(CP.DEPT_GATE_POLICIES[dept], u, DeptNode("C", dept))
  }

  // ---------------------------------------------------------------------------
  // Each hospital as an attribute table

  predicate IsPhysOrNurse(u: Attrs, org: string) {
    Is(u, "org", org) && IsOneOf(u, "role", ["physician", "nurse"])
  }

  predicate IsPhys(u: Attrs, org: string) {
    Is(u, "org", org) && Is(u, "role", "physician")
  }

  /** Hospital A: A and B staff pass the router; then per department. */
  predicate ATable(u: Attrs, dept: string) {
    IsOneOf(u, "org", ["A", "B"]) &&
    if dept == "admissions" then
      (Is(u, "org", "A") && IsOneOf(u, "role", ["physician", "nurse", "admin"])) || IsPhysOrNurse(u, "B")
    else if dept == "medicine" || dept == "surgery" then
      IsPhysOrNurse(u, "A") || IsPhys(u, "B")
    else if dept == "orthopaedics" then
      IsPhysOrNurse(u, "A") || IsPhys(u, "B")
      || (Is(u, "org", "A") && Is(u, "role", "technician") && Is(u, "dept", "radiology"))
    else if dept == "psychiatry" then
      (Is(u, "org", "A") && IsOneOf(u, "role", ["physician", "nurse", "psychologist"])) || IsPhys(u, "B")
      || (Is(u, "org", "A") && Is(u, "role", "technician") && Is(u, "dept", "psychiatry"))
    else false
  }

  /** Hospital B: A and B staff pass the router; then per department. */
  predicate BTable(u: Attrs, dept: string) {
    IsOneOf(u, "org", ["A", "B"]) &&
    if dept == "admissions" then
      (Is(u, "org", "B") && IsOneOf(u, "role", ["physician", "nurse", "admin"])) || IsPhysOrNurse(u, "A")
    else if dept == "medicine" || dept == "cardiology" then
      IsOneOf(u, "org", ["A", "B"]) && IsOneOf(u, "role", ["physician", "nurse"])
    else false
  }

  /** Hospital C: A and C staff pass the router; both departments share one gate. */
  predicate CTable(u: Attrs, dept: string) {
    && IsOneOf(u, "org", ["A", "C"])
    && (dept == "admissions" || dept == "neurology")
    && ((Is(u, "org", "C") && IsOneOf(u, "role", ["physician", "nurse", "technician", "researcher"]))
        || (IsPhys(u, "A") && HasAnyOf(u, "affiliations", ["C_neuro"])))
  }

  lemma ReachesAIff(u: Attrs, dept: string)
    ensures ReachesA(u, dept) <==> ATable(u, dept)
  {
    var r := DeptNode("A", dept);
    HA.OrgGate(u, OrgNode("A"));
    if dept == "admissions" {
      HA.AdmissionsGate(u, r);
    } else if dept == "medicine" {
      HA.MedicineGate(u, r);
    } else if dept == "orthopaedics" {
      HA.OrthopaedicsGate(u, r);
    } else if dept == "psychiatry" {
      HA.PsychiatryGate(u, r);
    } else if dept == "surgery" {
      HA.SurgeryGate(u, r);
    }
  }

  lemma ReachesBIff(u: Attrs, dept: string)
    ensures ReachesB(u, dept) <==> BTable(u, dept)
  {
    var r := DeptNode("B", dept);
    HB.OrgGate(u, OrgNode("B"));
    HB.AdmissionsGate(u, r);
    HB.MedicineGate(u, r);
    HB.CardiologyGate(u, r);
  }

  lemma ReachesCIff(u: Attrs, dept: string)
    ensures ReachesC(u, dept) <==> CTable(u, dept)
  {
    CP.OrgGate(u, OrgNode("C"));
    CP.DeptGate(u, DeptNode("C", dept));
  }

  // ---------------------------------------------------------------------------
  // The evaluated users

  const A_DEPTS: set<string> := {"admissions", "medicine", "psychiatry", "orthopaedics", "surgery"}
  const B_DEPTS: set<string> := {"admissions", "medicine", "cardiology"}
  const C_DEPTS: set<string> := {"admissions", "neurology"}

  /** The departments of each hospital the user reaches, exactly. */
  ghost predicate ReachIs(u: Attrs, a: set<string>, b: set<string>, c: set<string>) {
    && (forall dept :: ReachesA(u, dept) <==> dept in a)
    && (forall dept :: ReachesB(u, dept) <==> dept in b)
    && (forall dept :: ReachesC(u, dept) <==> dept in c)
  }

  /** Evaluates the three tables for one user against the expected departments. */
  lemma ReachFromTables(u: Attrs, a: set<string>, b: set<string>, c: set<string>)
    requires forall dept :: ATable(u, dept) <==> dept in a
    requires forall dept :: BTable(u, dept) <==> dept in b
    requires forall dept :: CTable(u, dept) <==> dept in c
    ensures ReachIs(u, a, b, c)
  {
    forall dept ensures ReachesA(u, dept) <==> dept in a { ReachesAIff(u, dept); }
    forall dept ensures ReachesB(u, dept) <==> dept in b { ReachesBIff(u, dept); }
    forall dept ensures ReachesC(u, dept) <==> dept in c { ReachesCIff(u, dept); }
  }

  /** A.phys: all of A and B, none of C. */
  lemma APhysReach()
    ensures ReachIs(E.USERINFOS[0], A_DEPTS, B_DEPTS, {})
  {
    ReachFromTables(E.USERINFOS[0], A_DEPTS, B_DEPTS, {});
  }

  /** A.phys.neur: all of A, B and C (the "C_neuro" affiliation opens C). */
  lemma APhysNeurReach()
    ensures ReachIs(E.USERINFOS[1], A_DEPTS, B_DEPTS, C_DEPTS)
  {
    var u := E.USERINFOS[1];
    assert "C_neuro" in u["affiliations"].items;
    ReachFromTables(u, A_DEPTS, B_DEPTS, C_DEPTS);
  }

  /** A.tech.rad: A's orthopaedics only; C's org gate lets it in, but no C leaf does. */
  lemma ATechRadReach()
    ensures ReachIs(E.USERINFOS[2], {"orthopaedics"}, {}, {})
    ensures CP.Allowed(CP.ORG_POLICIES, E.USERINFOS[2], OrgNode("C"))
  {
    ReachFromTables(E.USERINFOS[2], {"orthopaedics"}, {}, {});
    CP.OrgGate(E.USERINFOS[2], OrgNode("C"));
  }

  /** A.admin: A's admissions only. */
  lemma AAdminReach()
    ensures ReachIs(E.USERINFOS[3], {"admissions"}, {}, {})
  {
    ReachFromTables(E.USERINFOS[3], {"admissions"}, {}, {});
  }

  /** A.nurse: all of A and B, none of C. */
  lemma ANurseReach()
    ensures ReachIs(E.USERINFOS[4], A_DEPTS, B_DEPTS, {})
  {
    ReachFromTables(E.USERINFOS[4], A_DEPTS, B_DEPTS, {});
  }

  /** B.phys: all of A and B, none of C. */
  lemma BPhysReach()
    ensures ReachIs(E.USERINFOS[5], A_DEPTS, B_DEPTS, {})
  {
    ReachFromTables(E.USERINFOS[5], A_DEPTS, B_DEPTS, {});
  }

  /** B.nurse: all of B, and also A's admissions. */
  lemma BNurseReach()
    ensures ReachIs(E.USERINFOS[6], {"admissions"}, B_DEPTS, {})
  {
    ReachFromTables(E.USERINFOS[6], {"admissions"}, B_DEPTS, {});
  }

  /** C.research: all of C, nothing of A or B. */
  lemma CResearchReach()
    ensures ReachIs(E.USERINFOS[7], {}, {}, C_DEPTS)
  {
    ReachFromTables(E.USERINFOS[7], {}, {}, C_DEPTS);
  }
}
