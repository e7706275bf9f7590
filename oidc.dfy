/**
 * The identity provider's claims for a user, following OpenID Connect Core
 * 1.0: the standard claims `sub` and `name` (section 5.1) always, and, when
 * the `profile` scope was granted (section 5.4), the custom attribute claims
 * `org`, `dept`, `role` and `affiliations` the access policies test.
 */
module Oidc {
  import opened Values
  import opened Abac
  import HA = HospitalAPolicy
  import HB = HospitalBPolicy
  import CP = HospitalCPolicy

  /** The stored user: an integer id and nullable string columns. */
  datatype User = User(id: int, username: Value, org: Value, dept: Value, role: Value, affiliations: Value)

  const PROFILE: string := "profile"

  /** `"profile" in scope`: a substring test on the space-separated scope string. */
  predicate HasProfileScope(scope: string) {
    Contains(scope, PROFILE)
  }

  /** `generate_user_info(user, scope)` */
  function GenerateUserInfo(user: User, scope: string): (claims: Attrs)
    ensures "sub" in claims && claims["sub"] == Str(IntToString(user.id))
    ensures "name" in claims && claims["name"] == user.username
    ensures HasProfileScope(scope) ==> claims.Keys == {"sub", "name", "org", "dept", "role", "affiliations"}
    ensures !HasProfileScope(scope) ==> claims.Keys == {"sub", "name"}
    ensures HasProfileScope(scope) ==>
      claims["org"] == user.org && claims["dept"] == user.dept
      && claims["role"] == user.role && claims["affiliations"] == user.affiliations
  {
    var userInfo := map["sub" := Str(IntToString(user.id)), "name" := user.username];
    if HasProfileScope(scope) then
      userInfo["org" := user.org]["dept" := user.dept]["role" := user.role]["affiliations" := user.affiliations]
    else userInfo
  }

  /** The usual scope strings: "openid profile" grants the profile claims, "openid" alone does not. */
  lemma ProfileScopes()
    ensures HasProfileScope("openid profile")
    ensures HasProfileScope("profile")
    ensures !HasProfileScope("openid")
  {
    assert OccursAt(PROFILE, "openid profile", 7);
    assert OccursAt(PROFILE, "profile", 0);
  }

  /**
   * Granting `profile` only adds claims, so a policy list that allows a
   * request made with the narrower claims allows it with the profile claims.
   */
  lemma ProfileNeverRevokes(ps: seq<Policy>, user: User, scope: string, scope': string, resource: Attrs)
    requires !HasProfileScope(scope) && HasProfileScope(scope')
    requires AllowOverrides(ps, ReadRequest(GenerateUserInfo(user, scope), resource))
    ensures AllowOverrides(ps, ReadRequest(GenerateUserInfo(user, scope'), resource))
  {
    MoreSubjectAttributesNeverRevoke(ps, GenerateUserInfo(user, scope), GenerateUserInfo(user, scope'), resource);
  }

  /**
   * Without `profile` the claims carry no `org`, which every hospital's org
   * gate tests, so each of the three org gates denies, whatever the node.
   */
  lemma NoProfileNoOrg(user: User, scope: string, node: Attrs)
    requires !HasProfileScope(scope)
    ensures "org" !in GenerateUserInfo(user, scope)
    ensures !IsOneOf(GenerateUserInfo(user, scope), "org", ["A", "B"])
    ensures !IsOneOf(GenerateUserInfo(user, scope), "org", ["A", "C"])
    ensures !HA.Allowed(HA.ORG_POLICIES, GenerateUserInfo(user, scope), node)
    ensures !HB.Allowed(HB.ORG_POLICIES, GenerateUserInfo(user, scope), node)
    ensures !CP.Allowed(CP.ORG_POLICIES, GenerateUserInfo(user, scope), node)
  {
    var claims := GenerateUserInfo(user, scope);
    HA.OrgGate(claims, node);
    HB.OrgGate(claims, node);
    CP.OrgGate(claims, node);
  }
}
