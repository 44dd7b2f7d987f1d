/** The user table: the null-safe name/role search, the role badge and the avatar letter. */
module UsersPage {
  import opened Wrappers
  import opened Records
  import opened Text
  import opened Ui
  import Listing

  /** `s?.toLowerCase().includes(t)`: a missing value matches nothing. */
  predicate OptContains(s: Option<string>, term: string) {
    s.Some? && Contains(Lower(s.value), Lower(term))
  }

  /** The search callback: a present full name or role contains the term, ignoring case. */
  predicate MatchesProfile(term: string, p: UserProfile) {
    OptContains(p.fullName, term) || OptContains(p.role, term)
  }

  function SearchProfiles(profiles: seq<UserProfile>, term: string): (r: seq<UserProfile>)
    ensures forall p :: p in r <==> p in profiles && MatchesProfile(term, p)
    ensures forall p :: p in r ==> p.fullName.Some? || p.role.Some?
  {
    Listing.Filter(profiles, (p: UserProfile) => MatchesProfile(term, p))
  }

  /** An empty term keeps exactly the profiles that have a full name or a role:
      one with neither is never listed. */
  lemma EmptyTermKeepsNamedOrRoled(profiles: seq<UserProfile>, p: UserProfile)
    ensures p in SearchProfiles(profiles, "") <==> p in profiles && (p.fullName.Some? || p.role.Some?)
  {
  }

  /** The role badge is `default` exactly for the role "admin". */
  function RoleBadge(role: Option<string>): (v: Variant)
    ensures v == Default <==> role == Some("admin")
    ensures v != Destructive
  {
    if role == Some("admin") then Default else Secondary
  }

  /** `full_name?.charAt(0).toUpperCase() || "U"`. */
  function AvatarLetter(fullName: Option<string>): (r: string)
    ensures |r| == 1
    ensures TruthyOpt(fullName) ==> r[0] == UpperChar(fullName.value[0])
    ensures !TruthyOpt(fullName) ==> r == "U"
  {
    if TruthyOpt(fullName) then Upper(FirstChar(fullName.value)) else "U"
  }
}
