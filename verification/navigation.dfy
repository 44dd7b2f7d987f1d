/** The navigation bar: hidden without a user, the user's initials, the five
    fixed entries and the active-link rule. */
module Navigation {
  import opened Wrappers
  import opened Records
  import opened Text

  // ---------------------------------------------------------------------------
  // Initials

  /** `s.split(" ")`: the pieces between single spaces; consecutive, leading or
      trailing spaces give empty pieces, and there is always at least one piece. */
  function Split(s: string): (r: seq<string>)
    ensures |r| >= 1
    ensures forall k :: 0 <= k < |r| ==> ' ' !in r[k]
  {
    if |s| == 0 then [""]
    else
      var rest := Split(s[1..]);
      if s[0] == ' ' then [""] + rest
      else [[s[0]] + rest[0]] + rest[1..]
  }

  /** `parts.join(" ")`. */
  function Join(parts: seq<string>): string
    requires |parts| >= 1
  {
    if |parts| == 1 then parts[0] else parts[0] + " " + Join(parts[1..])
  }

  /** Splitting on spaces loses nothing: joining the pieces back gives the name. */
  lemma {:induction false} JoinSplit(s: string)
    ensures Join(Split(s)) == s
  {
    if |s| > 0 {
      JoinSplit(s[1..]);
      var rest := Split(s[1..]);
      if s[0] == ' ' {
        assert ([""] + rest)[1..] == rest;
        assert s == "" + " " + s[1..];
      } else {
        var r := [[s[0]] + rest[0]] + rest[1..];
        if |rest| == 1 {
          assert s == [s[0]] + s[1..];
        } else {
          assert r[1..] == rest[1..];
          assert Join(rest) == rest[0] + " " + Join(rest[1..]);
          assert s == [s[0]] + s[1..];
        }
      }
    }
  }

  /** `parts.map(n => n[0]).join("")`: the first character of each piece; an
      empty piece gives `undefined`, which `join` writes as nothing. */
  function Heads(parts: seq<string>): string {
    if |parts| == 0 then "" else FirstChar(parts[0]) + Heads(parts[1..])
  }

  /** Reference definition: the characters that begin a word, i.e. non-space
      characters at the start or right after a space. `afterSpace` says whether
      the character before `s` was a space (or there was none). */
  function WordStarts(s: string, afterSpace: bool): (r: string)
    ensures |r| <= |s|
    ensures ' ' !in r
  {
    if |s| == 0 then ""
    else (if s[0] != ' ' && afterSpace then [s[0]] else "") + WordStarts(s[1..], s[0] == ' ')
  }

  /** The split-map-join pipeline picks exactly the word-starting characters. */
  lemma {:induction false} HeadsOfSplit(s: string)
    ensures Heads(Split(s)) == WordStarts(s, true)
    ensures Heads(Split(s)[1..]) == WordStarts(s, false)
  {
    if |s| == 0 {
    } else {
      HeadsOfSplit(s[1..]);
      var rest := Split(s[1..]);
      if s[0] == ' ' {
        assert ([""] + rest)[1..] == rest;
      } else {
        var r := [[s[0]] + rest[0]] + rest[1..];
        assert r[1..] == rest[1..];
        assert FirstChar(r[0]) == [s[0]];
      }
    }
  }

  /** `userInitials`: with a truthy full name, the upper-cased word initials;
      otherwise the upper-cased first character of the email, or "U". */
  function Initials(fullName: Option<string>, email: Option<string>): (r: string)
    ensures TruthyOpt(fullName) ==> r == Upper(WordStarts(fullName.value, true))
    ensures !TruthyOpt(fullName) && TruthyOpt(email) ==> r == [UpperChar(email.value[0])]
    ensures !TruthyOpt(fullName) && !TruthyOpt(email) ==> r == "U"
  {
    if TruthyOpt(fullName) then
      HeadsOfSplit(fullName.value);
      Upper(Heads(Split(fullName.value)))
    else if TruthyOpt(email) then
      Upper(FirstChar(email.value))
    else
      "U"
  }

  /** A full name of spaces only is truthy yet has no initials, so the avatar is empty. */
  lemma BlankNameHasNoInitials(email: Option<string>)
    ensures Initials(Some("  "), email) == ""
  {
  }

  /** "ab  c" gives "AC": the double space adds nothing. */
  lemma InitialsExample()
    ensures Initials(Some("ab  c"), None) == "AC"
  {
    assert "ab  c"[1..] == "b  c" && "b  c"[1..] == "  c" && "  c"[1..] == " c" && " c"[1..] == "c";
    assert WordStarts("c", true) == "c";
    assert WordStarts(" c", true) == "c";
    assert WordStarts("  c", false) == "c";
    assert WordStarts("b  c", false) == "c";
    assert WordStarts("ab  c", true) == "ac";
    assert Upper("ac") == "AC";
  }

  // ---------------------------------------------------------------------------
  // Links

  /** One navigation entry. */
  datatype Entry = Entry(name: string, href: string)

  const Entries: seq<Entry> := [
    Entry("Dashboard", "/"),
    Entry("POS", "/pos"),
    Entry("Inventory", "/inventory"),
    Entry("Users", "/users"),
    Entry("Orders", "/orders")]

  /** A link is highlighted iff the path equals its href exactly. */
  function IsActive(pathname: string, e: Entry): bool {
    pathname == e.href
  }

  /** The rendered bar: the initials and, for each entry, whether it is highlighted. */
  datatype Bar = Bar(initials: string, active: seq<bool>)

  function Render(user: Option<AuthUser>, profile: Option<UserProfile>, pathname: string): (r: Option<Bar>)
    ensures r.Some? <==> user.Some?
    ensures r.Some? ==> r.value.initials == Initials(if profile.Some? then profile.value.fullName else None, user.value.email)
    ensures r.Some? ==> |r.value.active| == |Entries|
    ensures r.Some? ==> forall k :: 0 <= k < |Entries| ==> (r.value.active[k] <==> pathname == Entries[k].href)
  {
    match user
    case None => None
    case Some(u) =>
      var fullName := if profile.Some? then profile.value.fullName else None;
      Some(Bar(Initials(fullName, u.email), seq(|Entries|, k requires 0 <= k < |Entries| => IsActive(pathname, Entries[k]))))
  }

  /** The hrefs are distinct, so at most one link is highlighted; a nested path such
      as "/pos/x" highlights none. */
  lemma AtMostOneActive(pathname: string, j: int, k: int)
    requires 0 <= j < |Entries| && 0 <= k < |Entries|
    requires IsActive(pathname, Entries[j]) && IsActive(pathname, Entries[k])
    ensures j == k
  {
  }
}
