/**
 * The profile store's getters over the signed-in user's profile held by the
 * auth store: the pass-through values, the first name and the initials.
 * Case mapping is ASCII only.
 */
module Profile {
  import opened Wrappers
  import opened Strings

  /** The `profiles` columns the getters read. */
  datatype UserProfile = UserProfile(full_name: Option<string>, role: Option<string>)

  /** What the auth store exposes: whether a user is signed in and that user's profile. */
  datatype AuthView = AuthView(isAuthenticated: bool, userProfile: Option<UserProfile>)

  /** `isAuthenticated`: the auth store's flag, passed through. */
  function IsAuthenticated(auth: AuthView): (r: bool)
    ensures r <==> auth.isAuthenticated
  {
    auth.isAuthenticated
  }

  function ProfileOf(auth: AuthView): Option<UserProfile> {
    auth.userProfile
  }

  /** `userRole`: the profile's role, undefined without a profile or role. */
  function Role(auth: AuthView): (r: Option<string>)
    ensures r.Some? <==> auth.userProfile.Some? && auth.userProfile.value.role.Some?
    ensures r.Some? ==> r == auth.userProfile.value.role
  {
    if auth.userProfile.Some? then auth.userProfile.value.role else None
  }

  /** `fullName`: `userProfile?.full_name`, undefined without a profile or name. */
  function FullName(auth: AuthView): (r: Option<string>)
    ensures r.Some? <==> auth.userProfile.Some? && auth.userProfile.value.full_name.Some?
    ensures r.Some? ==> r == auth.userProfile.value.full_name
  {
    if auth.userProfile.Some? then auth.userProfile.value.full_name else None
  }

  /** `firstName`: the text before the first space of the full name, or the whole name. */
  function FirstName(auth: AuthView): (r: Option<string>)
    ensures r.None? <==> FullName(auth).None?
    ensures r.Some? ==> ' ' !in r.value
    ensures r.Some? ==> var n := FullName(auth).value;
      r.value == n || (|r.value| < |n| && n[..|r.value|] == r.value && n[|r.value|] == ' ')
  {
    match FullName(auth)
    case None => None
    case Some(n) =>
      FirstPiece(n, ' ');
      Some(Split(n, ' ')[0])
  }

  /** The runtime error of reading `toUpperCase` of `name[0]` when a segment is empty. */
  const EmptySegmentError := "Cannot read properties of undefined (reading 'toUpperCase')"

  predicate NoEmptySegment(parts: seq<string>) {
    forall k :: 0 <= k < |parts| ==> parts[k] != ""
  }

  /** The upper-cased first letter of every segment, in order. */
  function FirstLetters(parts: seq<string>): (r: string)
    requires NoEmptySegment(parts)
    ensures |r| == |parts|
    ensures forall k :: 0 <= k < |parts| ==> r[k] == UpperChar(parts[k][0])
  {
    if parts == [] then [] else [UpperChar(parts[0][0])] + FirstLetters(parts[1..])
  }

  /**
   * `initials`: the first letters of the space-separated segments, upper-cased; ''
   * without a name; an error as soon as one segment is empty (an empty name, a
   * leading, trailing or doubled space).
   */
  function Initials(auth: AuthView): (r: Result<string>)
    ensures FullName(auth).None? ==> r == Ok("")
    ensures FullName(auth).Some? ==>
      (r.Err? <==> !NoEmptySegment(Split(FullName(auth).value, ' ')))
    ensures r.Err? ==> r.error == EmptySegmentError
  {
    match FullName(auth)
    case None => Ok("")
    case Some(n) =>
      var parts := Split(n, ' ');
      if NoEmptySegment(parts) then Ok(FirstLetters(parts)) else Err(EmptySegmentError)
  }

  /** There is one initial per segment: one more than the name has spaces. */
  lemma InitialsLength(auth: AuthView)
    requires FullName(auth).Some? && Initials(auth).Ok?
    ensures |Initials(auth).value| == Count(FullName(auth).value, ' ') + 1
  {
    SplitLength(FullName(auth).value, ' ');
  }

  /** The first initial is the first name's first letter, upper-cased. */
  lemma InitialsStartWithFirstName(auth: AuthView)
    requires FullName(auth).Some? && Initials(auth).Ok?
    ensures |FirstName(auth).value| >= 1
    ensures Initials(auth).value[0] == UpperChar(FirstName(auth).value[0])
  {
  }

  /** Upper-casing the initials again changes nothing. */
  lemma InitialsAreUpperCase(auth: AuthView)
    requires Initials(auth).Ok?
    ensures Upper(Initials(auth).value) == Initials(auth).value
  {
    var r := Initials(auth).value;
    if FullName(auth).Some? {
      var parts := Split(FullName(auth).value, ' ');
      forall k | 0 <= k < |r|
        ensures UpperChar(r[k]) == r[k]
      {
        assert r[k] == UpperChar(parts[k][0]);
      }
    }
  }

  /** An empty name has one empty segment, so `initials` throws. */
  lemma EmptyNameThrows(auth: AuthView)
    requires FullName(auth) == Some("")
    ensures Initials(auth).Err?
  {
    assert Split("", ' ')[0] == "";
  }

  /** A name with two spaces in a row makes `initials` throw. */
  lemma DoubledSpaceThrows(auth: AuthView, a: string, b: string)
    requires ' ' !in a && ' ' !in b
    requires FullName(auth) == Some(a + "  " + b)
    ensures Initials(auth).Err?
  {
    var n := a + "  " + b;
    assert Join([a, "", b], ' ') == a + [' '] + Join(["", b], ' ');
    assert Join(["", b], ' ') == [' '] + Join([b], ' ');
    assert n == Join([a, "", b], ' ');
    SplitJoin([a, "", b], ' ');
    assert Split(n, ' ')[1] == "";
  }
}
