/**
 * The name the dashboard greets the user by: the profile's name and
 * surname when either is set, else the session user's name, else the part
 * of the e-mail before the `@`, else a fixed word.
 */
module Greeting {
  import opened Wrappers
  import opened Text
  import opened Session

  const DefaultName: string := "Пользователь"

  /** The two fields of the loaded profile the greeting reads. */
  datatype UserProfile = UserProfile(name: Option<string>, surname: Option<string>)

  function ProfileName(profile: Option<UserProfile>): Option<string>
  {
    if profile.Some? then profile.value.name else None
  }

  function ProfileSurname(profile: Option<UserProfile>): Option<string>
  {
    if profile.Some? then profile.value.surname else None
  }

  /** `userProfile?.name || userProfile?.surname`: the test that selects the profile branch. */
  predicate ProfileNamed(profile: Option<UserProfile>)
  {
    Truthy(ProfileName(profile)) || Truthy(ProfileSurname(profile))
  }

  /** `user?.email?.split('@')[0]`, the empty string when there is no user. */
  function LocalPart(user: Option<User>): (r: string)
    ensures user.Some? ==> r == Before(user.value.email, '@') && StartsWith(user.value.email, r)
    ensures '@' !in r
  {
    if user.Some? then Split(user.value.email, '@')[0] else ""
  }

  /** The greeting name of `WelcomeSection`. */
  function GreetingName(profile: Option<UserProfile>, user: Option<User>): (g: string)
    ensures g == "" ==> ProfileNamed(profile)
    ensures ProfileNamed(profile) ==> g == [] || (!IsSpace(g[0]) && !IsSpace(g[|g| - 1]))
  {
    if ProfileNamed(profile) then
      Trim(ProfileName(profile).GetOr("") + " " + ProfileSurname(profile).GetOr(""))
    else if user.Some? && Truthy(user.value.name) then user.value.name.value
    else if LocalPart(user) != "" then LocalPart(user)
    else DefaultName
  }

  /** A string with no white space at either end. */
  predicate Trimmed(s: string)
  {
    s != [] && !IsSpace(s[0]) && !IsSpace(s[|s| - 1])
  }

  lemma {:induction false} TrimTrailingSpace(x: string)
    requires Trimmed(x)
    ensures Trim(x + " ") == x
  {
    var s := x + " ";
    assert TrimStart(s) == s;
    assert s[..|s| - 1] == x;
    assert TrimEnd(s) == TrimEnd(x);
    TrimOfTrimmed(x);
    assert TrimStart(x) == x;
  }

  /** Name and surname are joined by one space, both present. */
  lemma FullNameGreeting(name: string, surname: string, user: Option<User>)
    requires Trimmed(name) && Trimmed(surname)
    ensures GreetingName(Some(UserProfile(Some(name), Some(surname))), user) == name + " " + surname
  {
    TrimOfTrimmed(name + " " + surname);
  }

  /** A name without a surname greets by the name alone, without the trailing space. */
  lemma NameOnlyGreeting(name: string, user: Option<User>)
    requires Trimmed(name)
    ensures GreetingName(Some(UserProfile(Some(name), None)), user) == name
  {
    assert name + " " + "" == name + " ";
    TrimTrailingSpace(name);
  }

  /** A surname without a name greets by the surname alone, without the leading space. */
  lemma SurnameOnlyGreeting(surname: string, user: Option<User>)
    requires Trimmed(surname)
    ensures GreetingName(Some(UserProfile(None, Some(surname))), user) == surname
  {
    assert "" + " " + surname == " " + surname;
    TrimLeadingSpace(surname);
    TrimOfTrimmed(surname);
  }

  /** A profile name of white space only selects the profile branch and greets nobody. */
  lemma BlankProfileGreeting(name: string, user: Option<User>)
    requires name != "" && Blank(name)
    ensures GreetingName(Some(UserProfile(Some(name), None)), user) == ""
  {
    var s := name + " " + "";
    assert forall i :: 0 <= i < |s| ==> IsSpace(s[i]) by {
      forall i | 0 <= i < |s| ensures IsSpace(s[i]) {
        if i < |name| {
          assert s[i] == name[i];
        }
      }
    }
  }

  /** Without a profile name, the session user's name comes next. */
  lemma UserNameGreeting(profile: Option<UserProfile>, user: Option<User>)
    requires !ProfileNamed(profile) && user.Some? && Truthy(user.value.name)
    ensures GreetingName(profile, user) == user.value.name.value
  {
  }

  /** Without any name, the e-mail's part before the first `@` when it is not empty. */
  lemma EmailGreeting(profile: Option<UserProfile>, user: Option<User>)
    requires !ProfileNamed(profile) && user.Some? && !Truthy(user.value.name)
    requires Before(user.value.email, '@') != ""
    ensures GreetingName(profile, user) == Before(user.value.email, '@')
    ensures '@' !in GreetingName(profile, user) && StartsWith(user.value.email, GreetingName(profile, user))
  {
  }

  /** With nothing else to go by, the fixed word. */
  lemma DefaultGreeting(profile: Option<UserProfile>, user: Option<User>)
    requires !ProfileNamed(profile)
    requires user.None? || (!Truthy(user.value.name) && Before(user.value.email, '@') == "")
    ensures GreetingName(profile, user) == DefaultName
  {
  }

  /** An address that starts with `@` has an empty local part and falls through to the fixed word. */
  lemma LeadingAtGreeting(u: User, rest: string)
    requires u.email == "@" + rest && !Truthy(u.name)
    ensures GreetingName(None, Some(u)) == DefaultName
  {
    assert u.email[0] == '@';
  }
}
