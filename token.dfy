/**
 * The client token store: the two credential cookies `access_token` and
 * `refresh_token`, written and read through `document.cookie`.
 *
 * The browser side is modelled as a jar of (name, value) cookies in creation
 * order. Assigning a cookie string stores the text up to the first `;` with
 * space and tab stripped (section 5.2 of RFC 6265), replacing a cookie of the
 * same name in place, and `max-age=0` deletes it. Reading `document.cookie`
 * yields the pairs joined by `"; "`, which the getters then parse as text.
 */
module Cookies {
  import opened Wrappers
  import opened Text

  const AccessTokenName: string := "access_token"
  const RefreshTokenName: string := "refresh_token"
  /** Fifteen minutes, in seconds. */
  const AccessMaxAge: nat := 15 * 60
  /** Seven days, in seconds. */
  const RefreshMaxAge: nat := 7 * 24 * 60 * 60

  datatype TokenPair = TokenPair(accessToken: string, refreshToken: string)

  /** One assignment to `document.cookie`. */
  datatype CookieWrite =
    | Persist(name: string, value: string, maxAge: nat, secure: bool)
    | Expire(name: string)
  {
    /** The exact string assigned. */
    function Text(): string
    {
      match this
      case Persist(n, v, age, secure) => n + "=" + v + PersistAttributes(age, secure)
      case Expire(n) => n + "=; max-age=0; path=/"
    }
  }

  /** The attributes `setTokens` appends to a cookie's `name=value`. */
  function PersistAttributes(age: nat, secure: bool): string
  {
    "; max-age=" + NatToString(age) + "; path=/; " + (if secure then "secure;" else "") + " samesite=lax"
  }

  /** The two assignments of `setTokens`, in order; `secure` only in production. */
  function TokenWrites(p: TokenPair, production: bool): seq<CookieWrite>
  {
    [ Persist(AccessTokenName, p.accessToken, AccessMaxAge, production),
      Persist(RefreshTokenName, p.refreshToken, RefreshMaxAge, production) ]
  }

  /** The two assignments of `removeTokens`, in order. */
  function ClearWrites(): seq<CookieWrite>
  {
    [Expire(AccessTokenName), Expire(RefreshTokenName)]
  }

  lemma Lifetimes()
    ensures NatToString(AccessMaxAge) == "900"
    ensures NatToString(RefreshMaxAge) == "604800"
  {
    assert NatToString(90) == "90";
    assert NatToString(6048) == "6048";
    assert NatToString(60480) == "60480";
  }

  /** The attribute text of the access-token cookie. */
  lemma AccessAttributes(secure: bool)
    ensures PersistAttributes(AccessMaxAge, secure)
         == "; max-age=900; path=/; " + (if secure then "secure;" else "") + " samesite=lax"
  {
    Lifetimes();
  }

  /** The attribute text of the refresh-token cookie. */
  lemma RefreshAttributes(secure: bool)
    ensures PersistAttributes(RefreshMaxAge, secure)
         == "; max-age=604800; path=/; " + (if secure then "secure;" else "") + " samesite=lax"
  {
    Lifetimes();
  }

  lemma PersistText(n: string, v: string, age: nat, secure: bool)
    ensures Persist(n, v, age, secure).Text() == n + "=" + v + PersistAttributes(age, secure)
  {
  }

  lemma AccessWriteText(v: string, secure: bool)
    ensures Persist(AccessTokenName, v, AccessMaxAge, secure).Text()
         == "access_token=" + v + "; max-age=900; path=/; " + (if secure then "secure;" else "") + " samesite=lax"
  {
    PersistText(AccessTokenName, v, AccessMaxAge, secure);
    AccessAttributes(secure);
  }

  lemma RefreshWriteText(v: string, secure: bool)
    ensures Persist(RefreshTokenName, v, RefreshMaxAge, secure).Text()
         == "refresh_token=" + v + "; max-age=604800; path=/; " + (if secure then "secure;" else "") + " samesite=lax"
  {
    PersistText(RefreshTokenName, v, RefreshMaxAge, secure);
    RefreshAttributes(secure);
  }

  /** The strings `setTokens` assigns carry the stated lifetimes and attributes. */
  lemma TokenWriteTexts(p: TokenPair, production: bool)
    ensures TokenWrites(p, production)[0].Text()
         == "access_token=" + p.accessToken + "; max-age=900; path=/; "
            + (if production then "secure;" else "") + " samesite=lax"
    ensures TokenWrites(p, production)[1].Text()
         == "refresh_token=" + p.refreshToken + "; max-age=604800; path=/; "
            + (if production then "secure;" else "") + " samesite=lax"
  {
    AccessWriteText(p.accessToken, production);
    RefreshWriteText(p.refreshToken, production);
  }

  /** The strings `removeTokens` assigns: an empty value with `max-age=0`. */
  lemma ClearWriteTexts()
    ensures ClearWrites()[0].Text() == "access_token=; max-age=0; path=/"
    ensures ClearWrites()[1].Text() == "refresh_token=; max-age=0; path=/"
  {
    ClearAccessText();
    ClearRefreshText();
  }

  lemma ClearAccessText()
    ensures Expire(AccessTokenName).Text() == "access_token=; max-age=0; path=/"
  {
    ExpireText(AccessTokenName);
  }

  lemma ClearRefreshText()
    ensures Expire(RefreshTokenName).Text() == "refresh_token=; max-age=0; path=/"
  {
    ExpireText(RefreshTokenName);
  }

  lemma ExpireText(n: string)
    ensures Expire(n).Text() == n + "=; max-age=0; path=/"
  {
  }

  datatype Cookie = Cookie(name: string, value: string)

  /** The browser's rendering of one cookie in `document.cookie`. */
  function Pair(c: Cookie): string
  {
    c.name + "=" + c.value
  }

  /** Space and horizontal tab, the WSP of RFC 5234. */
  predicate IsWsp(c: char)
  {
    c == ' ' || c == '\t'
  }

  function TrimWsp(s: string): (r: string)
    ensures forall c :: c in r ==> c in s
    ensures r == [] || (!IsWsp(r[0]) && !IsWsp(r[|r| - 1]))
    ensures s == [] || (!IsWsp(s[0]) && !IsWsp(s[|s| - 1])) ==> r == s
    decreases |s|
  {
    if |s| > 0 && IsWsp(s[0]) then TrimWsp(s[1..])
    else if |s| > 0 && IsWsp(s[|s| - 1]) then TrimWsp(s[..|s| - 1])
    else s
  }

  /** The value a browser keeps from `name=` + `v` + attributes: `v` up to its first `;`, WSP-trimmed. */
  function StoredValue(v: string): (r: string)
    ensures ';' !in r
  {
    TrimWsp(Before(v, ';'))
  }

  /** A token a cookie carries unchanged and the getters read back unchanged. */
  predicate CookieSafe(v: string)
  {
    ';' !in v && '=' !in v && (v == [] || (!IsWsp(v[0]) && !IsWsp(v[|v| - 1])))
  }

  lemma StoredSafeValue(v: string)
    requires CookieSafe(v)
    ensures StoredValue(v) == v
  {
    assert Before(v, ';') == v;
  }

  /** A name a cookie can have: non-empty, without white space, `;` or `=`. */
  predicate CookieName(n: string)
  {
    |n| > 0 && forall c :: c in n ==> !IsSpace(c) && c != ';' && c != '='
  }

  /** A jar a browser can hold: proper names, values without `;`, one cookie per name. */
  predicate WellFormed(jar: seq<Cookie>)
  {
    && (forall i :: 0 <= i < |jar| ==> CookieName(jar[i].name) && ';' !in jar[i].value)
    && (forall i, j :: 0 <= i < j < |jar| ==> jar[i].name != jar[j].name)
  }

  /** The value the jar holds under `name`. */
  function Lookup(jar: seq<Cookie>, name: string): Option<string>
  {
    if |jar| == 0 then None
    else if jar[0].name == name then Some(jar[0].value)
    else Lookup(jar[1..], name)
  }

  /** The names of the cookies in the jar. */
  function Names(jar: seq<Cookie>): set<string>
  {
    set i | 0 <= i < |jar| :: jar[i].name
  }

  /** Stores `value` under `name`: in place when the name exists, at the end otherwise. */
  function Put(jar: seq<Cookie>, name: string, value: string): (r: seq<Cookie>)
    ensures Lookup(r, name) == Some(value)
    ensures forall m :: m != name ==> Lookup(r, m) == Lookup(jar, m)
  {
    if |jar| == 0 then [Cookie(name, value)]
    else if jar[0].name == name then [Cookie(name, value)] + jar[1..]
    else [jar[0]] + Put(jar[1..], name, value)
  }

  /** A well-formed jar is its first cookie in front of a well-formed jar that does not name it. */
  lemma Uncons(jar: seq<Cookie>)
    requires WellFormed(jar) && |jar| > 0
    ensures WellFormed(jar[1..])
    ensures Names(jar) == {jar[0].name} + Names(jar[1..])
    ensures jar[0].name !in Names(jar[1..])
  {
    assert forall i :: 1 <= i < |jar| ==> jar[i].name == jar[1..][i - 1].name;
  }

  /** A cookie with a fresh name in front of a well-formed jar gives a well-formed jar. */
  lemma Cons(c: Cookie, rest: seq<Cookie>)
    requires WellFormed(rest) && CookieName(c.name) && ';' !in c.value && c.name !in Names(rest)
    ensures WellFormed([c] + rest)
    ensures Names([c] + rest) == {c.name} + Names(rest)
  {
    ConsNames(c, rest);
    var r := [c] + rest;
    forall i | 0 <= i < |r| ensures CookieName(r[i].name) && ';' !in r[i].value {
      if i > 0 { assert r[i] == rest[i - 1]; }
    }
    forall i, j | 0 <= i < j < |r| ensures r[i].name != r[j].name {
      assert r[j] == rest[j - 1];
      if i == 0 {
        assert rest[j - 1].name in Names(rest);
      } else {
        assert r[i] == rest[i - 1];
      }
    }
  }

  lemma ConsNames(c: Cookie, rest: seq<Cookie>)
    ensures Names([c] + rest) == {c.name} + Names(rest)
  {
    var r := [c] + rest;
    assert forall i :: 1 <= i < |r| ==> r[i] == rest[i - 1];
    assert forall i :: 0 <= i < |rest| ==> rest[i] == r[i + 1];
    assert r[0] == c;
  }

  lemma {:induction false} PutWellFormed(jar: seq<Cookie>, name: string, value: string)
    requires WellFormed(jar) && CookieName(name) && ';' !in value
    ensures WellFormed(Put(jar, name, value))
    ensures Names(Put(jar, name, value)) == Names(jar) + {name}
  {
    if |jar| == 0 {
      assert Names([]) == {};
      Cons(Cookie(name, value), []);
      assert [Cookie(name, value)] + [] == [Cookie(name, value)];
    } else {
      Uncons(jar);
      if jar[0].name == name {
        Cons(Cookie(name, value), jar[1..]);
      } else {
        PutWellFormed(jar[1..], name, value);
        Cons(jar[0], Put(jar[1..], name, value));
      }
    }
  }

  /** Deletes the cookie called `name`, if any. */
  function Remove(jar: seq<Cookie>, name: string): (r: seq<Cookie>)
    ensures Lookup(r, name) == None
    ensures forall m :: m != name ==> Lookup(r, m) == Lookup(jar, m)
  {
    if |jar| == 0 then []
    else if jar[0].name == name then Remove(jar[1..], name)
    else [jar[0]] + Remove(jar[1..], name)
  }

  lemma {:induction false} RemoveWellFormed(jar: seq<Cookie>, name: string)
    requires WellFormed(jar)
    ensures WellFormed(Remove(jar, name))
    ensures Names(Remove(jar, name)) == Names(jar) - {name}
  {
    if |jar| > 0 {
      Uncons(jar);
      RemoveWellFormed(jar[1..], name);
      if jar[0].name != name {
        Cons(jar[0], Remove(jar[1..], name));
      }
    }
  }

  /** What the browser does with one assignment to `document.cookie`. */
  function Apply(jar: seq<Cookie>, w: CookieWrite): seq<Cookie>
  {
    match w
    case Persist(n, v, age, _) => if age > 0 then Put(jar, n, StoredValue(v)) else Remove(jar, n)
    case Expire(n) => Remove(jar, n)
  }

  lemma ApplyWellFormed(jar: seq<Cookie>, w: CookieWrite)
    requires WellFormed(jar) && CookieName(w.name)
    ensures WellFormed(Apply(jar, w))
  {
    match w
    case Persist(n, v, age, _) =>
      if age > 0 { PutWellFormed(jar, n, StoredValue(v)); } else { RemoveWellFormed(jar, n); }
    case Expire(n) => RemoveWellFormed(jar, n);
  }

  function ApplyAll(jar: seq<Cookie>, ws: seq<CookieWrite>): seq<Cookie>
    decreases |ws|
  {
    if |ws| == 0 then jar else ApplyAll(Apply(jar, ws[0]), ws[1..])
  }

  function Pairs(jar: seq<Cookie>): (r: seq<string>)
    ensures |r| == |jar| && forall i :: 0 <= i < |jar| ==> r[i] == Pair(jar[i])
  {
    if |jar| == 0 then [] else [Pair(jar[0])] + Pairs(jar[1..])
  }

  /** The string `document.cookie` reads as. */
  function CookieString(jar: seq<Cookie>): string
  {
    Join(Pairs(jar), "; ")
  }

  /**
   * `getAccessToken`/`getRefreshToken` on the text of `document.cookie`: the
   * first `;`-separated segment whose trimmed text starts with `name=`, and of
   * it the text `split('=')[1]`, between its first and second `=`.
   */
  function ReadCookie(cookie: string, name: string): Option<string>
  {
    FirstMatch(Split(cookie, ';'), name)
  }

  function FirstMatch(segments: seq<string>, name: string): (r: Option<string>)
  {
    if |segments| == 0 then None
    else if StartsWith(Trim(segments[0]), name + "=") then
      var t := Trim(segments[0]);
      assert t[|name|] == '=';
      Some(Split(segments[0], '=')[1])
    else FirstMatch(segments[1..], name)
  }

  /** What the getters report for a cookie value the jar holds: the text before its first `=`. */
  function AsRead(v: Option<string>): Option<string>
  {
    if v.Some? then Some(Before(v.value, '=')) else None
  }

  /** Two names followed by `=` at the head of one string are equal when neither contains `=`. */
  lemma {:induction false} NamesAgree(t: string, a: string, b: string)
    requires StartsWith(t, a + "=") && StartsWith(t, b + "=")
    requires '=' !in a && '=' !in b
    ensures a == b
  {
    forall k | 0 <= k < |a| ensures t[k] != '=' {
      assert t[k] == a[k] && a[k] in a;
    }
    forall k | 0 <= k < |b| ensures t[k] != '=' {
      assert t[k] == b[k] && b[k] in b;
    }
    assert t[|a|] == '=' && t[|b|] == '=';
    assert |a| == |b|;
    assert a == t[..|a|] == b;
  }

  /** The trimmed text of a segment of `document.cookie` starts with its cookie's name and `=`. */
  lemma SegmentTrim(lead: string, c: Cookie)
    requires lead == "" || lead == " "
    requires CookieName(c.name)
    ensures StartsWith(Trim(lead + Pair(c)), c.name + "=")
  {
    var p := Pair(c);
    if lead == " " {
      TrimLeadingSpace(p);
    } else {
      assert lead + p == p;
    }
    assert c.name[0] in c.name;
    assert StartsWith(p, c.name + "=");
    TrimKeepsPrefix(p, c.name + "=");
  }

  /** `split('=')[1]` of a segment is its cookie's value up to the value's first `=`. */
  lemma SegmentSplit(lead: string, c: Cookie)
    requires lead == "" || lead == " "
    requires CookieName(c.name)
    ensures '=' in lead + Pair(c)
    ensures Split(lead + Pair(c), '=')[1] == Before(c.value, '=')
  {
    var head := lead + c.name;
    SegmentHead(lead, c.name);
    assert lead + Pair(c) == head + ['='] + c.value;
    SplitAt(head, '=', c.value);
  }

  /** The text of a segment before its cookie's `=` holds no `=`. */
  lemma SegmentHead(lead: string, name: string)
    requires lead == "" || lead == " "
    requires CookieName(name)
    ensures '=' !in lead + name
  {
    var head := lead + name;
    forall k | 0 <= k < |head| ensures head[k] != '=' {
      if k >= |lead| {
        assert head[k] == name[k - |lead|];
        assert name[k - |lead|] in name;
      }
    }
  }

  /** A segment of `document.cookie` matches `name=` exactly when it is the cookie called `name`. */
  lemma SegmentMatch(lead: string, c: Cookie, name: string)
    requires lead == "" || lead == " "
    requires CookieName(c.name) && CookieName(name)
    ensures StartsWith(Trim(lead + Pair(c)), name + "=") <==> c.name == name
  {
    SegmentTrim(lead, c);
    if StartsWith(Trim(lead + Pair(c)), name + "=") {
      NamesAgree(Trim(lead + Pair(c)), name, c.name);
    }
  }

  /** Parsing the segments of a well-formed jar finds exactly the cookie the jar holds under `name`. */
  lemma Step1(segments: seq<string>, jar: seq<Cookie>, name: string)
    requires WellFormed(jar) && CookieName(name) && |segments| == |jar| && |jar| > 0
    requires segments[0] == Pair(jar[0]) || segments[0] == " " + Pair(jar[0])
    requires jar[0].name == name
    ensures FirstMatch(segments, name) == AsRead(Lookup(jar, name))
  {
      var lead := if segments[0] == Pair(jar[0]) then "" else " ";
      assert segments[0] == lead + Pair(jar[0]);
      SegmentMatch(lead, jar[0], name);
      SegmentSplit(lead, jar[0]);
  }
  lemma Step2(segments: seq<string>, jar: seq<Cookie>, name: string)
    requires WellFormed(jar) && CookieName(name) && |segments| == |jar| && |jar| > 0
    requires segments[0] == Pair(jar[0]) || segments[0] == " " + Pair(jar[0])
    requires jar[0].name != name
    ensures FirstMatch(segments, name) == FirstMatch(segments[1..], name)
    ensures Lookup(jar, name) == Lookup(jar[1..], name)
  {
      var lead := if segments[0] == Pair(jar[0]) then "" else " ";
      assert segments[0] == lead + Pair(jar[0]);
      SegmentMatch(lead, jar[0], name);
  }
  lemma {:induction false} FirstMatchJar(segments: seq<string>, jar: seq<Cookie>, name: string)
    requires WellFormed(jar) && CookieName(name) && |segments| == |jar|
    requires forall k :: 0 <= k < |jar| ==> segments[k] == Pair(jar[k]) || segments[k] == " " + Pair(jar[k])
    ensures FirstMatch(segments, name) == AsRead(Lookup(jar, name))
    decreases |jar|
  {
    if |jar| > 0 {
      if jar[0].name == name {
        Step1(segments, jar, name);
      } else {
        Step2(segments, jar, name);
        TailWellFormed(jar);
        FirstMatchJar(segments[1..], jar[1..], name);
      }
    }
  }
  lemma TailWellFormed(jar: seq<Cookie>)
    requires WellFormed(jar) && |jar| > 0
    ensures WellFormed(jar[1..])
  {
    assert forall i :: 1 <= i < |jar| ==> jar[1..][i - 1] == jar[i];
  }
  /**
   * The getters' parsing of `document.cookie` agrees with the jar: they report
   * the text before the first `=` of the value stored under `name`, and
   * nothing when there is no such cookie.
   */
  lemma ReadCookieOfJar(jar: seq<Cookie>, name: string)
    requires WellFormed(jar) && CookieName(name)
    ensures ReadCookie(CookieString(jar), name) == AsRead(Lookup(jar, name))
  {
    if |jar| == 0 {
      assert CookieString(jar) == "";
      assert Split("", ';') == [""];
      assert Trim("") == "";
      assert !StartsWith(Trim(""), name + "=");
      assert [""][1..] == [];
      assert FirstMatch([""], name) == FirstMatch([], name) == None;
      assert ReadCookie("", name) == None;
    } else {
      JarSegments(jar);
      FirstMatchJar(Split(CookieString(jar), ';'), jar, name);
    }
  }

  /** The `';'`-separated segments of a non-empty jar's cookie string are its pairs, each but the first after a space. */
  lemma JarSegments(jar: seq<Cookie>)
    requires WellFormed(jar) && |jar| > 0
    ensures |Split(CookieString(jar), ';')| == |jar|
    ensures forall k :: 0 <= k < |jar| ==>
              Split(CookieString(jar), ';')[k] == Pair(jar[k]) || Split(CookieString(jar), ';')[k] == " " + Pair(jar[k])
  {
    CookieStringSplit(jar);
    SpacedSegments(Pairs(jar));
  }

  lemma CookieStringSplit(jar: seq<Cookie>)
    requires WellFormed(jar) && |jar| > 0
    ensures Split(CookieString(jar), ';') == [Pairs(jar)[0]] + Spaced(Pairs(jar)[1..])
  {
    PairsSemicolonFree(jar);
    SplitJoinedList(Pairs(jar));
  }

  lemma PairsSemicolonFree(jar: seq<Cookie>)
    requires WellFormed(jar)
    ensures forall i :: 0 <= i < |jar| ==> ';' !in Pairs(jar)[i]
  {
    forall i | 0 <= i < |jar| ensures ';' !in Pairs(jar)[i] {
      assert Pairs(jar)[i] == jar[i].name + "=" + jar[i].value;
    }
  }

  lemma SpacedSegments(pairs: seq<string>)
    requires |pairs| > 0
    ensures |[pairs[0]] + Spaced(pairs[1..])| == |pairs|
    ensures forall k :: 0 <= k < |pairs| ==>
              ([pairs[0]] + Spaced(pairs[1..]))[k] == pairs[k] || ([pairs[0]] + Spaced(pairs[1..]))[k] == " " + pairs[k]
  {
    var segments := [pairs[0]] + Spaced(pairs[1..]);
    forall k | 0 <= k < |pairs|
      ensures segments[k] == pairs[k] || segments[k] == " " + pairs[k]
    {
      if k > 0 { assert segments[k] == Spaced(pairs[1..])[k - 1]; }
    }
  }

  lemma TokenNames()
    ensures CookieName(AccessTokenName) && CookieName(RefreshTokenName)
    ensures AccessTokenName != RefreshTokenName
  {
  }

  /**
   * After `setTokens(p)` the getters read back what the browser stored for
   * each token, and exactly `p`'s tokens when these are cookie-safe.
   */
  lemma {:induction false} SetTokensRoundTrip(jar: seq<Cookie>, p: TokenPair, production: bool)
    requires WellFormed(jar)
    ensures WellFormed(ApplyAll(jar, TokenWrites(p, production)))
    ensures ReadCookie(CookieString(ApplyAll(jar, TokenWrites(p, production))), AccessTokenName)
         == Some(Before(StoredValue(p.accessToken), '='))
    ensures ReadCookie(CookieString(ApplyAll(jar, TokenWrites(p, production))), RefreshTokenName)
         == Some(Before(StoredValue(p.refreshToken), '='))
    ensures CookieSafe(p.accessToken) && CookieSafe(p.refreshToken) ==>
              (&& ReadCookie(CookieString(ApplyAll(jar, TokenWrites(p, production))), AccessTokenName) == Some(p.accessToken)
               && ReadCookie(CookieString(ApplyAll(jar, TokenWrites(p, production))), RefreshTokenName) == Some(p.refreshToken))
  {
    TokenNames();
    var ws := TokenWrites(p, production);
    var j1 := Put(jar, AccessTokenName, StoredValue(p.accessToken));
    var j2 := Put(j1, RefreshTokenName, StoredValue(p.refreshToken));
    PutWellFormed(jar, AccessTokenName, StoredValue(p.accessToken));
    PutWellFormed(j1, RefreshTokenName, StoredValue(p.refreshToken));
    assert ApplyAll(jar, ws) == ApplyAll(j1, ws[1..]) == ApplyAll(j2, []) == j2;
    ReadCookieOfJar(j2, AccessTokenName);
    ReadCookieOfJar(j2, RefreshTokenName);
    if CookieSafe(p.accessToken) && CookieSafe(p.refreshToken) {
      StoredSafeValue(p.accessToken);
      StoredSafeValue(p.refreshToken);
      assert Before(p.accessToken, '=') == p.accessToken;
      assert Before(p.refreshToken, '=') == p.refreshToken;
    }
  }

  /** After `removeTokens` neither getter finds its cookie, and no other cookie is touched. */
  lemma {:induction false} RemoveTokensClears(jar: seq<Cookie>)
    requires WellFormed(jar)
    ensures WellFormed(ApplyAll(jar, ClearWrites()))
    ensures ReadCookie(CookieString(ApplyAll(jar, ClearWrites())), AccessTokenName) == None
    ensures ReadCookie(CookieString(ApplyAll(jar, ClearWrites())), RefreshTokenName) == None
    ensures forall m :: m != AccessTokenName && m != RefreshTokenName ==>
              Lookup(ApplyAll(jar, ClearWrites()), m) == Lookup(jar, m)
  {
    TokenNames();
    var ws := ClearWrites();
    var j1 := Remove(jar, AccessTokenName);
    var j2 := Remove(j1, RefreshTokenName);
    RemoveWellFormed(jar, AccessTokenName);
    RemoveWellFormed(j1, RefreshTokenName);
    assert ApplyAll(jar, ws) == ApplyAll(j1, ws[1..]) == ApplyAll(j2, []) == j2;
    ReadCookieOfJar(j2, AccessTokenName);
    ReadCookieOfJar(j2, RefreshTokenName);
  }

  lemma {:induction false} LookupAbsent(jar: seq<Cookie>, name: string)
    requires name !in Names(jar)
    ensures Lookup(jar, name) == None
  {
    if |jar| > 0 {
      assert forall i :: 0 <= i < |jar[1..]| ==> jar[1..][i].name == jar[i + 1].name;
      LookupAbsent(jar[1..], name);
    }
  }

  /** A name the jar does not hold is not found by the getters' parse. */
  lemma AbsentNotRead(jar: seq<Cookie>, name: string)
    requires WellFormed(jar) && CookieName(name) && name !in Names(jar)
    ensures ReadCookie(CookieString(jar), name) == None
  {
    LookupAbsent(jar, name);
    ReadCookieOfJar(jar, name);
  }

  /**
   * The getters find a cookie only by its exact name: a cookie called
   * anything else, such as `my_access_token`, is not read as the access token.
   */
  lemma OtherNameNotRead(n: string, v: string)
    requires CookieName(n) && n != AccessTokenName && ';' !in v
    ensures ReadCookie(CookieString([Cookie(n, v)]), AccessTokenName) == None
  {
    TokenNames();
    var jar := [Cookie(n, v)];
    assert AccessTokenName !in Names(jar);
    AbsentNotRead(jar, AccessTokenName);
  }

  lemma LongerName()
    ensures CookieName("my_access_token") && "my_access_token" != AccessTokenName
  {
    assert |"my_access_token"| != |AccessTokenName|;
  }

  /** `document.cookie` together with the environment facts the module consults. */
  class CookieJar {
    /** `typeof document !== 'undefined'`: false when the module runs on the server. */
    const hasDocument: bool
    /** `process.env.NODE_ENV === 'production'`. */
    const production: bool
    /** The cookies the browser holds for the page, in creation order. */
    var entries: seq<Cookie>
    /** Every string assigned to `document.cookie`, in order. */
    var writes: seq<CookieWrite>

    ghost predicate Valid()
      reads this
    {
      WellFormed(entries)
    }

    constructor (hasDocument: bool, production: bool, entries: seq<Cookie>)
      requires WellFormed(entries)
      ensures Valid()
      ensures this.hasDocument == hasDocument && this.production == production
      ensures this.entries == entries && writes == []
    {
      this.hasDocument := hasDocument;
      this.production := production;
      this.entries := entries;
      writes := [];
    }

    /** What `getAccessToken` reports: the stored access cookie's value up to its first `=`; nothing without a document. */
    function AccessToken(): Option<string>
      reads this
    {
      if hasDocument then AsRead(Lookup(entries, AccessTokenName)) else None
    }

    /** What `getRefreshToken` reports, likewise for the refresh cookie. */
    function RefreshToken(): Option<string>
      reads this
    {
      if hasDocument then AsRead(Lookup(entries, RefreshTokenName)) else None
    }

    /** `clientTokens.getAccessToken`: the parse of `document.cookie`, which finds what the jar holds. */
    method GetAccessToken() returns (r: Option<string>)
      requires Valid()
      ensures !hasDocument ==> r == None
      ensures r == AccessToken()
    {
      if !hasDocument {
        return None;
      }
      r := ReadCookie(CookieString(entries), AccessTokenName);
      TokenNames();
      ReadCookieOfJar(entries, AccessTokenName);
    }

    /** `clientTokens.getRefreshToken`. */
    method GetRefreshToken() returns (r: Option<string>)
      requires Valid()
      ensures !hasDocument ==> r == None
      ensures r == RefreshToken()
    {
      if !hasDocument {
        return None;
      }
      r := ReadCookie(CookieString(entries), RefreshTokenName);
      TokenNames();
      ReadCookieOfJar(entries, RefreshTokenName);
    }

    /** `document.cookie = w.Text()`. */
    method Assign(w: CookieWrite)
      requires Valid() && CookieName(w.name)
      modifies this
      ensures Valid()
      ensures entries == Apply(old(entries), w)
      ensures writes == old(writes) + [w]
    {
      ApplyWellFormed(entries, w);
      entries := Apply(entries, w);
      writes := writes + [w];
    }

    /** `clientTokens.setTokens`; the hook calls it only in the browser. */
    method SetTokens(p: TokenPair)
      requires Valid() && hasDocument
      modifies this
      ensures Valid()
      ensures entries == ApplyAll(old(entries), TokenWrites(p, production))
      ensures writes == old(writes) + TokenWrites(p, production)
      ensures AccessToken() == Some(Before(StoredValue(p.accessToken), '='))
      ensures RefreshToken() == Some(Before(StoredValue(p.refreshToken), '='))
    {
      TokenNames();
      var ws := TokenWrites(p, production);
      ghost var before := entries;
      ghost var j1 := Put(before, AccessTokenName, StoredValue(p.accessToken));
      Assign(ws[0]);
      assert entries == j1;
      Assign(ws[1]);
      assert entries == Put(j1, RefreshTokenName, StoredValue(p.refreshToken));
      assert ApplyAll(before, ws) == ApplyAll(j1, ws[1..]) == ApplyAll(entries, []) == entries;
      assert writes == old(writes) + [ws[0]] + [ws[1]];
      assert Lookup(entries, AccessTokenName) == Some(StoredValue(p.accessToken));
    }

    /** `clientTokens.removeTokens`: a no-op without a document. */
    method RemoveTokens()
      requires Valid()
      modifies this
      ensures Valid()
      ensures hasDocument ==> (entries == ApplyAll(old(entries), ClearWrites()) && writes == old(writes) + ClearWrites())
      ensures hasDocument ==> AccessToken() == None && RefreshToken() == None
      ensures !hasDocument ==> entries == old(entries) && writes == old(writes)
    {
      if !hasDocument {
        return;
      }
      TokenNames();
      ghost var before := entries;
      ghost var j1 := Remove(before, AccessTokenName);
      var ws := ClearWrites();
      Assign(ws[0]);
      assert entries == j1;
      Assign(ws[1]);
      assert entries == Remove(j1, RefreshTokenName);
      assert ApplyAll(before, ws) == ApplyAll(j1, ws[1..]) == ApplyAll(entries, []) == entries;
      assert writes == old(writes) + [ws[0]] + [ws[1]];
      assert Lookup(entries, AccessTokenName) == None;
    }
  }
}
