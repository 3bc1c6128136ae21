/** The provider's input schemas and the REDIRECT_URIS transform
    (src/types.ts). A schema check is a function from a parsed JSON / form
    value to `Some(typed value)` or `None` (the `safeParse` failure); unknown
    object keys are stripped, as the object schemas do by default. */
module Types {
  import opened Wrappers

  /** A parsed JSON document or form body, as handed to a schema. */
  datatype Json =
    | JNull
    | JBool(b: bool)
    | JNumber(n: int)
    | JString(s: string)
    | JArray(items: seq<Json>)
    | JObject(fields: map<string, Json>)

  /** JavaScript truthiness of an optional string: present and not empty. */
  predicate IsTruthy(v: Option<string>)
  {
    v.Some? && v.value != []
  }

  /* ---------------------------------------------------------------------
     Strings and string lists
     --------------------------------------------------------------------- */

  function StringList(xs: seq<string>): (r: seq<Json>)
  {
    seq(|xs|, i requires 0 <= i < |xs| => JString(xs[i]))
  }

  predicate IsStringList(j: Json)
  {
    j.JArray? && forall i :: 0 <= i < |j.items| ==> j.items[i].JString?
  }

  /** The strings of a JSON list of strings; `StringList` is its inverse. */
  function Strings(items: seq<Json>): (r: seq<string>)
    requires forall i :: 0 <= i < |items| ==> items[i].JString?
    ensures StringList(r) == items
  {
    seq(|items|, i requires 0 <= i < |items| => items[i].s)
  }

  lemma StringsOfStringList(xs: seq<string>)
    ensures IsStringList(JArray(StringList(xs)))
    ensures Strings(StringList(xs)) == xs
  {
  }

  /* ---------------------------------------------------------------------
     UserProfileSchema (src/types.ts:28-35)
     --------------------------------------------------------------------- */

  datatype UserProfile = UserProfile(
    firstName: string,
    lastName: string,
    username: string,
    email: string,
    roles: seq<string>,
    password: string)

  const ProfileKeys: set<string> :=
    {"firstName", "lastName", "username", "email", "roles", "password"}

  predicate HasString(f: map<string, Json>, k: string)
  {
    k in f && f[k].JString?
  }

  predicate HasStringList(f: map<string, Json>, k: string)
  {
    k in f && IsStringList(f[k])
  }

  /** All six profile fields present with the right types; the strings may
      be empty and `roles` may be an empty list. */
  predicate IsProfileShape(f: map<string, Json>)
  {
    && HasString(f, "firstName")
    && HasString(f, "lastName")
    && HasString(f, "username")
    && HasString(f, "email")
    && HasStringList(f, "roles")
    && HasString(f, "password")
  }

  /** The keys of `f` that lie in `keys`: what an object schema keeps. */
  function Restrict(f: map<string, Json>, keys: set<string>): map<string, Json>
  {
    map k | k in f && k in keys :: f[k]
  }

  /** A profile as the JSON object it serialises to. */
  function ProfileToJson(p: UserProfile): (r: map<string, Json>)
    ensures r.Keys == ProfileKeys
    ensures IsProfileShape(r)
  {
    map[
      "firstName" := JString(p.firstName),
      "lastName" := JString(p.lastName),
      "username" := JString(p.username),
      "email" := JString(p.email),
      "roles" := JArray(StringList(p.roles)),
      "password" := JString(p.password)]
  }

  function ProfileOf(f: map<string, Json>): UserProfile
    requires IsProfileShape(f)
  {
    UserProfile(f["firstName"].s, f["lastName"].s, f["username"].s, f["email"].s,
                Strings(f["roles"].items), f["password"].s)
  }

  /** `UserProfileSchema.safeParse`: succeeds exactly on objects carrying
      all six fields with the right types, and keeps exactly those fields. */
  function ParseUserProfile(j: Json): (r: Option<UserProfile>)
    ensures r.Some? <==> j.JObject? && IsProfileShape(j.fields)
    ensures r.Some? ==> ProfileToJson(r.value) == Restrict(j.fields, ProfileKeys)
  {
    if j.JObject? && IsProfileShape(j.fields) then
      var p := ProfileOf(j.fields);
      assert ProfileToJson(p) == Restrict(j.fields, ProfileKeys);
      Some(p)
    else
      None
  }

  /** Serialising a profile and validating it again gives the same profile. */
  lemma ProfileRoundTrip(p: UserProfile)
    ensures ParseUserProfile(JObject(ProfileToJson(p))) == Some(p)
  {
    StringsOfStringList(p.roles);
  }

  /* ---------------------------------------------------------------------
     UserProfileSchema.partial() and the shallow merge of updateProfile
     --------------------------------------------------------------------- */

  datatype PartialProfile = PartialProfile(
    firstName: Option<string>,
    lastName: Option<string>,
    username: Option<string>,
    email: Option<string>,
    roles: Option<seq<string>>,
    password: Option<string>)

  predicate MayHaveString(f: map<string, Json>, k: string)
  {
    k in f ==> f[k].JString?
  }

  /** Every profile field optional, but typed when present. */
  predicate IsPartialProfileShape(f: map<string, Json>)
  {
    && MayHaveString(f, "firstName")
    && MayHaveString(f, "lastName")
    && MayHaveString(f, "username")
    && MayHaveString(f, "email")
    && ("roles" in f ==> IsStringList(f["roles"]))
    && MayHaveString(f, "password")
  }

  function OptionalString(f: map<string, Json>, k: string): Option<string>
    requires MayHaveString(f, k)
  {
    if k in f then Some(f[k].s) else None
  }

  function JsonString(v: Option<string>): Option<Json>
  {
    if v.Some? then Some(JString(v.value)) else None
  }

  /** The JSON value a partial profile supplies for key `k`, if any. */
  function PartialField(q: PartialProfile, k: string): Option<Json>
  {
    if k == "firstName" then JsonString(q.firstName)
    else if k == "lastName" then JsonString(q.lastName)
    else if k == "username" then JsonString(q.username)
    else if k == "email" then JsonString(q.email)
    else if k == "roles" then (if q.roles.Some? then Some(JArray(StringList(q.roles.value))) else None)
    else if k == "password" then JsonString(q.password)
    else None
  }

  /** A partial profile as the JSON object it stands for: only the supplied keys. */
  function PartialToJson(q: PartialProfile): (r: map<string, Json>)
    ensures r.Keys <= ProfileKeys
  {
    map k | k in ProfileKeys && PartialField(q, k).Some? :: PartialField(q, k).value
  }

  function PartialOf(f: map<string, Json>): PartialProfile
    requires IsPartialProfileShape(f)
  {
    PartialProfile(
      OptionalString(f, "firstName"), OptionalString(f, "lastName"),
      OptionalString(f, "username"), OptionalString(f, "email"),
      if "roles" in f then Some(Strings(f["roles"].items)) else None,
      OptionalString(f, "password"))
  }

  /** Read back field by field, a partial profile supplies exactly the
      profile keys present in the object, with the object's values. */
  lemma PartialOfFields(f: map<string, Json>)
    requires IsPartialProfileShape(f)
    ensures PartialToJson(PartialOf(f)) == Restrict(f, ProfileKeys)
  {
    var q := PartialOf(f);
    forall k | k in ProfileKeys
      ensures PartialField(q, k) == (if k in f then Some(f[k]) else None)
    {
    }
    assert PartialToJson(q).Keys == Restrict(f, ProfileKeys).Keys;
  }

  /** `UserProfileSchema.partial().safeParse`: any subset of the six fields,
      each with its type; keeps exactly the supplied profile fields. */
  function ParsePartialProfile(j: Json): (r: Option<PartialProfile>)
    ensures r.Some? <==> j.JObject? && IsPartialProfileShape(j.fields)
    ensures r.Some? ==> PartialToJson(r.value) == Restrict(j.fields, ProfileKeys)
  {
    if j.JObject? && IsPartialProfileShape(j.fields) then
      PartialOfFields(j.fields);
      Some(PartialOf(j.fields))
    else
      None
  }

  function Override<T>(supplied: Option<T>, current: T): T
  {
    if supplied.Some? then supplied.value else current
  }

  /** The profile whose every field is `q`'s where supplied and `p`'s
      otherwise. */
  function Overridden(p: UserProfile, q: PartialProfile): UserProfile
  {
    UserProfile(
      Override(q.firstName, p.firstName),
      Override(q.lastName, p.lastName),
      Override(q.username, p.username),
      Override(q.email, p.email),
      Override(q.roles, p.roles),
      Override(q.password, p.password))
  }

  lemma OverriddenAt(p: UserProfile, q: PartialProfile, k: string)
    requires k in ProfileKeys
    ensures ProfileToJson(Overridden(p, q))[k]
         == if PartialField(q, k).Some? then PartialField(q, k).value else ProfileToJson(p)[k]
  {
    if k == "roles" {
      assert PartialField(q, k) == if q.roles.Some? then Some(JArray(StringList(q.roles.value))) else None;
    }
  }

  lemma OverriddenToJson(p: UserProfile, q: PartialProfile)
    ensures ProfileToJson(Overridden(p, q)) == ProfileToJson(p) + PartialToJson(q)
  {
    var r := ProfileToJson(Overridden(p, q));
    var m := ProfileToJson(p) + PartialToJson(q);
    forall k | k in ProfileKeys
      ensures r[k] == m[k]
    {
      OverriddenAt(p, q, k);
    }
    assert r.Keys == m.Keys;
  }

  /** `{ ...p, ...q }`: the supplied fields of `q` replace those of `p`, every
      other field of `p` is kept. */
  function Merge(p: UserProfile, q: PartialProfile): (r: UserProfile)
    ensures ProfileToJson(r) == ProfileToJson(p) + PartialToJson(q)
  {
    OverriddenToJson(p, q);
    Overridden(p, q)
  }

  /** Updating from a request body changes exactly the profile keys present
      in the body, to the body's values, and nothing else. */
  lemma MergeFromBody(p: UserProfile, body: Json)
    requires ParsePartialProfile(body).Some?
    ensures var after := ProfileToJson(Merge(p, ParsePartialProfile(body).value));
      forall k :: k in ProfileKeys ==>
        k in after && after[k] == (if k in body.fields then body.fields[k] else ProfileToJson(p)[k])
  {
  }

  /** Merging the same partial profile twice is the same as merging it once. */
  lemma MergeIdempotent(p: UserProfile, q: PartialProfile)
    ensures Merge(Merge(p, q), q) == Merge(p, q)
  {
  }

  /* ---------------------------------------------------------------------
     InitialUserProfilesSchema (src/types.ts:38): profiles keyed by `sub`
     --------------------------------------------------------------------- */

  datatype UserRecord = UserRecord(sub: string, profile: UserProfile)

  function ParseUserRecord(j: Json): (r: Option<UserRecord>)
    ensures r.Some? <==> j.JObject? && IsProfileShape(j.fields) && HasString(j.fields, "sub")
    ensures r.Some? ==> j.fields["sub"] == JString(r.value.sub)
    ensures r.Some? ==> ProfileToJson(r.value.profile) == Restrict(j.fields, ProfileKeys)
  {
    if j.JObject? && HasString(j.fields, "sub") then
      match ParseUserProfile(j)
      case Some(p) => Some(UserRecord(j.fields["sub"].s, p))
      case None => None
    else
      None
  }

  /** The array schema: all elements valid, or no result at all. */
  function ParseUserRecords(items: seq<Json>): (r: Option<seq<UserRecord>>)
    ensures r.Some? <==> forall i :: 0 <= i < |items| ==> ParseUserRecord(items[i]).Some?
    ensures r.Some? ==> |r.value| == |items|
    ensures r.Some? ==> forall i :: 0 <= i < |items| ==> ParseUserRecord(items[i]) == Some(r.value[i])
    decreases |items|
  {
    if items == [] then Some([])
    else
      match ParseUserRecord(items[0])
      case None => None
      case Some(u) =>
        match ParseUserRecords(items[1..])
        case None => None
        case Some(us) => Some([u] + us)
  }

  function ParseInitialUsers(j: Json): (r: Option<seq<UserRecord>>)
    ensures r.Some? <==> j.JArray? && forall i :: 0 <= i < |j.items| ==> ParseUserRecord(j.items[i]).Some?
    ensures r.Some? ==> |r.value| == |j.items|
    ensures r.Some? ==> forall i :: 0 <= i < |j.items| ==> ParseUserRecord(j.items[i]) == Some(r.value[i])
  {
    if j.JArray? then ParseUserRecords(j.items) else None
  }

  /** One record missing (or mistyping) any profile field or `sub` rejects
      the whole list. */
  lemma OneBadRecordRejectsAll(j: Json, i: nat)
    requires j.JArray? && i < |j.items|
    requires !j.items[i].JObject? || !IsProfileShape(j.items[i].fields) || !HasString(j.items[i].fields, "sub")
    ensures ParseInitialUsers(j) == None
  {
    assert ParseUserRecord(j.items[i]) == None;
  }

  /* ---------------------------------------------------------------------
     LoginSchema (src/types.ts:40-43)
     --------------------------------------------------------------------- */

  datatype LoginPayload = LoginPayload(login: string, password: string)

  predicate HasNonEmptyString(f: map<string, Json>, k: string)
  {
    HasString(f, k) && |f[k].s| >= 1
  }

  function ParseLogin(j: Json): (r: Option<LoginPayload>)
    ensures r.Some? <==>
      j.JObject? && HasNonEmptyString(j.fields, "login") && HasNonEmptyString(j.fields, "password")
    ensures r.Some? ==>
      && r.value.login != "" && r.value.password != ""
      && j.fields["login"] == JString(r.value.login)
      && j.fields["password"] == JString(r.value.password)
  {
    if j.JObject? && HasNonEmptyString(j.fields, "login") && HasNonEmptyString(j.fields, "password") then
      Some(LoginPayload(j.fields["login"].s, j.fields["password"].s))
    else
      None
  }

  /* ---------------------------------------------------------------------
     String.prototype.trim and String.prototype.split on one character
     --------------------------------------------------------------------- */

  /** The characters `String.prototype.trim` removes: the ECMAScript
      WhiteSpace and LineTerminator code points. */
  predicate IsWhitespace(c: char)
  {
    || c == ' ' || c == '\t' || c == '\n' || c == '\r'
    || c == '\U{B}' || c == '\U{C}' || c == '\U{A0}' || c == '\U{FEFF}' || c == '\U{1680}'
    || ('\U{2000}' <= c <= '\U{200A}')
    || c == '\U{2028}' || c == '\U{2029}' || c == '\U{202F}' || c == '\U{205F}' || c == '\U{3000}'
  }

  predicate AllWhitespace(s: string)
  {
    forall i :: 0 <= i < |s| ==> IsWhitespace(s[i])
  }

  predicate IsTrimmed(s: string)
  {
    s == [] || (!IsWhitespace(s[0]) && !IsWhitespace(s[|s| - 1]))
  }

  /** Every character of `s` outside positions `i` to `j` is whitespace. */
  predicate WhitespaceOutside(s: string, i: int, j: int)
  {
    forall m :: 0 <= m < |s| && !(i <= m < j) ==> IsWhitespace(s[m])
  }

  /** The first position at or after `i` that is not whitespace (`|s|` if
      there is none). */
  function SkipLeading(s: string, i: nat): (k: nat)
    requires i <= |s|
    ensures i <= k <= |s|
    ensures forall m :: i <= m < k ==> IsWhitespace(s[m])
    ensures k < |s| ==> !IsWhitespace(s[k])
    decreases |s| - i
  {
    if i < |s| && IsWhitespace(s[i]) then SkipLeading(s, i + 1) else i
  }

  /** The end of the last character before `j`, and not before `lo`, that is
      not whitespace (`lo` if there is none). */
  function SkipTrailing(s: string, lo: nat, j: nat): (k: nat)
    requires lo <= j <= |s|
    ensures lo <= k <= j
    ensures forall m :: k <= m < j ==> IsWhitespace(s[m])
    ensures k > lo ==> !IsWhitespace(s[k - 1])
    decreases j
  {
    if j > lo && IsWhitespace(s[j - 1]) then SkipTrailing(s, lo, j - 1) else j
  }

  /** `s.trim()`: `s` without its leading and trailing whitespace. The result
      is the slice `s[i..j]` with only whitespace outside it, and it neither
      starts nor ends with whitespace, which determines it uniquely. */
  function Trim(s: string): (r: string)
    ensures IsTrimmed(r)
    ensures exists i, j :: 0 <= i <= j <= |s| && r == s[i..j] && WhitespaceOutside(s, i, j)
    ensures r == [] <==> AllWhitespace(s)
  {
    var i := SkipLeading(s, 0);
    var j := SkipTrailing(s, i, |s|);
    assert WhitespaceOutside(s, i, j);
    s[i..j]
  }

  lemma {:induction false} TrimOfTrimmed(s: string)
    requires IsTrimmed(s)
    ensures Trim(s) == s
  {
    if s != [] {
      assert SkipLeading(s, 0) == 0;
      assert SkipTrailing(s, 0, |s|) == |s|;
    }
  }

  /** Trimming twice is trimming once. */
  lemma TrimIdempotent(s: string)
    ensures Trim(Trim(s)) == Trim(s)
  {
    TrimOfTrimmed(Trim(s));
  }

  /** `s.split(sep)`: the pieces between the occurrences of `sep`, so one
      more piece than there are separators. */
  function Split(s: string, sep: char): (r: seq<string>)
    ensures |r| >= 1
    ensures forall i :: 0 <= i < |r| ==> sep !in r[i]
  {
    if s == [] then [[]]
    else
      var rest := Split(s[1..], sep);
      if s[0] == sep then [[]] + rest
      else [[s[0]] + rest[0]] + rest[1..]
  }

  /** `parts.join(sep)`. */
  function Join(parts: seq<string>, sep: char): string
  {
    if |parts| == 0 then []
    else if |parts| == 1 then parts[0]
    else parts[0] + [sep] + Join(parts[1..], sep)
  }

  /** Joining the pieces with the separator gives back the string. */
  lemma {:induction false} JoinSplit(s: string, sep: char)
    ensures Join(Split(s, sep), sep) == s
  {
    if s != [] {
      JoinSplit(s[1..], sep);
      var rest := Split(s[1..], sep);
      var r := Split(s, sep);
      if s[0] == sep {
        assert r[1..] == rest;
        assert s == [sep] + s[1..];
      } else {
        assert r[0] == [s[0]] + rest[0];
        if |rest| > 1 {
          assert r[1..] == rest[1..];
        }
        assert s == [s[0]] + s[1..];
      }
    }
  }

  /** Splitting undoes joining when no part contains the separator. */
  lemma {:induction false} SplitJoin(parts: seq<string>, sep: char)
    requires |parts| >= 1
    requires forall i :: 0 <= i < |parts| ==> sep !in parts[i]
    ensures Split(Join(parts, sep), sep) == parts
  {
    if |parts| == 1 {
      SplitPiece(parts[0], sep);
    } else {
      SplitJoin(parts[1..], sep);
      SplitAfterPiece(parts[0], sep, Join(parts[1..], sep));
      assert [parts[0]] + parts[1..] == parts;
    }
  }

  lemma {:induction false} SplitPiece(p: string, sep: char)
    requires sep !in p
    ensures Split(p, sep) == [p]
  {
    if p != [] {
      SplitPiece(p[1..], sep);
      assert [p[0]] + p[1..] == p;
    }
  }

  /** One unfolding of `Split` on a string that starts with `c`. */
  lemma SplitCons(c: char, s: string, sep: char)
    ensures Split([c] + s, sep)
         == if c == sep then [[]] + Split(s, sep)
            else [[c] + Split(s, sep)[0]] + Split(s, sep)[1..]
  {
    assert ([c] + s)[1..] == s;
  }

  lemma {:induction false} SplitAfterPiece(p: string, sep: char, t: string)
    requires sep !in p
    ensures Split(p + [sep] + t, sep) == [p] + Split(t, sep)
  {
    if p == [] {
      assert p + [sep] + t == [sep] + t;
      SplitCons(sep, t, sep);
    } else {
      SplitAfterPiece(p[1..], sep, t);
      assert p + [sep] + t == [p[0]] + (p[1..] + [sep] + t);
      SplitCons(p[0], p[1..] + [sep] + t, sep);
      assert [p[0]] + p[1..] == p;
    }
  }

  /* ---------------------------------------------------------------------
     The REDIRECT_URIS transform (src/types.ts:9-22)
     --------------------------------------------------------------------- */

  function TrimEach(xs: seq<string>): (r: seq<string>)
    ensures |r| == |xs| && forall i :: 0 <= i < |xs| ==> r[i] == Trim(xs[i])
  {
    seq(|xs|, i requires 0 <= i < |xs| => Trim(xs[i]))
  }

  /** `filter(url => url.length > 0)`, keeping the order. */
  function DropEmpty(xs: seq<string>): (r: seq<string>)
    ensures |r| <= |xs|
    ensures forall i :: 0 <= i < |r| ==> r[i] != []
  {
    if xs == [] then []
    else if xs[0] == [] then DropEmpty(xs[1..])
    else [xs[0]] + DropEmpty(xs[1..])
  }

  /** The kept elements are exactly the non-empty ones. */
  lemma {:induction false} DropEmptyMembers(xs: seq<string>)
    ensures forall x :: x in DropEmpty(xs) <==> x in xs && x != []
  {
    if xs != [] {
      DropEmptyMembers(xs[1..]);
      assert xs == [xs[0]] + xs[1..];
    }
  }

  /** Filtering distributes over concatenation, so the kept elements stay in
      their order and keep their multiplicity. */
  lemma {:induction false} DropEmptyAppend(a: seq<string>, b: seq<string>)
    ensures DropEmpty(a + b) == DropEmpty(a) + DropEmpty(b)
  {
    if a == [] {
      assert a + b == b;
    } else {
      var head := if a[0] == [] then [] else [a[0]];
      calc {
        DropEmpty(a + b);
        { assert a + b == [a[0]] + (a[1..] + b); }
        DropEmpty([a[0]] + (a[1..] + b));
        { DropEmptyCons(a[0], a[1..] + b); }
        head + DropEmpty(a[1..] + b);
        { DropEmptyAppend(a[1..], b); }
        head + (DropEmpty(a[1..]) + DropEmpty(b));
        (head + DropEmpty(a[1..])) + DropEmpty(b);
        { DropEmptyCons(a[0], a[1..]); assert a == [a[0]] + a[1..]; }
        DropEmpty(a) + DropEmpty(b);
      }
    }
  }

  /** One unfolding of the filter on a sequence that starts with `x`. */
  lemma DropEmptyCons(x: string, xs: seq<string>)
    ensures DropEmpty([x] + xs) == (if x == [] then [] else [x]) + DropEmpty(xs)
  {
    assert ([x] + xs)[1..] == xs;
  }

  /** A single element is kept exactly when it is non-empty. */
  lemma DropEmptySingleton(x: string)
    ensures DropEmpty([x]) == if x == [] then [] else [x]
  {
  }

  /** The string branch: with a newline, the trimmed non-empty lines; without
      one, the whole string trimmed (a comma is not a separator). Every
      element is trimmed, and with a newline no element is empty. */
  function RedirectUrisFromString(s: string): (r: seq<string>)
    ensures forall i :: 0 <= i < |r| ==> IsTrimmed(r[i])
    ensures '\n' in s ==> forall i :: 0 <= i < |r| ==> r[i] != []
  {
    if '\n' in s then
      var t := TrimEach(Split(s, '\n'));
      var r := DropEmpty(t);
      DropEmptyMembers(t);
      assert forall i :: 0 <= i < |r| ==> r[i] in t;
      r
    else
      [Trim(s)]
  }

  /** With a newline, a value is among the URIs exactly when it is the trimmed
      form of a line that is not blank. */
  lemma RedirectUrisAreNonBlankLines(s: string, x: string)
    requires '\n' in s
    ensures var lines := Split(s, '\n');
      x in RedirectUrisFromString(s) <==>
        exists k :: 0 <= k < |lines| && x == Trim(lines[k]) && !AllWhitespace(lines[k])
  {
    var lines := Split(s, '\n');
    var t := TrimEach(lines);
    DropEmptyMembers(t);
    if x in RedirectUrisFromString(s) {
      var k :| 0 <= k < |t| && t[k] == x;
      assert x == Trim(lines[k]) && !AllWhitespace(lines[k]);
    }
  }

  /** A value made of two or more newline-free lines gives exactly those
      lines, in order, each trimmed, with the empty ones dropped. */
  lemma RedirectUrisOfLines(ls: seq<string>)
    requires |ls| >= 2
    requires forall i :: 0 <= i < |ls| ==> '\n' !in ls[i]
    ensures RedirectUrisFromString(Join(ls, '\n')) == DropEmpty(TrimEach(ls))
  {
    var s := Join(ls, '\n');
    assert s == ls[0] + ['\n'] + Join(ls[1..], '\n');
    assert s[|ls[0]|] == '\n';
    SplitJoin(ls, '\n');
  }

  /** Without a newline the whole value is one URI, even if it holds commas. */
  lemma RedirectUrisWithoutNewline(s: string)
    requires '\n' !in s
    ensures RedirectUrisFromString(s) == [Trim(s)]
  {
  }

  /** `REDIRECT_URIS`: a string goes through the transform, a list of strings
      is taken unchanged; every resulting element must then be a URL.
      `isUrl` stands for the URL schema, whose rules are the library's. */
  function RedirectUris(v: Json, isUrl: string -> bool): (r: Option<seq<string>>)
    ensures r.Some? ==> forall i :: 0 <= i < |r.value| ==> isUrl(r.value[i])
    ensures v.JString? ==> (r.Some? <==> forall i :: 0 <= i < |RedirectUrisFromString(v.s)| ==> isUrl(RedirectUrisFromString(v.s)[i]))
    ensures v.JString? && r.Some? ==> r.value == RedirectUrisFromString(v.s)
    ensures IsStringList(v) ==> (r.Some? <==> forall i :: 0 <= i < |v.items| ==> isUrl(v.items[i].s))
    ensures IsStringList(v) && r.Some? ==> StringList(r.value) == v.items
    ensures !v.JString? && !IsStringList(v) ==> r.None?
  {
    var uris :- if v.JString? then Some(RedirectUrisFromString(v.s))
                else if IsStringList(v) then Some(Strings(v.items))
                else None;
    if forall i :: 0 <= i < |uris| ==> isUrl(uris[i]) then Some(uris) else None
  }

  /* ---------------------------------------------------------------------
     EnvSchema (src/types.ts:3-25)
     --------------------------------------------------------------------- */

  datatype Env = Env(
    nodeEnv: string,
    port: int,
    issuer: string,
    clientId: string,
    clientSecret: string,
    redirectUris: seq<string>,
    initialUsersFile: string,
    userManagementEnabled: bool)

  const NodeEnvs: set<string> := {"development", "production", "test"}
  const DefaultNodeEnv := "development"
  const DefaultPort := 3000
  const DefaultInitialUsersFile := "./store/users.json"

  function NodeEnvField(vars: map<string, Json>): Option<string>
  {
    if "NODE_ENV" !in vars then Some(DefaultNodeEnv)
    else if vars["NODE_ENV"].JString? && vars["NODE_ENV"].s in NodeEnvs then Some(vars["NODE_ENV"].s)
    else None
  }

  /** A string variable; `default` is used when the key is absent. */
  function StringVar(vars: map<string, Json>, k: string, default: Option<string>): Option<string>
  {
    if k !in vars then default
    else if vars[k].JString? then Some(vars[k].s)
    else None
  }

  /** What the environment schema accepts: `NODE_ENV` absent or one of the
      three names; `PORT` absent or coercible to a number; `ISSUER` a URL
      string; `CLIENT_ID` and `CLIENT_SECRET` strings; `REDIRECT_URIS`
      present and accepted; `INITIAL_USERS_FILE` absent or a string;
      `USER_MANAGEMENT_ENABLED` absent or a boolean string. */
  predicate IsValidEnv(vars: map<string, Json>, isUrl: string -> bool,
                       coerceNumber: Json -> Option<int>, stringBool: Json -> Option<bool>)
  {
    && ("NODE_ENV" in vars ==> vars["NODE_ENV"].JString? && vars["NODE_ENV"].s in NodeEnvs)
    && ("PORT" in vars ==> coerceNumber(vars["PORT"]).Some?)
    && HasString(vars, "ISSUER") && isUrl(vars["ISSUER"].s)
    && HasString(vars, "CLIENT_ID")
    && HasString(vars, "CLIENT_SECRET")
    && "REDIRECT_URIS" in vars && RedirectUris(vars["REDIRECT_URIS"], isUrl).Some?
    && ("INITIAL_USERS_FILE" in vars ==> vars["INITIAL_USERS_FILE"].JString?)
    && ("USER_MANAGEMENT_ENABLED" in vars ==> stringBool(vars["USER_MANAGEMENT_ENABLED"]).Some?)
  }

  /** `EnvSchema.safeParse`. `isUrl`, `coerceNumber` and `stringBool` stand
      for the URL, coerced-number and string-boolean schemas. */
  function ParseEnv(vars: map<string, Json>, isUrl: string -> bool,
                    coerceNumber: Json -> Option<int>, stringBool: Json -> Option<bool>): (r: Option<Env>)
    ensures r.Some? <==> IsValidEnv(vars, isUrl, coerceNumber, stringBool)
    ensures r.Some? ==> r.value.nodeEnv in NodeEnvs
    ensures r.Some? && "NODE_ENV" !in vars ==> r.value.nodeEnv == "development"
    ensures r.Some? && "NODE_ENV" in vars ==> vars["NODE_ENV"] == JString(r.value.nodeEnv)
    ensures r.Some? && "PORT" !in vars ==> r.value.port == 3000
    ensures r.Some? && "PORT" in vars ==> coerceNumber(vars["PORT"]) == Some(r.value.port)
    ensures r.Some? && "INITIAL_USERS_FILE" !in vars ==> r.value.initialUsersFile == "./store/users.json"
    ensures r.Some? && "INITIAL_USERS_FILE" in vars ==>
      vars["INITIAL_USERS_FILE"] == JString(r.value.initialUsersFile)
    ensures r.Some? && "USER_MANAGEMENT_ENABLED" !in vars ==> r.value.userManagementEnabled
    ensures r.Some? && "USER_MANAGEMENT_ENABLED" in vars ==>
      stringBool(vars["USER_MANAGEMENT_ENABLED"]) == Some(r.value.userManagementEnabled)
    ensures r.Some? ==> "ISSUER" in vars && vars["ISSUER"] == JString(r.value.issuer) && isUrl(r.value.issuer)
    ensures r.Some? ==> "CLIENT_ID" in vars && vars["CLIENT_ID"] == JString(r.value.clientId)
    ensures r.Some? ==> "CLIENT_SECRET" in vars && vars["CLIENT_SECRET"] == JString(r.value.clientSecret)
    ensures r.Some? ==>
      "REDIRECT_URIS" in vars && RedirectUris(vars["REDIRECT_URIS"], isUrl) == Some(r.value.redirectUris)
  {
    var nodeEnv :- NodeEnvField(vars);
    var port :- if "PORT" in vars then coerceNumber(vars["PORT"]) else Some(DefaultPort);
    var issuer :- StringVar(vars, "ISSUER", None);
    var _ :- if isUrl(issuer) then Some(issuer) else None;
    var clientId :- StringVar(vars, "CLIENT_ID", None);
    var clientSecret :- StringVar(vars, "CLIENT_SECRET", None);
    var redirectUris :- if "REDIRECT_URIS" in vars then RedirectUris(vars["REDIRECT_URIS"], isUrl) else None;
    var usersFile :- StringVar(vars, "INITIAL_USERS_FILE", Some(DefaultInitialUsersFile));
    var userManagement :- if "USER_MANAGEMENT_ENABLED" in vars then stringBool(vars["USER_MANAGEMENT_ENABLED"]) else Some(true);
    Some(Env(nodeEnv, port, issuer, clientId, clientSecret, redirectUris, usersFile, userManagement))
  }

  /** A defaulted variable never makes the parse fail: removing it from an
      accepted environment still parses, with the default in that field and
      every other field unchanged. */
  lemma EnvDefaultsNeverFail(vars: map<string, Json>, isUrl: string -> bool,
                             coerceNumber: Json -> Option<int>, stringBool: Json -> Option<bool>)
    requires ParseEnv(vars, isUrl, coerceNumber, stringBool).Some?
    ensures var e := ParseEnv(vars, isUrl, coerceNumber, stringBool).value;
      && ParseEnv(vars - {"NODE_ENV"}, isUrl, coerceNumber, stringBool) == Some(e.(nodeEnv := DefaultNodeEnv))
      && ParseEnv(vars - {"PORT"}, isUrl, coerceNumber, stringBool) == Some(e.(port := DefaultPort))
      && ParseEnv(vars - {"INITIAL_USERS_FILE"}, isUrl, coerceNumber, stringBool)
         == Some(e.(initialUsersFile := DefaultInitialUsersFile))
      && ParseEnv(vars - {"USER_MANAGEMENT_ENABLED"}, isUrl, coerceNumber, stringBool)
         == Some(e.(userManagementEnabled := true))
  {
    NodeEnvDefault(vars, isUrl, coerceNumber, stringBool);
    PortDefault(vars, isUrl, coerceNumber, stringBool);
    UsersFileDefault(vars, isUrl, coerceNumber, stringBool);
    UserManagementDefault(vars, isUrl, coerceNumber, stringBool);
  }

  lemma NodeEnvDefault(vars: map<string, Json>, isUrl: string -> bool,
                       coerceNumber: Json -> Option<int>, stringBool: Json -> Option<bool>)
    requires ParseEnv(vars, isUrl, coerceNumber, stringBool).Some?
    ensures ParseEnv(vars - {"NODE_ENV"}, isUrl, coerceNumber, stringBool)
         == Some(ParseEnv(vars, isUrl, coerceNumber, stringBool).value.(nodeEnv := DefaultNodeEnv))
  {
    assert IsValidEnv(vars - {"NODE_ENV"}, isUrl, coerceNumber, stringBool);
  }

  lemma PortDefault(vars: map<string, Json>, isUrl: string -> bool,
                    coerceNumber: Json -> Option<int>, stringBool: Json -> Option<bool>)
    requires ParseEnv(vars, isUrl, coerceNumber, stringBool).Some?
    ensures ParseEnv(vars - {"PORT"}, isUrl, coerceNumber, stringBool)
         == Some(ParseEnv(vars, isUrl, coerceNumber, stringBool).value.(port := DefaultPort))
  {
    assert IsValidEnv(vars - {"PORT"}, isUrl, coerceNumber, stringBool);
  }

  lemma UsersFileDefault(vars: map<string, Json>, isUrl: string -> bool,
                         coerceNumber: Json -> Option<int>, stringBool: Json -> Option<bool>)
    requires ParseEnv(vars, isUrl, coerceNumber, stringBool).Some?
    ensures ParseEnv(vars - {"INITIAL_USERS_FILE"}, isUrl, coerceNumber, stringBool)
         == Some(ParseEnv(vars, isUrl, coerceNumber, stringBool).value.(initialUsersFile := DefaultInitialUsersFile))
  {
    assert IsValidEnv(vars - {"INITIAL_USERS_FILE"}, isUrl, coerceNumber, stringBool);
  }

  lemma UserManagementDefault(vars: map<string, Json>, isUrl: string -> bool,
                              coerceNumber: Json -> Option<int>, stringBool: Json -> Option<bool>)
    requires ParseEnv(vars, isUrl, coerceNumber, stringBool).Some?
    ensures ParseEnv(vars - {"USER_MANAGEMENT_ENABLED"}, isUrl, coerceNumber, stringBool)
         == Some(ParseEnv(vars, isUrl, coerceNumber, stringBool).value.(userManagementEnabled := true))
  {
    assert IsValidEnv(vars - {"USER_MANAGEMENT_ENABLED"}, isUrl, coerceNumber, stringBool);
  }
}
