/** The identity behind an AWS assumed-role ARN (api/v1/user_identity.go).

    Strings are sequences of characters.  Every separator, prefix, suffix and
    digit the parser looks for is a one-byte character, so splitting characters
    and splitting UTF-8 bytes give the same parts.
 */
module UserIdentities {
  import opened Wrappers

  datatype UserIdentity = UserIdentity(accountId: string, userName: string, roleName: string)

  const VALID_GDS_USERS_ROLES: seq<string> :=
    ["-fulladmin", "-tempadmin", "-platformengineer", "-developer", "-readonly", "-ithctester"]

  // ---------- the string operations of the parser ----------

  predicate HasSuffix(s: string, suffix: string) {
    |suffix| <= |s| && s[|s| - |suffix|..] == suffix
  }

  /** The position of the first `c`, or the length when there is none. */
  function IndexOf(s: string, c: char): (i: nat)
    ensures i <= |s|
    ensures forall j :: 0 <= j < i ==> s[j] != c
    ensures i < |s| ==> s[i] == c
  {
    if s == "" || s[0] == c then 0 else 1 + IndexOf(s[1..], c)
  }

  /** At most `n` parts; the last one is the unsplit remainder. */
  function SplitN(s: string, c: char, n: nat): seq<string>
    requires n > 0
    decreases |s|
  {
    var i := IndexOf(s, c);
    if n == 1 || i == |s| then [s] else [s[..i]] + SplitN(s[i + 1..], c, n - 1)
  }

  // ---------- the parser ----------

  predicate Digits(s: string) {
    forall i :: 0 <= i < |s| ==> '0' <= s[i] <= '9'
  }

  predicate ValidAccountId(account: string) {
    12 <= |account| && Digits(account[..12])
  }

  predicate IsAssumedRole(parts: seq<string>) {
    && |parts| == 6
    && parts[0] == "arn" && parts[1] == "aws" && parts[2] == "sts"
    && ValidAccountId(parts[4])
    && "assumed-role" <= parts[5]
  }

  /** The first listed suffix of the role name decides. */
  function GdsUsersIdentity(roles: seq<string>, roleName: string): (r: Option<UserIdentity>)
    ensures r.Some? ==> r.value.accountId == ""
  {
    if roles == [] then None
    else if HasSuffix(roleName, roles[0]) then
      Some(UserIdentity("", roleName[..|roleName| - |roles[0]|], TrimHyphen(roles[0])))
    else GdsUsersIdentity(roles[1..], roleName)
  }

  function TrimHyphen(s: string): string {
    if s != "" && s[0] == '-' then s[1..] else s
  }

  function EntraIdIdentity(roleName: string, sessionName: string): Option<UserIdentity> {
    if '@' in sessionName then Some(UserIdentity("", sessionName, roleName)) else None
  }

  function ParseWith(roles: seq<string>, arn: string): Option<UserIdentity> {
    var parts := SplitN(arn, ':', 7);
    if !IsAssumedRole(parts) then None else
    var names := SplitN(parts[5], '/', 4);
    if |names| != 3 then None else
    var gds := GdsUsersIdentity(roles, names[1]);
    var identity := if gds.Some? then gds else EntraIdIdentity(names[1], names[2]);
    if identity.None? then None else Some(identity.value.(accountId := parts[4]))
  }

  function ParseUserIdentity(arn: string): Option<UserIdentity> {
    ParseWith(VALID_GDS_USERS_ROLES, arn)
  }

  /** The loop over the listed suffixes, with its early return. */
  method ParseGdsUsersARN(roleName: string, sessionName: string) returns (identity: Option<UserIdentity>)
    ensures identity == GdsUsersIdentity(VALID_GDS_USERS_ROLES, roleName)
    ensures identity.None? <==> !EndsInUserRole(roleName)
    ensures identity.Some? ==>
              && identity.value.accountId == "" && UserRole(identity.value.roleName)
              && roleName == identity.value.userName + "-" + identity.value.roleName
  {
    GdsUsersOf(roleName);
    for i := 0 to |VALID_GDS_USERS_ROLES|
      invariant GdsUsersIdentity(VALID_GDS_USERS_ROLES, roleName) == GdsUsersIdentity(VALID_GDS_USERS_ROLES[i..], roleName)
    {
      var validRole := VALID_GDS_USERS_ROLES[i];
      if HasSuffix(roleName, validRole) {
        return Some(UserIdentity("", roleName[..|roleName| - |validRole|], TrimHyphen(validRole)));
      }
    }
    return None;
  }

  method ParseUserIdentityFromARN(arn: string) returns (result: Option<UserIdentity>)
    ensures result == ParseUserIdentity(arn)
    ensures forall id :: result == Some(id) <==> Means(arn, id)
  {
    forall id: UserIdentity {
      ParseExactly(arn, id);
    }
    hide SplitN, Means;
    var arnParts := SplitN(arn, ':', 7);
    if !IsAssumedRole(arnParts) {
      return None;
    }
    var identityParts := SplitN(arnParts[5], '/', 4);
    if |identityParts| != 3 {
      return None;
    }
    var accountId := arnParts[4];
    var roleName := identityParts[1];
    var sessionName := identityParts[2];
    var userIdentity := ParseGdsUsersARN(roleName, sessionName);
    if userIdentity.None? {
      userIdentity := EntraIdIdentity(roleName, sessionName);
    }
    if userIdentity.None? {
      return None;
    }
    return Some(userIdentity.value.(accountId := accountId));
  }

  // ---------- splitting and joining are inverse ----------

  function Join(parts: seq<string>, c: char): string
    requires parts != []
  {
    if |parts| == 1 then parts[0] else parts[0] + [c] + Join(parts[1..], c)
  }

  /** No part contains the separator. */
  predicate Free(parts: seq<string>, c: char) {
    forall i :: 0 <= i < |parts| ==> c !in parts[i]
  }

  lemma IndexOfConcat(p: string, c: char, rest: string)
    requires c !in p
    ensures IndexOf(p + [c] + rest, c) == |p|
  {
    var s := p + [c] + rest;
    assert s[|p|] == c;
    assert forall j :: 0 <= j < |p| ==> s[j] == p[j];
  }

  lemma SplitFirst(p: string, c: char, rest: string, n: nat)
    requires n > 1 && c !in p
    ensures SplitN(p + [c] + rest, c, n) == [p] + SplitN(rest, c, n - 1)
  {
    var s := p + [c] + rest;
    IndexOfConcat(p, c, rest);
    assert s[..|p|] == p && s[|p| + 1..] == rest;
  }

  lemma {:induction false} SplitJoin(parts: seq<string>, c: char, n: nat)
    requires 0 < |parts| <= n && Free(parts, c)
    ensures SplitN(Join(parts, c), c, n) == parts
    decreases n
  {
    var tail := parts[1..];
    assert parts == [parts[0]] + tail;
    if tail == [] {
      assert IndexOf(parts[0], c) == |parts[0]|;
    } else {
      SplitJoin(tail, c, n - 1);
      SplitFirst(parts[0], c, Join(tail, c), n);
    }
  }

  lemma {:induction false} JoinSplit(s: string, c: char, n: nat)
    requires n > 0
    ensures 0 < |SplitN(s, c, n)| <= n && Join(SplitN(s, c, n), c) == s
    ensures |SplitN(s, c, n)| < n ==> Free(SplitN(s, c, n), c)
    decreases n
  {
    hide SplitN, Join, Free;
    SplitUnfolds(s, c, n);
    var i := IndexOf(s, c);
    if n > 1 && i < |s| {
      var head, tail := s[..i], SplitN(s[i + 1..], c, n - 1);
      JoinSplit(s[i + 1..], c, n - 1);
      JoinHead(head, tail, c);
      assert s == head + [c] + s[i + 1..];
      if |tail| < n - 1 {
        FreeHead(head, tail, c);
      }
    } else {
      JoinOne(s, c);
      if i == |s| {
        FreeOne(s, c);
      }
    }
  }

  /** One step of the split: at its limit or without a separator it keeps the whole string. */
  lemma SplitUnfolds(s: string, c: char, n: nat)
    requires n > 0
    ensures var i := IndexOf(s, c);
            SplitN(s, c, n) == if n == 1 || i == |s| then [s] else [s[..i]] + SplitN(s[i + 1..], c, n - 1)
  {
  }

  lemma JoinHead(head: string, tail: seq<string>, c: char)
    requires tail != []
    ensures Join([head] + tail, c) == head + [c] + Join(tail, c)
  {
    assert ([head] + tail)[1..] == tail;
  }

  lemma JoinOne(s: string, c: char)
    ensures Join([s], c) == s
  {
  }

  lemma FreeHead(head: string, tail: seq<string>, c: char)
    requires c !in head && Free(tail, c)
    ensures Free([head] + tail, c)
  {
  }

  lemma FreeOne(s: string, c: char)
    requires c !in s
    ensures Free([s], c)
  {
  }

  // ---------- the grammar, independent of the parser ----------

  /** The free parts of an assumed-role ARN. */
  datatype Arn = Arn(region: string, account: string, kind: string, role: string, session: string)

  function Resource(a: Arn): string {
    a.kind + "/" + a.role + "/" + a.session
  }

  function Render(a: Arn): string {
    Join(["arn", "aws", "sts", a.region, a.account, Resource(a)], ':')
  }

  /** No separator at all. */
  predicate Clean(s: string) {
    ':' !in s && '/' !in s
  }

  /** Twelve digits, and whatever follows. */
  predicate TwelveDigits(account: string) {
    12 <= |account| && forall i :: 0 <= i < 12 ==> '0' <= account[i] <= '9'
  }

  predicate WellFormed(a: Arn) {
    && ':' !in a.region && ':' !in a.account
    && Clean(a.kind) && Clean(a.role) && Clean(a.session)
    && TwelveDigits(a.account)
    && "assumed-role" <= a.kind
  }

  /** The roles in which a gds-users user can be. */
  predicate UserRole(role: string) {
    role in {"fulladmin", "tempadmin", "platformengineer", "developer", "readonly", "ithctester"}
  }

  /** A user name, a hyphen and one of these roles. */
  ghost predicate EndsInUserRole(name: string) {
    exists user, role :: UserRole(role) && name == UserInRole(user, role)
  }

  function UserInRole(user: string, role: string): string {
    user + "-" + role
  }

  /** The meaning of an ARN: a user in one of the roles, or else the mail address of the session in whatever role. */
  ghost predicate Means(arn: string, id: UserIdentity) {
    exists a :: arn == Render(a) && WellFormed(a) && a.account == id.accountId &&
      if EndsInUserRole(a.role) then UserRole(id.roleName) && a.role == id.userName + "-" + id.roleName
      else '@' in a.session && a.session == id.userName && a.role == id.roleName
  }

  /** The role name is a user name followed by one of the listed suffixes. */
  ghost predicate GdsRole(roles: seq<string>, role: string, user: string, suffix: string) {
    suffix in roles && role == user + suffix
  }

  ghost predicate EntraRole(roles: seq<string>, role: string) {
    forall user, suffix :: !GdsRole(roles, role, user, suffix)
  }

  ghost predicate Denotes(roles: seq<string>, a: Arn, id: UserIdentity) {
    && id.accountId == a.account
    && (GdsRole(roles, a.role, id.userName, "-" + id.roleName)
        || (EntraRole(roles, a.role) && '@' in a.session && id.userName == a.session && id.roleName == a.role))
  }

  /** Some identity is recognised in the parts. */
  ghost predicate Recognised(roles: seq<string>, a: Arn) {
    !EntraRole(roles, a.role) || '@' in a.session
  }

  // ---------- suffixes ----------

  /** A hyphen followed by hyphen-free text. */
  predicate Hyphenated(s: string) {
    |s| > 1 && s[0] == '-' && forall i :: 1 <= i < |s| ==> s[i] != '-'
  }

  predicate AllHyphenated(roles: seq<string>) {
    forall r :: r in roles ==> Hyphenated(r)
  }

  lemma ListedSuffixes()
    ensures AllHyphenated(VALID_GDS_USERS_ROLES)
    ensures forall r :: r in VALID_GDS_USERS_ROLES ==> Clean(r)
  {
    forall r | r in VALID_GDS_USERS_ROLES
      ensures Hyphenated(r) && Clean(r)
    {
      ListedSuffix(r);
    }
  }

  lemma ListedSuffix(r: string)
    requires r in VALID_GDS_USERS_ROLES
    ensures Hyphenated(r) && Clean(r)
  {
    if r == "-fulladmin" {
    } else if r == "-tempadmin" {
    } else if r == "-platformengineer" {
    } else if r == "-developer" {
    } else if r == "-readonly" {
    } else {
      assert r == "-ithctester";
    }
  }

  /** At most one hyphenated suffix matches any role name. */
  lemma SuffixUnique(role: string, s: string, t: string)
    requires Hyphenated(s) && Hyphenated(t)
    requires HasSuffix(role, s) && HasSuffix(role, t)
    ensures s == t
  {
    assert role[|role| - |s|] == s[0] && role[|role| - |t|] == t[0];
    assert forall j :: 0 <= j < |s| ==> s[j] == role[|role| - |s| + j];
    assert forall j :: 0 <= j < |t| ==> t[j] == role[|role| - |t| + j];
  }

  /** What the first match returns: none without a match, else the split at any matching suffix. */
  lemma {:induction false} FirstMatch(roles: seq<string>, role: string)
    requires AllHyphenated(roles)
    ensures GdsUsersIdentity(roles, role).None? ==> forall s :: s in roles ==> !HasSuffix(role, s)
    ensures forall s :: s in roles && HasSuffix(role, s) ==>
              GdsUsersIdentity(roles, role) == Some(UserIdentity("", role[..|role| - |s|], s[1..]))
  {
    if roles != [] {
      FirstMatch(roles[1..], role);
      forall s | s in roles && HasSuffix(role, s)
        ensures GdsUsersIdentity(roles, role) == Some(UserIdentity("", role[..|role| - |s|], s[1..]))
      {
        assert s == roles[0] || s in roles[1..];
        if HasSuffix(role, roles[0]) {
          SuffixUnique(role, s, roles[0]);
        }
      }
    }
  }

  /** A result always comes from a listed suffix. */
  lemma {:induction false} MatchIsListed(roles: seq<string>, role: string) returns (s: string)
    requires GdsUsersIdentity(roles, role).Some?
    ensures s in roles && HasSuffix(role, s)
  {
    if HasSuffix(role, roles[0]) {
      s := roles[0];
    } else {
      s := MatchIsListed(roles[1..], role);
    }
  }

  /** The order in which the suffixes are listed never matters. */
  lemma OrderOfRolesIrrelevant(roles: seq<string>, role: string)
    requires forall r :: r in roles <==> r in VALID_GDS_USERS_ROLES
    ensures GdsUsersIdentity(roles, role) == GdsUsersIdentity(VALID_GDS_USERS_ROLES, role)
  {
    ListedSuffixes();
    SameSetSameMatch(roles, VALID_GDS_USERS_ROLES, role);
  }

  lemma SameSetSameMatch(roles: seq<string>, others: seq<string>, role: string)
    requires forall r :: r in roles <==> r in others
    requires AllHyphenated(others)
    ensures GdsUsersIdentity(roles, role) == GdsUsersIdentity(others, role)
  {
    FirstMatch(roles, role);
    FirstMatch(others, role);
    if GdsUsersIdentity(others, role).Some? {
      var s := MatchIsListed(others, role);
    }
    if GdsUsersIdentity(roles, role).Some? {
      var s := MatchIsListed(roles, role);
    }
  }

  /** A match splits the role name as user name, hyphen, listed role; and every such split is the match. */
  lemma GdsMatch(roles: seq<string>, role: string, id: UserIdentity)
    requires AllHyphenated(roles)
    ensures GdsUsersIdentity(roles, role) == Some(id)
            <==> id.accountId == "" && GdsRole(roles, role, id.userName, "-" + id.roleName)
    ensures GdsUsersIdentity(roles, role).None? <==> EntraRole(roles, role)
  {
    FirstMatch(roles, role);
    var found := GdsUsersIdentity(roles, role);
    if found.Some? {
      var s := MatchIsListed(roles, role);
      assert s == "-" + s[1..] && role == role[..|role| - |s|] + s;
      assert GdsRole(roles, role, role[..|role| - |s|], s);
    }
    forall user, suffix | GdsRole(roles, role, user, suffix)
      ensures found == Some(UserIdentity("", user, suffix[1..]))
    {
      assert HasSuffix(role, suffix) && role[..|role| - |suffix|] == user;
    }
    assert ("-" + id.roleName)[1..] == id.roleName;
  }

  // ---------- exactness and round trip ----------

  lemma SplitRendered(a: Arn)
    requires WellFormed(a)
    ensures SplitN(Render(a), ':', 7) == ["arn", "aws", "sts", a.region, a.account, Resource(a)]
    ensures SplitN(Resource(a), '/', 4) == [a.kind, a.role, a.session]
    ensures "assumed-role" <= Resource(a)
  {
    ResourceJoins(a);
    SplitJoin(["arn", "aws", "sts", a.region, a.account, Resource(a)], ':', 7);
    SplitJoin([a.kind, a.role, a.session], '/', 4);
  }

  lemma ResourceJoins(a: Arn)
    ensures Join([a.kind, a.role, a.session], '/') == Resource(a)
  {
    var parts := [a.kind, a.role, a.session];
    assert parts[1..] == [a.role, a.session] && parts[1..][1..] == [a.session];
    assert Join([a.session], '/') == a.session;
    assert Join([a.role, a.session], '/') == a.role + "/" + a.session;
  }

  /** What the parser answers once the parts are known. */
  function Answer(roles: seq<string>, a: Arn): Option<UserIdentity> {
    var gds := GdsUsersIdentity(roles, a.role);
    if gds.Some? then Some(gds.value.(accountId := a.account))
    else if '@' in a.session then Some(UserIdentity(a.account, a.session, a.role))
    else None
  }

  lemma AccountChecked(account: string)
    ensures ValidAccountId(account) <==> TwelveDigits(account)
  {
  }

  lemma ParseIsAnswer(roles: seq<string>, a: Arn)
    requires WellFormed(a)
    ensures ParseWith(roles, Render(a)) == Answer(roles, a)
  {
    hide SplitN, Render, Resource, ValidAccountId, TwelveDigits, Clean, GdsUsersIdentity;
    SplitRendered(a);
    AccountChecked(a.account);
  }

  /** A rendered ARN parses to exactly the identity its parts denote. */
  lemma ParseRendered(roles: seq<string>, a: Arn, id: UserIdentity)
    requires WellFormed(a) && AllHyphenated(roles)
    ensures ParseWith(roles, Render(a)) == Some(id) <==> Denotes(roles, a, id)
    ensures ParseWith(roles, Render(a)).Some? <==> Recognised(roles, a)
  {
    ParseIsAnswer(roles, a);
    var named := UserIdentity("", id.userName, id.roleName);
    GdsMatch(roles, a.role, named);
    var gds := GdsUsersIdentity(roles, a.role);
    if gds.Some? {
      assert Answer(roles, a) == Some(id) <==> gds == Some(named) && id.accountId == a.account;
    }
  }

  /** The six parts of an accepted string, seen as an ARN. */
  lemma Decompose(arn: string) returns (a: Arn)
    requires IsAssumedRole(SplitN(arn, ':', 7)) && |SplitN(SplitN(arn, ':', 7)[5], '/', 4)| == 3
    ensures WellFormed(a) && arn == Render(a)
  {
    hide SplitN, Join, Render, Resource, ValidAccountId, Free, WellFormed;
    var parts := SplitN(arn, ':', 7);
    var names := SplitN(parts[5], '/', 4);
    JoinSplit(arn, ':', 7);
    JoinSplit(parts[5], '/', 4);
    a := Arn(parts[3], parts[4], names[0], names[1], names[2]);
    ResourceJoins(a);
    assert names == [a.kind, a.role, a.session];
    RebuildParts(a, parts);
    FreePartsWellFormed(a, parts, names);
  }

  lemma FreePartsWellFormed(a: Arn, parts: seq<string>, names: seq<string>)
    requires IsAssumedRole(parts) && parts[3] == a.region && parts[4] == a.account && parts[5] == Resource(a)
    requires names == [a.kind, a.role, a.session] && Free(parts, ':') && Free(names, '/')
    ensures WellFormed(a)
  {
    hide ValidAccountId, TwelveDigits, Resource;
    AccountChecked(a.account);
    assert '/' !in names[0] && '/' !in names[1] && '/' !in names[2];
    CleanParts(a);
    KindHoldsPrefix(a);
  }

  lemma RebuildParts(a: Arn, parts: seq<string>)
    requires IsAssumedRole(parts) && parts[3] == a.region && parts[4] == a.account && parts[5] == Resource(a)
    ensures Join(parts, ':') == Render(a)
  {
    assert parts == ["arn", "aws", "sts", a.region, a.account, Resource(a)];
  }

  lemma CleanParts(a: Arn)
    requires ':' !in Resource(a)
    ensures ':' !in a.kind && ':' !in a.role && ':' !in a.session
  {
    var r := Resource(a);
    assert a.kind == r[..|a.kind|];
    assert a.role == r[|a.kind| + 1..|a.kind| + 1 + |a.role|];
    assert a.session == r[|a.kind| + |a.role| + 2..];
  }

  /** The required prefix holds no slash, so it lies within the part before the first slash. */
  lemma KindHoldsPrefix(a: Arn)
    requires "assumed-role" <= Resource(a)
    ensures "assumed-role" <= a.kind
  {
    assert '/' !in "assumed-role";
    assert Resource(a)[|a.kind|] == '/';
    assert forall i :: 0 <= i < 12 ==> Resource(a)[i] == "assumed-role"[i];
    assert 12 <= |a.kind|;
    assert Resource(a)[..12] == a.kind[..12];
  }

  /** The parser answers with an identity exactly when that is what the string means; so with none when it means nothing. */
  lemma ParseExactly(arn: string, id: UserIdentity)
    ensures ParseUserIdentity(arn) == Some(id) <==> Means(arn, id)
  {
    hide WellFormed, Render, Denotes, EndsInUserRole, UserRole, ParseWith;
    ListedSuffixes();
    if ParseUserIdentity(arn) == Some(id) {
      var a := DecomposeParsed(VALID_GDS_USERS_ROLES, arn);
      ParseRendered(VALID_GDS_USERS_ROLES, a, id);
      DenotesMeaning(a, id);
    }
    forall a | arn == Render(a) && WellFormed(a)
      ensures ParseUserIdentity(arn) == Some(id) <==> Denotes(VALID_GDS_USERS_ROLES, a, id)
    {
      ParseRendered(VALID_GDS_USERS_ROLES, a, id);
    }
    forall a
      ensures Denotes(VALID_GDS_USERS_ROLES, a, id)
              <==> && a.account == id.accountId
                   && if EndsInUserRole(a.role) then UserRole(id.roleName) && a.role == id.userName + "-" + id.roleName
                      else '@' in a.session && a.session == id.userName && a.role == id.roleName
    {
      DenotesMeaning(a, id);
    }
  }

  lemma DecomposeParsed(roles: seq<string>, arn: string) returns (a: Arn)
    requires ParseWith(roles, arn).Some?
    ensures WellFormed(a) && arn == Render(a)
  {
    a := Decompose(arn);
  }

  /** The listed suffixes are the six roles, each after a hyphen. */
  lemma ListedRoles(role: string)
    ensures "-" + role in VALID_GDS_USERS_ROLES <==> UserRole(role)
  {
    var suffix := "-" + role;
    assert suffix[1..] == role;
    if suffix in VALID_GDS_USERS_ROLES {
      if suffix == "-fulladmin" {
        assert role == "fulladmin";
      } else if suffix == "-tempadmin" {
        assert role == "tempadmin";
      } else if suffix == "-platformengineer" {
        assert role == "platformengineer";
      } else if suffix == "-developer" {
        assert role == "developer";
      } else if suffix == "-readonly" {
        assert role == "readonly";
      } else {
        assert suffix == "-ithctester" && role == "ithctester";
      }
    }
    if UserRole(role) {
      ListedRole(role);
    }
  }

  lemma ListedRole(role: string)
    requires UserRole(role)
    ensures "-" + role in VALID_GDS_USERS_ROLES
  {
    var roles := VALID_GDS_USERS_ROLES;
    assert "-" + "fulladmin" == roles[0] && "-" + "tempadmin" == roles[1] && "-" + "platformengineer" == roles[2];
    assert "-" + "developer" == roles[3] && "-" + "readonly" == roles[4] && "-" + "ithctester" == roles[5];
  }

  /** No listed suffix ends the name exactly when it does not end in one of the roles. */
  lemma EntraExactly(name: string)
    ensures EntraRole(VALID_GDS_USERS_ROLES, name) <==> !EndsInUserRole(name)
  {
    hide UserRole;
    if !EntraRole(VALID_GDS_USERS_ROLES, name) {
      var user, suffix :| GdsRole(VALID_GDS_USERS_ROLES, name, user, suffix);
      ListedSuffixes();
      var role := suffix[1..];
      assert suffix == "-" + role;
      ListedRoles(role);
      assert name == UserInRole(user, role);
    }
    forall user, role | UserRole(role) && name == UserInRole(user, role)
      ensures GdsRole(VALID_GDS_USERS_ROLES, name, user, "-" + role)
    {
      ListedRoles(role);
      assert user + "-" + role == user + ("-" + role);
    }
  }

  lemma DenotesMeaning(a: Arn, id: UserIdentity)
    ensures Denotes(VALID_GDS_USERS_ROLES, a, id)
            <==> && a.account == id.accountId
                 && if EndsInUserRole(a.role) then UserRole(id.roleName) && a.role == id.userName + "-" + id.roleName
                    else '@' in a.session && a.session == id.userName && a.role == id.roleName
  {
    hide UserRole;
    ListedRoles(id.roleName);
    EntraExactly(a.role);
    assert id.userName + "-" + id.roleName == id.userName + ("-" + id.roleName) == UserInRole(id.userName, id.roleName);
  }

  /** What the listed suffixes give for a role name. */
  lemma GdsUsersOf(name: string)
    ensures var identity := GdsUsersIdentity(VALID_GDS_USERS_ROLES, name);
            && (identity.None? <==> !EndsInUserRole(name))
            && (identity.Some? ==> && identity.value.accountId == "" && UserRole(identity.value.roleName)
                                   && name == identity.value.userName + "-" + identity.value.roleName)
  {
    hide UserRole, EndsInUserRole, GdsUsersIdentity;
    ListedSuffixes();
    EntraExactly(name);
    var identity := GdsUsersIdentity(VALID_GDS_USERS_ROLES, name);
    if identity.Some? {
      var id := identity.value;
      GdsMatch(VALID_GDS_USERS_ROLES, name, id);
      ListedRoles(id.roleName);
      assert id.userName + "-" + id.roleName == id.userName + ("-" + id.roleName);
    } else {
      GdsMatch(VALID_GDS_USERS_ROLES, name, UserIdentity("", "", ""));
    }
  }

  /** gds-users identities survive rendering and parsing. */
  lemma GdsRoundTrip(region: string, account: string, user: string, role: string, session: string)
    requires role in {"fulladmin", "tempadmin", "platformengineer", "developer", "readonly", "ithctester"}
    requires ':' !in region && ':' !in account && Clean(user) && Clean(session)
    requires 12 <= |account| && forall i :: 0 <= i < 12 ==> '0' <= account[i] <= '9'
    ensures ParseUserIdentity(Render(Arn(region, account, "assumed-role", user + "-" + role, session)))
            == Some(UserIdentity(account, user, role))
  {
    hide Render, ParseWith, Clean, AllHyphenated;
    ListedSuffixes();
    ListedRoles(role);
    GdsRoundTripWith(VALID_GDS_USERS_ROLES, region, account, user, role, session);
  }

  lemma GdsRoundTripWith(roles: seq<string>, region: string, account: string, user: string, role: string, session: string)
    requires AllHyphenated(roles) && "-" + role in roles && Clean("-" + role)
    requires ':' !in region && ':' !in account && Clean(user) && Clean(session) && TwelveDigits(account)
    ensures ParseWith(roles, Render(Arn(region, account, "assumed-role", user + "-" + role, session)))
            == Some(UserIdentity(account, user, role))
  {
    var a := Arn(region, account, "assumed-role", user + "-" + role, session);
    assert a.role == user + ("-" + role);
    assert GdsRole(roles, a.role, user, "-" + role);
    ParseRendered(roles, a, UserIdentity(account, user, role));
  }

  /** EntraID identities survive too, unless their role name ends in one of these roles. */
  lemma EntraRoundTrip(region: string, account: string, user: string, role: string)
    requires !EndsInUserRole(role) && '@' in user
    requires ':' !in region && ':' !in account && Clean(user) && Clean(role)
    requires 12 <= |account| && forall i :: 0 <= i < 12 ==> '0' <= account[i] <= '9'
    ensures ParseUserIdentity(Render(Arn(region, account, "assumed-role", role, user)))
            == Some(UserIdentity(account, user, role))
  {
    ListedSuffixes();
    EntraExactly(role);
    ParseRendered(VALID_GDS_USERS_ROLES, Arn(region, account, "assumed-role", role, user), UserIdentity(account, user, role));
  }
}
