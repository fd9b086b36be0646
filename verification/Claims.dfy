/** JWT claims on the wire: what encoding/json reads from any object with the right members, and how tokens of the two
    claim versions read each other. */
module Claims {
  import opened Basics

  // ---------------------------------------------------------------- objects and fields

  type Atom(==, !new)

  type Uint64 = n: int | 0 <= n < 0x1_0000_0000_0000_0000

  datatype Json = Number(n: int) | Text(s: string) | Boolean(b: bool) | Null | Other(o: Atom)

  /** The registered claims of section 4.1 of RFC 7519. */
  datatype RegisteredName = ISS | SUB | AUD | EXP | NBF | IAT | JTI

  /** A member of an object. A registered claim under its own name is kept apart from other keys, which may still be
      read as one when only their case differs. */
  datatype Member = Registered(name: RegisteredName, value: Json) | Named(key: string, value: Json)

  datatype Field =
    | Id | OnboardingId | Email | Role | IsVerify | UserId | LegacyVerify | Username | RoleId
    | Reg(name: RegisteredName)

  /** A struct field: its JSON name and that name case-folded. */
  datatype Tag = Tag(name: string, folded: string, field: Field)

  function FoldChar(c: char): char {
    if 'A' <= c <= 'Z' then (c as int + 32) as char
    else if c == '\U{212A}' then 'k'
    else if c == '\U{17F}' then 's'
    else c
  }

  function FoldCase(s: string): string { seq(|s|, i requires 0 <= i < |s| => FoldChar(s[i])) }

  function Exact(tags: seq<Tag>, key: string): Option<Field> {
    if |tags| == 0 then None else if tags[0].name == key then Some(tags[0].field) else Exact(tags[1..], key)
  }

  function Folded(tags: seq<Tag>, key: string): Option<Field> {
    if |tags| == 0 then None else if tags[0].folded == key then Some(tags[0].field) else Folded(tags[1..], key)
  }

  /** encoding/json prefers an exact name and falls back to the first case-folded one. */
  function Lookup(tags: seq<Tag>, key: string): Option<Field> {
    if Exact(tags, key).Some? then Exact(tags, key) else Folded(tags, FoldCase(key))
  }

  function RegisteredKey(folded: string): Option<RegisteredName> {
    if folded == "iss" then Some(ISS)
    else if folded == "sub" then Some(SUB)
    else if folded == "aud" then Some(AUD)
    else if folded == "exp" then Some(EXP)
    else if folded == "nbf" then Some(NBF)
    else if folded == "iat" then Some(IAT)
    else if folded == "jti" then Some(JTI)
    else None
  }

  /** The names of a struct and those of the registered claims embedded in it; no two of them fold alike. */
  function Resolve(tags: seq<Tag>, key: string): Option<Field> {
    if Lookup(tags, key).Some? then Lookup(tags, key)
    else
      match RegisteredKey(FoldCase(key))
      case Some(name) => Some(Reg(name))
      case None => None
  }

  function Target(tags: seq<Tag>, m: Member): Option<Field> {
    match m
    case Registered(name, _) => Some(Reg(name))
    case Named(key, _) => Resolve(tags, key)
  }

  // ---------------------------------------------------------------- decoding

  /** What the JWT library's own readers of dates and audiences accept is left open. */
  const LIBRARY_READS: (RegisteredName, Json) -> bool

  predicate Accepts(f: Field, v: Json) {
    v.Null? ||
    match f
    case Id | OnboardingId | UserId => v.Number? && 0 <= v.n < 0x1_0000_0000_0000_0000
    case Email | Role | Username => v.Text?
    case IsVerify | LegacyVerify => v.Boolean?
    case RoleId => v.Other?
    case Reg(name) => if IsString(name) then v.Text? else LIBRARY_READS(name, v)
  }

  predicate IsString(name: RegisteredName) { name == ISS || name == SUB || name == JTI }

  /** Null clears a slice or a pointer and leaves other fields alone, the audience with its own reader included. */
  predicate Clears(f: Field) { f == RoleId || f == Reg(EXP) || f == Reg(NBF) || f == Reg(IAT) }

  type Record = map<Field, Json>

  function Get(r: Record, f: Field): Option<Json> { if f in r then Some(r[f]) else None }

  function Put(r: Record, f: Field, v: Json): Record {
    if !v.Null? then r[f := v] else if Clears(f) then r - {f} else r
  }

  /** Members are read in order; unknown keys are skipped, and a value of the wrong type makes the whole read fail. */
  function Decode(tags: seq<Tag>, ms: seq<Member>): Option<Record> {
    if |ms| == 0 then Some(map[])
    else
      var last := ms[|ms| - 1];
      var before := Decode(tags, ms[..|ms| - 1]);
      match Target(tags, last)
      case None => before
      case Some(f) =>
        if before.Some? && Accepts(f, last.value) then Some(Put(before.value, f, last.value)) else None
  }

  /** The values a field is given, in order. */
  function Values(tags: seq<Tag>, ms: seq<Member>, f: Field): seq<Json> {
    if |ms| == 0 then []
    else
      var last := ms[|ms| - 1];
      var before := Values(tags, ms[..|ms| - 1], f);
      if Target(tags, last) == Some(f) then before + [last.value] else before
  }

  function Final(f: Field, vs: seq<Json>): Option<Json> {
    if |vs| == 0 then None
    else
      var v := vs[|vs| - 1];
      if !v.Null? then Some(v) else if Clears(f) then None else Final(f, vs[..|vs| - 1])
  }

  ghost predicate AllAccepted(tags: seq<Tag>, ms: seq<Member>) {
    forall f, v :: v in Values(tags, ms, f) ==> Accepts(f, v)
  }

  lemma {:induction false} ValuesSnoc(tags: seq<Tag>, ms: seq<Member>, m: Member, f: Field)
    ensures Values(tags, ms + [m], f)
            == if Target(tags, m) == Some(f) then Values(tags, ms, f) + [m.value] else Values(tags, ms, f)
  {
    assert (ms + [m])[..|ms|] == ms;
  }

  lemma {:induction false} FinalSnoc(f: Field, vs: seq<Json>, v: Json)
    ensures Final(f, vs + [v]) == if !v.Null? then Some(v) else if Clears(f) then None else Final(f, vs)
  {
    assert (vs + [v])[..|vs|] == vs;
  }

  /** Reading is field by field: it succeeds if every field accepts all its values, and each field ends up with its
      last value. */
  lemma {:induction false} DecodeIsFieldwise(tags: seq<Tag>, ms: seq<Member>)
    ensures Decode(tags, ms).Some? <==> AllAccepted(tags, ms)
    ensures Decode(tags, ms).Some? ==>
              forall f :: Get(Decode(tags, ms).value, f) == Final(f, Values(tags, ms, f))
    decreases |ms|
  {
    if |ms| > 0 {
      var before, m := ms[..|ms| - 1], ms[|ms| - 1];
      DecodeIsFieldwise(tags, before);
      assert ms == before + [m];
      forall f
        ensures Values(tags, ms, f)
                == if Target(tags, m) == Some(f) then Values(tags, before, f) + [m.value] else Values(tags, before, f)
        ensures Final(f, Values(tags, before, f) + [m.value])
                == if !m.value.Null? then Some(m.value) else if Clears(f) then None
                   else Final(f, Values(tags, before, f))
      {
        ValuesSnoc(tags, before, m, f);
        FinalSnoc(f, Values(tags, before, f), m.value);
      }
      OneMoreValue(tags, before, m);
    }
  }

  lemma OneMoreValue(tags: seq<Tag>, before: seq<Member>, m: Member)
    ensures AllAccepted(tags, before + [m])
            <==> AllAccepted(tags, before) && (Target(tags, m).Some? ==> Accepts(Target(tags, m).value, m.value))
  {
    forall f
      ensures Values(tags, before + [m], f)
              == if Target(tags, m) == Some(f) then Values(tags, before, f) + [m.value] else Values(tags, before, f)
    {
      ValuesSnoc(tags, before, m, f);
    }
    if AllAccepted(tags, before + [m]) && Target(tags, m).Some? {
      assert m.value in Values(tags, before + [m], Target(tags, m).value);
    }
    if AllAccepted(tags, before + [m]) {
      forall f, v | v in Values(tags, before, f) ensures Accepts(f, v) {
        assert v in Values(tags, before + [m], f);
      }
    }
  }

  lemma {:induction false} SameValuesSameDecode(tags: seq<Tag>, ms: seq<Member>, ms': seq<Member>)
    requires forall f :: Values(tags, ms, f) == Values(tags, ms', f)
    ensures Decode(tags, ms) == Decode(tags, ms')
  {
    DecodeIsFieldwise(tags, ms);
    DecodeIsFieldwise(tags, ms');
    if AllAccepted(tags, ms) {
      var r, r' := Decode(tags, ms).value, Decode(tags, ms').value;
      forall f ensures f in r <==> f in r' ensures f in r ==> r[f] == r'[f] {
        assert Get(r, f) == Get(r', f);
      }
      assert r == r';
    }
  }

  // ---------------------------------------------------------------- member order and unknown members

  function Known(tags: seq<Tag>, ms: seq<Member>): seq<Member> {
    if |ms| == 0 then []
    else
      var before := Known(tags, ms[..|ms| - 1]);
      if Target(tags, ms[|ms| - 1]).Some? then before + [ms[|ms| - 1]] else before
  }

  /** `obj` holds the members of `ms` that the reader knows, in any order, among any members it does not know. */
  ghost predicate Rearranges(tags: seq<Tag>, ms: seq<Member>, obj: seq<Member>) {
    multiset(Known(tags, obj)) == multiset(Known(tags, ms))
  }

  lemma {:induction false} ValuesOfKnown(tags: seq<Tag>, ms: seq<Member>, f: Field)
    ensures Values(tags, Known(tags, ms), f) == Values(tags, ms, f)
    decreases |ms|
  {
    if |ms| > 0 {
      var before := ms[..|ms| - 1];
      ValuesOfKnown(tags, before, f);
      ValuesSnoc(tags, Known(tags, before), ms[|ms| - 1], f);
    }
  }

  lemma {:induction false} NoValues(tags: seq<Tag>, f: Field)
    ensures Values(tags, [], f) == []
  {
  }

  lemma {:induction false} ValuesAppend(tags: seq<Tag>, a: seq<Member>, b: seq<Member>, f: Field)
    ensures Values(tags, a + b, f) == Values(tags, a, f) + Values(tags, b, f)
    decreases |b|
  {
    hide Values, Target;
    if |b| == 0 {
      NoValues(tags, f);
      assert a + b == a && b == [];
    } else {
      var b', m := b[..|b| - 1], b[|b| - 1];
      ValuesAppend(tags, a, b', f);
      ValuesSnoc(tags, a + b', m, f);
      ValuesSnoc(tags, b', m, f);
      assert a + b == (a + b') + [m] && b == b' + [m];
    }
  }

  lemma RemovingOneKeepsRest(a: seq<Member>, b1: seq<Member>, m: Member, b2: seq<Member>)
    requires multiset(a + [m]) == multiset((b1 + [m]) + b2)
    ensures multiset(a) == multiset(b1 + b2)
  {
    assert multiset(a + [m]) == multiset(a) + multiset{m};
    assert multiset((b1 + [m]) + b2) == multiset(b1 + b2) + multiset{m};
    assert multiset(a) == (multiset(a) + multiset{m}) - multiset{m};
    assert multiset(b1 + b2) == (multiset(b1 + b2) + multiset{m}) - multiset{m};
  }

  lemma {:induction false} MemberInTheMiddle(tags: seq<Tag>, b1: seq<Member>, m: Member, b2: seq<Member>, f: Field)
    ensures multiset(Values(tags, (b1 + [m]) + b2, f))
            == multiset(Values(tags, b1 + b2, f)) + if Target(tags, m) == Some(f) then multiset{m.value} else multiset{}
  {
    hide Values;
    ValuesSnoc(tags, b1, m, f);
    ValuesAppend(tags, b1 + [m], b2, f);
    ValuesAppend(tags, b1, b2, f);
  }

  lemma {:induction false} PermutedValues(tags: seq<Tag>, a: seq<Member>, b: seq<Member>, f: Field)
    requires multiset(a) == multiset(b)
    ensures multiset(Values(tags, a, f)) == multiset(Values(tags, b, f))
    decreases |a|
  {
    if |a| == 0 {
      assert |multiset(b)| == 0;
    } else {
      var a', m := a[..|a| - 1], a[|a| - 1];
      assert a == a' + [m];
      assert m in multiset(b);
      var i :| 0 <= i < |b| && b[i] == m;
      var b1, b2 := b[..i], b[i + 1..];
      assert b == (b1 + [m]) + b2;
      RemovingOneKeepsRest(a', b1, m, b2);
      PermutedValues(tags, a', b1 + b2, f);
      hide Values;
      ValuesSnoc(tags, a', m, f);
      MemberInTheMiddle(tags, b1, m, b2, f);
    }
  }

  lemma SameSmallSeq(xs: seq<Json>, ys: seq<Json>)
    requires multiset(xs) == multiset(ys) && |xs| <= 1
    ensures xs == ys
  {
    assert |multiset(xs)| == |xs| && |multiset(ys)| == |ys|;
    if |xs| == 1 { assert ys[0] in multiset(ys); assert xs == [xs[0]]; }
  }

  /** When each field is given at most one value, the reader does not see the order or the unknown members. */
  lemma {:induction false} RearrangingKeepsDecode(tags: seq<Tag>, ms: seq<Member>, obj: seq<Member>)
    requires Rearranges(tags, ms, obj)
    requires forall f :: |Values(tags, ms, f)| <= 1
    ensures Decode(tags, obj) == Decode(tags, ms)
  {
    forall f ensures Values(tags, ms, f) == Values(tags, obj, f) {
      ValuesOfKnown(tags, ms, f);
      ValuesOfKnown(tags, obj, f);
      PermutedValues(tags, Known(tags, ms), Known(tags, obj), f);
      SameSmallSeq(Values(tags, ms, f), Values(tags, obj, f));
    }
    SameValuesSameDecode(tags, ms, obj);
  }

  // ---------------------------------------------------------------- claims

  /** A registered claim that is not its zero value; dates and audiences are what the library reads. */
  predicate IsSet(name: RegisteredName, v: Json) {
    if IsString(name) then v.Text? && v.s != "" else !v.Null? && LIBRARY_READS(name, v)
  }

  type RegisteredClaims = m: map<RegisteredName, Json> | forall k :: k in m ==> IsSet(k, m[k]) witness map[]

  datatype AccessClaim = AccessClaim(
    id: Uint64, onboardingId: Uint64, email: string, role: string, isVerify: bool, registered: RegisteredClaims)

  datatype RefreshClaim = RefreshClaim(id: Uint64, email: string, registered: RegisteredClaims)

  datatype AccessClaimV1 = AccessClaimV1(
    userId: Uint64, username: string, roleId: Option<Atom>, isVerify: bool, registered: RegisteredClaims)

  datatype RefreshClaimV1 = RefreshClaimV1(userId: Uint64, email: string, registered: RegisteredClaims)

  const ACCESS_V2: seq<Tag> := [
    Tag("id", "id", Id), Tag("onboarding_id", "onboarding_id", OnboardingId), Tag("email", "email", Email),
    Tag("role", "role", Role), Tag("is_verify", "is_verify", IsVerify), Tag("UserID", "userid", UserId),
    Tag("IsVerify", "isverify", LegacyVerify)]

  const REFRESH_V2: seq<Tag> := [Tag("id", "id", Id), Tag("email", "email", Email), Tag("UserID", "userid", UserId)]

  const ACCESS_V1: seq<Tag> := [
    Tag("UserID", "userid", UserId), Tag("Username", "username", Username), Tag("RoleID", "roleid", RoleId),
    Tag("IsVerify", "isverify", LegacyVerify)]

  const REFRESH_V1: seq<Tag> := [Tag("UserID", "userid", UserId), Tag("Email", "email", Email)]

  // ---------------------------------------------------------------- encoding

  function Given(keep: bool, key: string, v: Json): seq<Member> { if keep then [Named(key, v)] else [] }

  const REGISTERED_NAMES: seq<RegisteredName> := [ISS, SUB, AUD, EXP, NBF, IAT, JTI]

  /** The registered claims that are set, in the order of the embedded struct. */
  function SetClaims(r: RegisteredClaims, names: seq<RegisteredName>): seq<Member> {
    if |names| == 0 then []
    else
      var n := names[|names| - 1];
      SetClaims(r, names[..|names| - 1]) + if n in r then [Registered(n, r[n])] else []
  }

  function MarshalAccess(c: AccessClaim): seq<Member> {
    Given(true, "id", Number(c.id))
    + Given(c.onboardingId != 0, "onboarding_id", Number(c.onboardingId))
    + Given(c.email != "", "email", Text(c.email))
    + Given(c.role != "", "role", Text(c.role))
    + Given(true, "is_verify", Boolean(c.isVerify))
    + Given(true, "UserID", Number(c.id))
    + Given(true, "IsVerify", Boolean(c.isVerify))
    + SetClaims(c.registered, REGISTERED_NAMES)
  }

  function MarshalRefresh(c: RefreshClaim): seq<Member> {
    Given(true, "id", Number(c.id))
    + Given(true, "email", Text(c.email))
    + Given(true, "UserID", Number(c.id))
    + SetClaims(c.registered, REGISTERED_NAMES)
  }

  function MarshalAccessV1(c: AccessClaimV1): seq<Member> {
    Given(true, "UserID", Number(c.userId))
    + Given(true, "Username", Text(c.username))
    + Given(true, "RoleID", if c.roleId.Some? then Other(c.roleId.value) else Null)
    + Given(true, "IsVerify", Boolean(c.isVerify))
    + SetClaims(c.registered, REGISTERED_NAMES)
  }

  function MarshalRefreshV1(c: RefreshClaimV1): seq<Member> {
    Given(true, "UserID", Number(c.userId))
    + Given(true, "Email", Text(c.email))
    + SetClaims(c.registered, REGISTERED_NAMES)
  }

  // ---------------------------------------------------------------- reading claims

  function Uint(r: Record, f: Field): Uint64 {
    match Get(r, f)
    case Some(Number(n)) => if 0 <= n < 0x1_0000_0000_0000_0000 then n else 0
    case _ => 0
  }

  function Str(r: Record, f: Field): string {
    match Get(r, f)
    case Some(Text(s)) => s
    case _ => ""
  }

  function Flag(r: Record, f: Field): bool { Get(r, f) == Some(Boolean(true)) }

  function Roles(r: Record): Option<Atom> {
    match Get(r, RoleId)
    case Some(Other(o)) => Some(o)
    case _ => None
  }

  function ClaimsOf(r: Record): RegisteredClaims {
    map n: RegisteredName | Reg(n) in r && IsSet(n, r[Reg(n)]) :: r[Reg(n)]
  }

  /** The id of a v1 token stands in for a missing or zero v2 id. */
  function IdOf(r: Record): Uint64 { if Uint(r, Id) == 0 then Uint(r, UserId) else Uint(r, Id) }

  function AccessOf(r: Record): AccessClaim {
    AccessClaim(IdOf(r), Uint(r, OnboardingId), Str(r, Email), Str(r, Role), Flag(r, IsVerify) || Flag(r, LegacyVerify),
                ClaimsOf(r))
  }

  function RefreshOf(r: Record): RefreshClaim { RefreshClaim(IdOf(r), Str(r, Email), ClaimsOf(r)) }

  function AccessV1Of(r: Record): AccessClaimV1 {
    AccessClaimV1(Uint(r, UserId), Str(r, Username), Roles(r), Flag(r, LegacyVerify), ClaimsOf(r))
  }

  function RefreshV1Of(r: Record): RefreshClaimV1 { RefreshClaimV1(Uint(r, UserId), Str(r, Email), ClaimsOf(r)) }

  function Unmarshal<T>(tags: seq<Tag>, of: Record -> T, ms: seq<Member>): Option<T> {
    match Decode(tags, ms)
    case None => None
    case Some(r) => Some(of(r))
  }

  // ---------------------------------------------------------------- what each reader sees of each writer

  function Pick(tags: seq<Tag>, keep: bool, key: string, v: Json, f: Field): seq<Json> {
    if keep && Resolve(tags, key) == Some(f) then [v] else []
  }

  lemma {:induction false} GivenValues(tags: seq<Tag>, keep: bool, key: string, v: Json, f: Field)
    ensures Values(tags, Given(keep, key, v), f) == Pick(tags, keep, key, v, f)
  {
    if keep { ValuesSnoc(tags, [], Named(key, v), f); assert [] + [Named(key, v)] == [Named(key, v)]; }
  }

  function PickClaim(r: RegisteredClaims, f: Field): seq<Json> {
    if f.Reg? && f.name in r then [r[f.name]] else []
  }

  lemma {:induction false} SomeClaimsValues(tags: seq<Tag>, r: RegisteredClaims, names: seq<RegisteredName>, f: Field)
    requires forall i, j :: 0 <= i < j < |names| ==> names[i] != names[j]
    ensures Values(tags, SetClaims(r, names), f) == if f.Reg? && f.name in names then PickClaim(r, f) else []
    decreases |names|
  {
    if |names| > 0 {
      var before, n := names[..|names| - 1], names[|names| - 1];
      SomeClaimsValues(tags, r, before, f);
      if n in r { ValuesSnoc(tags, SetClaims(r, before), Registered(n, r[n]), f); }
      assert names == before + [n];
      assert SetClaims(r, before) + [] == SetClaims(r, before);
    }
  }

  lemma {:induction false} SetClaimsValues(tags: seq<Tag>, r: RegisteredClaims, f: Field)
    ensures Values(tags, SetClaims(r, REGISTERED_NAMES), f) == PickClaim(r, f)
  {
    SomeClaimsValues(tags, r, REGISTERED_NAMES, f);
    if f.Reg? { EveryNameIsListed(f.name); }
  }

  lemma EveryNameIsListed(n: RegisteredName)
    ensures n in REGISTERED_NAMES
  {
    match n
    case ISS => assert REGISTERED_NAMES[0] == n;
    case SUB => assert REGISTERED_NAMES[1] == n;
    case AUD => assert REGISTERED_NAMES[2] == n;
    case EXP => assert REGISTERED_NAMES[3] == n;
    case NBF => assert REGISTERED_NAMES[4] == n;
    case IAT => assert REGISTERED_NAMES[5] == n;
    case JTI => assert REGISTERED_NAMES[6] == n;
  }

  lemma {:induction false} AccessValues(tags: seq<Tag>, c: AccessClaim, f: Field)
    ensures Values(tags, MarshalAccess(c), f)
            == Pick(tags, true, "id", Number(c.id), f)
               + Pick(tags, c.onboardingId != 0, "onboarding_id", Number(c.onboardingId), f)
               + Pick(tags, c.email != "", "email", Text(c.email), f)
               + Pick(tags, c.role != "", "role", Text(c.role), f)
               + Pick(tags, true, "is_verify", Boolean(c.isVerify), f)
               + Pick(tags, true, "UserID", Number(c.id), f)
               + Pick(tags, true, "IsVerify", Boolean(c.isVerify), f)
               + PickClaim(c.registered, f)
  {
    hide Values, Pick, Given, PickClaim, SetClaims;
    var a := Given(true, "id", Number(c.id));
    var b := Given(c.onboardingId != 0, "onboarding_id", Number(c.onboardingId));
    var d := Given(c.email != "", "email", Text(c.email));
    var e := Given(c.role != "", "role", Text(c.role));
    var g := Given(true, "is_verify", Boolean(c.isVerify));
    var h := Given(true, "UserID", Number(c.id));
    var k := Given(true, "IsVerify", Boolean(c.isVerify));
    var l := SetClaims(c.registered, REGISTERED_NAMES);
    ValuesAppend(tags, a, b, f);
    ValuesAppend(tags, a + b, d, f);
    ValuesAppend(tags, a + b + d, e, f);
    ValuesAppend(tags, a + b + d + e, g, f);
    ValuesAppend(tags, a + b + d + e + g, h, f);
    ValuesAppend(tags, a + b + d + e + g + h, k, f);
    ValuesAppend(tags, a + b + d + e + g + h + k, l, f);
    GivenValues(tags, true, "id", Number(c.id), f);
    GivenValues(tags, c.onboardingId != 0, "onboarding_id", Number(c.onboardingId), f);
    GivenValues(tags, c.email != "", "email", Text(c.email), f);
    GivenValues(tags, c.role != "", "role", Text(c.role), f);
    GivenValues(tags, true, "is_verify", Boolean(c.isVerify), f);
    GivenValues(tags, true, "UserID", Number(c.id), f);
    GivenValues(tags, true, "IsVerify", Boolean(c.isVerify), f);
    SetClaimsValues(tags, c.registered, f);
  }

  lemma {:induction false} AccessV1Values(tags: seq<Tag>, c: AccessClaimV1, f: Field)
    ensures Values(tags, MarshalAccessV1(c), f)
            == Pick(tags, true, "UserID", Number(c.userId), f)
               + Pick(tags, true, "Username", Text(c.username), f)
               + Pick(tags, true, "RoleID", if c.roleId.Some? then Other(c.roleId.value) else Null, f)
               + Pick(tags, true, "IsVerify", Boolean(c.isVerify), f)
               + PickClaim(c.registered, f)
  {
    hide Values, Pick, Given, PickClaim, SetClaims;
    var roles := if c.roleId.Some? then Other(c.roleId.value) else Null;
    var a, b := Given(true, "UserID", Number(c.userId)), Given(true, "Username", Text(c.username));
    var d, e := Given(true, "RoleID", roles), Given(true, "IsVerify", Boolean(c.isVerify));
    ValuesAppend(tags, a, b, f);
    ValuesAppend(tags, a + b, d, f);
    ValuesAppend(tags, a + b + d, e, f);
    ValuesAppend(tags, a + b + d + e, SetClaims(c.registered, REGISTERED_NAMES), f);
    GivenValues(tags, true, "UserID", Number(c.userId), f);
    GivenValues(tags, true, "Username", Text(c.username), f);
    GivenValues(tags, true, "RoleID", roles, f);
    GivenValues(tags, true, "IsVerify", Boolean(c.isVerify), f);
    SetClaimsValues(tags, c.registered, f);
  }

  lemma {:induction false} RefreshValues(tags: seq<Tag>, c: RefreshClaim, f: Field)
    ensures Values(tags, MarshalRefresh(c), f)
            == Pick(tags, true, "id", Number(c.id), f)
               + Pick(tags, true, "email", Text(c.email), f)
               + Pick(tags, true, "UserID", Number(c.id), f)
               + PickClaim(c.registered, f)
  {
    hide Values, Pick, Given, PickClaim, SetClaims;
    var a, b := Given(true, "id", Number(c.id)), Given(true, "email", Text(c.email));
    var d := Given(true, "UserID", Number(c.id));
    ValuesAppend(tags, a, b, f);
    ValuesAppend(tags, a + b, d, f);
    ValuesAppend(tags, a + b + d, SetClaims(c.registered, REGISTERED_NAMES), f);
    GivenValues(tags, true, "id", Number(c.id), f);
    GivenValues(tags, true, "email", Text(c.email), f);
    GivenValues(tags, true, "UserID", Number(c.id), f);
    SetClaimsValues(tags, c.registered, f);
  }

  lemma {:induction false} RefreshV1Values(tags: seq<Tag>, c: RefreshClaimV1, f: Field)
    ensures Values(tags, MarshalRefreshV1(c), f)
            == Pick(tags, true, "UserID", Number(c.userId), f)
               + Pick(tags, true, "Email", Text(c.email), f)
               + PickClaim(c.registered, f)
  {
    hide Values, Pick, Given, PickClaim, SetClaims;
    var a, b := Given(true, "UserID", Number(c.userId)), Given(true, "Email", Text(c.email));
    ValuesAppend(tags, a, b, f);
    ValuesAppend(tags, a + b, SetClaims(c.registered, REGISTERED_NAMES), f);
    GivenValues(tags, true, "UserID", Number(c.userId), f);
    GivenValues(tags, true, "Email", Text(c.email), f);
    SetClaimsValues(tags, c.registered, f);
  }

  // ---------------------------------------------------------------- the keys

  lemma FoldIs(s: string, t: string)
    requires |s| == |t| && forall i :: 0 <= i < |s| ==> FoldChar(s[i]) == t[i]
    ensures FoldCase(s) == t
  {
  }

  ghost predicate FoldsRight(tags: seq<Tag>) {
    forall i :: 0 <= i < |tags| ==> tags[i].folded == FoldCase(tags[i].name)
  }

  lemma AccessTagsFoldRight()
    ensures FoldsRight(ACCESS_V2) && FoldsRight(ACCESS_V1)
  {
    hide FoldCase;
    FoldIs("id", "id");
    FoldIs("onboarding_id", "onboarding_id");
    FoldIs("email", "email");
    FoldIs("role", "role");
    FoldIs("is_verify", "is_verify");
    FoldIs("UserID", "userid");
    FoldIs("IsVerify", "isverify");
    FoldIs("Username", "username");
    FoldIs("RoleID", "roleid");
  }

  lemma RefreshTagsFoldRight()
    ensures FoldsRight(REFRESH_V2) && FoldsRight(REFRESH_V1)
  {
    hide FoldCase;
    FoldIs("id", "id");
    FoldIs("email", "email");
    FoldIs("Email", "email");
    FoldIs("UserID", "userid");
  }

  /** What the v2 access reader makes of its own keys and of the v1 keys. */
  lemma AccessV2Keys()
    ensures Resolve(ACCESS_V2, "id") == Some(Id)
    ensures Resolve(ACCESS_V2, "onboarding_id") == Some(OnboardingId)
    ensures Resolve(ACCESS_V2, "email") == Some(Email)
    ensures Resolve(ACCESS_V2, "role") == Some(Role)
    ensures Resolve(ACCESS_V2, "is_verify") == Some(IsVerify)
    ensures Resolve(ACCESS_V2, "UserID") == Some(UserId)
    ensures Resolve(ACCESS_V2, "IsVerify") == Some(LegacyVerify)
  {
    hide FoldCase, Folded;
  }

  lemma AccessV2IgnoresV1Keys()
    ensures Resolve(ACCESS_V2, "Username") == None && Resolve(ACCESS_V2, "RoleID") == None
  {
    hide FoldCase;
    FoldIs("Username", "username");
    FoldIs("RoleID", "roleid");
  }

  /** What the v1 access reader makes of the v2 keys. */
  lemma AccessV1Keys()
    ensures Resolve(ACCESS_V1, "UserID") == Some(UserId) && Resolve(ACCESS_V1, "IsVerify") == Some(LegacyVerify)
    ensures Resolve(ACCESS_V1, "id") == None && Resolve(ACCESS_V1, "onboarding_id") == None
    ensures Resolve(ACCESS_V1, "email") == None && Resolve(ACCESS_V1, "role") == None
    ensures Resolve(ACCESS_V1, "is_verify") == None
  {
    hide FoldCase;
    FoldIs("id", "id");
    FoldIs("onboarding_id", "onboarding_id");
    FoldIs("email", "email");
    FoldIs("role", "role");
    FoldIs("is_verify", "is_verify");
  }

  /** The v1 key "Email" reaches the v2 field by case folding. */
  lemma RefreshV2Keys()
    ensures Resolve(REFRESH_V2, "id") == Some(Id) && Resolve(REFRESH_V2, "email") == Some(Email)
    ensures Resolve(REFRESH_V2, "UserID") == Some(UserId) && Resolve(REFRESH_V2, "Email") == Some(Email)
  {
    hide FoldCase;
    FoldIs("Email", "email");
  }

  lemma RefreshV1Keys()
    ensures Resolve(REFRESH_V1, "UserID") == Some(UserId) && Resolve(REFRESH_V1, "email") == Some(Email)
    ensures Resolve(REFRESH_V1, "id") == None && Resolve(REFRESH_V1, "Email") == Some(Email)
  {
    hide FoldCase;
    FoldIs("email", "email");
    FoldIs("id", "id");
  }

  /** A reader's own names do not fold to registered ones, and its fields are its own. */
  ghost predicate Apart(tags: seq<Tag>) {
    && FoldsRight(tags)
    && forall i :: 0 <= i < |tags| ==> RegisteredKey(tags[i].folded).None? && !tags[i].field.Reg?
  }

  lemma {:induction false} ExactIsOwn(tags: seq<Tag>, key: string)
    requires Apart(tags) && Exact(tags, key).Some?
    ensures RegisteredKey(FoldCase(key)).None? && !Exact(tags, key).value.Reg?
    decreases |tags|
  {
    hide FoldCase, RegisteredKey;
    if tags[0].name != key { ExactIsOwn(tags[1..], key); }
  }

  lemma {:induction false} FoldedIsOwn(tags: seq<Tag>, folded: string)
    requires Apart(tags) && Folded(tags, folded).Some?
    ensures RegisteredKey(folded).None? && !Folded(tags, folded).value.Reg?
    decreases |tags|
  {
    hide FoldCase, RegisteredKey;
    if tags[0].folded != folded { FoldedIsOwn(tags[1..], folded); }
  }

  /** The seven names, in section 4.1 of RFC 7519. */
  ghost predicate IsNameOf(s: string, n: RegisteredName) {
    match n
    case ISS => s == "iss"
    case SUB => s == "sub"
    case AUD => s == "aud"
    case EXP => s == "exp"
    case NBF => s == "nbf"
    case IAT => s == "iat"
    case JTI => s == "jti"
  }

  lemma KeyIsName(s: string, n: RegisteredName)
    ensures RegisteredKey(s) == Some(n) <==> IsNameOf(s, n)
  {
  }

  /** A key is read as a registered claim if and only if it folds to the name of that claim. */
  lemma RegisteredNamesResolve(tags: seq<Tag>, key: string, n: RegisteredName)
    requires Apart(tags)
    ensures Resolve(tags, key) == Some(Reg(n)) <==> RegisteredKey(FoldCase(key)) == Some(n)
    ensures Resolve(tags, key) == Some(Reg(n)) <==> IsNameOf(FoldCase(key), n)
  {
    KeyIsName(FoldCase(key), n);
    hide FoldCase, RegisteredKey, Apart, Exact, Folded;
    if Exact(tags, key).Some? {
      ExactIsOwn(tags, key);
    } else if Folded(tags, FoldCase(key)).Some? {
      FoldedIsOwn(tags, FoldCase(key));
    }
  }

  lemma ReadersAreApart()
    ensures Apart(ACCESS_V2) && Apart(ACCESS_V1) && Apart(REFRESH_V2) && Apart(REFRESH_V1)
  {
    AccessTagsFoldRight();
    RefreshTagsFoldRight();
    hide FoldsRight;
  }

  /** In all four readers a registered claim is read under its name in any case, and only then. */
  lemma RegisteredNamesFold(key: string, n: RegisteredName)
    ensures forall tags :: tags in {ACCESS_V2, ACCESS_V1, REFRESH_V2, REFRESH_V1} ==>
              (Resolve(tags, key) == Some(Reg(n)) <==> IsNameOf(FoldCase(key), n))
  {
    ReadersAreApart();
    hide Apart, Resolve, RegisteredKey, FoldCase, IsNameOf;
    forall tags | tags in {ACCESS_V2, ACCESS_V1, REFRESH_V2, REFRESH_V1}
      ensures Resolve(tags, key) == Some(Reg(n)) <==> IsNameOf(FoldCase(key), n)
    {
      RegisteredNamesResolve(tags, key, n);
    }
  }

  // ---------------------------------------------------------------- round trips

  /** Every field is given at most one value, and one it accepts. */
  ghost predicate Clean(tags: seq<Tag>, ms: seq<Member>) {
    forall f :: var vs := Values(tags, ms, f); |vs| == 0 || (|vs| == 1 && !vs[0].Null? && Accepts(f, vs[0]))
  }

  function First(vs: seq<Json>): Option<Json> { if |vs| == 0 then None else Some(vs[0]) }

  lemma {:induction false} CleanReadsBack(tags: seq<Tag>, ms: seq<Member>, obj: seq<Member>)
    requires Rearranges(tags, ms, obj) && Clean(tags, ms)
    ensures Decode(tags, obj).Some?
    ensures forall f :: Get(Decode(tags, obj).value, f) == First(Values(tags, ms, f))
  {
    RearrangingKeepsDecode(tags, ms, obj);
    DecodeIsFieldwise(tags, ms);
  }

  /** What a v2 access token says to the v2 reader, field by field. */
  function SaidByAccess(c: AccessClaim, f: Field): seq<Json> {
    match f
    case Id => [Number(c.id)]
    case OnboardingId => if c.onboardingId != 0 then [Number(c.onboardingId)] else []
    case Email => if c.email != "" then [Text(c.email)] else []
    case Role => if c.role != "" then [Text(c.role)] else []
    case IsVerify => [Boolean(c.isVerify)]
    case UserId => [Number(c.id)]
    case LegacyVerify => [Boolean(c.isVerify)]
    case Reg(_) => PickClaim(c.registered, f)
    case _ => []
  }

  lemma {:induction false} AccessSays(c: AccessClaim, f: Field)
    ensures Values(ACCESS_V2, MarshalAccess(c), f) == SaidByAccess(c, f)
  {
    AccessV2Keys();
    AccessValues(ACCESS_V2, c, f);
    hide Resolve, Values, MarshalAccess;
  }

  lemma AccessIsClean(c: AccessClaim)
    ensures Clean(ACCESS_V2, MarshalAccess(c))
  {
    hide Values, MarshalAccess;
    forall f ensures Values(ACCESS_V2, MarshalAccess(c), f) == SaidByAccess(c, f) { AccessSays(c, f); }
  }

  lemma AccessIsRead(r: Record, c: AccessClaim)
    requires forall f :: Get(r, f) == First(SaidByAccess(c, f))
    ensures AccessOf(r) == c
  {
    hide IsSet, PickClaim;
    ClaimsReadBack(r, c.registered);
  }

  /** A v2 access token read back by v2 is the claim it was made from, zero fields included, whatever the order of its
      members and whatever else the object holds. */
  lemma AccessRoundTrip(c: AccessClaim, obj: seq<Member>)
    requires Rearranges(ACCESS_V2, MarshalAccess(c), obj)
    ensures Unmarshal(ACCESS_V2, AccessOf, obj) == Some(c)
  {
    hide Values, MarshalAccess, Decode, Clean, Rearranges, SaidByAccess, First, AccessOf;
    AccessIsClean(c);
    CleanReadsBack(ACCESS_V2, MarshalAccess(c), obj);
    forall f ensures Values(ACCESS_V2, MarshalAccess(c), f) == SaidByAccess(c, f) { AccessSays(c, f); }
    AccessIsRead(Decode(ACCESS_V2, obj).value, c);
  }

  lemma ClaimsReadBack(r: Record, registered: RegisteredClaims)
    requires forall n: RegisteredName :: Get(r, Reg(n)) == First(PickClaim(registered, Reg(n)))
    ensures ClaimsOf(r) == registered
  {
    forall n: RegisteredName
      ensures n in ClaimsOf(r) <==> n in registered
      ensures n in registered ==> ClaimsOf(r)[n] == registered[n]
    {
      assert Get(r, Reg(n)) == First(PickClaim(registered, Reg(n)));
    }
  }

  /** What any writer says to a reader that knows only the common fields. */
  function SaidInCommon(userId: Uint64, verify: bool, registered: RegisteredClaims, f: Field): seq<Json> {
    match f
    case UserId => [Number(userId)]
    case LegacyVerify => [Boolean(verify)]
    case Reg(_) => PickClaim(registered, f)
    case _ => []
  }

  lemma {:induction false} AccessSaysToV1(c: AccessClaim, f: Field)
    ensures Values(ACCESS_V1, MarshalAccess(c), f) == SaidInCommon(c.id, c.isVerify, c.registered, f)
  {
    AccessV1Keys();
    AccessValues(ACCESS_V1, c, f);
    hide Resolve, Values, MarshalAccess;
  }

  lemma {:induction false} AccessV1SaysToV2(c: AccessClaimV1, f: Field)
    ensures Values(ACCESS_V2, MarshalAccessV1(c), f) == SaidInCommon(c.userId, c.isVerify, c.registered, f)
  {
    AccessV2Keys();
    AccessV2IgnoresV1Keys();
    AccessV1Values(ACCESS_V2, c, f);
    hide Resolve, Values, MarshalAccessV1;
  }

  lemma {:induction false} CommonIsClean(
    tags: seq<Tag>, ms: seq<Member>, userId: Uint64, verify: bool, registered: RegisteredClaims)
    requires forall f :: Values(tags, ms, f) == SaidInCommon(userId, verify, registered, f)
    ensures Clean(tags, ms)
  {
    hide Values;
  }

  lemma CommonIsRead(r: Record, userId: Uint64, verify: bool, registered: RegisteredClaims)
    requires forall f :: Get(r, f) == First(SaidInCommon(userId, verify, registered, f))
    ensures AccessV1Of(r) == AccessClaimV1(userId, "", None, verify, registered)
    ensures AccessOf(r) == AccessClaim(userId, 0, "", "", verify, registered)
  {
    hide IsSet, PickClaim;
    ClaimsReadBack(r, registered);
  }

  /** A v2 access token read by v1 keeps the id as UserID, the verification and the registered claims. */
  lemma V1ReadsV2Access(c: AccessClaim, obj: seq<Member>)
    requires Rearranges(ACCESS_V1, MarshalAccess(c), obj)
    ensures Unmarshal(ACCESS_V1, AccessV1Of, obj) == Some(AccessClaimV1(c.id, "", None, c.isVerify, c.registered))
  {
    hide Values, MarshalAccess, Decode, Clean, Rearranges, SaidInCommon, First, AccessV1Of;
    forall f ensures Values(ACCESS_V1, MarshalAccess(c), f) == SaidInCommon(c.id, c.isVerify, c.registered, f) {
      AccessSaysToV1(c, f);
    }
    CommonIsClean(ACCESS_V1, MarshalAccess(c), c.id, c.isVerify, c.registered);
    CleanReadsBack(ACCESS_V1, MarshalAccess(c), obj);
    CommonIsRead(Decode(ACCESS_V1, obj).value, c.id, c.isVerify, c.registered);
  }

  /** A v1 access token read by v2 keeps the same; the fields v1 does not have are zero. */
  lemma V2ReadsV1Access(c: AccessClaimV1, obj: seq<Member>)
    requires Rearranges(ACCESS_V2, MarshalAccessV1(c), obj)
    ensures Unmarshal(ACCESS_V2, AccessOf, obj) == Some(AccessClaim(c.userId, 0, "", "", c.isVerify, c.registered))
  {
    hide Values, MarshalAccessV1, Decode, Clean, Rearranges, SaidInCommon, First, AccessOf;
    forall f ensures Values(ACCESS_V2, MarshalAccessV1(c), f) == SaidInCommon(c.userId, c.isVerify, c.registered, f) {
      AccessV1SaysToV2(c, f);
    }
    CommonIsClean(ACCESS_V2, MarshalAccessV1(c), c.userId, c.isVerify, c.registered);
    CleanReadsBack(ACCESS_V2, MarshalAccessV1(c), obj);
    CommonIsRead(Decode(ACCESS_V2, obj).value, c.userId, c.isVerify, c.registered);
  }

  /** v2 to v1 to v2: the id, the verification and the registered claims survive; everything else is reset. */
  lemma AccessThroughV1(c: AccessClaim, obj: seq<Member>, obj': seq<Member>)
    requires Rearranges(ACCESS_V1, MarshalAccess(c), obj)
    requires Rearranges(ACCESS_V2, MarshalAccessV1(AccessClaimV1(c.id, "", None, c.isVerify, c.registered)), obj')
    ensures Unmarshal(ACCESS_V1, AccessV1Of, obj) == Some(AccessClaimV1(c.id, "", None, c.isVerify, c.registered))
    ensures Unmarshal(ACCESS_V2, AccessOf, obj')
            == Some(c.(onboardingId := 0, email := "", role := ""))
  {
    V1ReadsV2Access(c, obj);
    V2ReadsV1Access(AccessClaimV1(c.id, "", None, c.isVerify, c.registered), obj');
  }

  /** What a refresh token of either version says: only the v2 writer gives the v2 id. */
  function SaidByRefresh(id: Uint64, email: string, registered: RegisteredClaims, v2: bool, f: Field): seq<Json> {
    match f
    case Id => if v2 then [Number(id)] else []
    case Email => [Text(email)]
    case UserId => [Number(id)]
    case Reg(_) => PickClaim(registered, f)
    case _ => []
  }

  lemma {:induction false} RefreshSays(c: RefreshClaim, f: Field)
    ensures Values(REFRESH_V2, MarshalRefresh(c), f) == SaidByRefresh(c.id, c.email, c.registered, true, f)
    ensures Values(REFRESH_V1, MarshalRefresh(c), f) == SaidByRefresh(c.id, c.email, c.registered, false, f)
  {
    RefreshV2Keys();
    RefreshV1Keys();
    RefreshValues(REFRESH_V2, c, f);
    RefreshValues(REFRESH_V1, c, f);
    hide Resolve, Values, MarshalRefresh;
  }

  lemma {:induction false} RefreshV1Says(c: RefreshClaimV1, f: Field)
    ensures Values(REFRESH_V2, MarshalRefreshV1(c), f) == SaidByRefresh(c.userId, c.email, c.registered, false, f)
  {
    RefreshV2Keys();
    RefreshV1Values(REFRESH_V2, c, f);
    hide Resolve, Values, MarshalRefreshV1;
  }

  lemma {:induction false} RefreshIsClean(
    tags: seq<Tag>, ms: seq<Member>, id: Uint64, email: string, registered: RegisteredClaims, v2: bool)
    requires forall f :: Values(tags, ms, f) == SaidByRefresh(id, email, registered, v2, f)
    ensures Clean(tags, ms)
  {
    hide Values;
  }

  lemma RefreshIsRead(r: Record, id: Uint64, email: string, registered: RegisteredClaims, v2: bool)
    requires forall f :: Get(r, f) == First(SaidByRefresh(id, email, registered, v2, f))
    ensures RefreshOf(r) == RefreshClaim(id, email, registered)
    ensures RefreshV1Of(r) == RefreshClaimV1(id, email, registered)
  {
    hide IsSet, PickClaim;
    ClaimsReadBack(r, registered);
  }

  lemma RefreshRoundTrip(c: RefreshClaim, obj: seq<Member>)
    requires Rearranges(REFRESH_V2, MarshalRefresh(c), obj)
    ensures Unmarshal(REFRESH_V2, RefreshOf, obj) == Some(c)
  {
    hide Values, MarshalRefresh, Decode, Clean, Rearranges, SaidByRefresh, First, RefreshOf;
    forall f
      ensures Values(REFRESH_V2, MarshalRefresh(c), f) == SaidByRefresh(c.id, c.email, c.registered, true, f)
    {
      RefreshSays(c, f);
    }
    RefreshIsClean(REFRESH_V2, MarshalRefresh(c), c.id, c.email, c.registered, true);
    CleanReadsBack(REFRESH_V2, MarshalRefresh(c), obj);
    RefreshIsRead(Decode(REFRESH_V2, obj).value, c.id, c.email, c.registered, true);
  }

  lemma V1ReadsV2Refresh(c: RefreshClaim, obj: seq<Member>)
    requires Rearranges(REFRESH_V1, MarshalRefresh(c), obj)
    ensures Unmarshal(REFRESH_V1, RefreshV1Of, obj) == Some(RefreshClaimV1(c.id, c.email, c.registered))
  {
    hide Values, MarshalRefresh, Decode, Clean, Rearranges, SaidByRefresh, First, RefreshV1Of;
    forall f
      ensures Values(REFRESH_V1, MarshalRefresh(c), f) == SaidByRefresh(c.id, c.email, c.registered, false, f)
    {
      RefreshSays(c, f);
    }
    RefreshIsClean(REFRESH_V1, MarshalRefresh(c), c.id, c.email, c.registered, false);
    CleanReadsBack(REFRESH_V1, MarshalRefresh(c), obj);
    RefreshIsRead(Decode(REFRESH_V1, obj).value, c.id, c.email, c.registered, false);
  }

  lemma V2ReadsV1Refresh(c: RefreshClaimV1, obj: seq<Member>)
    requires Rearranges(REFRESH_V2, MarshalRefreshV1(c), obj)
    ensures Unmarshal(REFRESH_V2, RefreshOf, obj) == Some(RefreshClaim(c.userId, c.email, c.registered))
  {
    hide Values, MarshalRefreshV1, Decode, Clean, Rearranges, SaidByRefresh, First, RefreshOf;
    forall f
      ensures Values(REFRESH_V2, MarshalRefreshV1(c), f) == SaidByRefresh(c.userId, c.email, c.registered, false, f)
    {
      RefreshV1Says(c, f);
    }
    RefreshIsClean(REFRESH_V2, MarshalRefreshV1(c), c.userId, c.email, c.registered, false);
    CleanReadsBack(REFRESH_V2, MarshalRefreshV1(c), obj);
    RefreshIsRead(Decode(REFRESH_V2, obj).value, c.userId, c.email, c.registered, false);
  }

  /** v2 to v1 to v2 loses nothing of a refresh claim. */
  lemma RefreshThroughV1(c: RefreshClaim, obj: seq<Member>, obj': seq<Member>)
    requires Rearranges(REFRESH_V1, MarshalRefresh(c), obj)
    requires Rearranges(REFRESH_V2, MarshalRefreshV1(RefreshClaimV1(c.id, c.email, c.registered)), obj')
    ensures Unmarshal(REFRESH_V1, RefreshV1Of, obj) == Some(RefreshClaimV1(c.id, c.email, c.registered))
    ensures Unmarshal(REFRESH_V2, RefreshOf, obj') == Some(c)
  {
    V1ReadsV2Refresh(c, obj);
    V2ReadsV1Refresh(RefreshClaimV1(c.id, c.email, c.registered), obj');
  }

  // ---------------------------------------------------------------- tokens of neither writer

  /** An access token that gives both ids and both verifications, which need not agree. */
  function BothVersions(id: Uint64, userId: Uint64, verify: bool, legacy: bool): seq<Member> {
    Given(true, "id", Number(id)) + Given(true, "UserID", Number(userId))
    + Given(true, "is_verify", Boolean(verify)) + Given(true, "IsVerify", Boolean(legacy))
  }

  function SaidByBoth(id: Uint64, userId: Uint64, verify: bool, legacy: bool, f: Field): seq<Json> {
    match f
    case Id => [Number(id)]
    case UserId => [Number(userId)]
    case IsVerify => [Boolean(verify)]
    case LegacyVerify => [Boolean(legacy)]
    case _ => []
  }

  lemma {:induction false} BothSay(id: Uint64, userId: Uint64, verify: bool, legacy: bool, f: Field)
    ensures Values(ACCESS_V2, BothVersions(id, userId, verify, legacy), f) == SaidByBoth(id, userId, verify, legacy, f)
  {
    AccessV2Keys();
    hide Values, Given, Resolve;
    var a, b := Given(true, "id", Number(id)), Given(true, "UserID", Number(userId));
    var v, w := Given(true, "is_verify", Boolean(verify)), Given(true, "IsVerify", Boolean(legacy));
    ValuesAppend(ACCESS_V2, a, b, f);
    ValuesAppend(ACCESS_V2, a + b, v, f);
    ValuesAppend(ACCESS_V2, a + b + v, w, f);
    GivenValues(ACCESS_V2, true, "id", Number(id), f);
    GivenValues(ACCESS_V2, true, "UserID", Number(userId), f);
    GivenValues(ACCESS_V2, true, "is_verify", Boolean(verify), f);
    GivenValues(ACCESS_V2, true, "IsVerify", Boolean(legacy), f);
  }

  lemma BothAreClean(id: Uint64, userId: Uint64, verify: bool, legacy: bool)
    ensures Clean(ACCESS_V2, BothVersions(id, userId, verify, legacy))
  {
    hide Values, BothVersions;
    var ms := BothVersions(id, userId, verify, legacy);
    forall f ensures Values(ACCESS_V2, ms, f) == SaidByBoth(id, userId, verify, legacy, f) {
      BothSay(id, userId, verify, legacy, f);
    }
  }

  lemma BothAreRead(r: Record, id: Uint64, userId: Uint64, verify: bool, legacy: bool)
    requires forall f :: Get(r, f) == First(SaidByBoth(id, userId, verify, legacy, f))
    ensures AccessOf(r) == AccessClaim(if id != 0 then id else userId, 0, "", "", verify || legacy, map[])
  {
    hide IsSet;
    forall n: RegisteredName ensures Reg(n) !in r { assert Get(r, Reg(n)) == None; }
    assert ClaimsOf(r) == map[];
  }

  /** The v2 id wins unless it is zero, and either verification suffices. */
  lemma V2IdWins(id: Uint64, userId: Uint64, verify: bool, legacy: bool, obj: seq<Member>)
    requires Rearranges(ACCESS_V2, BothVersions(id, userId, verify, legacy), obj)
    ensures Unmarshal(ACCESS_V2, AccessOf, obj)
            == Some(AccessClaim(if id != 0 then id else userId, 0, "", "", verify || legacy, map[]))
  {
    hide Values, BothVersions, Decode, Clean, Rearranges, SaidByBoth, First, AccessOf;
    var ms := BothVersions(id, userId, verify, legacy);
    forall f ensures Values(ACCESS_V2, ms, f) == SaidByBoth(id, userId, verify, legacy, f) {
      BothSay(id, userId, verify, legacy, f);
    }
    BothAreClean(id, userId, verify, legacy);
    CleanReadsBack(ACCESS_V2, ms, obj);
    BothAreRead(Decode(ACCESS_V2, obj).value, id, userId, verify, legacy);
  }

  /** Which fields a JSON value may be given to; dates and audiences are the library's. */
  predicate Fits(f: Field, v: Json) {
    match v
    case Null => true
    case Number(n) => f in {Id, OnboardingId, UserId} && 0 <= n <= 18446744073709551615
    case Text(_) => f in {Email, Role, Username, Reg(ISS), Reg(SUB), Reg(JTI)}
    case Boolean(_) => f in {IsVerify, LegacyVerify}
    case Other(_) => f == RoleId
  }

  lemma AcceptsIsFits(f: Field, v: Json)
    requires f !in {Reg(AUD), Reg(EXP), Reg(NBF), Reg(IAT)}
    ensures Accepts(f, v) <==> Fits(f, v)
  {
    if f.Reg? { assert f == Reg(f.name); }
  }

  /** One value of the wrong type in a known member, a negative or an oversized number included, fails the whole
      read. */
  lemma {:induction false} WrongTypeFails(tags: seq<Tag>, ms: seq<Member>, i: nat, f: Field)
    requires i < |ms| && Target(tags, ms[i]) == Some(f) && !Fits(f, ms[i].value)
    requires f !in {Reg(AUD), Reg(EXP), Reg(NBF), Reg(IAT)}
    ensures Decode(tags, ms) == None
  {
    hide Target, Accepts, Fits;
    DecodeIsFieldwise(tags, ms);
    ValueIsGiven(tags, ms, i, f);
    AcceptsIsFits(f, ms[i].value);
  }

  lemma {:induction false} ValueIsGiven(tags: seq<Tag>, ms: seq<Member>, i: nat, f: Field)
    requires i < |ms| && Target(tags, ms[i]) == Some(f)
    ensures ms[i].value in Values(tags, ms, f)
    decreases |ms|
  {
    hide Target;
    if i < |ms| - 1 { ValueIsGiven(tags, ms[..|ms| - 1], i, f); }
  }

  // ---------------------------------------------------------------- the receivers

  /** The claim a pointer receiver holds. `data` is the members of the object, or none if the text is not one. */
  class AccessHolder {
    var claim: AccessClaim
    constructor (claim: AccessClaim) ensures this.claim == claim { this.claim := claim; }

    /** UnmarshalJSON decodes into a local first, so a failing read leaves the claim as it was. */
    method UnmarshalJSON(data: Option<seq<Member>>) returns (ok: bool)
      modifies this
      ensures var read := if data.Some? then Unmarshal(ACCESS_V2, AccessOf, data.value) else None;
              ok == read.Some? && claim == if ok then read.value else old(claim)
    {
      if data.None? { return false; }
      var raw := Decode(ACCESS_V2, data.value);
      if raw.None? { return false; }
      var r := raw.value;
      var id := Uint(r, Id);
      if id == 0 { id := Uint(r, UserId); }
      claim := AccessClaim(id, Uint(r, OnboardingId), Str(r, Email), Str(r, Role),
                           Flag(r, IsVerify) || Flag(r, LegacyVerify), ClaimsOf(r));
      ok := true;
    }
  }

  class RefreshHolder {
    var claim: RefreshClaim
    constructor (claim: RefreshClaim) ensures this.claim == claim { this.claim := claim; }

    method UnmarshalJSON(data: Option<seq<Member>>) returns (ok: bool)
      modifies this
      ensures var read := if data.Some? then Unmarshal(REFRESH_V2, RefreshOf, data.value) else None;
              ok == read.Some? && claim == if ok then read.value else old(claim)
    {
      if data.None? { return false; }
      var raw := Decode(REFRESH_V2, data.value);
      if raw.None? { return false; }
      var r := raw.value;
      var id := Uint(r, Id);
      if id == 0 { id := Uint(r, UserId); }
      claim := RefreshClaim(id, Str(r, Email), ClaimsOf(r));
      ok := true;
    }
  }
}
