/** The ID-token helpers: Python's `str.strip` and `str.split(".")`, the
    base64url padding of `_b64url_decode`, `parse_jwt_no_verify`, and the role
    extraction of `accept_id_token`. Base64 decoding and `json.loads` of the
    decoded payload are one abstract `decode` function. */
module Tokens {
  import opened JsonValues

  // ------------------------------------------------------------ whitespace

  /** `c.isspace()` in Python 3. */
  predicate IsSpace(c: char)
  {
    || c == ' ' || ('\t' <= c <= '\r') || ('\U{1C}' <= c <= '\U{1F}')
    || c == '\U{85}' || c == '\U{A0}' || c == '\U{1680}' || ('\U{2000}' <= c <= '\U{200A}')
    || c == '\U{2028}' || c == '\U{2029}' || c == '\U{202F}' || c == '\U{205F}' || c == '\U{3000}'
  }

  /** `s.lstrip()`: a suffix of `s` that does not start with whitespace. */
  function TrimStart(s: string): (r: string)
    ensures |r| <= |s| && r == s[|s| - |r|..]
    ensures r == [] || !IsSpace(r[0])
    decreases |s|
  {
    if s != [] && IsSpace(s[0]) then TrimStart(s[1..]) else s
  }

  /** What `TrimStart` drops is whitespace, so it drops exactly the leading
      whitespace. */
  lemma {:induction false} TrimStartDropsSpace(s: string)
    ensures forall k :: 0 <= k < |s| - |TrimStart(s)| ==> IsSpace(s[k])
    decreases |s|
  {
    if s != [] && IsSpace(s[0]) {
      TrimStartDropsSpace(s[1..]);
      assert forall k :: 1 <= k < |s| ==> s[k] == s[1..][k - 1];
    }
  }

  /** `s.rstrip()`: a prefix of `s` that does not end with whitespace. */
  function TrimEnd(s: string): (r: string)
    ensures |r| <= |s| && r == s[..|r|]
    ensures r == [] || !IsSpace(r[|r| - 1])
    decreases |s|
  {
    if s != [] && IsSpace(s[|s| - 1]) then TrimEnd(s[..|s| - 1]) else s
  }

  /** What `TrimEnd` drops is whitespace, so it drops exactly the trailing
      whitespace. */
  lemma {:induction false} TrimEndDropsSpace(s: string)
    ensures forall k :: |TrimEnd(s)| <= k < |s| ==> IsSpace(s[k])
    decreases |s|
  {
    if s != [] && IsSpace(s[|s| - 1]) {
      TrimEndDropsSpace(s[..|s| - 1]);
    }
  }

  /** `s.strip()`: the slice of `s` that starts after its leading whitespace
      and leaves out exactly its trailing whitespace; it neither starts nor
      ends with whitespace. */
  function Strip(s: string): (r: string)
    ensures |r| <= |s|
    ensures StrippedSlice(s, |s| - |TrimStart(s)|, r)
  {
    StripFacts(s);
    TrimEnd(TrimStart(s))
  }

  /** `r` is the slice of `s` starting at `i` such that everything before it
      and everything after it is whitespace, and it neither starts nor ends
      with whitespace. */
  predicate StrippedSlice(s: string, i: int, r: string)
  {
    && 0 <= i && i + |r| <= |s| && r == s[i..i + |r|]
    && (forall k :: 0 <= k < i ==> IsSpace(s[k]))
    && (forall k :: i + |r| <= k < |s| ==> IsSpace(s[k]))
    && (r == [] || (!IsSpace(r[0]) && !IsSpace(r[|r| - 1])))
  }

  /** `Strip`'s contract, for the text `TrimEnd(TrimStart(s))`. */
  lemma StripFacts(s: string)
    ensures StrippedSlice(s, |s| - |TrimStart(s)|, TrimEnd(TrimStart(s)))
  {
    StripSlice(s);
    StripEnds(s);
    TrimStartDropsSpace(s);
    StripTrailing(s);
  }

  /** The stripped text is the slice of `s` after its leading whitespace. */
  lemma StripSlice(s: string)
    ensures |s| - |TrimStart(s)| + |TrimEnd(TrimStart(s))| <= |s|
    ensures TrimEnd(TrimStart(s)) == s[|s| - |TrimStart(s)|..|s| - |TrimStart(s)| + |TrimEnd(TrimStart(s))|]
  {
    SliceOfSuffix(s, TrimStart(s), TrimEnd(TrimStart(s)));
  }

  /** The stripped text neither starts nor ends with whitespace. */
  lemma StripEnds(s: string)
    ensures var r := TrimEnd(TrimStart(s));
      r == [] || (!IsSpace(r[0]) && !IsSpace(r[|r| - 1]))
  {
    var t := TrimStart(s);
    var r := TrimEnd(t);
    assert r != [] ==> r[0] == t[0];
  }

  /** Everything after the stripped text in `s` is whitespace. */
  lemma StripTrailing(s: string)
    ensures var t := TrimStart(s);
      var r := TrimEnd(t);
      var i := |s| - |t|;
      forall k :: i + |r| <= k < |s| ==> IsSpace(s[k])
  {
    var t := TrimStart(s);
    TrimEndDropsSpace(t);
    StripTail(s, t, TrimEnd(t), |s| - |t|);
  }

  /** A prefix of a suffix of `s` is a slice of `s`. */
  lemma SliceOfSuffix(s: string, t: string, r: string)
    requires |t| <= |s| && t == s[|s| - |t|..] && |r| <= |t| && r == t[..|r|]
    ensures |s| - |t| + |r| <= |s| && r == s[|s| - |t|..|s| - |t| + |r|]
  {
  }

  /** Whitespace after `r` in `t` is whitespace after `t[..|r|]` in `s`, when `t` is a suffix of `s` starting at `i`. */
  lemma StripTail(s: string, t: string, r: string, i: nat)
    requires i <= |s| && t == s[i..] && |r| <= |t|
    requires forall k :: |r| <= k < |t| ==> IsSpace(t[k])
    ensures forall k :: i + |r| <= k < |s| ==> IsSpace(s[k])
  {
    forall k | i + |r| <= k < |s|
      ensures IsSpace(s[k])
    {
      assert s[k] == t[k - i];
    }
  }

  /** `not s.strip()` holds exactly for strings made only of whitespace. */
  lemma BlankIffAllSpace(s: string)
    ensures Strip(s) == "" <==> forall k :: 0 <= k < |s| ==> IsSpace(s[k])
  {
  }

  // ------------------------------------------------------------- splitting

  function CountChar(c: char, s: string): nat
    decreases |s|
  {
    if s == [] then 0 else (if s[0] == c then 1 else 0) + CountChar(c, s[1..])
  }

  /** `s.split(sep)` for a one-character separator: every occurrence of `sep`
      starts a new part, so there is one part more than there are separators,
      and no part contains the separator. */
  function Split(s: string, sep: char): (parts: seq<string>)
    ensures |parts| == CountChar(sep, s) + 1
    ensures forall k :: 0 <= k < |parts| ==> sep !in parts[k]
    decreases |s|
  {
    if s == [] then [""]
    else
      var rest := Split(s[1..], sep);
      if s[0] == sep then [""] + rest
      else [[s[0]] + rest[0]] + rest[1..]
  }

  /** `sep.join(parts)`. */
  function JoinWith(parts: seq<string>, sep: char): string
    decreases |parts|
  {
    if parts == [] then "" else if |parts| == 1 then parts[0] else parts[0] + [sep] + JoinWith(parts[1..], sep)
  }

  /** Splitting loses nothing: joining the parts again gives the token back. */
  lemma {:induction false} SplitJoinRoundTrip(s: string, sep: char)
    ensures JoinWith(Split(s, sep), sep) == s
    decreases |s|
  {
    if s != [] {
      SplitJoinRoundTrip(s[1..], sep);
      var rest := Split(s[1..], sep);
      if s[0] == sep {
        assert s == [sep] + s[1..];
      } else {
        var parts := Split(s, sep);
        assert parts[1..] == rest[1..];
        if |rest| == 1 {
          assert JoinWith(parts, sep) == [s[0]] + rest[0];
        } else {
          assert JoinWith(parts, sep) == [s[0]] + rest[0] + [sep] + JoinWith(rest[1..], sep);
          assert JoinWith(rest, sep) == rest[0] + [sep] + JoinWith(rest[1..], sep);
        }
        assert s == [s[0]] + s[1..];
      }
    }
  }

  lemma {:induction false} NoSeparatorNoCount(s: string, sep: char)
    ensures CountChar(sep, s) == 0 <==> sep !in s
    decreases |s|
  {
    if s != [] {
      NoSeparatorNoCount(s[1..], sep);
      assert s == [s[0]] + s[1..];
    }
  }

  // --------------------------------------------------------------- base64

  /** The `=` characters appended by `_b64url_decode`. */
  function Fill(n: nat): (r: string)
    ensures |r| == n && forall k :: 0 <= k < n ==> r[k] == '='
  {
    seq(n, _ => '=')
  }

  /** The padding step of `_b64url_decode`: `4 - len % 4` copies of `=` when
      the length is not a multiple of four. */
  function Padded(s: string): (r: string)
    ensures |r| % 4 == 0
    ensures s <= r && |r| - |s| < 4
    ensures forall k :: |s| <= k < |r| ==> r[k] == '='
    ensures |s| % 4 == 0 ==> r == s
  {
    var rem := |s| % 4;
    if rem > 0 then s + Fill(4 - rem) else s
  }

  /** Padding twice is padding once. */
  lemma PaddedIdempotent(s: string)
    ensures Padded(Padded(s)) == Padded(s)
  {
  }

  /** `parse_jwt_no_verify`: the payload is the decoded second dot-separated
      segment, and a token with no dot has no payload. `decode` is base64url
      decoding followed by `json.loads`, `None` when either raises. */
  function ParseJwt(token: string, decode: string -> Option<Json>): (r: Option<Json>)
    ensures '.' !in token ==> r == None
    ensures '.' in token ==> |Split(token, '.')| >= 2 && r == decode(Padded(Split(token, '.')[1]))
  {
    NoSeparatorNoCount(token, '.');
    var parts := Split(token, '.');
    if |parts| < 2 then None else decode(Padded(parts[1]))
  }

  // ----------------------------------------------------------------- roles

  /** Where `accept_id_token` takes the roles from: the `roles` list, else the
      single `role`, else the `groups` list, else nowhere. A list claim is the
      very list object held by the payload. */
  datatype RoleClaim = ListClaim(key: string, items: seq<Json>) | SingleRole(role: Json) | NoClaim

  function ClaimedRoles(claims: map<string, Json>): (c: RoleClaim)
    ensures c.ListClaim? ==> c.key in {"roles", "groups"} && c.key in claims && claims[c.key] == JArray(c.items)
    ensures c.SingleRole? ==> "role" in claims && c.role == claims["role"]
    ensures c.NoClaim? ==> !("roles" in claims && claims["roles"].JArray?) && "role" !in claims && !("groups" in claims && claims["groups"].JArray?)
  {
    if "roles" in claims && claims["roles"].JArray? then ListClaim("roles", claims["roles"].items)
    else if "role" in claims then SingleRole(claims["role"])
    else if "groups" in claims && claims["groups"].JArray? then ListClaim("groups", claims["groups"].items)
    else NoClaim
  }

  function RolesOf(claim: RoleClaim): seq<Json>
  {
    match claim
    case ListClaim(_, items) => items
    case SingleRole(role) => [role]
    case NoClaim => []
  }

  /** A `roles` list shadows every other claim; failing that, `role` shadows
      `groups`; the result never depends on any other key. */
  lemma ClaimPriority(claims: map<string, Json>, other: map<string, Json>)
    requires forall key :: key in other ==> key !in {"roles", "role", "groups"}
    ensures "roles" in claims && claims["roles"].JArray? ==>
              RolesOf(ClaimedRoles(claims)) == claims["roles"].items
    ensures !("roles" in claims && claims["roles"].JArray?) && "role" in claims ==>
              RolesOf(ClaimedRoles(claims)) == [claims["role"]]
    ensures !("roles" in claims && claims["roles"].JArray?) && "role" !in claims && "groups" in claims && claims["groups"].JArray? ==>
              RolesOf(ClaimedRoles(claims)) == claims["groups"].items
    ensures !("roles" in claims && claims["roles"].JArray?) && "role" !in claims && !("groups" in claims && claims["groups"].JArray?) ==>
              RolesOf(ClaimedRoles(claims)) == []
    ensures ClaimedRoles(claims + other) == ClaimedRoles(claims - other.Keys)
  {
  }

  /** The service-account test: the token's subject, the empty string when
      absent, ends with the Google service-account domain. */
  function IsServiceAccount(claims: map<string, Json>): (r: Result<bool>)
    ensures "sub" !in claims ==> r == Ok(false)
    ensures "sub" in claims && !claims["sub"].JString? ==> r == Err(NoAttribute(claims["sub"], "endswith"))
    ensures forall pre :: "sub" in claims && claims["sub"] == JString(pre + ServiceAccountSuffix) ==> r == Ok(true)
    ensures r == Ok(true) ==>
              "sub" in claims && claims["sub"].JString? && exists pre :: claims["sub"].s == pre + ServiceAccountSuffix
    ensures "sub" in claims && claims["sub"].JString? ==> r.Ok?
  {
    var sub := if "sub" in claims then claims["sub"] else JString("");
    match sub
    case JString(s) =>
      var n := |ServiceAccountSuffix|;
      var ends := |s| >= n && s[|s| - n..] == ServiceAccountSuffix;
      assert ends ==> s == s[..|s| - n] + ServiceAccountSuffix;
      assert forall pre :: s == pre + ServiceAccountSuffix ==> s[|s| - n..] == ServiceAccountSuffix;
      Ok(ends)
    case _ => Err(NoAttribute(sub, "endswith"))
  }

  const ServiceAccountSuffix := "gserviceaccount.com"

  /** The roles after the service-account rule: a service account gains the
      required role when it lacks it, and nothing else ever changes. */
  function GrantedRoles(claimed: seq<Json>, service: bool, required: string): (r: seq<Json>)
    ensures claimed <= r && |r| <= |claimed| + 1
    ensures service ==> JString(required) in r
    ensures !service || JString(required) in claimed ==> r == claimed
  {
    if service && JString(required) !in claimed then claimed + [JString(required)] else claimed
  }

  /** The rule adds at most one copy of the required role and only when none
      was there, so it never creates a duplicate, and no other role's count
      changes. */
  lemma GrantAddsNoDuplicate(claimed: seq<Json>, service: bool, required: string)
    ensures var r := GrantedRoles(claimed, service, required);
      && multiset(r)[JString(required)] == (if service && JString(required) !in claimed then 1 else multiset(claimed)[JString(required)])
      && (service && multiset(claimed)[JString(required)] <= 1 ==> multiset(r)[JString(required)] == 1)
      && forall x :: x != JString(required) ==> multiset(r)[x] == multiset(claimed)[x]
  {
    var need := JString(required);
    if need in claimed {
      assert multiset(claimed)[need] >= 1;
    }
  }

  /** The number a string of decimal digits denotes, read from the left. */
  function DigitsValue(d: string): nat
    requires forall k :: 0 <= k < |d| ==> '0' <= d[k] <= '9'
    decreases |d|
  {
    if d == [] then 0 else 10 * DigitsValue(d[..|d| - 1]) + ((d[|d| - 1] as int) - ('0' as int))
  }

  /** `str(n)`: the decimal digits of `n`, most significant first. */
  function Decimal(n: nat): (r: string)
    ensures |r| >= 1
    decreases n
  {
    var digit := ['0' + (n % 10) as char];
    if n < 10 then digit else Decimal(n / 10) + digit
  }

  /** The digits `Decimal` prints denote `n` and have no leading zero. */
  lemma {:induction false} DecimalDenotes(n: nat)
    ensures forall k :: 0 <= k < |Decimal(n)| ==> '0' <= Decimal(n)[k] <= '9'
    ensures DigitsValue(Decimal(n)) == n
    ensures Decimal(n)[0] == '0' <==> n == 0
    decreases n
  {
    var digit := '0' + (n % 10) as char;
    DigitChar(n % 10);
    if n >= 10 {
      var high := Decimal(n / 10);
      DecimalDenotes(n / 10);
      assert Decimal(n) == high + [digit];
      DigitsValueAppend(high, digit);
      assert n == 10 * (n / 10) + n % 10;
    }
  }

  /** The character of a digit below ten. */
  lemma DigitChar(d: nat)
    requires d < 10
    ensures var c := '0' + d as char;
      && '0' <= c <= '9' && (c as int) - ('0' as int) == d && (c == '0' <==> d == 0)
  {
  }

  /** Appending a digit multiplies the value by ten and adds the digit. */
  lemma DigitsValueAppend(d: string, c: char)
    requires forall k :: 0 <= k < |d| ==> '0' <= d[k] <= '9'
    requires '0' <= c <= '9'
    ensures DigitsValue(d + [c]) == 10 * DigitsValue(d) + ((c as int) - ('0' as int))
  {
    assert (d + [c])[..|d|] == d;
  }

  /** The strings held by a list of str values. */
  function Texts(items: seq<Json>): (t: seq<string>)
    requires forall k :: 0 <= k < |items| ==> items[k].JString?
    ensures |t| == |items| && forall k :: 0 <= k < |items| ==> t[k] == items[k].s
  {
    seq(|items|, k requires 0 <= k < |items| => items[k].s)
  }

  /** `", ".join(parts)` on a list of strings, built from the left: every part
      after the first is preceded by the separator. */
  function Joined(parts: seq<string>): string
    decreases |parts|
  {
    if parts == [] then ""
    else if |parts| == 1 then parts[0]
    else Joined(parts[..|parts| - 1]) + ", " + parts[|parts| - 1]
  }

  /** Joining from the front gives the same text as joining from the back. */
  lemma {:induction false} JoinedCons(first: string, parts: seq<string>)
    requires parts != []
    ensures Joined([first] + parts) == first + ", " + Joined(parts)
    decreases |parts|
  {
    var all := [first] + parts;
    if |parts| == 1 {
      assert all[..1] == [first];
    } else {
      var init := parts[..|parts| - 1];
      JoinedCons(first, init);
      assert all[..|all| - 1] == [first] + init;
    }
  }

  /** The exception `", ".join` raises for a non-str item at `index`. */
  function ItemError(index: nat, item: Json): PyError
  {
    PyError("TypeError", "sequence item " + Decimal(index) + ": expected str instance, " + TypeName(item) + " found")
  }

  /** `", ".join(items)`, which succeeds exactly when every item is a str;
      `start` is the index of `items[0]` in the whole list, for the error. */
  function JoinStrings(items: seq<Json>, start: nat): (r: Result<string>)
    ensures r.Ok? <==> forall k :: 0 <= k < |items| ==> items[k].JString?
    decreases |items|
  {
    if items == [] then Ok("")
    else if !items[0].JString? then Err(ItemError(start, items[0]))
    else if |items| == 1 then Ok(items[0].s)
    else
      var rest :- JoinStrings(items[1..], start + 1);
      Ok(items[0].s + ", " + rest)
  }

  /** A successful join is the strings separated by `", "`. */
  lemma {:induction false} JoinStringsJoins(items: seq<Json>, start: nat)
    requires forall k :: 0 <= k < |items| ==> items[k].JString?
    ensures JoinStrings(items, start) == Ok(Joined(Texts(items)))
    decreases |items|
  {
    if |items| >= 2 {
      var tail := items[1..];
      JoinStringsJoins(tail, start + 1);
      assert Texts(items) == [items[0].s] + Texts(tail);
      JoinedCons(items[0].s, Texts(tail));
    }
  }

  /** The index of the first item that is not a str: it is not a str, and
      every item before it is. */
  function FirstNonStr(items: seq<Json>): (k: nat)
    requires exists j :: 0 <= j < |items| && !items[j].JString?
    ensures k < |items| && !items[k].JString?
    ensures forall j :: 0 <= j < k ==> items[j].JString?
    decreases |items|
  {
    if !items[0].JString? then 0
    else
      var tail := items[1..];
      var j :| 0 <= j < |items| && !items[j].JString?;
      assert !tail[j - 1].JString?;
      var k := FirstNonStr(tail);
      assert forall i :: 1 <= i < k + 1 ==> items[i] == tail[i - 1];
      k + 1
  }

  /** Past a str item, a failed join fails as the rest of the list does. */
  lemma JoinStringsSkip(items: seq<Json>, start: nat)
    requires items != [] && items[0].JString? && JoinStrings(items, start).Err?
    ensures |items| >= 2 && JoinStrings(items, start) == JoinStrings(items[1..], start + 1)
  {
  }

  /** A failed join reports the first item that is not a str, at its index
      in the whole list. */
  lemma {:induction false} JoinStringsFirstError(items: seq<Json>, start: nat)
    requires JoinStrings(items, start).Err?
    ensures exists j :: 0 <= j < |items| && !items[j].JString?
    ensures JoinStrings(items, start).error == ItemError(start + FirstNonStr(items), items[FirstNonStr(items)])
    decreases |items|
  {
    if items[0].JString? {
      var tail := items[1..];
      JoinStringsSkip(items, start);
      JoinStringsFirstError(tail, start + 1);
      var k := FirstNonStr(tail);
      assert !items[k + 1].JString?;
      assert FirstNonStr(items) == k + 1;
      assert items[k + 1] == tail[k];
    }
  }

  /** The roles part of the login message: the joined roles, or `(none)` when
      that text is empty. */
  function RolesText(roles: seq<Json>): (r: Result<string>)
    ensures r.Ok? <==> forall k :: 0 <= k < |roles| ==> roles[k].JString?
    ensures r.Ok? && Joined(Texts(roles)) != "" ==> r.value == Joined(Texts(roles))
    ensures r.Ok? && Joined(Texts(roles)) == "" ==> r.value == "(none)"
    ensures roles == [] ==> r == Ok("(none)")
    ensures r.Ok? ==> r.value != ""
    ensures r.Err? ==> r == JoinStrings(roles, 0)
  {
    if forall k :: 0 <= k < |roles| ==> roles[k].JString? then
      JoinStringsJoins(roles, 0);
      var joined := Joined(Texts(roles));
      Ok(if joined == "" then "(none)" else joined)
    else
      Err(JoinStrings(roles, 0).error)
  }

  /** The signed-in user, as `accept_id_token` stores it. */
  datatype UserCtx = UserCtx(sub: Json, roles: seq<Json>, claims: Json)

  /** What `accept_id_token` returns: a rejection message with no user, or the
      accepted user with the message parts (subject and roles text) and the
      stripped token; `Raised` is an exception it lets escape. */
  datatype Login =
    | Rejected(message: string)
    | Accepted(subject: Json, rolesText: string, user: UserCtx, token: string)
    | Raised(error: PyError)

  /** The payload after the service-account rule. The list `roles` came from is
      the payload's own list, so an append to it shows in the claims too. */
  function ClaimsAfterGrant(claims: map<string, Json>, claim: RoleClaim, roles: seq<Json>): (r: map<string, Json>)
    ensures r.Keys == claims.Keys + (if claim.ListClaim? && roles != claim.items then {claim.key} else {})
    ensures forall key :: key in claims && !(claim.ListClaim? && key == claim.key) ==> key in r && r[key] == claims[key]
    ensures claim.ListClaim? && roles != claim.items ==> r[claim.key] == JArray(roles)
    ensures !(claim.ListClaim? && roles != claim.items) ==> r == claims
  {
    if claim.ListClaim? && roles != claim.items then claims[claim.key := JArray(roles)] else claims
  }

  /** `accept_id_token`. A blank token and an unparseable or falsy payload are
      rejected with fixed messages; a payload that is not a dict raises at its
      first lookup; a dict payload is handled by `AcceptClaims`. */
  method AcceptIdToken(pasted: string, decode: string -> Option<Json>, required: string) returns (login: Login)
    ensures Strip(pasted) == "" ==> login == Rejected("No token provided")
    ensures Strip(pasted) != "" ==>
      var payload := ParseJwt(Strip(pasted), decode);
      && (payload.None? || !Truthy(payload.value) ==> login == Rejected("Failed to parse token"))
      && (payload.Some? && Truthy(payload.value) && !payload.value.JObject? ==> login == Raised(NoAttribute(payload.value, "get")))
      && (payload.Some? && payload.value.JObject? && Truthy(payload.value) ==>
            login == AcceptedLogin(payload.value.fields, required, Strip(pasted)))
  {
    var token := Strip(pasted);
    if token == "" {
      return Rejected("No token provided");
    }
    var payload := ParseJwt(token, decode);
    if payload.None? || !Truthy(payload.value) {
      return Rejected("Failed to parse token");
    }
    if !payload.value.JObject? {
      return Raised(NoAttribute(payload.value, "get"));
    }
    login := AcceptClaims(payload.value.fields, required, token);
  }

  /** The outcome for a dict payload: the roles come from the highest claim
      present, a service account gains the required role, and the user context
      holds the subject, those roles and the payload. */
  function AcceptedLogin(claims: map<string, Json>, required: string, token: string): (login: Login)
    ensures !login.Rejected?
    ensures login.Accepted? ==> login.token == token && login.subject == login.user.sub && login.user.claims.JObject?
  {
    var claim := ClaimedRoles(claims);
    match IsServiceAccount(claims)
    case Err(e) => Raised(e)
    case Ok(service) =>
      var roles := GrantedRoles(RolesOf(claim), service, required);
      var sub := if "sub" in claims then claims["sub"] else JNull;
      match RolesText(roles)
      case Err(e) => Raised(e)
      case Ok(text) => Accepted(sub, text, UserCtx(sub, roles, JObject(ClaimsAfterGrant(claims, claim, roles))), token)
  }

  /** A dict payload is accepted exactly when `endswith` applies to its `sub` and every
      role is a str; the accepted user holds the claimed roles after the
      service-account rule, and the subject is `sub` (`None` when absent). */
  lemma AcceptedUser(claims: map<string, Json>, required: string, token: string)
    ensures var login := AcceptedLogin(claims, required, token);
      var roles := GrantedRoles(RolesOf(ClaimedRoles(claims)), IsServiceAccount(claims).Ok? && IsServiceAccount(claims).value, required);
      && (login.Accepted? <==> IsServiceAccount(claims).Ok? && forall k :: 0 <= k < |roles| ==> roles[k].JString?)
      && (login.Accepted? ==>
            && login.user.roles == roles
            && login.subject == login.user.sub == (if "sub" in claims then claims["sub"] else JNull)
            && login.token == token
            && RolesText(roles) == Ok(login.rolesText))
      && (login.Raised? && IsServiceAccount(claims).Err? ==> login.error == IsServiceAccount(claims).error)
  {
  }

  /** The part of `accept_id_token` after parsing, which appends the
      required role in place to the list the roles were taken from. */
  method AcceptClaims(claims: map<string, Json>, required: string, token: string) returns (login: Login)
    ensures login == AcceptedLogin(claims, required, token)
  {
    var payload := claims;
    var claim := ClaimedRoles(payload);
    var roles := RolesOf(claim);
    var service: bool;
    match IsServiceAccount(payload) {
      case Err(e) => return Raised(e);
      case Ok(b) => service := b;
    }
    if service && JString(required) !in roles {
      roles := roles + [JString(required)];
      if claim.ListClaim? {
        payload := payload[claim.key := JArray(roles)];
      }
    }
    var sub := if "sub" in payload then payload["sub"] else JNull;
    match RolesText(roles) {
      case Err(e) => return Raised(e);
      case Ok(text) => return Accepted(sub, text, UserCtx(sub, roles, JObject(payload)), token);
    }
  }
}
