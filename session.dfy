/** The session store and role resolver (`AuthService`): four string keys in a
    key-value store, a logged-in test on the token, and a role that falls back
    to the claims of the token's payload segment. */
module Session {
  import opened Common

  /** The claims of a decoded token payload, as a JSON object of strings. */
  type Claims = map<string, string>

  const TokenKey := "token"
  const EmailKey := "email"
  const RoleKey := "role"
  const UserIdKey := "userId"

  /** The keys this service owns; no other key is ever written or removed. */
  const SessionKeys: set<string> := {TokenKey, EmailKey, RoleKey, UserIdKey}

  /** The claim names `getRole` tries, in order. */
  const RoleClaimNames: seq<string> := ["role", "Role"]

  /** `Storage.getItem` (and a property read on a decoded object): the stored
      string, or null when the key is absent. */
  function GetItem(store: map<string, string>, key: string): Option<string> {
    if key in store then Some(store[key]) else None
  }

  /** `s.split(sep)` for a one-character separator: the maximal runs of
      characters between separators, empty runs included. */
  function Split(s: string, sep: char): (parts: seq<string>)
    ensures |parts| >= 1
    ensures forall i :: 0 <= i < |parts| ==> sep !in parts[i]
    ensures Join(parts, sep) == s
    ensures |parts| == 1 <==> sep !in s
  {
    if s == [] then [""]
    else
      var rest := Split(s[1..], sep);
      if s[0] == sep then
        assert ([""] + rest)[1..] == rest;
        [""] + rest
      else
        var parts := [[s[0]] + rest[0]] + rest[1..];
        assert parts[1..] == rest[1..];
        assert s == [s[0]] + s[1..];
        parts
  }

  /** `parts.join(sep)`, the inverse of Split. */
  function Join(parts: seq<string>, sep: char): string
    requires |parts| >= 1
  {
    if |parts| == 1 then parts[0] else parts[0] + [sep] + Join(parts[1..], sep)
  }

  /** Splitting text that begins with a separator-free field and a separator
      yields that field followed by the split of the rest. */
  lemma {:induction false} SplitAfterField(field: string, sep: char, rest: string)
    requires sep !in field
    ensures Split(field + [sep] + rest, sep) == [field] + Split(rest, sep)
  {
    var s := field + [sep] + rest;
    if field == [] {
      assert s[1..] == rest;
    } else {
      assert s[1..] == field[1..] + [sep] + rest;
      SplitAfterField(field[1..], sep, rest);
      assert [field[0]] + field[1..] == field;
    }
  }

  /** `token.split('.')[1]`: the payload segment of a compact JWT (section 7.2
      of RFC 7519), or `undefined` (None) when the token holds no dot. */
  function PayloadSegment(token: string): (seg: Option<string>)
    ensures seg.Some? <==> '.' in token
    ensures seg.Some? ==> '.' !in seg.value
  {
    var parts := Split(token, '.');
    if |parts| > 1 then Some(parts[1]) else None
  }

  /** For a token of the form header.payload.signature, the segment handed to
      the decoder is exactly the payload. */
  lemma PayloadOfCompactToken(header: string, payload: string, signature: string)
    requires '.' !in header && '.' !in payload
    ensures PayloadSegment(header + "." + payload + "." + signature) == Some(payload)
  {
    var token := header + "." + payload + "." + signature;
    assert token == header + ['.'] + (payload + ['.'] + signature);
    SplitAfterField(header, '.', payload + ['.'] + signature);
    SplitAfterField(payload, '.', signature);
  }

  /** `decoded['role'] || decoded['Role'] || null`. */
  function RoleClaim(claims: Claims): (r: Option<string>)
    ensures r.Some? ==> r.value != ""
    ensures Truthy(GetItem(claims, "role")) ==> r == GetItem(claims, "role")
    ensures !Truthy(GetItem(claims, "role")) ==>
              r == if Truthy(GetItem(claims, "Role")) then GetItem(claims, "Role") else None
  {
    var role := GetItem(claims, "role");
    if Truthy(role) then role
    else
      var capitalised := GetItem(claims, "Role");
      if Truthy(capitalised) then capitalised else None
  }

  /** The first truthy entry of a list of candidate values, or null: the
      declarative form of a chain of `a || b || ... || null`. */
  function FirstTruthy(candidates: seq<Option<string>>): (r: Option<string>)
    ensures r.Some? ==> r.value != "" && r in candidates
    ensures r.None? <==> forall i :: 0 <= i < |candidates| ==> !Truthy(candidates[i])
    ensures r.Some? ==> exists i :: 0 <= i < |candidates| && candidates[i] == r
                                    && forall j :: 0 <= j < i ==> !Truthy(candidates[j])
  {
    if candidates == [] then None
    else if Truthy(candidates[0]) then candidates[0]
    else
      var rest := FirstTruthy(candidates[1..]);
      assert rest.Some? ==> exists i :: 1 <= i < |candidates| && candidates[i] == rest
                                        && forall j :: 0 <= j < i ==> !Truthy(candidates[j]) by {
        if rest.Some? {
          var k :| 0 <= k < |candidates[1..]| && candidates[1..][k] == rest
                   && forall j :: 0 <= j < k ==> !Truthy(candidates[1..][j]);
          assert candidates[k + 1] == rest;
          assert forall j :: 1 <= j < k + 1 ==> candidates[j] == candidates[1..][j - 1];
        }
      }
      rest
  }

  class AuthService {
    /** The browser's local storage, as far as this service sees it. */
    var storage: map<string, string>
    /** `JSON.parse(atob(segment))`, with any exception read as None. */
    const decodeClaims: string -> Option<Claims>

    constructor (storage: map<string, string>, decodeClaims: string -> Option<Claims>)
      ensures this.storage == storage && this.decodeClaims == decodeClaims
    {
      this.storage := storage;
      this.decodeClaims := decodeClaims;
    }

    function GetToken(): (t: Option<string>)
      reads this
      ensures t.Some? <==> TokenKey in storage
      ensures t.Some? ==> t.value == storage[TokenKey]
    {
      GetItem(storage, TokenKey)
    }

    /** The email is read from the store only; the token is never consulted. */
    function GetEmail(): (e: Option<string>)
      reads this
      ensures e.Some? <==> EmailKey in storage
      ensures e.Some? ==> e.value == storage[EmailKey]
    {
      GetItem(storage, EmailKey)
    }

    function IsLoggedIn(): (b: bool)
      reads this
      ensures b <==> TokenKey in storage && storage[TokenKey] != ""
    {
      Truthy(GetToken())
    }

    /** The value of a claim of the stored token's payload, null when the
        token is falsy, has no payload segment, fails to decode or lacks it. */
    function TokenClaim(name: string): Option<string>
      reads this
    {
      var token := GetToken();
      if !Truthy(token) then None
      else match PayloadSegment(token.value)
        case None => None
        case Some(segment) =>
          match decodeClaims(segment)
          case None => None
          case Some(claims) => GetItem(claims, name)
    }

    /** The sources of the role, in the order they are tried. */
    function RoleSources(): seq<Option<string>>
      reads this
    {
      [GetItem(storage, RoleKey), TokenClaim(RoleClaimNames[0]), TokenClaim(RoleClaimNames[1])]
    }

    function GetRole(): (r: Option<string>)
      reads this
      ensures Truthy(GetItem(storage, RoleKey)) ==> r == GetItem(storage, RoleKey)
      ensures !Truthy(GetItem(storage, RoleKey)) && !Truthy(GetToken()) ==> r == None
      ensures r.Some? ==> r.value != ""
    {
      var storedRole := GetItem(storage, RoleKey);
      if Truthy(storedRole) then storedRole
      else
        var token := GetToken();
        if !Truthy(token) then None
        else match PayloadSegment(token.value)
          // atob(undefined) decodes the text "undefined", whose length is
          // 1 modulo 4, and throws: the catch turns that into null.
          case None => None
          case Some(segment) =>
            match decodeClaims(segment)
            case None => None
            case Some(claims) => RoleClaim(claims)
    }

    /** The role is the first truthy of the stored role, the token's `role`
        claim and its `Role` claim, whatever the store holds. */
    lemma GetRoleIsFirstTruthySource()
      ensures GetRole() == FirstTruthy(RoleSources())
    {
      var sources := RoleSources();
      assert sources[1..][1..] == [sources[2]];
      if !Truthy(sources[0]) && Truthy(GetToken()) {
        var segment := PayloadSegment(GetToken().value);
        if segment.Some? && decodeClaims(segment.value).Some? {
          var claims := decodeClaims(segment.value).value;
          assert sources[1] == GetItem(claims, "role");
          assert sources[2] == GetItem(claims, "Role");
        }
      }
    }

    method SetSession(token: string, email: string, role: string, userId: Option<string>)
      modifies this`storage
      ensures storage == (old(storage)[TokenKey := token][EmailKey := email][RoleKey := role]
                          + if Truthy(userId) then map[UserIdKey := userId.value] else map[])
      ensures GetToken() == Some(token) && GetEmail() == Some(email)
      ensures GetItem(storage, RoleKey) == Some(role)
      ensures GetItem(storage, UserIdKey) ==
                if Truthy(userId) then userId else old(GetItem(storage, UserIdKey))
      ensures IsLoggedIn() <==> token != ""
      ensures role != "" ==> GetRole() == Some(role)
      ensures forall k :: k !in SessionKeys ==> GetItem(storage, k) == old(GetItem(storage, k))
    {
      storage := storage[TokenKey := token];
      storage := storage[EmailKey := email];
      storage := storage[RoleKey := role];
      if Truthy(userId) {
        storage := storage[UserIdKey := userId.value];
      }
    }

    method ClearSession()
      modifies this`storage
      ensures storage == old(storage) - SessionKeys
      ensures GetToken() == None && GetEmail() == None
      ensures GetItem(storage, RoleKey) == None && GetItem(storage, UserIdKey) == None
      ensures !IsLoggedIn() && GetRole() == None
      ensures forall k :: k !in SessionKeys ==> GetItem(storage, k) == old(GetItem(storage, k))
      // Clearing a store that holds none of the keys changes nothing, so a
      // second call has no further effect.
      ensures old(storage).Keys !! SessionKeys ==> storage == old(storage)
    {
      storage := storage - {TokenKey};
      storage := storage - {EmailKey};
      storage := storage - {RoleKey};
      storage := storage - {UserIdKey};
    }

    method Logout()
      modifies this`storage
      ensures storage == old(storage) - SessionKeys
      ensures !IsLoggedIn() && GetRole() == None && GetEmail() == None
    {
      ClearSession();
    }
  }
}
