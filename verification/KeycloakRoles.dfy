/**
 The claims transformation that flattens Keycloak's `resource_access` document into role claims. The
 program has it twice, once in the API service and once in the web front end, with the same body.
 */
module KeycloakRoles {
  import opened Prelude

  /** Claim types, as the host's lookups tell them apart. */
  datatype ClaimType = RoleType | ResourceAccessType | OtherType(name: string)

  datatype Claim = Claim(claimType: ClaimType, value: string)

  /** A parsed JSON value; members and elements stand in document order. */
  datatype Json =
    | JNull
    | JBool(flag: bool)
    | JNumber(text: string)
    | JString(text: string)
    | JArray(elements: seq<Json>)
    | JObject(members: seq<(string, Json)>)

  /** What a walk over the document has produced, and whether it ended by an exception. */
  datatype Walk = Walk(claims: seq<Claim>, threw: bool)

  /** `role.GetString()` accepts a string or null and throws on anything else; null and empty give no
      claim. */
  function RolesOf(client: string, roles: seq<Json>): Walk {
    if roles == [] then Walk([], false)
    else
      match roles[0]
      case JNull => RolesOf(client, roles[1..])
      case JString(text) =>
        var rest := RolesOf(client, roles[1..]);
        if text == "" then rest else Walk([Claim(RoleType, client + ":" + text)] + rest.claims, rest.threw)
      case _ => Walk([], true)
  }

  /** `TryGetProperty`: of several members with the name, the last. */
  function Property(members: seq<(string, Json)>, name: string): Option<Json> {
    if members == [] then None
    else if members[|members| - 1].0 == name then Some(members[|members| - 1].1)
    else Property(members[..|members| - 1], name)
  }

  /** One client. A client that is not an object, or roles that are not an array, make the walk throw. */
  function ClientOf(client: string, value: Json): Walk {
    if !value.JObject? then Walk([], true)
    else
      match Property(value.members, "roles")
      case None => Walk([], false)
      case Some(JArray(roles)) => RolesOf(client, roles)
      case Some(_) => Walk([], true)
  }

  function ClientsOf(clients: seq<(string, Json)>): Walk {
    if clients == [] then Walk([], false)
    else
      var first := ClientOf(clients[0].0, clients[0].1);
      if first.threw then first
      else
        var rest := ClientsOf(clients[1..]);
        Walk(first.claims + rest.claims, rest.threw)
  }

  /** `JsonDocument.Parse` fails on text that is no JSON; only an object has members to enumerate. */
  function Flatten(doc: Option<Json>): Walk {
    if doc.Some? && doc.value.JObject? then ClientsOf(doc.value.members) else Walk([], true)
  }

  /** An identity's claims and the principal's other identities' claims, in order. */
  function FirstResourceAccess(claims: seq<Claim>): string {
    if claims == [] then ""
    else if claims[0].claimType == ResourceAccessType then claims[0].value
    else FirstResourceAccess(claims[1..])
  }

  predicate HasRole(claims: seq<Claim>) {
    exists i :: 0 <= i < |claims| && claims[i].claimType == RoleType
  }

  /** What one call adds to the identity's `own` claims; `others` are the claims of the principal's other
      identities, which the document lookup searches too. `parse` stands for the JSON parser. */
  function Additions(parse: string -> Option<Json>, authenticated: bool, own: seq<Claim>, others: seq<Claim>): Walk {
    if !authenticated || HasRole(own) then Walk([], false)
    else
      var text := FirstResourceAccess(own + others);
      if IsBlank(text) then Walk([], false) else Flatten(parse(text))
  }

  /** The identity's claims after a number of calls, each of which may throw. */
  function Repeated(parse: string -> Option<Json>, authenticated: bool, own: seq<Claim>, others: seq<Claim>,
      times: nat): seq<Claim> {
    if times == 0 then own
    else
      var before := Repeated(parse, authenticated, own, others, times - 1);
      before + Additions(parse, authenticated, before, others).claims
  }

  class ClaimsIdentity {
    const isAuthenticated: bool
    var claims: seq<Claim>

    constructor (isAuthenticated: bool, claims: seq<Claim>)
      ensures this.isAuthenticated == isAuthenticated && this.claims == claims
    {
      this.isAuthenticated, this.claims := isAuthenticated, claims;
    }

    method AddClaim(claim: Claim)
      modifies this
      ensures claims == old(claims) + [claim]
    {
      claims := claims + [claim];
    }

    method AddRoles(client: string, roles: seq<Json>) returns (threw: bool)
      modifies this
      ensures claims == old(claims) + RolesOf(client, roles).claims && threw == RolesOf(client, roles).threw
    {
      ghost var was := claims;
      threw := false;
      for i := 0 to |roles|
        invariant was + RolesOf(client, roles).claims == claims + RolesOf(client, roles[i..]).claims
        invariant RolesOf(client, roles).threw == RolesOf(client, roles[i..]).threw
      {
        match roles[i]
        case JNull =>
        case JString(text) =>
          if text != "" {
            ghost var rest := RolesOf(client, roles[i + 1..]).claims;
            var formatted := client + ":" + text;
            assert claims + ([Claim(RoleType, formatted)] + rest) == claims + [Claim(RoleType, formatted)] + rest;
            AddClaim(Claim(RoleType, formatted));
          }
        case _ =>
          return true;
      }
    }

    /** The body of the outer loop, on one client. */
    method AddClient(client: string, value: Json) returns (threw: bool)
      modifies this
      ensures claims == old(claims) + ClientOf(client, value).claims && threw == ClientOf(client, value).threw
    {
      if !value.JObject? {
        return true;
      }
      var roles := Property(value.members, "roles");
      if roles.None? {
        return false;
      }
      if !roles.value.JArray? {
        return true;
      }
      threw := AddRoles(client, roles.value.elements);
    }

    /** `TransformAsync`, on this identity as the principal's primary one. */
    method Transform(parse: string -> Option<Json>, others: seq<Claim>) returns (threw: bool)
      modifies this
      ensures claims == old(claims) + Additions(parse, isAuthenticated, old(claims), others).claims
      ensures threw == Additions(parse, isAuthenticated, old(claims), others).threw
    {
      if !isAuthenticated || HasRole(claims) {
        return false;
      }
      var text := FirstResourceAccess(claims + others);
      if IsBlank(text) {
        return false;
      }
      var doc := parse(text);
      if doc.None? || !doc.value.JObject? {
        return true;
      }
      threw := AddClients(doc.value.members);
    }

    /** The outer loop. */
    method AddClients(clients: seq<(string, Json)>) returns (threw: bool)
      modifies this
      ensures claims == old(claims) + ClientsOf(clients).claims && threw == ClientsOf(clients).threw
    {
      ghost var was := claims;
      for i := 0 to |clients|
        invariant was + ClientsOf(clients).claims == claims + ClientsOf(clients[i..]).claims
        invariant ClientsOf(clients).threw == ClientsOf(clients[i..]).threw
      {
        var (client, value) := clients[i];
        ghost var (now, first, rest) := (claims, ClientOf(client, value).claims, ClientsOf(clients[i + 1..]).claims);
        assert clients[i..][1..] == clients[i + 1..];
        assert now + (first + rest) == (now + first) + rest;
        threw := AddClient(client, value);
        if threw {
          return;
        }
      }
      threw := false;
    }
  }

  // ---------- What the transformation is for ----------

  /** The document read as a list, in document order: its roles, what gives no role, and what is malformed. */
  datatype Part = Role(client: string, role: string) | NoRole | Malformed

  function PartOf(client: string, element: Json): Part {
    match element
    case JNull => NoRole
    case JString(text) => if text == "" then NoRole else Role(client, text)
    case _ => Malformed
  }

  /** A client that is no object, and roles that are no array, are malformed; a client without roles has none. */
  function ClientParts(client: string, value: Json): seq<Part> {
    if !value.JObject? then [Malformed]
    else
      match Property(value.members, "roles")
      case None => []
      case Some(JArray(roles)) => seq(|roles|, i requires 0 <= i < |roles| => PartOf(client, roles[i]))
      case Some(_) => [Malformed]
  }

  function Parts(clients: seq<(string, Json)>): seq<Part> {
    if clients == [] then [] else ClientParts(clients[0].0, clients[0].1) + Parts(clients[1..])
  }

  /** The place of the first malformed part, or the end. */
  function FirstMalformed(parts: seq<Part>): (n: nat)
    ensures n <= |parts| && (n < |parts| ==> parts[n] == Malformed)
    ensures forall i | 0 <= i < n :: parts[i] != Malformed
  {
    if parts == [] || parts[0] == Malformed then 0 else 1 + FirstMalformed(parts[1..])
  }

  /** The claims of the roles among these parts. */
  function ClaimsOf(parts: seq<Part>): seq<Claim> {
    if parts == [] then [] else ClaimOf(parts[0]) + ClaimsOf(parts[1..])
  }

  function ClaimOf(part: Part): seq<Claim> {
    if part.Role? then [Claim(RoleType, part.client + ":" + part.role)] else []
  }

  /** The walk stops at the first malformed part, and produces the claims of all roles before it. */
  ghost predicate Walks(w: Walk, parts: seq<Part>) {
    && w.claims == ClaimsOf(parts[..FirstMalformed(parts)])
    && (w.threw <==> FirstMalformed(parts) < |parts|)
  }

  lemma ClaimsOfCons(part: Part, rest: seq<Part>)
    ensures ClaimsOf([part] + rest) == ClaimOf(part) + ClaimsOf(rest)
  {
    assert ([part] + rest)[1..] == rest;
  }

  lemma Associated(a: seq<Claim>, b: seq<Claim>, c: seq<Claim>)
    ensures a + (b + c) == a + b + c
  {
  }

  lemma {:induction false} ClaimsOfConcat(a: seq<Part>, b: seq<Part>)
    ensures ClaimsOf(a + b) == ClaimsOf(a) + ClaimsOf(b)
  {
    if a == [] {
      assert a + b == b;
    } else {
      var (first, rest) := (a[0], a[1..]);
      ClaimsOfConcat(rest, b);
      ClaimsOfCons(first, rest);
      ClaimsOfCons(first, rest + b);
      assert [first] + rest == a && [first] + (rest + b) == a + b;
      Associated(ClaimOf(first), ClaimsOf(rest), ClaimsOf(b));
    }
  }

  lemma {:induction false} FirstMalformedConcat(a: seq<Part>, b: seq<Part>)
    ensures FirstMalformed(a + b) == if FirstMalformed(a) < |a| then FirstMalformed(a) else |a| + FirstMalformed(b)
  {
    if a == [] {
      assert a + b == b;
    } else {
      FirstMalformedConcat(a[1..], b);
      assert (a + b)[0] == a[0] && (a + b)[1..] == a[1..] + b;
    }
  }

  lemma WalksCons(first: Part, rest: Walk, parts: seq<Part>)
    requires first != Malformed && Walks(rest, parts)
    ensures Walks(Walk(ClaimOf(first) + rest.claims, rest.threw), [first] + parts)
  {
    var n := FirstMalformed(parts);
    assert ([first] + parts)[1..] == parts;
    assert ([first] + parts)[..n + 1] == [first] + parts[..n];
    assert ([first] + parts[..n])[1..] == parts[..n];
  }

  lemma {:induction false} RolesWalk(client: string, roles: seq<Json>, parts: seq<Part>)
    requires |parts| == |roles| && forall i | 0 <= i < |roles| :: parts[i] == PartOf(client, roles[i])
    ensures Walks(RolesOf(client, roles), parts)
  {
    if roles != [] && parts[0] != Malformed {
      RolesWalk(client, roles[1..], parts[1..]);
      WalksCons(parts[0], RolesOf(client, roles[1..]), parts[1..]);
      assert [parts[0]] + parts[1..] == parts;
      var rest := RolesOf(client, roles[1..]);
      assert Walk([] + rest.claims, rest.threw) == rest;
    }
  }

  lemma ClientWalks(client: string, value: Json)
    ensures Walks(ClientOf(client, value), ClientParts(client, value))
  {
    if value.JObject? {
      var roles := Property(value.members, "roles");
      if roles.Some? && roles.value.JArray? {
        RolesWalk(client, roles.value.elements, ClientParts(client, value));
      }
    }
  }

  lemma WalksConcat(first: Walk, rest: Walk, a: seq<Part>, b: seq<Part>)
    requires Walks(first, a) && Walks(rest, b)
    ensures Walks(if first.threw then first else Walk(first.claims + rest.claims, rest.threw), a + b)
  {
    FirstMalformedConcat(a, b);
    if first.threw {
      assert (a + b)[..FirstMalformed(a)] == a[..FirstMalformed(a)];
    } else {
      assert a[..|a|] == a && (a + b)[..|a| + FirstMalformed(b)] == a + b[..FirstMalformed(b)];
      ClaimsOfConcat(a, b[..FirstMalformed(b)]);
    }
  }

  lemma {:induction false} ClientsWalk(clients: seq<(string, Json)>)
    ensures Walks(ClientsOf(clients), Parts(clients))
  {
    if clients != [] {
      var (client, value) := clients[0];
      ClientWalks(client, value);
      ClientsWalk(clients[1..]);
      WalksConcat(ClientOf(client, value), ClientsOf(clients[1..]), ClientParts(client, value), Parts(clients[1..]));
    }
  }

  // ---------- The same, said of the claims and of the document ----------

  /** This claim is the first of the `resource_access` claims. */
  predicate IsDocument(claims: seq<Claim>, n: nat) {
    && n < |claims| && claims[n].claimType == ResourceAccessType
    && forall k | 0 <= k < n :: claims[k].claimType != ResourceAccessType
  }

  lemma {:induction false} FirstResourceAccessIs(claims: seq<Claim>)
    ensures forall n: nat | IsDocument(claims, n) :: FirstResourceAccess(claims) == claims[n].value
    ensures (forall k | 0 <= k < |claims| :: claims[k].claimType != ResourceAccessType) ==>
              FirstResourceAccess(claims) == ""
    ensures FirstResourceAccess(claims) != "" ==> exists n: nat :: IsDocument(claims, n)
  {
    if claims != [] && claims[0].claimType != ResourceAccessType {
      FirstResourceAccessIs(claims[1..]);
      forall n: nat | IsDocument(claims, n) ensures FirstResourceAccess(claims) == claims[n].value {
        assert IsDocument(claims[1..], n - 1);
      }
      if n: nat :| IsDocument(claims[1..], n) { assert IsDocument(claims, n + 1); }
    } else if claims != [] {
      assert IsDocument(claims, 0);
    }
  }

  /** This member is the last of those with the name. */
  predicate IsLast(members: seq<(string, Json)>, name: string, m: nat) {
    m < |members| && members[m].0 == name && forall k | m < k < |members| :: members[k].0 != name
  }

  lemma {:induction false} PropertyIs(members: seq<(string, Json)>, name: string)
    ensures forall m: nat | IsLast(members, name, m) :: Property(members, name) == Some(members[m].1)
    ensures Property(members, name).None? <==> forall k | 0 <= k < |members| :: members[k].0 != name
    ensures Property(members, name).Some? ==> exists m: nat :: IsLast(members, name, m)
  {
    if members != [] {
      var (init, last) := (members[..|members| - 1], members[|members| - 1]);
      PropertyIs(init, name);
      if last.0 == name {
        assert IsLast(members, name, |members| - 1);
      } else {
        forall m: nat | IsLast(members, name, m) ensures IsLast(init, name, m) {}
        if m: nat :| IsLast(init, name, m) { assert IsLast(members, name, m); }
        assert forall k | 0 <= k < |init| :: members[k] == init[k];
      }
    }
  }

  /** What a client's last member `roles` holds. */
  ghost predicate HasRoles(value: Json, roles: Json) {
    value.JObject? && exists m: nat :: IsLast(value.members, "roles", m) && value.members[m].1 == roles
  }

  /** A non-empty string among the roles of a client, and the claim it makes. */
  ghost predicate Makes(client: string, value: Json, c: Claim) {
    exists roles, j :: HasRoles(value, JArray(roles)) && IsRole(roles, j, client, c)
  }

  predicate IsRole(roles: seq<Json>, j: int, client: string, c: Claim) {
    0 <= j < |roles| && roles[j].JString? && roles[j].text != "" && c == Claim(RoleType, client + ":" + roles[j].text)
  }

  /** Something else than a string or null stands among the roles. */
  predicate Unreadable(roles: seq<Json>) {
    exists j :: 0 <= j < |roles| && !roles[j].JString? && !roles[j].JNull?
  }

  /** A client that is no object, whose roles are no array, or have an element that is neither a string nor null. */
  ghost predicate IsMalformed(value: Json) {
    || !value.JObject?
    || exists roles :: HasRoles(value, roles) && (!roles.JArray? || Unreadable(roles.elements))
  }

  lemma HasRolesIs(value: Json, roles: Json)
    ensures HasRoles(value, roles) <==> value.JObject? && Property(value.members, "roles") == Some(roles)
  {
    if value.JObject? { PropertyIs(value.members, "roles"); }
  }

  lemma {:induction false} RolesAre(client: string, roles: seq<Json>)
    ensures RolesOf(client, roles).threw <==> Unreadable(roles)
    ensures forall c | c in RolesOf(client, roles).claims :: exists j :: IsRole(roles, j, client, c)
    ensures !RolesOf(client, roles).threw ==>
              forall j, c | IsRole(roles, j, client, c) :: c in RolesOf(client, roles).claims
  {
    if roles != [] {
      var rest := roles[1..];
      RolesAre(client, rest);
      if j :| 0 <= j < |rest| && !rest[j].JString? && !rest[j].JNull? { assert roles[j + 1] == rest[j]; }
      forall c | c in RolesOf(client, roles).claims ensures exists j :: IsRole(roles, j, client, c) {
        if c in RolesOf(client, rest).claims {
          var j :| IsRole(rest, j, client, c);
          assert IsRole(roles, j + 1, client, c);
        } else {
          assert IsRole(roles, 0, client, c);
        }
      }
      forall j, c | !RolesOf(client, roles).threw && IsRole(roles, j, client, c)
        ensures c in RolesOf(client, roles).claims
      {
        if j > 0 { assert IsRole(rest, j - 1, client, c); }
      }
    }
  }

  lemma ClientIs(client: string, value: Json)
    ensures ClientOf(client, value).threw <==> IsMalformed(value)
    ensures forall c | c in ClientOf(client, value).claims :: Makes(client, value, c)
    ensures !ClientOf(client, value).threw ==> forall c | Makes(client, value, c) :: c in ClientOf(client, value).claims
  {
    forall roles ensures HasRoles(value, roles) <==> value.JObject? && Property(value.members, "roles") == Some(roles) {
      HasRolesIs(value, roles);
    }
    if value.JObject? && Property(value.members, "roles").Some? {
      var roles := Property(value.members, "roles").value;
      assert HasRoles(value, roles);
      if roles.JArray? { RolesAre(client, roles.elements); }
    }
  }

  lemma {:induction false} ClientsAre(clients: seq<(string, Json)>)
    ensures ClientsOf(clients).threw <==> exists i :: 0 <= i < |clients| && IsMalformed(clients[i].1)
    ensures forall c | c in ClientsOf(clients).claims ::
              exists i :: 0 <= i < |clients| && Makes(clients[i].0, clients[i].1, c)
    ensures !ClientsOf(clients).threw ==>
              forall i, c | 0 <= i < |clients| && Makes(clients[i].0, clients[i].1, c) :: c in ClientsOf(clients).claims
  {
    if clients != [] {
      var rest := clients[1..];
      ClientIs(clients[0].0, clients[0].1);
      ClientsAre(rest);
      if i :| 0 <= i < |rest| && IsMalformed(rest[i].1) { assert clients[i + 1] == rest[i]; }
      forall c | c in ClientsOf(clients).claims
        ensures exists i :: 0 <= i < |clients| && Makes(clients[i].0, clients[i].1, c)
      {
        if c in ClientOf(clients[0].0, clients[0].1).claims {
          assert Makes(clients[0].0, clients[0].1, c);
        } else {
          var i :| 0 <= i < |rest| && Makes(rest[i].0, rest[i].1, c);
          assert clients[i + 1] == rest[i];
        }
      }
      forall i, c | !ClientsOf(clients).threw && 0 <= i < |clients| && Makes(clients[i].0, clients[i].1, c)
        ensures c in ClientsOf(clients).claims
      {
        if i > 0 { assert clients[i] == rest[i - 1]; }
      }
    }
  }

  /** An authenticated identity without a role claim, and a document, the first of all the `resource_access` claims:
      the call throws exactly when the document is no object or has a malformed part. It adds precisely the claims of
      the non-empty roles before the first malformed part, in document order: so none that is not of the role type with
      the value `client:role` for such a role of the document, and in a well-formed document one for each. */
  lemma FlatteningIsExact(parse: string -> Option<Json>, own: seq<Claim>, others: seq<Claim>, n: nat)
    requires forall i | 0 <= i < |own| :: own[i].claimType != RoleType
    requires IsDocument(own + others, n) && !IsBlank((own + others)[n].value)
    ensures var doc := parse((own + others)[n].value);
            var w := Additions(parse, true, own, others);
            if doc.Some? && doc.value.JObject? then
              var (clients, parts) := (doc.value.members, Parts(doc.value.members));
              && w.claims == ClaimsOf(parts[..FirstMalformed(parts)])
              && (w.threw <==> exists i :: 0 <= i < |parts| && parts[i] == Malformed)
              && (w.threw <==> exists i :: 0 <= i < |clients| && IsMalformed(clients[i].1))
              && (forall c | c in w.claims :: exists i :: 0 <= i < |clients| && Makes(clients[i].0, clients[i].1, c))
              && (!w.threw ==> forall i, c | 0 <= i < |clients| && Makes(clients[i].0, clients[i].1, c) ::
                                 c in w.claims)
            else w == Walk([], true)
  {
    FirstResourceAccessIs(own + others);
    var doc := parse((own + others)[n].value);
    if doc.Some? && doc.value.JObject? {
      var parts := Parts(doc.value.members);
      ClientsWalk(doc.value.members);
      ClientsAre(doc.value.members);
      if FirstMalformed(parts) < |parts| { assert parts[FirstMalformed(parts)] == Malformed; }
    }
  }

  /** In all other cases the call does nothing: an identity that is not authenticated or has a role claim already,
      no document, or a blank one. */
  lemma NothingElseIsAdded(parse: string -> Option<Json>, authenticated: bool, own: seq<Claim>, others: seq<Claim>)
    requires || !authenticated
             || (exists i :: 0 <= i < |own| && own[i].claimType == RoleType)
             || (forall k | 0 <= k < |own + others| :: (own + others)[k].claimType != ResourceAccessType)
             || (exists n: nat :: IsDocument(own + others, n) && IsBlank((own + others)[n].value))
    ensures Additions(parse, authenticated, own, others) == Walk([], false)
  {
    FirstResourceAccessIs(own + others);
    if n: nat :| IsDocument(own + others, n) && IsBlank((own + others)[n].value) {
      assert FirstResourceAccess(own + others) == (own + others)[n].value;
    } else if exists i :: 0 <= i < |own| && own[i].claimType == RoleType {
      assert HasRole(own);
    }
  }

  /** So a document that gives one client one role adds this one claim. */
  lemma OneRole(parse: string -> Option<Json>, document: string, client: string, role: string)
    requires !IsBlank(document) && role != ""
    requires parse(document) == Some(JObject([(client, JObject([("roles", JArray([JString(role)]))]))]))
    ensures Additions(parse, true, [Claim(ResourceAccessType, document)], []) ==
            Walk([Claim(RoleType, client + ":" + role)], false)
  {
    var own := [Claim(ResourceAccessType, document)];
    assert own + [] == own && IsDocument(own, 0);
    FirstResourceAccessIs(own);
    var (elements, members) := ([JString(role)], [("roles", JArray([JString(role)]))]);
    assert elements[1..] == [];
    assert [Claim(RoleType, client + ":" + role)] + [] == [Claim(RoleType, client + ":" + role)];
    assert IsLast(members, "roles", 0);
    PropertyIs(members, "roles");
    assert RolesOf(client, elements) == Walk([Claim(RoleType, client + ":" + role)], false);
    assert ClientOf(client, JObject(members)) == Walk([Claim(RoleType, client + ":" + role)], false);
    var clients := [(client, JObject(members))];
    assert clients[1..] == [] && ClientsOf(clients[1..]) == Walk([], false);
    assert ClientsOf(clients) == Walk([Claim(RoleType, client + ":" + role)], false);
    assert !HasRole(own) && FirstResourceAccess(own + []) == document;
  }

  lemma {:induction false} RolesGiveRoleClaims(client: string, roles: seq<Json>)
    ensures forall c | c in RolesOf(client, roles).claims :: c.claimType == RoleType
  {
    if roles != [] { RolesGiveRoleClaims(client, roles[1..]); }
  }

  lemma {:induction false} ClientsGiveRoleClaims(clients: seq<(string, Json)>)
    ensures forall c | c in ClientsOf(clients).claims :: c.claimType == RoleType
  {
    if clients != [] {
      var (client, value) := clients[0];
      if value.JObject? && Property(value.members, "roles").Some? && Property(value.members, "roles").value.JArray? {
        RolesGiveRoleClaims(client, Property(value.members, "roles").value.elements);
      }
      ClientsGiveRoleClaims(clients[1..]);
    }
  }

  lemma AdditionsAreRoles(parse: string -> Option<Json>, authenticated: bool, own: seq<Claim>, others: seq<Claim>)
    ensures forall c | c in Additions(parse, authenticated, own, others).claims :: c.claimType == RoleType
  {
    var doc := parse(FirstResourceAccess(own + others));
    if doc.Some? && doc.value.JObject? { ClientsGiveRoleClaims(doc.value.members); }
  }

  /** Whatever the document, a second call adds nothing: either the first one left a role claim, which
      guards the second, or both produce no claim at all. */
  lemma SecondCallAddsNothing(parse: string -> Option<Json>, authenticated: bool, own: seq<Claim>, others: seq<Claim>)
    ensures var once := own + Additions(parse, authenticated, own, others).claims;
            Additions(parse, authenticated, once, others).claims == []
  {
    var added := Additions(parse, authenticated, own, others).claims;
    AdditionsAreRoles(parse, authenticated, own, others);
    if added != [] {
      assert added[0] in added;
      assert (own + added)[|own|].claimType == RoleType;
    } else {
      assert own + added == own;
    }
  }

  /** Any positive number of calls leaves the claims of a single call, also when calls throw. */
  lemma {:induction false} Idempotent(parse: string -> Option<Json>, authenticated: bool, own: seq<Claim>,
      others: seq<Claim>, times: nat)
    requires times > 0
    ensures Repeated(parse, authenticated, own, others, times) ==
              own + Additions(parse, authenticated, own, others).claims
  {
    if times == 1 {
      assert Repeated(parse, authenticated, own, others, 0) == own;
    } else {
      Idempotent(parse, authenticated, own, others, times - 1);
      SecondCallAddsNothing(parse, authenticated, own, others);
    }
  }
}
