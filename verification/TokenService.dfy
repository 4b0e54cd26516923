/** The token service: six kinds of token in one string-keyed key-value store, kept apart by their keys. */
module TokenService {
  import opened Wrappers

  datatype TokenType =
    | EmailVerification | LoginSession | OidcCode | OidcRefreshToken | OidcDeviceCode | OidcUserCode

  function Name(t: TokenType): string {
    match t
    case EmailVerification => "email_verification"
    case LoginSession => "login_session"
    case OidcCode => "oidc_code"
    case OidcRefreshToken => "oidc_refresh_token"
    case OidcDeviceCode => "oidc_device_code"
    case OidcUserCode => "oidc_user_code"
  }

  function Tagged(prefix: string, rest: string): string {
    prefix + ":" + rest
  }

  function Key(t: TokenType, token: string): string {
    Tagged(Name(t), token)
  }

  /** A colon-free prefix can be read back from a tagged key, and so can the rest. */
  lemma TaggedIsInjective(p: string, r: string, q: string, u: string)
    requires ':' !in p && ':' !in q && Tagged(p, r) == Tagged(q, u)
    ensures p == q && r == u
  {
    var k := Tagged(p, r);
    assert k[|p|] == ':' && forall i :: 0 <= i < |p| ==> k[i] == p[i];
    assert k[|q|] == ':' && forall i :: 0 <= i < |q| ==> k[i] == q[i];
    assert |p| == |q|;
    assert p == k[..|p|] && q == k[..|q|];
    assert r == k[|p| + 1..] && u == k[|q| + 1..];
  }

  lemma NamesDiffer(t: TokenType, u: TokenType)
    ensures ':' !in Name(t)
    ensures Name(t) == Name(u) ==> t == u
  {
    assert Name(t) == Name(u) ==> |Name(t)| == |Name(u)|;
    assert Name(OidcRefreshToken)[5] == 'r' && Name(EmailVerification)[5] == '_';
  }

  /** Whatever strings clients send as tokens, two different (type, token) pairs never share a key. */
  lemma KeyIsInjective(t: TokenType, a: string, u: TokenType, b: string)
    ensures Key(t, a) == Key(u, b) <==> t == u && a == b
  {
    NamesDiffer(t, u);
    NamesDiffer(u, t);
    if Key(t, a) == Key(u, b) {
      TaggedIsInjective(Name(t), a, Name(u), b);
    }
  }

  /** The prefixes of everything else in the store: cached sessions, passkey logins and passkey registrations. */
  const FOREIGN := {"session", "passkey_login", "passkey_challenge"}

  /** No token key is one of the other kinds that share the store. */
  lemma KeyIsNotForeign(t: TokenType, a: string, prefix: string, rest: string)
    requires prefix in FOREIGN
    ensures Key(t, a) != Tagged(prefix, rest)
  {
    NamesDiffer(t, t);
    assert |Name(t)| != |"session"| && Name(t)[0] != "passkey_login"[0] && Name(t)[0] != "passkey_challenge"[0];
    if Key(t, a) == Tagged(prefix, rest) {
      TaggedIsInjective(Name(t), a, prefix, rest);
    }
  }

  /** The cache key of a session; virtual server names may hold colons, session ids never do. */
  function SessionKey(server: string, id: string): string {
    Tagged("session", Tagged(server, id))
  }

  /** Two sessions share a cache key only if they agree in server and id. */
  lemma SessionKeyIsInjective(server: string, id: string, otherServer: string, otherId: string)
    requires ':' !in id && ':' !in otherId
    ensures SessionKey(server, id) == SessionKey(otherServer, otherId) <==> server == otherServer && id == otherId
  {
    if SessionKey(server, id) == SessionKey(otherServer, otherId) {
      TaggedIsInjective("session", Tagged(server, id), "session", Tagged(otherServer, otherId));
      LastColon(server, id, otherServer, otherId);
    }
  }

  lemma LastColon(p: string, r: string, q: string, u: string)
    requires ':' !in r && ':' !in u && Tagged(p, r) == Tagged(q, u)
    ensures p == q && r == u
  {
    var k := Tagged(p, r);
    assert k[|p|] == ':' && forall i :: |p| < i < |k| ==> k[i] == r[i - |p| - 1];
    assert k[|q|] == ':' && forall i :: |q| < i < |k| ==> k[i] == u[i - |q| - 1];
    assert |p| == |q|;
    assert p == k[..|p|] && q == k[..|q|];
    assert r == k[|p| + 1..] && u == k[|q| + 1..];
  }

  class Store {
    var kv: map<string, string>

    ghost function Lookup(t: TokenType, token: string): Option<string>
      reads this
    {
      if Key(t, token) in kv then Some(kv[Key(t, token)]) else None
    }

    constructor ()
      ensures kv == map[]
    {
      kv := map[];
    }

    /** Generating and updating a token both store a value; only the one named entry changes. */
    method StoreToken(t: TokenType, token: string, value: string)
      modifies this
      ensures forall u, b :: Lookup(u, b) == if u == t && b == token then Some(value) else old(Lookup(u, b))
    {
      forall u, b ensures Key(u, b) == Key(t, token) <==> u == t && b == token {
        KeyIsInjective(u, b, t, token);
      }
      kv := kv[Key(t, token) := value];
    }

    method GetToken(t: TokenType, token: string) returns (value: Option<string>)
      ensures value == Lookup(t, token)
    {
      if Key(t, token) !in kv {
        return None;
      }
      return Some(kv[Key(t, token)]);
    }

    /** Deleting a missing token is not an error. */
    method DeleteToken(t: TokenType, token: string)
      modifies this
      ensures forall u, b :: Lookup(u, b) == if u == t && b == token then None else old(Lookup(u, b))
    {
      forall u, b ensures Key(u, b) == Key(t, token) <==> u == t && b == token {
        KeyIsInjective(u, b, t, token);
      }
      kv := kv - {Key(t, token)};
    }
  }
}
