/** Sessions: a table of rows, a cache in front of it, and the cookie that names one of them. */
module Sessions {
  import opened Wrappers
  import opened Accounts
  import opened Protocol
  import opened SplitToken

  /** Session ids as texts: parse reads several forms, text writes one. The library that does both is not modelled. */
  datatype UuidFormat = UuidFormat(parse: seq<Byte> -> Option<Token>, text: Token -> seq<Byte>)

  predicate Clean(text: seq<Byte>) {
    text != [] && COLON !in text
  }

  /** This is a session id: it is read back from its own text, which is not empty and has no colon. */
  predicate IsId(f: UuidFormat, id: Token) {
    Clean(f.text(id)) && f.parse(f.text(id)) == Some(id)
  }

  function Chars(bytes: seq<Byte>): (s: string)
    ensures |s| == |bytes| && forall i :: 0 <= i < |s| ==> s[i] as int == bytes[i]
  {
    seq(|bytes|, i requires 0 <= i < |bytes| => bytes[i] as char)
  }

  function Digest(secret: seq<Byte>): Hash {
    HashOf(Chars(secret))
  }

  /** What a lookup yields, and what the cache holds. */
  datatype Cached = Cached(user: Uuid, hashedSecret: Hash)

  datatype Lookup = Failed | Missing | Found(session: Cached)

  /** loadSessionFromDatabase */
  function DbLookup(servers: set<ServerName>, rows: map<Token, Session>, server: ServerName, id: Token): Lookup {
    if server !in servers then Failed
    else if id in rows && rows[id].server == server then Found(Cached(rows[id].userId, rows[id].hashedToken))
    else Missing
  }

  /** The request is turned away, or goes on without a user, or as a user. */
  datatype Visitor = Rejected | Anonymous | Known(user: Uuid)

  /** Whom a cookie stands for, going by the table alone. */
  function CookieVisitor(f: UuidFormat, servers: set<ServerName>, rows: map<Token, Session>,
                         server: ServerName, cookie: string): Visitor {
    match DecodeSplitToken(cookie)
    case None => Rejected
    case Some(token) =>
      match f.parse(token.id)
      case None => Rejected
      case Some(id) =>
        match DbLookup(servers, rows, server, id)
        case Failed => Rejected
        case Missing => Anonymous
        case Found(session) => if session.hashedSecret == Digest(token.secret) then Known(session.user) else Anonymous
  }

  datatype Operation =
    | New(server: ServerName, user: Uuid, id: Token, secret: seq<Byte>)
    | Get(server: ServerName, id: Token)
    | Lapse(server: ServerName, id: Token)
    | Delete(server: ServerName, id: Token)

  function RowsAfter(servers: set<ServerName>, rows: map<Token, Session>, o: Operation): map<Token, Session> {
    match o
    case New(server, user, id, secret) =>
      if server in servers then rows[id := Session(server, user, Digest(secret))] else rows
    case Delete(server, id) =>
      if server in servers && id in rows && rows[id].server == server then rows - {id} else rows
    case _ => rows
  }

  function RowsAfterAll(servers: set<ServerName>, rows: map<Token, Session>, os: seq<Operation>): map<Token, Session>
    decreases os
  {
    if os == [] then rows
    else RowsAfterAll(servers, RowsAfter(servers, rows, os[0]), os[1..])
  }

  class SessionService {
    const format: UuidFormat
    const servers: set<ServerName>
    var rows: map<Token, Session>
    var cache: map<(ServerName, Token), Cached>

    /** Every cached entry is what the database lookup gives. */
    ghost predicate Valid()
      reads this
    {
      forall k :: k in cache ==> DbLookup(servers, rows, k.0, k.1) == Found(cache[k])
    }

    constructor (format: UuidFormat, servers: set<ServerName>)
      ensures Valid() && this.format == format && this.servers == servers && rows == map[] && cache == map[]
    {
      this.format, this.servers := format, servers;
      rows, cache := map[], map[];
    }

    method NewSession(server: ServerName, user: Uuid, id: Token, secret: seq<Byte>)
      returns (token: Option<SplitToken>)
      requires Valid() && id !in rows
      modifies this`rows
      ensures Valid() && rows == RowsAfter(servers, old(rows), New(server, user, id, secret))
      ensures rows == if server in servers then old(rows)[id := Session(server, user, HashOf(Chars(secret)))]
                      else old(rows)
      ensures token == if server in servers then Some(SplitToken(format.text(id), secret)) else None
    {
      if server !in servers {
        return None;
      }
      rows := rows[id := Session(server, user, Digest(secret))];
      return Some(SplitToken(format.text(id), secret));
    }

    /** The cache first, then the table; a hit in the table is cached. */
    method GetSession(server: ServerName, id: Token) returns (r: Lookup)
      requires Valid()
      modifies this`cache
      ensures Valid() && r == DbLookup(servers, rows, server, id)
      ensures r.Failed? <==> server !in servers
      ensures r.Found? <==> server in servers && id in rows && rows[id].server == server
      ensures r.Found? ==> r.session == Cached(rows[id].userId, rows[id].hashedToken)
      ensures cache == if (server, id) !in old(cache) && r.Found? then old(cache)[(server, id) := r.session]
                       else old(cache)
    {
      if (server, id) in cache {
        return Found(cache[(server, id)]);
      }
      if server !in servers {
        return Failed;
      }
      if id !in rows || rows[id].server != server {
        return Missing;
      }
      var session := Cached(rows[id].userId, rows[id].hashedToken);
      cache := cache[(server, id) := session];
      return Found(session);
    }

    method LapseCached(server: ServerName, id: Token)
      requires Valid()
      modifies this`cache
      ensures Valid() && cache == old(cache) - {(server, id)}
    {
      cache := cache - {(server, id)};
    }

    /** A missing session is not an error; one of another server is. */
    method DeleteSession(server: ServerName, id: Token) returns (ok: bool)
      requires Valid()
      modifies this
      ensures Valid() && rows == RowsAfter(servers, old(rows), Delete(server, id))
      ensures ok <==> server in servers && (id in old(rows) ==> old(rows)[id].server == server)
      ensures rows == if ok then old(rows) - {id} else old(rows)
      ensures cache == if ok && id in old(rows) then old(cache) - {(server, id)} else old(cache)
      ensures ok ==> DbLookup(servers, rows, server, id) == Missing && (server, id) !in cache
    {
      if server !in servers {
        return false;
      }
      if id !in rows {
        return true;
      }
      if rows[id].server != server {
        return false;
      }
      cache := cache - {(server, id)};
      rows := rows - {id};
      return true;
    }

    /** SessionMiddleware: decode the cookie, look the session up, compare the secret. */
    method ResolveCookie(server: ServerName, cookie: string) returns (visitor: Visitor)
      requires Valid()
      modifies this`cache
      ensures Valid() && visitor == CookieVisitor(format, servers, rows, server, cookie)
      ensures var token := DecodeSplitToken(cookie);
              && (visitor == Rejected <==>
                    token.None? || format.parse(token.value.id).None? || server !in servers)
              && (token.Some? && format.parse(token.value.id).Some? && server in servers ==>
                    var id := format.parse(token.value.id).value;
                    visitor == if id in rows && rows[id].server == server
                                  && rows[id].hashedToken == HashOf(Chars(token.value.secret))
                               then Known(rows[id].userId) else Anonymous)
    {
      var token := DecodeSplitToken(cookie);
      if token.None? {
        return Rejected;
      }
      var id := format.parse(token.value.id);
      if id.None? {
        return Rejected;
      }
      var found := GetSession(server, id.value);
      if found.Failed? {
        return Rejected;
      }
      if found.Missing? {
        return Anonymous;
      }
      if found.session.hashedSecret == Digest(token.value.secret) {
        return Known(found.session.user);
      }
      return Anonymous;
    }
  }

  // ---------- cookies over whole histories ----------

  predicate Creates(servers: set<ServerName>, o: Operation, id: Token) {
    o.New? && o.server in servers && o.id == id
  }

  /** A deletion that names the session on its own server; on any other it is refused. */
  predicate Deletes(o: Operation, server: ServerName, id: Token) {
    o.Delete? && o.server == server && o.id == id
  }

  lemma {:induction false} RowUntouched(servers: set<ServerName>, rows: map<Token, Session>,
                                        os: seq<Operation>, id: Token)
    requires forall o :: o in os ==> !Creates(servers, o, id)
    requires id in rows ==> forall o :: o in os ==> !Deletes(o, rows[id].server, id)
    ensures id in RowsAfterAll(servers, rows, os) <==> id in rows
    ensures id in rows ==> RowsAfterAll(servers, rows, os)[id] == rows[id]
    decreases os
  {
    if os != [] {
      assert os[0] in os && forall o :: o in os[1..] ==> o in os;
      RowUntouched(servers, RowsAfter(servers, rows, os[0]), os[1..], id);
    }
  }

  /** The cookie of a new session resolves to its user on its own server, and on no other, until it is deleted there. */
  lemma CookieResolvesUntilDeleted(f: UuidFormat, servers: set<ServerName>, rows: map<Token, Session>, made: Operation,
                                   os: seq<Operation>, server: ServerName)
    requires made.New? && IsId(f, made.id) && made.server in servers && Clean(made.secret)
    requires forall o :: o in os ==> !Creates(servers, o, made.id) && !Deletes(o, made.server, made.id)
    ensures var after := RowsAfterAll(servers, RowsAfter(servers, rows, made), os);
            CookieVisitor(f, servers, after, server, Encode(SplitToken(f.text(made.id), made.secret)))
            == if server == made.server then Known(made.user)
               else if server in servers then Anonymous
               else Rejected
  {
    SplitTokenRoundTrip(SplitToken(f.text(made.id), made.secret));
    RowUntouched(servers, RowsAfter(servers, rows, made), os, made.id);
  }

  /** Once its session is deleted a cookie resolves to nobody, whatever happens next to other sessions. */
  lemma CookieIsDeadAfterDelete(f: UuidFormat, servers: set<ServerName>, rows: map<Token, Session>, id: Token,
                                secret: seq<Byte>, os: seq<Operation>, server: ServerName)
    requires IsId(f, id) && Clean(secret)
    requires id in rows && rows[id].server in servers
    requires forall o :: o in os ==> !Creates(servers, o, id)
    ensures var after := RowsAfterAll(servers, RowsAfter(servers, rows, Delete(rows[id].server, id)), os);
            CookieVisitor(f, servers, after, server, Encode(SplitToken(f.text(id), secret)))
            == if server in servers then Anonymous else Rejected
  {
    SplitTokenRoundTrip(SplitToken(f.text(id), secret));
    RowUntouched(servers, RowsAfter(servers, rows, Delete(rows[id].server, id)), os, id);
  }

  // ---------- the same sessions in the protocol ----------

  /** What the protocol is given of a cookie that the middleware could read. */
  function ReadCookie(f: UuidFormat, cookie: string): Option<(Token, string)> {
    match DecodeSplitToken(cookie)
    case None => None
    case Some(token) =>
      match f.parse(token.id)
      case None => None
      case Some(id) => Some((id, Chars(token.secret)))
  }

  /** On a server that exists the cookie's user is the protocol's active user; for other cookies both see none. */
  lemma VisitorIsActiveUser(f: UuidFormat, s: State, server: ServerName, cookie: string)
    requires server in s.db.servers
    ensures var visitor, user := CookieVisitor(f, s.db.servers.Keys, s.sessions, server, cookie),
                                 ActiveUser(s, server, ReadCookie(f, cookie));
            && (user.Some? ==> visitor == Known(user.value))
            && (user.None? ==> visitor == (if ReadCookie(f, cookie).None? then Rejected else Anonymous))
  {
  }

  /** FinishLogin, and the end of a session, change the protocol's sessions as the session service changes its table. */
  lemma SessionsAreRows(s: State, login: Token, id: Token, secret: seq<Byte>, server: ServerName)
    ensures SessionBegins(s, login) ==>
              SessionsAfter(s, DoFinishLogin(login, id, Chars(secret)))
              == RowsAfter(s.db.servers.Keys, s.sessions,
                           New(s.logins[login].server, s.logins[login].userId, id, secret))
    ensures server in s.db.servers && id in s.sessions && s.sessions[id].server == server ==>
              SessionsAfter(s, DoLapse(Key(SessionKind, id)))
              == RowsAfter(s.db.servers.Keys, s.sessions, Delete(server, id))
  {
  }

  /** The cookie handed out by FinishLogin makes its user the active user of the very next request. */
  lemma FinishedLoginIsActive(f: UuidFormat, s: State, login: Token, id: Token, secret: seq<Byte>)
    requires IsId(f, id) && Clean(secret) && SessionBegins(s, login)
    ensures var after := Next(s, DoFinishLogin(login, id, Chars(secret)));
            ActiveUser(after, s.logins[login].server, ReadCookie(f, Encode(SplitToken(f.text(id), secret))))
            == Some(s.logins[login].userId)
  {
    SplitTokenRoundTrip(SplitToken(f.text(id), secret));
  }
}
