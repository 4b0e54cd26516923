/** The database rows that the login and token handlers read, and the few they write. */
module Accounts {
  import opened Wrappers

  /** A row identifier; Nil is the zero uuid. */
  datatype Uuid = Nil | Id(n: nat)

  type ServerName = string

  /** A stored digest. Hashing is taken to be injective, so a digest is its preimage, tagged. */
  datatype Hash = NoHash | HashOf(secret: string)

  datatype VirtualServer = VirtualServer(requireEmailVerification: bool, require2fa: bool)

  datatype ApplicationType = Public | Confidential | OtherType

  datatype Application = Application(
    id: Uuid,
    kind: ApplicationType,
    hashedSecret: Hash,
    redirectUris: seq<string>,
    deviceFlowEnabled: bool)

  datatype User = User(server: ServerName, emailVerified: bool)

  datatype PasswordDetails = PasswordDetails(hashedPassword: Hash, temporary: bool)

  /** Applications and usernames are unique within a virtual server, and a user has at most one password. */
  datatype Db = Db(
    servers: map<ServerName, VirtualServer>,
    applications: map<(ServerName, string), Application>,
    users: map<Uuid, User>,
    usernames: map<(ServerName, string), Uuid>,
    passwords: map<Uuid, PasswordDetails>,
    totps: map<Uuid, seq<string>>,
    passkeys: map<string, Uuid>)

  predicate UserOn(db: Db, id: Uuid, server: ServerName) {
    id in db.users && db.users[id].server == server
  }

  function TotpSecrets(db: Db, id: Uuid): seq<string> {
    if id in db.totps then db.totps[id] else []
  }

  /** The user whose password credential accepts this name and password on this server. */
  function PasswordOwner(db: Db, server: ServerName, username: string, password: string): Option<Uuid> {
    if (server, username) in db.usernames
       && var id := db.usernames[(server, username)];
          id in db.passwords && db.passwords[id].hashedPassword == HashOf(password)
    then Some(db.usernames[(server, username)])
    else None
  }

  /** Client authentication: a confidential client shows its secret, a public client shows none. */
  predicate Authenticates(db: Db, server: ServerName, client: string, secret: string) {
    && (server, client) in db.applications
    && var app := db.applications[(server, client)];
       match app.kind
       case Confidential => secret != "" && app.hashedSecret == HashOf(secret)
       case Public => secret == ""
       case OtherType => false
  }
}
