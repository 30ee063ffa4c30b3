/** The plugin entry points: `verify`, which settles verified claims on one
    local uid (a stored link, a user matched by email, or a new user),
    `deleteUser`, and the configuration guard of `getStrategy`. */
module Plugin {
  import opened Identity
  import opened Users

  // ---------------------------------------------------------------------------
  // verify

  /** The user `verify` asks the host to create: the preferred username when
      truthy, else the email claim, and the lower-cased `String(email)`. */
  function NewUserFor(h: Host, c: Claims): (r: NewUser)
    ensures r.issuer == c.iss && r.subject == c.sub
    ensures r.username.None? <==> !Truthy(c.preferredUsername) && c.email.None?
    ensures c.email.Some? ==> r.email == h.lower(c.email.value)
    ensures Truthy(c.preferredUsername) ==> r.username == c.preferredUsername
  {
    NewUser(
      if Truthy(c.preferredUsername) then c.preferredUsername else c.email,
      h.lower(Rendered(c.email)),
      c.iss,
      c.sub)
  }

  /** Outcome and new stores of `verify` for the given claims: the value the
      callback receives (a uid or an error) and what was written. */
  function VerifyEffect(h: Host, db: Db, c: Claims, config: Config, fault: Fault): (r: (Result<Uid>, Db))
    requires Consistent(db)
  {
    var found := MappingLookup(h, db, c.iss, c.sub, fault);
    if found.Err? then (Err(found.error), db)
    else if found.value.Some? then (Ok(found.value.value), db)
    else if !config.matchUserByEmail then CreateEffect(h, db, NewUserFor(h, c), fault)
    else
      var byEmail := EmailLookup(h, db, c.email, fault);
      if byEmail.Err? then (Err(byEmail.error), db)
      else if byEmail.value.Some? then
        var uid := byEmail.value.value;
        var (merged, db') := MergeEffect(h, db, uid, c.iss, c.sub, fault);
        (if merged.Ok? then Ok(uid) else Err(merged.error), db')
      else CreateEffect(h, db, NewUserFor(h, c), fault)
  }

  /** `verify(tokenSet, profile, callback)`: the value handed to the callback
      is the result; every failure inside the try block becomes `Err`. */
  method Verify(store: Store, claims: Claims, config: Config, fault: Fault) returns (r: Result<Uid>)
    requires store.Valid()
    modifies store
    ensures store.Valid()
    ensures (r, store.Model()) == VerifyEffect(store.host, old(store.Model()), claims, config, fault)
  {
    var found := store.GetUidByIssuerAndSubject(claims.iss, claims.sub, fault);
    if found.Err? {
      return Err(found.error);
    }
    var uid := found.value;
    if config.matchUserByEmail && uid.None? {
      var byEmail := store.GetUidByEmail(claims.email, fault);
      if byEmail.Err? {
        return Err(byEmail.error);
      }
      uid := byEmail.value;
      if uid.Some? {
        var merged := store.Merge(uid.value, claims.iss, claims.sub, fault);
        if merged.Err? {
          return Err(merged.error);
        }
      }
    }
    if uid.Some? {
      return Ok(uid.value);
    }
    r := store.Create(NewUserFor(store.host, claims), fault);
  }

  lemma VerifyKeepsConsistent(h: Host, db: Db, c: Claims, config: Config, fault: Fault)
    requires Consistent(db)
    ensures Consistent(VerifyEffect(h, db, c, config, fault).1)
  {
    var byEmail := EmailLookup(h, db, c.email, fault);
    if byEmail.Ok? && byEmail.value.Some? {
      MergeKeepsConsistent(h, db, byEmail.value.value, c.iss, c.sub, fault);
    }
    CreateKeepsConsistent(h, db, NewUserFor(h, c), fault);
  }

  /** Fast path: a stored link is returned as it is, and nothing is merged,
      created or written. */
  lemma StoredLinkIsReturned(h: Host, db: Db, c: Claims, config: Config, fault: Fault)
    requires Consistent(db)
    requires Fingerprint(h, c.iss, c.sub) in db.mapping && !FailsAt(fault, ReadMapping)
    ensures VerifyEffect(h, db, c, config, fault) == (Ok(db.mapping[Fingerprint(h, c.iss, c.sub)]), db)
  {
  }

  /** Without email matching and without a link, `verify` never links to an
      existing user: it creates a user new to the directory or fails. When
      the host accepts the email, the user is created. */
  lemma WithoutEmailMatchCreates(h: Host, db: Db, c: Claims, config: Config, fault: Fault)
    requires Consistent(db) && !config.matchUserByEmail
    requires Fingerprint(h, c.iss, c.sub) !in db.mapping
    ensures VerifyEffect(h, db, c, config, Some(ReadEmail)) == VerifyEffect(h, db, c, config, None)
    ensures var (r, db') := VerifyEffect(h, db, c, config, fault);
      && (r.Ok? ==> r == Ok(db.nextUid) && r.value !in db.users)
      && (fault == None && h.lower(Rendered(c.email)) !in db.emailIndex ==>
            r == Ok(db.nextUid) && db'.users.Keys == db.users.Keys + {db.nextUid})
  {
  }

  /** With email matching, no link, and a user registered under the
      lower-cased email: that user is linked and returned, no user is
      created, and only its issuer and subject fields and the one link are
      written. */
  lemma EmailMatchLinksExistingUser(h: Host, db: Db, c: Claims, config: Config)
    requires Consistent(db) && config.matchUserByEmail
    requires Fingerprint(h, c.iss, c.sub) !in db.mapping
    requires c.email.Some? && h.lower(c.email.value) in db.emailIndex
    ensures var uid := db.emailIndex[h.lower(c.email.value)];
      var (r, db') := VerifyEffect(h, db, c, config, None);
      && r == Ok(uid)
      && db'.users.Keys == db.users.Keys && db'.nextUid == db.nextUid
      && db'.emailIndex == db.emailIndex
      && db'.users[uid] == db.users[uid][IssuerField := c.iss][SubjectField := c.sub]
      && (forall v :: v in db.users && v != uid ==> db'.users[v] == db.users[v])
      && db'.mapping == db.mapping[Fingerprint(h, c.iss, c.sub) := uid]
  {
  }

  /** A user created by `verify` is named by the preferred username when it
      is truthy and by the email claim otherwise, and carries the lower-cased
      email. */
  lemma NewUserProfile(h: Host, db: Db, c: Claims, config: Config)
    requires Consistent(db)
    requires Fingerprint(h, c.iss, c.sub) !in db.mapping
    requires h.lower(Rendered(c.email)) !in db.emailIndex
    requires config.matchUserByEmail ==> c.email.Some?
    ensures var (r, db') := VerifyEffect(h, db, c, config, None);
      && r == Ok(db.nextUid) && db.nextUid !in db.users
      && db'.users[r.value][EmailField] == h.lower(Rendered(c.email))
      && (Truthy(c.preferredUsername) ==> db'.users[r.value][UsernameField] == c.preferredUsername.value)
      && (!Truthy(c.preferredUsername) && c.email.Some? ==> db'.users[r.value][UsernameField] == c.email.value)
      && (!Truthy(c.preferredUsername) && c.email.None? ==> UsernameField !in db'.users[r.value])
      && db'.users[r.value][IssuerField] == c.iss && db'.users[r.value][SubjectField] == c.sub
  {
  }

  /** After any successful `verify` the link for the claims' fingerprint
      holds the returned uid. */
  lemma SuccessLeavesLink(h: Host, db: Db, c: Claims, config: Config, fault: Fault)
    requires Consistent(db)
    ensures var (r, db') := VerifyEffect(h, db, c, config, fault);
      r.Ok? ==> (Fingerprint(h, c.iss, c.sub) in db'.mapping
                 && db'.mapping[Fingerprint(h, c.iss, c.sub)] == r.value)
  {
  }

  /** Any failure reaches the callback as an error and never writes a link;
      a failure before the first write leaves the stores as they were. */
  lemma FailureWritesNoLink(h: Host, db: Db, c: Claims, config: Config, fault: Fault)
    requires Consistent(db)
    ensures var (r, db') := VerifyEffect(h, db, c, config, fault);
      && (r.Err? ==> db'.mapping == db.mapping)
      && (r.Err? && r.error in {Rejected(ReadMapping), Rejected(ReadEmail), Rejected(CreateUser), EmailMissing} ==>
            db' == db)
  {
  }

  /** With email matching on, no link, and an absent email claim, `verify`
      fails (the lower-casing throws) and writes nothing. */
  lemma MissingEmailFails(h: Host, db: Db, c: Claims, config: Config, fault: Fault)
    requires Consistent(db) && config.matchUserByEmail && c.email.None?
    requires Fingerprint(h, c.iss, c.sub) !in db.mapping && !FailsAt(fault, ReadMapping)
    ensures VerifyEffect(h, db, c, config, fault) == (Err(EmailMissing), db)
  {
  }

  /** `verify` never deletes: every user and every link survives it, and it
      creates at most one user. */
  lemma VerifyNeverDeletes(h: Host, db: Db, c: Claims, config: Config, fault: Fault)
    requires Consistent(db)
    ensures var (_, db') := VerifyEffect(h, db, c, config, fault);
      && db.users.Keys <= db'.users.Keys
      && db'.users.Keys <= db.users.Keys + {db.nextUid}
      && (forall f :: f in db.mapping && f != Fingerprint(h, c.iss, c.sub) ==>
            f in db'.mapping && db'.mapping[f] == db.mapping[f])
      && db.mapping.Keys <= db'.mapping.Keys
  {
  }

  /** A second `verify` with the same claims returns the same uid and
      changes nothing. */
  lemma SecondLoginIsFastPath(h: Host, db: Db, c: Claims, config: Config, fault: Fault, fault2: Fault)
    requires Consistent(db) && !FailsAt(fault2, ReadMapping)
    ensures var (r, db') := VerifyEffect(h, db, c, config, fault);
      r.Ok? ==> Consistent(db') && VerifyEffect(h, db', c, config, fault2) == (r, db')
  {
  }

  /** The callback results and final stores of `n` fault-free logins with the
      same claims, one after the other. */
  function Logins(h: Host, db: Db, c: Claims, config: Config, n: nat): (r: (seq<Result<Uid>>, Db))
    requires Consistent(db)
    decreases n
  {
    if n == 0 then ([], db)
    else
      VerifyKeepsConsistent(h, db, c, config, None);
      var (r, db1) := VerifyEffect(h, db, c, config, None);
      var (rest, dbn) := Logins(h, db1, c, config, n - 1);
      ([r] + rest, dbn)
  }

  lemma {:induction false} LinkedLoginsAreStable(h: Host, db: Db, c: Claims, config: Config, n: nat)
    requires Consistent(db) && Fingerprint(h, c.iss, c.sub) in db.mapping
    ensures var (rs, dbn) := Logins(h, db, c, config, n);
      && |rs| == n && dbn == db
      && (forall k :: 0 <= k < n ==> rs[k] == Ok(db.mapping[Fingerprint(h, c.iss, c.sub)]))
  {
    if n > 0 {
      StoredLinkIsReturned(h, db, c, config, None);
      LinkedLoginsAreStable(h, db, c, config, n - 1);
    }
  }

  /** However often the same claims log in, every login returns the uid of
      the first one, and only the first one writes anything: at most one
      user is ever created. */
  lemma RepeatedLoginsWriteOnce(h: Host, db: Db, c: Claims, config: Config, n: nat)
    requires Consistent(db) && n >= 1
    requires VerifyEffect(h, db, c, config, None).0.Ok?
    ensures var (first, db1) := VerifyEffect(h, db, c, config, None);
      var (rs, dbn) := Logins(h, db, c, config, n);
      && |rs| == n && (forall k :: 0 <= k < n ==> rs[k] == first)
      && dbn == db1
      && dbn.users.Keys <= db.users.Keys + {db.nextUid}
  {
    var (first, db1) := VerifyEffect(h, db, c, config, None);
    VerifyKeepsConsistent(h, db, c, config, None);
    SuccessLeavesLink(h, db, c, config, None);
    VerifyNeverDeletes(h, db, c, config, None);
    LinkedLoginsAreStable(h, db1, c, config, n - 1);
  }

  /** With email matching on, two identities whose emails lower-case alike
      resolve to the same user, whichever logs in first. */
  lemma EmailCaseInsensitiveLink(h: Host, db: Db, c1: Claims, c2: Claims, config: Config, e1: string, e2: string)
    requires Consistent(db) && config.matchUserByEmail
    requires c1.email == Some(e1) && c2.email == Some(e2) && h.lower(e1) == h.lower(e2)
    requires Fingerprint(h, c1.iss, c1.sub) !in db.mapping
    requires Fingerprint(h, c2.iss, c2.sub) !in db.mapping
    ensures var (r1, db1) := VerifyEffect(h, db, c1, config, None);
      && r1.Ok? && Consistent(db1)
      && VerifyEffect(h, db1, c2, config, None).0 == r1
  {
  }

  /** Without email matching, two identities with distinct fingerprints
      never share a user: the second login creates another user, or fails
      when the host already holds its email, writing nothing. */
  lemma WithoutEmailMatchDistinctUsers(h: Host, db: Db, c1: Claims, c2: Claims, config: Config)
    requires Consistent(db) && !config.matchUserByEmail
    requires Fingerprint(h, c1.iss, c1.sub) !in db.mapping
    requires Fingerprint(h, c2.iss, c2.sub) !in db.mapping
    requires Fingerprint(h, c1.iss, c1.sub) != Fingerprint(h, c2.iss, c2.sub)
    requires h.lower(Rendered(c1.email)) !in db.emailIndex
    ensures var (r1, db1) := VerifyEffect(h, db, c1, config, None);
      && r1.Ok? && Consistent(db1)
      && var (r2, db2) := VerifyEffect(h, db1, c2, config, None);
      && (r2.Ok? ==> r2.value != r1.value)
      && (h.lower(Rendered(c2.email)) == h.lower(Rendered(c1.email)) ==>
            r2 == Err(Rejected(CreateUser)) && db2 == db1)
  {
  }

  /** The fingerprint does not separate ("a-b", "c") from ("a", "b-c"): the
      second identity logs in, by the fast path, as the user linked to the
      first. */
  lemma CollidingIdentityLogsIn(h: Host, db: Db, config: Config, email: Option<string>,
                                name: Option<string>, fault: Fault)
    requires Consistent(db) && Fingerprint(h, "a-b", "c") in db.mapping
    requires !FailsAt(fault, ReadMapping)
    ensures VerifyEffect(h, db, Claims("a", "b-c", email, name), config, fault)
         == (Ok(db.mapping[Fingerprint(h, "a-b", "c")]), db)
  {
    JoinedCollision(h);
  }

  /** On empty stores without email matching, the first login of alice
      creates user 1 named "alice" and links her identity to it; a second
      login returns user 1 and writes nothing. */
  lemma FirstLoginScenario(h: Host)
    ensures var c := Claims("https://idp.example", "abc123", Some("alice@example.com"), Some("alice"));
      var config := Config(Some("https://idp.example/.well-known"), Some("id"), Some("secret"), false);
      var (r, db1) := VerifyEffect(h, EmptyDb, c, config, None);
      && r == Ok(1)
      && db1.users.Keys == {1}
      && db1.users[1][UsernameField] == "alice"
      && db1.users[1][EmailField] == h.lower("alice@example.com")
      && db1.mapping == map[Fingerprint(h, "https://idp.example", "abc123") := 1]
      && Consistent(db1)
      && VerifyEffect(h, db1, c, config, None) == (Ok(1), db1)
  {
  }

  // ---------------------------------------------------------------------------
  // deleteUser

  /** `deleteUser({ uid })`: exactly `remove(uid)`. */
  method DeleteUser(store: Store, uid: Uid, fault: Fault) returns (r: Result<()>)
    requires store.Valid()
    modifies store
    ensures store.Valid()
    ensures (r, store.Model()) == RemoveEffect(store.host, old(store.Model()), uid, fault)
  {
    r := store.Remove(uid, fault);
  }

  /** Deleting a user that `verify` has just created or linked removes the
      link of those claims. */
  lemma DeleteAfterLoginClearsLink(h: Host, db: Db, c: Claims, config: Config)
    requires Consistent(db) && Fingerprint(h, c.iss, c.sub) !in db.mapping
    requires VerifyEffect(h, db, c, config, None).0.Ok?
    ensures var (r, db1) := VerifyEffect(h, db, c, config, None);
      Fingerprint(h, c.iss, c.sub) !in RemoveEffect(h, db1, r.value, None).1.mapping
  {
  }

  /** A user linked to a second identity through its email keeps only the
      second identity in its fields, so deleting it leaves the first link
      pointing at the deleted uid. */
  lemma DeleteKeepsEarlierLink(h: Host, db: Db, c1: Claims, c2: Claims, config: Config, e1: string, e2: string)
    requires Consistent(db) && config.matchUserByEmail
    requires c1.email == Some(e1) && c2.email == Some(e2) && h.lower(e1) == h.lower(e2)
    requires Fingerprint(h, c1.iss, c1.sub) !in db.mapping
    requires Fingerprint(h, c2.iss, c2.sub) !in db.mapping
    requires Fingerprint(h, c1.iss, c1.sub) != Fingerprint(h, c2.iss, c2.sub)
    ensures var (r1, db1) := VerifyEffect(h, db, c1, config, None);
      && r1.Ok? && Consistent(db1)
      && var (r2, db2) := VerifyEffect(h, db1, c2, config, None);
      && r2 == r1
      && var db3 := RemoveEffect(h, db2, r1.value, None).1;
      && Fingerprint(h, c2.iss, c2.sub) !in db3.mapping
      && Fingerprint(h, c1.iss, c1.sub) in db3.mapping
      && db3.mapping[Fingerprint(h, c1.iss, c1.sub)] == r1.value
  {
    EmailCaseInsensitiveLink(h, db, c1, c2, config, e1, e2);
    var (r1, db1) := VerifyEffect(h, db, c1, config, None);
    SuccessLeavesLink(h, db, c1, config, None);
    var (r2, db2) := VerifyEffect(h, db1, c2, config, None);
    assert Fingerprint(h, c2.iss, c2.sub) !in db1.mapping;
    EmailMatchLinksExistingUser(h, db1, c2, config);
    assert FieldText(h, db2, r1.value, IssuerField) == c2.iss;
    assert FieldText(h, db2, r1.value, SubjectField) == c2.sub;
  }

  /** The host deleting a user after `deleteUser`: its record and its email
      registrations go; the `oidc:uid` object is not the host's to touch. */
  function HostDeletesUser(db: Db, uid: Uid): (r: Db)
    ensures uid !in r.users && r.mapping == db.mapping
    ensures Consistent(db) ==> Consistent(r)
  {
    db.(users := db.users - {uid},
        emailIndex := map e | e in db.emailIndex && db.emailIndex[e] != uid :: db.emailIndex[e])
  }

  /** Continuing `DeleteKeepsEarlierLink`: once the host has deleted the
      user, the first identity's next login still resolves, through its
      surviving link, to the uid of the deleted user. */
  lemma StaleLinkOutlivesUser(h: Host, db: Db, c1: Claims, c2: Claims, config: Config, e1: string, e2: string)
    requires Consistent(db) && config.matchUserByEmail
    requires c1.email == Some(e1) && c2.email == Some(e2) && h.lower(e1) == h.lower(e2)
    requires Fingerprint(h, c1.iss, c1.sub) !in db.mapping
    requires Fingerprint(h, c2.iss, c2.sub) !in db.mapping
    requires Fingerprint(h, c1.iss, c1.sub) != Fingerprint(h, c2.iss, c2.sub)
    ensures var (r1, db1) := VerifyEffect(h, db, c1, config, None);
      && r1.Ok? && Consistent(db1)
      && var db2 := VerifyEffect(h, db1, c2, config, None).1;
      && Consistent(db2)
      && var gone := HostDeletesUser(RemoveEffect(h, db2, r1.value, None).1, r1.value);
      && r1.value !in gone.users && Consistent(gone)
      && VerifyEffect(h, gone, c1, config, None) == (Ok(r1.value), gone)
  {
    DeleteKeepsEarlierLink(h, db, c1, c2, config, e1, e2);
    var (r1, db1) := VerifyEffect(h, db, c1, config, None);
    VerifyKeepsConsistent(h, db1, c2, config, None);
  }

  // ---------------------------------------------------------------------------
  // getStrategy

  const BasePath := "/auth/oidc"
  const LoginPath := BasePath + "/login"
  const CallbackPath := BasePath + "/callback"

  /** One entry of the host's list of login strategies. */
  datatype StrategyEntry = StrategyEntry(
    name: string, url: string, callbackURL: string, icon: string, scope: string)

  function OidcEntry(name: string): (r: StrategyEntry) {
    StrategyEntry(name, LoginPath, CallbackPath, "fa-openid", "openid email profile")
  }

  /** The guard: the login is disabled unless the discovery URL, the client
      id and the client secret are all truthy. */
  function ConfigMissing(config: Config): (r: bool)
    ensures !r ==> config.discoverUrl.Some? && config.clientId.Some? && config.clientSecret.Some?
    ensures config.discoverUrl == Some("") || config.clientId == Some("") || config.clientSecret == Some("") ==> r
  {
    !Truthy(config.discoverUrl) || !Truthy(config.clientId) || !Truthy(config.clientSecret)
  }

  /** The caller's array of strategies, which `getStrategy` pushes onto. */
  class Strategies {
    var items: seq<StrategyEntry>

    constructor (items: seq<StrategyEntry>)
      ensures this.items == items
    {
      this.items := items;
    }
  }

  /** `getStrategy(strategies)`: `discovered` is the name of the strategy
      built from the discovered provider, or `None` when discovery fails. */
  method GetStrategy(strategies: Strategies, config: Config, discovered: Option<string>)
    returns (r: Result<()>)
    modifies strategies
    ensures ConfigMissing(config) ==> r == Ok(()) && strategies.items == old(strategies.items)
    ensures !ConfigMissing(config) && discovered.None? ==>
              r == Err(DiscoveryFailed) && strategies.items == old(strategies.items)
    ensures !ConfigMissing(config) && discovered.Some? ==>
              r == Ok(()) && strategies.items == old(strategies.items) + [OidcEntry(discovered.value)]
  {
    if ConfigMissing(config) {
      return Ok(());
    }
    if discovered.None? {
      return Err(DiscoveryFailed);
    }
    strategies.items := strategies.items + [OidcEntry(discovered.value)];
    r := Ok(());
  }

  /** The entry points at the login and callback paths under `/auth/oidc`. */
  lemma OidcEntryPaths(name: string)
    ensures OidcEntry(name).url == "/auth/oidc/login"
    ensures OidcEntry(name).callbackURL == "/auth/oidc/callback"
  {
  }
}
