/** The user helper of the plugin: the `oidc:uid` object, which maps a
    fingerprint of (issuer, subject) to a local uid, and the host's user
    directory, which holds one field bag per uid and an email -> uid index. */
module Users {
  import opened Identity

  const UsernameField := "username"
  const EmailField := "email"
  const IssuerField := "oidcissuer"
  const SubjectField := "oidcsubject"

  /** The stores as one value. */
  datatype Db = Db(
    mapping: map<string, Uid>,            // the `oidc:uid` object: fingerprint -> uid
    users: map<Uid, map<string, string>>, // the field bag `user:<uid>` of every user
    emailIndex: map<string, Uid>,         // the host's email -> uid index
    nextUid: Uid)                         // the uid the host hands out next

  const EmptyDb := Db(map[], map[], map[], 1)

  /** Every uid in use was handed out by the host, and every uid the email
      index points at names an existing user. A link may name a uid whose
      user is gone: `remove` can leave such links behind. */
  ghost predicate Consistent(db: Db) {
    && (forall u :: u in db.users ==> u < db.nextUid)
    && (forall e :: e in db.emailIndex ==> db.emailIndex[e] in db.users)
  }

  /** The string the fingerprint is computed from: `${issuer}-${subject}`. */
  function Joined(issuer: string, subject: string): (r: string) {
    issuer + "-" + subject
  }

  /** `hash(issuer, subject)`: the digest of the joined string. */
  function Fingerprint(h: Host, issuer: string, subject: string): (r: string) {
    h.digest(Joined(issuer, subject))
  }

  /** The fields `User.create` is given: `{ username, email }`. */
  function Bag(username: Option<string>, email: string): (r: map<string, string>) {
    var withEmail := map[EmailField := email];
    if username.Some? then withEmail[UsernameField := username.value] else withEmail
  }

  function SetField(users: map<Uid, map<string, string>>, uid: Uid, field: string, value: string)
    : (r: map<Uid, map<string, string>>)
    requires uid in users
  {
    users[uid := users[uid][field := value]]
  }

  /** What `User.getUserField(uid, field)` renders as inside a template literal. */
  function FieldText(h: Host, db: Db, uid: Uid, field: string): (r: string) {
    if uid in db.users && field in db.users[uid] then db.users[uid][field] else h.missingText
  }

  /** The argument of `create`. */
  datatype NewUser = NewUser(username: Option<string>, email: string, issuer: string, subject: string)

  /** Whether the host refuses to create the user: its own validation (the
      fault) or an email its index already holds. */
  predicate HostRefuses(db: Db, user: NewUser, fault: Fault) {
    FailsAt(fault, CreateUser) || user.email in db.emailIndex
  }

  /** Outcome and new stores of `create(user)`; a call that rejects ends the
      sequence of writes there. */
  function CreateEffect(h: Host, db: Db, user: NewUser, fault: Fault): (r: (Result<Uid>, Db)) {
    if HostRefuses(db, user, fault) then (Err(Rejected(CreateUser)), db)
    else
      var uid := db.nextUid;
      var made := Db(db.mapping, db.users[uid := Bag(user.username, user.email)],
                     db.emailIndex[user.email := uid], uid + 1);
      if FailsAt(fault, WriteIssuer) then (Err(Rejected(WriteIssuer)), made)
      else
        var withIssuer := made.(users := SetField(made.users, uid, IssuerField, user.issuer));
        if FailsAt(fault, WriteSubject) then (Err(Rejected(WriteSubject)), withIssuer)
        else
          var linked := withIssuer.(users := SetField(withIssuer.users, uid, SubjectField, user.subject));
          if FailsAt(fault, WriteMapping) then (Err(Rejected(WriteMapping)), linked)
          else (Ok(uid), linked.(mapping := linked.mapping[Fingerprint(h, user.issuer, user.subject) := uid]))
  }

  /** Outcome and new stores of `merge(uid, { oidcIssuer, oidcSubject })`. */
  function MergeEffect(h: Host, db: Db, uid: Uid, issuer: string, subject: string, fault: Fault)
    : (r: (Result<()>, Db))
    requires uid in db.users
  {
    if FailsAt(fault, WriteIssuer) then (Err(Rejected(WriteIssuer)), db)
    else
      var withIssuer := db.(users := SetField(db.users, uid, IssuerField, issuer));
      if FailsAt(fault, WriteSubject) then (Err(Rejected(WriteSubject)), withIssuer)
      else
        var linked := withIssuer.(users := SetField(withIssuer.users, uid, SubjectField, subject));
        if FailsAt(fault, WriteMapping) then (Err(Rejected(WriteMapping)), linked)
        else (Ok(()), linked.(mapping := linked.mapping[Fingerprint(h, issuer, subject) := uid]))
  }

  /** The fingerprint `remove(uid)` recomputes from the user's stored fields. */
  function StoredFingerprint(h: Host, db: Db, uid: Uid): (r: string) {
    Fingerprint(h, FieldText(h, db, uid, IssuerField), FieldText(h, db, uid, SubjectField))
  }

  /** Outcome and new stores of `remove(uid)`. */
  function RemoveEffect(h: Host, db: Db, uid: Uid, fault: Fault): (r: (Result<()>, Db)) {
    if FailsAt(fault, ReadIssuer) then (Err(Rejected(ReadIssuer)), db)
    else if FailsAt(fault, ReadSubject) then (Err(Rejected(ReadSubject)), db)
    else if FailsAt(fault, DeleteMapping) then (Err(Rejected(DeleteMapping)), db)
    else (Ok(()), db.(mapping := db.mapping - {StoredFingerprint(h, db, uid)}))
  }

  /** Result of `getUidByIssuerAndSubject(issuer, subject)`. */
  function MappingLookup(h: Host, db: Db, issuer: string, subject: string, fault: Fault)
    : (r: Result<Option<Uid>>)
  {
    var key := Fingerprint(h, issuer, subject);
    if FailsAt(fault, ReadMapping) then Err(Rejected(ReadMapping))
    else if key in db.mapping then Ok(Some(db.mapping[key]))
    else Ok(None)
  }

  /** Result of `getUidByEmail(email)`: the argument is lower-cased first, which
      throws when the claim is absent. */
  function EmailLookup(h: Host, db: Db, email: Option<string>, fault: Fault): (r: Result<Option<Uid>>) {
    if email.None? then Err(EmailMissing)
    else if FailsAt(fault, ReadEmail) then Err(Rejected(ReadEmail))
    else
      var key := h.lower(email.value);
      if key in db.emailIndex then Ok(Some(db.emailIndex[key])) else Ok(None)
  }

  /** The stores, updated in place by the helper's operations. */
  class Store {
    const host: Host
    var mapping: map<string, Uid>
    var users: map<Uid, map<string, string>>
    var emailIndex: map<string, Uid>
    var nextUid: Uid

    function Model(): (db: Db)
      reads this
    {
      Db(mapping, users, emailIndex, nextUid)
    }

    ghost predicate Valid()
      reads this
    {
      Consistent(Model())
    }

    constructor (host: Host)
      ensures Valid() && this.host == host && Model() == EmptyDb
    {
      this.host := host;
      mapping, users, emailIndex, nextUid := map[], map[], map[], 1;
    }

    /** `create(user)`: makes a user, records the issuer and subject on it,
        then links the fingerprint to it. */
    method Create(user: NewUser, fault: Fault) returns (r: Result<Uid>)
      requires Valid()
      modifies this
      ensures Valid()
      ensures (r, Model()) == CreateEffect(host, old(Model()), user, fault)
    {
      CreateKeepsConsistent(host, Model(), user, fault);
      if HostRefuses(Model(), user, fault) {
        return Err(Rejected(CreateUser));
      }
      var uid := nextUid;
      users := users[uid := Bag(user.username, user.email)];
      emailIndex := emailIndex[user.email := uid];
      nextUid := nextUid + 1;
      var oidchash := Fingerprint(host, user.issuer, user.subject);
      if FailsAt(fault, WriteIssuer) {
        return Err(Rejected(WriteIssuer));
      }
      users := SetField(users, uid, IssuerField, user.issuer);
      if FailsAt(fault, WriteSubject) {
        return Err(Rejected(WriteSubject));
      }
      users := SetField(users, uid, SubjectField, user.subject);
      if FailsAt(fault, WriteMapping) {
        return Err(Rejected(WriteMapping));
      }
      mapping := mapping[oidchash := uid];
      r := Ok(uid);
    }

    /** `merge(uid, oidc)`: records the issuer and subject on an existing user
        and links the fingerprint to it. */
    method Merge(uid: Uid, issuer: string, subject: string, fault: Fault) returns (r: Result<()>)
      requires Valid() && uid in users
      modifies this
      ensures Valid()
      ensures (r, Model()) == MergeEffect(host, old(Model()), uid, issuer, subject, fault)
    {
      MergeKeepsConsistent(host, Model(), uid, issuer, subject, fault);
      var oidchash := Fingerprint(host, issuer, subject);
      if FailsAt(fault, WriteIssuer) {
        return Err(Rejected(WriteIssuer));
      }
      users := SetField(users, uid, IssuerField, issuer);
      if FailsAt(fault, WriteSubject) {
        return Err(Rejected(WriteSubject));
      }
      users := SetField(users, uid, SubjectField, subject);
      if FailsAt(fault, WriteMapping) {
        return Err(Rejected(WriteMapping));
      }
      mapping := mapping[oidchash := uid];
      r := Ok(());
    }

    /** `remove(uid)`: deletes the link whose fingerprint is recomputed from
        the user's stored issuer and subject. */
    method Remove(uid: Uid, fault: Fault) returns (r: Result<()>)
      requires Valid()
      modifies this
      ensures Valid()
      ensures (r, Model()) == RemoveEffect(host, old(Model()), uid, fault)
    {
      if FailsAt(fault, ReadIssuer) {
        return Err(Rejected(ReadIssuer));
      }
      var issuer := FieldText(host, Model(), uid, IssuerField);
      if FailsAt(fault, ReadSubject) {
        return Err(Rejected(ReadSubject));
      }
      var subject := FieldText(host, Model(), uid, SubjectField);
      var oidchash := Fingerprint(host, issuer, subject);
      if FailsAt(fault, DeleteMapping) {
        return Err(Rejected(DeleteMapping));
      }
      mapping := mapping - {oidchash};
      r := Ok(());
    }

    /** `getUidByIssuerAndSubject(issuer, subject)`: a read of the mapping. */
    method GetUidByIssuerAndSubject(issuer: string, subject: string, fault: Fault)
      returns (r: Result<Option<Uid>>)
      ensures r == MappingLookup(host, Model(), issuer, subject, fault)
      ensures r.Err? <==> FailsAt(fault, ReadMapping)
      ensures r == Ok(None) <==> !FailsAt(fault, ReadMapping) && Fingerprint(host, issuer, subject) !in mapping
      ensures r.Ok? && r.value.Some? ==> mapping[Fingerprint(host, issuer, subject)] == r.value.value
    {
      var oidchash := Fingerprint(host, issuer, subject);
      if FailsAt(fault, ReadMapping) {
        return Err(Rejected(ReadMapping));
      }
      if oidchash in mapping {
        r := Ok(Some(mapping[oidchash]));
      } else {
        r := Ok(None);
      }
    }

    /** `getUidByEmail(email)`: lower-cases the email, then reads the index. */
    method GetUidByEmail(email: Option<string>, fault: Fault) returns (r: Result<Option<Uid>>)
      requires Valid()
      ensures r == EmailLookup(host, Model(), email, fault)
      ensures email.None? ==> r == Err(EmailMissing)
      ensures r.Ok? && r.value.Some? ==> r.value.value in users
      ensures email.Some? && !FailsAt(fault, ReadEmail) ==>
                r == Ok(if host.lower(email.value) in emailIndex then Some(emailIndex[host.lower(email.value)]) else None)
    {
      if email.None? {
        return Err(EmailMissing);
      }
      var key := host.lower(email.value);
      if FailsAt(fault, ReadEmail) {
        return Err(Rejected(ReadEmail));
      }
      if key in emailIndex {
        r := Ok(Some(emailIndex[key]));
      } else {
        r := Ok(None);
      }
    }
  }

  // ---------------------------------------------------------------------------
  // The fingerprint

  /** The fingerprint depends only on the joined string. */
  lemma FingerprintOfJoined(h: Host, i1: string, s1: string, i2: string, s2: string)
    requires Joined(i1, s1) == Joined(i2, s2)
    ensures Fingerprint(h, i1, s1) == Fingerprint(h, i2, s2)
  {
  }

  /** Under one issuer, distinct subjects give distinct joined strings, so
      they can only share a fingerprint through a digest collision. */
  lemma JoinedInjectiveForIssuer(issuer: string, s1: string, s2: string)
    requires Joined(issuer, s1) == Joined(issuer, s2)
    ensures s1 == s2
  {
    var n := |issuer| + 1;
    assert s1 == Joined(issuer, s1)[n..];
    assert s2 == Joined(issuer, s2)[n..];
  }

  /** The joined string does not determine the pair: ("a-b", "c") and
      ("a", "b-c") always share a fingerprint. */
  lemma JoinedCollision(h: Host)
    ensures ("a-b", "c") != ("a", "b-c")
    ensures Fingerprint(h, "a-b", "c") == Fingerprint(h, "a", "b-c")
  {
    assert Joined("a-b", "c") == ['a', '-', 'b', '-', 'c'] == Joined("a", "b-c");
  }

  // ---------------------------------------------------------------------------
  // create

  /** A completed `create` adds exactly one user, new to the directory, with
      the given username and email and the issuer and subject recorded on it,
      registers its email and links its fingerprint; nothing else changes. */
  lemma CreateAddsOneUser(h: Host, db: Db, user: NewUser)
    requires Consistent(db) && user.email !in db.emailIndex
    ensures var (r, db') := CreateEffect(h, db, user, None);
      && r.Ok? && r.value !in db.users
      && db'.users.Keys == db.users.Keys + {r.value}
      && (forall v :: v in db.users ==> db'.users[v] == db.users[v])
      && db'.users[r.value] == Bag(user.username, user.email)[IssuerField := user.issuer][SubjectField := user.subject]
      && db'.emailIndex == db.emailIndex[user.email := r.value]
      && db'.mapping == db.mapping[Fingerprint(h, user.issuer, user.subject) := r.value]
  {
  }

  /** When the host refuses the user, nothing at all is written. */
  lemma CreateRejectedWritesNothing(h: Host, db: Db, user: NewUser, fault: Fault)
    requires HostRefuses(db, user, fault)
    ensures CreateEffect(h, db, user, fault) == (Err(Rejected(CreateUser)), db)
  {
  }

  /** A `create` that fails never writes the link, whichever call rejects. */
  lemma CreateFailureWritesNoLink(h: Host, db: Db, user: NewUser, fault: Fault)
    ensures var (r, db') := CreateEffect(h, db, user, fault);
      r.Err? ==> db'.mapping == db.mapping
  {
  }

  lemma CreateKeepsConsistent(h: Host, db: Db, user: NewUser, fault: Fault)
    requires Consistent(db)
    ensures Consistent(CreateEffect(h, db, user, fault).1)
  {
  }

  // ---------------------------------------------------------------------------
  // merge

  /** A completed `merge` overwrites only uid's issuer and subject fields and
      the one link for the fingerprint; it creates no user. */
  lemma MergeTouchesOnlyLink(h: Host, db: Db, uid: Uid, issuer: string, subject: string)
    requires uid in db.users
    ensures var (r, db') := MergeEffect(h, db, uid, issuer, subject, None);
      && r.Ok?
      && db'.users.Keys == db.users.Keys && db'.nextUid == db.nextUid
      && db'.emailIndex == db.emailIndex
      && (forall v :: v in db.users && v != uid ==> db'.users[v] == db.users[v])
      && db'.users[uid] == db.users[uid][IssuerField := issuer][SubjectField := subject]
      && db'.mapping.Keys == db.mapping.Keys + {Fingerprint(h, issuer, subject)}
      && db'.mapping[Fingerprint(h, issuer, subject)] == uid
      && (forall f :: f in db.mapping && f != Fingerprint(h, issuer, subject) ==> db'.mapping[f] == db.mapping[f])
  {
  }

  /** A `merge` that fails never writes the link and never creates a user. */
  lemma MergeFailureWritesNoLink(h: Host, db: Db, uid: Uid, issuer: string, subject: string, fault: Fault)
    requires uid in db.users
    ensures var (r, db') := MergeEffect(h, db, uid, issuer, subject, fault);
      r.Err? ==> db'.mapping == db.mapping && db'.users.Keys == db.users.Keys
  {
  }

  lemma MergeKeepsConsistent(h: Host, db: Db, uid: Uid, issuer: string, subject: string, fault: Fault)
    requires Consistent(db) && uid in db.users
    ensures Consistent(MergeEffect(h, db, uid, issuer, subject, fault).1)
  {
  }

  // ---------------------------------------------------------------------------
  // remove and the lookups

  /** `remove` deletes only the link keyed by the fingerprint of the user's
      stored fields; the user fields and every other link stay, and it is a
      no-op when that key is absent. */
  lemma RemoveDeletesOnlyStoredLink(h: Host, db: Db, uid: Uid)
    ensures var (r, db') := RemoveEffect(h, db, uid, None);
      && r.Ok?
      && db'.users == db.users && db'.emailIndex == db.emailIndex && db'.nextUid == db.nextUid
      && db'.mapping.Keys == db.mapping.Keys - {StoredFingerprint(h, db, uid)}
      && (forall f :: f in db'.mapping ==> db'.mapping[f] == db.mapping[f])
      && (StoredFingerprint(h, db, uid) !in db.mapping ==> db' == db)
  {
  }

  /** A `remove` that fails changes nothing. */
  lemma RemoveFailureChangesNothing(h: Host, db: Db, uid: Uid, fault: Fault)
    ensures RemoveEffect(h, db, uid, fault).0.Err? ==> RemoveEffect(h, db, uid, fault).1 == db
  {
  }

  /** A fingerprint that was never set reads as absent. */
  lemma LookupOfUnsetIsAbsent(h: Host, db: Db, issuer: string, subject: string)
    requires Fingerprint(h, issuer, subject) !in db.mapping
    ensures MappingLookup(h, db, issuer, subject, None) == Ok(None)
  {
  }

  /** Emails that lower-case alike resolve to the same uid. */
  lemma EmailLookupIgnoresCase(h: Host, db: Db, e1: string, e2: string, fault: Fault)
    requires h.lower(e1) == h.lower(e2)
    ensures EmailLookup(h, db, Some(e1), fault) == EmailLookup(h, db, Some(e2), fault)
  {
  }
}
