# OpenID Connect identity resolution, modelled in Dafny

This project models the core of a forum plugin that adds OpenID Connect login.
Once the provider has returned verified ID-token claims (`iss`, `sub`, `email`,
`preferred_username`; see section 5.1 of OpenID Connect Core 1.0), the plugin
settles on one local user id. It has three ways to get one:

- the **fast path**: a stored link for the identity;
- the **email merge**: when `matchUserByEmail` is on, a user registered under the lower-cased email;
- **creation**: a new user.

The plugin keeps two stores consistent:

- **the `oidc:uid` object**: a map from the fingerprint `md5("${iss}-${sub}")` to a uid;
- **the host's user directory**: one field bag per uid (`username`, `email`, `oidcissuer`, `oidcsubject`) and an email → uid index.

Files:

- `identity.dfy` (module `Identity`) holds the shared types:
  - claims, configuration and errors;
  - `Fault`, the single host or store call that rejects during a run, if it is reached;
  - `Host`, the collaborators that stay abstract.
  The MD5 digest and JavaScript's lower-casing are function-valued fields of `Host`, so no property of them is assumed. In particular the fingerprint is not assumed to be injective.
- `users.dfy` (module `Users`) models `lib/helpers/users.js`:
  - a `Store` class whose maps are updated in place by `Create`, `Merge` and `Remove`, and read by the two lookups;
  - for every operation, a function on the `Db` value that gives its outcome and the stores it leaves, including the partial state left when a call rejects mid-way;
  - lemmas about those functions.
- `plugin.dfy` (module `Plugin`) models `index.js`:
  - `Verify`, which drives the store's methods step by step, is proved equal to the specification function `VerifyEffect`;
  - `DeleteUser`;
  - the configuration guard and the single push of `GetStrategy`.
  The login-level properties are lemmas about `VerifyEffect`: fast path, email gating, idempotence of repeated logins, deletion cleanup.

## Model

| member | source | states |
|---|---|---|
| `Users.Fingerprint` | lib/helpers/users.js:15-17 | `hash(issuer, subject)` is the abstract digest of the single string `${issuer}-${subject}`; its properties are the three lemmas below |
| `Users.FingerprintOfJoined` | lib/helpers/users.js:15-17 | two pairs whose `${issuer}-${subject}` strings are equal get the same fingerprint |
| `Users.JoinedInjectiveForIssuer` | lib/helpers/users.js:15-17 | under one issuer, distinct subjects give distinct joined strings, so they can share a fingerprint only through a digest collision |
| `Users.JoinedCollision` | lib/helpers/users.js:15-17 | the distinct pairs ("a-b","c") and ("a","b-c") always share a fingerprint: the fingerprint is not injective on pairs |
| `Users.Store.constructor` | lib/helpers/users.js:5-6 | an empty `oidc:uid` object and directory, with the store invariant established |
| `Users.Store.Create` | lib/helpers/users.js:79-101 | the new stores and result are those of `CreateEffect`: host create, then `oidcissuer`, then `oidcsubject`, then the link, each able to reject; the store invariant is kept |
| `Users.CreateAddsOneUser` | lib/helpers/users.js:79-101 | a completed create adds exactly one user, new to the directory, with the given username and email and the issuer/subject fields; it registers the email and sets `oidc:uid[hash(iss,sub)] := uid`; no other user changes |
| `Users.CreateRejectedWritesNothing` | lib/helpers/users.js:80-92 | when `User.create` fails, no field and no link is written |
| `Users.CreateFailureWritesNoLink` | lib/helpers/users.js:92-98 | whichever call rejects, a failed create leaves `oidc:uid` unchanged |
| `Users.CreateKeepsConsistent` | lib/helpers/users.js:79-101 | create keeps every uid in use below the host's counter and every email-index entry pointing at an existing user (links may name deleted users) |
| `Users.Store.Merge` | lib/helpers/users.js:110-116 | the new stores and result are those of `MergeEffect`: `oidcissuer`, `oidcsubject`, then the link; the invariant is kept |
| `Users.MergeTouchesOnlyLink` | lib/helpers/users.js:110-116 | a completed merge overwrites only uid's two oidc fields and the one link `hash(iss,sub)`; it creates no user, and every other user and link is unchanged |
| `Users.MergeFailureWritesNoLink` | lib/helpers/users.js:110-116 | a failed merge writes no link and creates no user |
| `Users.MergeKeepsConsistent` | lib/helpers/users.js:110-116 | merge onto an existing user keeps the store invariant |
| `Users.Store.Remove` | lib/helpers/users.js:122-128 | the new stores and result are those of `RemoveEffect`: read both stored fields, then delete the link keyed by their fingerprint |
| `Users.RemoveDeletesOnlyStoredLink` | lib/helpers/users.js:122-128 | remove deletes only the link keyed by the fingerprint of uid's stored issuer/subject; user fields and every other link are unchanged, and it is a no-op when that key is absent |
| `Users.RemoveFailureChangesNothing` | lib/helpers/users.js:122-128 | a failed remove leaves the stores as they were |
| `Users.Store.GetUidByIssuerAndSubject` | lib/helpers/users.js:135-137 | read-only; fails exactly when the read rejects, and returns absent exactly when the fingerprint is not in `oidc:uid`, otherwise the stored uid |
| `Users.LookupOfUnsetIsAbsent` | lib/helpers/users.js:135-137 | a fingerprint never set reads as absent |
| `Users.Store.GetUidByEmail` | lib/helpers/users.js:151-153 | read-only; an absent email fails (the lower-casing throws); otherwise it is the index entry of the lower-cased email, always an existing user |
| `Users.EmailLookupIgnoresCase` | lib/helpers/users.js:151-153 | emails that lower-case alike resolve to the same result |
| `Plugin.Verify` | index.js:53-90 | the callback's value and the new stores are those of `VerifyEffect`: mapping read, then, when gated on, email lookup and merge, else create; every rejection becomes an error |
| `Plugin.VerifyKeepsConsistent` | index.js:53-90 | verify keeps every uid below the host's counter and every email-index entry pointing at an existing user, also from stores holding stale links |
| `Plugin.NewUserFor` | index.js:79-84 | the user handed to `create` carries the claims' issuer and subject and the lower-cased email; its username is absent only when `preferred_username` is falsy and there is no email claim, and is `preferred_username` when that is truthy |
| `Plugin.StoredLinkIsReturned` | index.js:58-76 | when `oidc:uid[hash(iss,sub)]` holds a uid, verify returns exactly that uid and writes nothing: no merge, no create |
| `Plugin.WithoutEmailMatchCreates` | index.js:60 | with `matchUserByEmail` off and no link, the email lookup is never reached (a failing email read changes nothing) and verify never returns an existing user; with no fault and an email the host does not yet hold, it creates user `nextUid` (index.js:78-86) |
| `Plugin.EmailMatchLinksExistingUser` | index.js:60-76 | with `matchUserByEmail` on, no link, and a user under the lower-cased email: verify returns that uid and creates no user; it writes only that user's issuer/subject fields and the one link |
| `Plugin.NewUserProfile` | index.js:78-86 | a created user has username `preferred_username` when truthy, else `email`, and email `String(email).toLowerCase()`; it carries `oidcissuer`/`oidcsubject` |
| `Plugin.SuccessLeavesLink` | index.js:58-86 | after any successful verify, `oidc:uid[hash(iss,sub)]` holds the returned uid |
| `Plugin.FailureWritesNoLink` | index.js:56-62 | any failure reaches the callback as an error and writes no link; a failure before the first write leaves the stores unchanged (index.js:87-89) |
| `Plugin.MissingEmailFails` | index.js:60-62 | with email matching on, no link and no email claim, verify fails (calling the lookup on a missing email throws) and writes nothing |
| `Plugin.VerifyNeverDeletes` | index.js:53-90 | verify deletes no user and no link, changes no other link, and adds at most the one user `nextUid` |
| `Plugin.SecondLoginIsFastPath` | index.js:58-86 | after a successful verify, a second verify with the same claims returns the same uid and changes nothing |
| `Plugin.LinkedLoginsAreStable` | index.js:58-76 | any number of logins of a linked identity each return its uid and leave the stores as they were |
| `Plugin.RepeatedLoginsWriteOnce` | index.js:53-90 | of n logins with the same claims, all return the first one's uid; only the first writes, so at most one user is created |
| `Plugin.EmailCaseInsensitiveLink` | index.js:60-84 | with matching on, two identities whose emails lower-case alike resolve to one user: the first creates or links it, the second links to it |
| `Plugin.WithoutEmailMatchDistinctUsers` | index.js:60 | with matching off, two identities with distinct fingerprints never share a user. The second gets another user, or fails without writing when the host already holds its lower-cased email (index.js:78-86) |
| `Plugin.CollidingIdentityLogsIn` | index.js:58-76 | when `hash("a-b","c")` is linked, claims with issuer "a" and subject "b-c" log in by the fast path as that linked user |
| `Plugin.FirstLoginScenario` | index.js:53-90 | on empty stores, alice's first login creates user 1 named "alice" and links her identity to it; the same claims again return 1 and write nothing |
| `Plugin.DeleteUser` | index.js:151-153 | `deleteUser({uid})` has exactly the effect and outcome of `remove(uid)` |
| `Plugin.DeleteAfterLoginClearsLink` | index.js:151-153 | deleting a user that verify just created or linked removes that identity's link |
| `Plugin.DeleteKeepsEarlierLink` | lib/helpers/users.js:122-128 | a user linked by email to a second identity stores only the second issuer/subject. Deleting it therefore removes only the second link and leaves the first one pointing at the deleted uid |
| `Plugin.StaleLinkOutlivesUser` | index.js:151-153 | after that deletion and the host's removal of the user record, the first identity's next login still returns the deleted uid |
| `Plugin.ConfigMissing` | index.js:102 | the guard: when it is false all three of `discoverUrl`, `clientId`, `clientSecret` are present, and an empty one makes it true |
| `Plugin.Strategies.constructor` | index.js:98 | the caller's `strategies` array, holding exactly the given entries, which `getStrategy` pushes onto (index.js:136) |
| `Plugin.GetStrategy` | index.js:98-146 | with `discoverUrl`, `clientId` or `clientSecret` falsy it resolves and leaves `strategies` unchanged (index.js:102-105); if discovery fails it rejects without a push; otherwise it appends exactly one entry (index.js:136-142) |
| `Plugin.OidcEntryPaths` | index.js:9-11 | the pushed entry's login and callback URLs are `/auth/oidc/login` and `/auth/oidc/callback` |

## Left out

- Settings access (`lib/helpers/settings.js`) is not part of this model: the configuration is a parameter of `Verify` and `GetStrategy`. A failure to read it is not modelled.
- `tokenSet.claims()` is not modelled: the verified claims are a parameter, and a failure to extract them is not modelled.
- MD5 (`crypto.createHash`) and JavaScript's `toLowerCase` / `toLocaleLowerCase` are abstract functions in `Host`. One function stands for both lower-casings; they differ only under locale-specific mappings.
- The host's `User.create`, `User.getUserField` and user deletion are not part of this model. Host validation is an injected fault. Beyond that, the model makes three assumptions about the host:
  - it refuses an email its index already holds;
  - on success it hands out the next uid and registers the email it was given;
  - it stores the username as given, although the real host may rename a taken username.
- What `getUserField` returns for a field that is not set is `Host.missingText`, left abstract.
- `Users.Store.Merge`: requires uid to name an existing user. The source does not check this, but its only caller passes a uid read from the host's email index. Fields written onto a never-created uid are not modelled.
- `Plugin.GetStrategy`: `Issuer.discover`, the client construction, the 10-second clock tolerance and `passport.use` are network and third-party library calls. Discovery is reduced to its outcome, the strategy name or a failure.
- `init` and `addMenuItem` in index.js are route mounting and admin-menu registration, i.e. host glue.
- `exists` (lib/helpers/users.js:143-145) is an unused pass-through.
- The Promise adapters `setDbObjectField`, `getDbObjectField` and `removeDbObjectField` are direct map reads and writes. Each can reject, which is modelled as a fault at that step.
- `winston` logging and the admin page (`static/lib/admin.js`) are not modelled.
- `Plugin.DeleteUser`: the host's own deletion of the user record after the hook is not part of `deleteUser`. `Plugin.HostDeletesUser` stands for it (record and email registrations removed) only in `Plugin.StaleLinkOutlivesUser`; the store invariant lets a link name a deleted user.
- Concurrent logins for the same identity can race: the source has no locking. Every run here is sequential and atomic with respect to other runs.

Two behaviours of the code are worth stating outright:

- With matching on, a login without an email claim fails: `getUidByEmail` lower-cases `undefined` and throws (`Plugin.MissingEmailFails`).
- With matching off, `User.create` refuses a second identity whose lower-cased email the host already holds (`Plugin.WithoutEmailMatchDistinctUsers`).
