/** Shared vocabulary of the OpenID Connect login plugin: the verified claims it
    receives, the plugin configuration, the host collaborators it cannot see, and
    the ways one login or one store operation can fail. */
module Identity {

  datatype Option<+T> = None | Some(value: T)

  /** A local user id as the host allocates them: positive integers. */
  type Uid = n: int | 1 <= n witness 1

  /** The host or store calls that can reject while the plugin runs. */
  datatype Step =
    | ReadMapping    // Db.getObjectField('oidc:uid', hash)
    | ReadEmail      // User.getUidByEmail
    | CreateUser     // User.create (the host's own validation included)
    | WriteIssuer    // User.setUserField(uid, 'oidcissuer', ...)
    | WriteSubject   // User.setUserField(uid, 'oidcsubject', ...)
    | WriteMapping   // Db.setObjectField('oidc:uid', hash, uid)
    | ReadIssuer     // User.getUserField(uid, 'oidcissuer')
    | ReadSubject    // User.getUserField(uid, 'oidcsubject')
    | DeleteMapping  // Db.deleteObjectField('oidc:uid', hash)

  datatype Error =
    | Rejected(step: Step)   // a host or store call rejected its promise
    | EmailMissing           // toLocaleLowerCase called on an absent email claim
    | DiscoveryFailed        // the provider could not be discovered

  datatype Result<+T> = Ok(value: T) | Err(error: Error)

  /** At most one rejecting call per run: the run fails at `step` exactly when
      it reaches that call. */
  type Fault = Option<Step>

  predicate FailsAt(fault: Fault, step: Step) {
    fault == Some(step)
  }

  /** The verified ID-token claims the plugin reads (section 5.1 of OpenID
      Connect Core 1.0); `email` and `preferred_username` may be absent. */
  datatype Claims = Claims(
    iss: string,
    sub: string,
    email: Option<string>,
    preferredUsername: Option<string>)

  /** The plugin settings stored under the `oidc` namespace. */
  datatype Config = Config(
    discoverUrl: Option<string>,
    clientId: Option<string>,
    clientSecret: Option<string>,
    matchUserByEmail: bool)

  /** JavaScript truthiness of an optional string: absent and "" are falsy. */
  predicate Truthy(v: Option<string>) {
    v.Some? && v.value != ""
  }

  /** `String(v)`: an absent value renders as "undefined". */
  function Rendered(v: Option<string>): (r: string) {
    if v.Some? then v.value else "undefined"
  }

  /** The collaborators whose internals are not part of this model. `digest`
      stands for the MD5 hex digest of a string, `lower` for JavaScript's
      lower-casing, and `missingText` for what the host's `getUserField` value
      renders as inside a template literal when the field is not set. No
      property of any of them is assumed. */
  datatype Host = Host(
    digest: string -> string,
    lower: string -> string,
    missingText: string)
}
