/** `KeyringManager`: the TOTP secrets and cached session credentials kept in
    the platform secret store under service `amf-cli`, one entry per profile
    and kind. */
module KeyringManager {
  import opened Errors
  import opened Models

  const ServiceName := "amf-cli"
  const SecretPrefix := "mfa_secret_"
  const SessionCredentialsPrefix := "session_credentials_"

  /** A secret-store entry is addressed by service and user name. */
  datatype EntryKey = EntryKey(service: string, user: string)

  type Entries = map<EntryKey, string>

  /** `secret_key`: the entry user name of a profile's TOTP secret. */
  function SecretKey(profile: string): (k: string)
    ensures |k| == |SecretPrefix| + |profile|
    ensures k[..|SecretPrefix|] == SecretPrefix && k[|SecretPrefix|..] == profile
  {
    SecretPrefix + profile
  }

  /** `session_credentials_key`: the entry user name of a profile's cached
      session credentials. */
  function SessionCredentialsKey(profile: string): (k: string)
    ensures |k| == |SessionCredentialsPrefix| + |profile|
    ensures k[..|SessionCredentialsPrefix|] == SessionCredentialsPrefix && k[|SessionCredentialsPrefix|..] == profile
  {
    SessionCredentialsPrefix + profile
  }

  /** No secret entry ever shares its name with a credentials entry. */
  lemma KeySpacesDisjoint(p: string, q: string)
    ensures SecretKey(p) != SessionCredentialsKey(q)
  {
    assert SecretKey(p)[0] == 'm';
    assert SessionCredentialsKey(q)[0] == 's';
  }

  /** Distinct profiles get distinct entries of each kind. */
  lemma KeysInjective(p: string, q: string)
    ensures SecretKey(p) == SecretKey(q) ==> p == q
    ensures SessionCredentialsKey(p) == SessionCredentialsKey(q) ==> p == q
  {
  }

  /** `Entry::new(...)` followed by `get_password()`: the stored text, or
      `NoEntry` when nothing is stored, or `Unavailable` when the store
      cannot be reached. */
  function Read(entries: Entries, available: bool, user: string): (r: Result<string>)
    ensures r.Ok? <==> available && EntryKey(ServiceName, user) in entries
    ensures r.Ok? ==> r.value == entries[EntryKey(ServiceName, user)]
    ensures !available ==> r == Err(Keyring(Unavailable))
    ensures available && EntryKey(ServiceName, user) !in entries ==> r == Err(Keyring(NoEntry))
  {
    if !available then Err(Keyring(Unavailable))
    else if EntryKey(ServiceName, user) in entries then Ok(entries[EntryKey(ServiceName, user)])
    else Err(Keyring(NoEntry))
  }

  /** The credentials decoded from a read entry; undecodable text is a JSON error. */
  function DecodeCredentials(json: Serde, read: Result<string>): (r: Result<SessionCredentials>)
    ensures read.Err? ==> r == Err(read.error)
    ensures read.Ok? && json.readCredentials(read.value).Malformed? ==> r == Err(Json(json.readCredentials(read.value).reason))
    ensures r.Ok? <==> read.Ok? && json.readCredentials(read.value).Decoded?
    ensures r.Ok? ==> json.readCredentials(read.value) == Decoded(r.value)
  {
    var text :- read;
    match json.readCredentials(text)
    case Decoded(c) => Ok(c)
    case Malformed(e) => Err(Json(e))
  }

  /** The platform secret store as the back-end sees it. */
  class SecretStore {
    var entries: Entries
    var available: bool

    constructor (entries: Entries, available: bool)
      ensures this.entries == entries && this.available == available
    {
      this.entries := entries;
      this.available := available;
    }

    /** `get_secret`. */
    function GetSecret(profile: string): Result<string>
      reads this
    {
      Read(entries, available, SecretKey(profile))
    }

    /** `has_secret`: `get_secret` succeeds. */
    predicate HasSecret(profile: string)
      reads this
    {
      GetSecret(profile).Ok?
    }

    /** `get_session_credentials`. */
    function GetSessionCredentials(json: Serde, profile: string): Result<SessionCredentials>
      reads this
    {
      DecodeCredentials(json, Read(entries, available, SessionCredentialsKey(profile)))
    }

    /** `store_secret`: overwrites the profile's secret entry. */
    method StoreSecret(profile: string, secret: string) returns (r: Result<()>)
      modifies this
      ensures available == old(available)
      ensures !available ==> r == Err(Keyring(Unavailable)) && entries == old(entries)
      ensures available ==> r == Ok(()) && entries == old(entries)[EntryKey(ServiceName, SecretKey(profile)) := secret]
    {
      r := Write(SecretKey(profile), secret);
    }

    /** `delete_secret`: removes the profile's secret entry, failing with
        `NoEntry` when there is none. */
    method DeleteSecret(profile: string) returns (r: Result<()>)
      modifies this
      ensures available == old(available)
      ensures r.Err? ==> entries == old(entries)
      ensures r == (if !available then Err(Keyring(Unavailable))
                    else if EntryKey(ServiceName, SecretKey(profile)) !in old(entries) then Err(Keyring(NoEntry))
                    else Ok(()))
      ensures r.Ok? ==> entries == old(entries) - {EntryKey(ServiceName, SecretKey(profile))}
    {
      r := Remove(SecretKey(profile));
    }

    /** `store_session_credentials`: caches the credentials' JSON text. */
    method StoreSessionCredentials(json: Serde, profile: string, credentials: SessionCredentials) returns (r: Result<()>)
      modifies this
      ensures available == old(available)
      ensures !available ==> r == Err(Keyring(Unavailable)) && entries == old(entries)
      ensures available ==> r == Ok(()) && entries == old(entries)[EntryKey(ServiceName, SessionCredentialsKey(profile)) := json.writeCredentials(credentials)]
    {
      var text := json.writeCredentials(credentials);
      r := Write(SessionCredentialsKey(profile), text);
    }

    /** `delete_session_credentials`. */
    method DeleteSessionCredentials(profile: string) returns (r: Result<()>)
      modifies this
      ensures available == old(available)
      ensures r.Err? ==> entries == old(entries)
      ensures r == (if !available then Err(Keyring(Unavailable))
                    else if EntryKey(ServiceName, SessionCredentialsKey(profile)) !in old(entries) then Err(Keyring(NoEntry))
                    else Ok(()))
      ensures r.Ok? ==> entries == old(entries) - {EntryKey(ServiceName, SessionCredentialsKey(profile))}
    {
      r := Remove(SessionCredentialsKey(profile));
    }

    /** `entry.set_password(text)`. */
    method Write(user: string, text: string) returns (r: Result<()>)
      modifies this
      ensures available == old(available)
      ensures !available ==> r == Err(Keyring(Unavailable)) && entries == old(entries)
      ensures available ==> r == Ok(()) && entries == old(entries)[EntryKey(ServiceName, user) := text]
    {
      if !available {
        return Err(Keyring(Unavailable));
      }
      entries := entries[EntryKey(ServiceName, user) := text];
      r := Ok(());
    }

    /** `entry.delete_credential()`. */
    method Remove(user: string) returns (r: Result<()>)
      modifies this
      ensures available == old(available)
      ensures r.Err? ==> entries == old(entries)
      ensures r == (if !available then Err(Keyring(Unavailable))
                    else if EntryKey(ServiceName, user) !in old(entries) then Err(Keyring(NoEntry))
                    else Ok(()))
      ensures r.Ok? ==> entries == old(entries) - {EntryKey(ServiceName, user)}
    {
      if !available {
        return Err(Keyring(Unavailable));
      }
      if EntryKey(ServiceName, user) !in entries {
        return Err(Keyring(NoEntry));
      }
      entries := entries - {EntryKey(ServiceName, user)};
      r := Ok(());
    }
  }

  /** A stored secret reads back, and `has_secret` then holds. */
  lemma StoreThenGetSecret(entries: Entries, profile: string, secret: string)
    ensures Read(entries[EntryKey(ServiceName, SecretKey(profile)) := secret], true, SecretKey(profile)) == Ok(secret)
  {
  }

  /** Writing one entry leaves every other entry readable as before. */
  lemma WriteKeepsOthers(entries: Entries, available: bool, user: string, text: string, other: string)
    requires other != user
    ensures Read(entries[EntryKey(ServiceName, user) := text], available, other) == Read(entries, available, other)
    ensures Read(entries - {EntryKey(ServiceName, user)}, available, other) == Read(entries, available, other)
  {
  }

  /** After `delete_secret` there is no secret: `get_secret` fails and
      `has_secret` is false. */
  lemma DeleteThenGetSecret(entries: Entries, available: bool, profile: string)
    ensures Read(entries - {EntryKey(ServiceName, SecretKey(profile))}, available, SecretKey(profile)).Err?
  {
  }

  /** Storing or deleting a profile's session credentials never changes
      whether any profile has a secret, nor the secret itself. */
  lemma SessionCredentialsKeepSecrets(entries: Entries, available: bool, p: string, q: string, text: string)
    ensures Read(entries[EntryKey(ServiceName, SessionCredentialsKey(p)) := text], available, SecretKey(q))
         == Read(entries, available, SecretKey(q))
    ensures Read(entries - {EntryKey(ServiceName, SessionCredentialsKey(p))}, available, SecretKey(q))
         == Read(entries, available, SecretKey(q))
  {
    KeySpacesDisjoint(q, p);
    WriteKeepsOthers(entries, available, SessionCredentialsKey(p), text, SecretKey(q));
  }

  /** Stored session credentials read back unchanged, given that the JSON
      encoder and decoder agree. */
  lemma SessionCredentialsRoundTrip(json: Serde, entries: Entries, profile: string, c: SessionCredentials)
    requires json.RoundTrips()
    ensures DecodeCredentials(json, Read(entries[EntryKey(ServiceName, SessionCredentialsKey(profile)) := json.writeCredentials(c)],
                                         true, SessionCredentialsKey(profile))) == Ok(c)
  {
    assert json.readCredentials(json.writeCredentials(c)) == Decoded(c);
  }
}
