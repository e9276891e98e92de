/** `Commands`: the operations the desktop front-end invokes, each a fixed
    sequence of calls into the managers above. */
module Commands {
  import opened Errors
  import opened Text
  import Ini
  import opened Models
  import opened Platform
  import AwsCli
  import opened AwsConfig
  import opened SessionConfigManager
  import opened KeyringManager
  import opened MfaManager
  import SessionManager

  /** Everything the commands consult but never change: the host and its
      tools, the libraries, and the two AWS profile files. */
  datatype Env = Env(host: Host, json: Serde, qr: QrLib, totp: TotpLib, files: AwsFiles)

  const CliMissing := "AWS CLI not found"

  datatype ProfileInfo = ProfileInfo(name: string, region: Option<string>, hasMfa: bool, hasConfig: bool,
                                     mfaSerial: Option<string>)

  datatype ProfileListResponse = ProfileListResponse(profiles: seq<ProfileInfo>, hasConfigurations: bool)

  datatype ConfigResponse = ConfigResponse(profile: string, config: Option<SessionConfig>, configPath: string, updated: bool)

  datatype IdentityInfo = IdentityInfo(account: string, username: string, arn: string)

  datatype StatusResponse = StatusResponse(profile: string, hasMfaSecret: bool, identity: Option<IdentityInfo>,
                                           mfaDevice: Option<string>)

  datatype MfaSetupResponse = MfaSetupResponse(success: bool, profile: string, serial: string, imported: bool)

  /** `expiration` is the credentials' expiry instant; its text rendering is
      not modelled. */
  datatype ConnectResponse = ConnectResponse(profile: string, target: string, localPort: uint16, remotePort: uint16,
                                             document: string, expiration: Timestamp, usingCached: bool)

  datatype CodeResponse = CodeResponse(code: string, ttl: nat)

  datatype RemoveResponse = RemoveResponse(profile: string, success: bool)

  /** The serial `list_aws_profiles` shows for a profile with a stored secret:
      the first IAM device of its user, when both lookups succeed. */
  function ListedSerial(env: Env, profile: string): Option<string> {
    match GetUsername(env.host, env.json, profile)
    case Ok(username) => FetchMfaSerial(env.host, env.json, username, profile).ToOption()
    case Err(_) => None
  }

  /** One entry of `list_aws_profiles`. */
  function ProfileInfoFor(env: Env, store: SecretStore, configured: seq<string>, p: AwsProfile): (info: ProfileInfo)
    reads store
    ensures info.name == p.name && info.region == p.region
    ensures info.hasMfa <==> store.HasSecret(p.name)
    ensures info.hasConfig <==> p.name in configured
    ensures !info.hasMfa ==> info.mfaSerial.None?
    ensures info.hasMfa ==> info.mfaSerial == ListedSerial(env, p.name)
  {
    var hasMfa := store.HasSecret(p.name);
    ProfileInfo(p.name, p.region, hasMfa, p.name in configured, if hasMfa then ListedSerial(env, p.name) else None)
  }

  /** `list_aws_profiles`: one entry per profile, in order, and whether any
      session settings exist at all. */
  method ListAwsProfiles(env: Env, store: SecretStore, sessions: SessionsFile) returns (r: Result<ProfileListResponse>)
    ensures Profiles(env.files).Err? ==> r == Err(Profiles(env.files).error)
    ensures Profiles(env.files).Ok? && ListConfiguredProfiles(sessions.contents).Err? ==>
              r == Err(ListConfiguredProfiles(sessions.contents).error)
    ensures Profiles(env.files).Ok? && ListConfiguredProfiles(sessions.contents).Ok? ==>
      var ps := Profiles(env.files).value;
      var configured := ListConfiguredProfiles(sessions.contents).value;
      && r.Ok? && |r.value.profiles| == |ps|
      && (forall i | 0 <= i < |ps| :: r.value.profiles[i] == ProfileInfoFor(env, store, configured, ps[i]))
      && (r.value.hasConfigurations <==> configured != [])
  {
    var profiles :- ListProfiles(env.files);
    var configured :- ListConfiguredProfiles(sessions.contents);
    var infos: seq<ProfileInfo> := [];
    for i := 0 to |profiles|
      invariant |infos| == i
      invariant forall k | 0 <= k < i :: infos[k] == ProfileInfoFor(env, store, configured, profiles[k])
    {
      var p := profiles[i];
      var hasMfa := store.HasSecret(p.name);
      var hasConfig := p.name in configured;
      var serial := if hasMfa then ListedSerial(env, p.name) else None;
      infos := infos + [ProfileInfo(p.name, p.region, hasMfa, hasConfig, serial)];
    }
    r := Ok(ProfileListResponse(infos, configured != []));
  }

  /** `show_aws_config`: for an existing profile, writes the given settings
      (only if any is given) and then reports what loading finds. */
  method ShowAwsConfig(env: Env, sessions: SessionsFile, sessionsPath: string, profile: string,
                       target: Option<string>, localPort: Option<uint16>, remotePort: Option<uint16>,
                       document: Option<string>) returns (r: Result<ConfigResponse>)
    modifies sessions
    ensures var updated := target.Some? || localPort.Some? || remotePort.Some? || document.Some?;
      && (!ProfileExists(env.files, profile) ==> r == Err(ProfileNotFound(profile)) && sessions.contents == old(sessions.contents))
      && (!updated ==> sessions.contents == old(sessions.contents))
      && (ProfileExists(env.files, profile) && updated && old(sessions.contents).Unreadable? ==>
            && r == Err(Custom("Failed to read sessions: " + old(sessions.contents).reason))
            && sessions.contents == old(sessions.contents))
      && (ProfileExists(env.files, profile) && updated && !old(sessions.contents).Unreadable? ==>
            sessions.contents == Ini.Present(Updated(if old(sessions.contents).Present? then old(sessions.contents).doc else [],
                                                     profile, target, localPort, remotePort, document)))
      && (r.Ok? ==> ProfileExists(env.files, profile) && LoadConfig(sessions.contents, profile).Ok?
                    && r.value == ConfigResponse(profile, LoadConfig(sessions.contents, profile).value, sessionsPath, updated))
      && (ProfileExists(env.files, profile) && !(updated && old(sessions.contents).Unreadable?) ==>
            && (r.Ok? <==> LoadConfig(sessions.contents, profile).Ok?)
            && (r.Err? ==> r == Err(LoadConfig(sessions.contents, profile).error)))
  {
    if !ProfileExists(env.files, profile) {
      return Err(ProfileNotFound(profile));
    }
    var updated := target.Some? || localPort.Some? || remotePort.Some? || document.Some?;
    if updated {
      var written := sessions.UpdateConfig(profile, target, localPort, remotePort, document);
      if written.Err? {
        return Err(written.error);
      }
    }
    var config :- LoadConfig(sessions.contents, profile);
    r := Ok(ConfigResponse(profile, config, sessionsPath, updated));
  }

  /** `init_aws_configs`: one blank sessions section per listed profile, in
      a sessions file that must not exist yet. */
  method InitAwsConfigs(env: Env, sessions: SessionsFile, sessionsPath: string) returns (r: Result<ConfigResponse>)
    modifies sessions
    ensures Profiles(env.files).Err? ==> r == Err(Profiles(env.files).error) && sessions.contents == old(sessions.contents)
    ensures Profiles(env.files).Ok? && !old(sessions.contents).Absent? ==>
              r == Err(Custom("Configuration file already exists")) && sessions.contents == old(sessions.contents)
    ensures Profiles(env.files).Ok? && old(sessions.contents).Absent? ==>
              r == Ok(ConfigResponse("", None, sessionsPath, true))
              && sessions.contents == Ini.Present(Initialised(NamesOf(Profiles(env.files).value)))
  {
    var profiles :- ListProfiles(env.files);
    var created := sessions.CreateConfigFromProfiles(profiles);
    if created.Err? {
      return Err(created.error);
    }
    r := Ok(ConfigResponse("", None, sessionsPath, true));
  }

  /** The identity part of `check_mfa_status` once the caller identity is
      known: a missing account or ARN reads "Unknown", and the user name is
      the ARN's last segment. */
  function IdentityOf(id: CallerIdentity): (info: IdentityInfo)
    ensures id.account.Some? ==> info.account == id.account.value
    ensures id.account.None? ==> info.account == "Unknown"
    ensures id.arn.Some? ==> info.arn == id.arn.value
    ensures id.arn.None? ==> info.arn == "Unknown" && info.username == "Unknown"
    ensures IsLastSegment(info.arn, info.username)
  {
    var account := match id.account case Some(a) => a case None => "Unknown";
    var arn := match id.arn case Some(a) => a case None => "Unknown";
    SegmentShorterIffSlash("Unknown");
    IdentityInfo(account, LastSegment(arn), arn)
  }

  /** `check_mfa_status`: never fails for an existing profile; a failing
      identity lookup only leaves identity and device out. */
  function CheckMfaStatus(env: Env, store: SecretStore, profile: string): (r: Result<StatusResponse>)
    reads store
    ensures r.Err? <==> !ProfileExists(env.files, profile)
    ensures r.Err? ==> r == Err(ProfileNotFound(profile))
    ensures r.Ok? ==> var s := r.value; var id := AwsCli.GetCallerIdentity(env.host, env.json, Some(profile));
      && s.profile == profile
      && (s.hasMfaSecret <==> store.HasSecret(profile))
      && (s.identity.Some? <==> id.Ok?)
      && (s.identity.None? ==> s.mfaDevice.None?)
      && (id.Ok? ==> s.identity == Some(IdentityOf(id.value))
                     && s.mfaDevice == FetchMfaSerial(env.host, env.json, IdentityOf(id.value).username, profile).ToOption())
  {
    if !ProfileExists(env.files, profile) then Err(ProfileNotFound(profile))
    else
      var hasSecret := store.HasSecret(profile);
      match AwsCli.GetCallerIdentity(env.host, env.json, Some(profile))
      case Ok(id) =>
        var info := IdentityOf(id);
        Ok(StatusResponse(profile, hasSecret, Some(info),
                          FetchMfaSerial(env.host, env.json, info.username, profile).ToOption()))
      case Err(_) => Ok(StatusResponse(profile, hasSecret, None, None))
  }

  /** `setup_mfa_device`: imports the secret from a QR image and takes the
      user's first IAM device, or enrols a new device; either way the secret
      is stored for the profile. */
  method SetupMfaDevice(env: Env, store: SecretStore, clock: Clock, profile: string, importQr: Option<string>)
    returns (r: Result<MfaSetupResponse>)
    modifies store, clock
    ensures store.available == old(store.available)
    ensures r.Err? ==> store.entries == old(store.entries)
    ensures !env.host.cliInstalled ==> r == Err(Custom(CliMissing))
    ensures env.host.cliInstalled && !ProfileExists(env.files, profile) ==> r == Err(ProfileNotFound(profile))
    ensures env.host.cliInstalled && ProfileExists(env.files, profile) && GetUsername(env.host, env.json, profile).Err? ==>
              r == Err(GetUsername(env.host, env.json, profile).error)
    ensures r.Ok? ==> && env.host.cliInstalled && ProfileExists(env.files, profile)
                      && GetUsername(env.host, env.json, profile).Ok?
                      && r.value.success && r.value.profile == profile
                      && (r.value.imported <==> importQr.Some?)
    ensures r.Ok? && importQr.Some? ==>
              && ImportQrCode(env.qr, importQr.value).Ok?
              && Ok(r.value.serial) == FetchMfaSerial(env.host, env.json, GetUsername(env.host, env.json, profile).value, profile)
              && store.entries == old(store.entries)[EntryKey(ServiceName, SecretKey(profile)) := ImportQrCode(env.qr, importQr.value).value]
    ensures r.Ok? && importQr.None? ==>
              && ExtractSecretFromQr(env.qr, TempFile(profile)).Ok?
              && Ok(r.value.serial) == CreateVirtualMfa(env.host, env.json, GetUsername(env.host, env.json, profile).value,
                                                        profile, TempFile(profile))
              && store.entries == old(store.entries)[EntryKey(ServiceName, SecretKey(profile)) := ExtractSecretFromQr(env.qr, TempFile(profile)).value]
    ensures env.host.cliInstalled && ProfileExists(env.files, profile) && GetUsername(env.host, env.json, profile).Ok? ==>
      var username := GetUsername(env.host, env.json, profile).value;
      && (importQr.Some? ==>
            var imported := ImportQrCode(env.qr, importQr.value);
            var serial := FetchMfaSerial(env.host, env.json, username, profile);
            && clock.now == old(clock.now)
            && (imported.Err? ==> r == Err(imported.error))
            && (imported.Ok? && serial.Err? ==> r == Err(serial.error))
            && (imported.Ok? && serial.Ok? ==> (r.Ok? <==> store.available))
            && (imported.Ok? && serial.Ok? && !store.available ==> r == Err(Keyring(Unavailable))))
      && (importQr.None? ==>
            var enrolled := Enrollment(env.host, env.json, env.qr, env.totp, username, profile, old(clock.now), clock.now);
            && (enrolled.Err? ==> r == Err(enrolled.error))
            && (enrolled.Ok? ==> (r.Ok? <==> store.available))
            && (enrolled.Ok? && !store.available ==> r == Err(Keyring(Unavailable)))
            && (r.Ok? ==> r.value.serial == enrolled.value.0
                          && store.entries == old(store.entries)[EntryKey(ServiceName, SecretKey(profile)) := enrolled.value.1]))
  {
    if !env.host.cliInstalled {
      return Err(Custom(CliMissing));
    }
    if !ProfileExists(env.files, profile) {
      return Err(ProfileNotFound(profile));
    }
    var username :- GetUsername(env.host, env.json, profile);
    var serial: string;
    var secret: string;
    var imported: bool;
    if importQr.Some? {
      secret :- ImportQrCode(env.qr, importQr.value);
      serial :- FetchMfaSerial(env.host, env.json, username, profile);
      imported := true;
    } else {
      var enrolled, _ := MfaManager.SetupMfaDevice(env.host, env.json, env.qr, env.totp, clock, username, profile);
      if enrolled.Err? {
        return Err(enrolled.error);
      }
      serial, secret := enrolled.value.0, enrolled.value.1;
      imported := false;
    }
    var stored := store.StoreSecret(profile, secret);
    if stored.Err? {
      return Err(stored.error);
    }
    r := Ok(MfaSetupResponse(true, profile, serial, imported));
  }

  /** What `connect` settles on before opening the tunnel. */
  datatype Plan = Plan(config: SessionConfig, credentials: SessionCredentials, usingCached: bool)

  /** The credentials `connect` uses once the MFA serial is known: cached
      ones if they can be read and are still valid at `now`, else the STS
      exchange of the stored secret's current code; the flag says which. */
  function ChooseCredentials(env: Env, store: SecretStore, now: Timestamp, profile: string, serial: string)
    : (r: Result<(SessionCredentials, bool)>)
    reads store
    ensures var cached := store.GetSessionCredentials(env.json, profile);
      && (cached.Ok? && cached.value.IsValid(now) ==> r == Ok((cached.value, true)))
      && (!(cached.Ok? && cached.value.IsValid(now)) ==>
            var secret := store.GetSecret(profile);
            && (secret.Err? ==> r == Err(secret.error))
            && (secret.Ok? ==>
                  var code := GenerateTotpCode(env.totp, secret.value, now);
                  && (code.Err? ==> r == Err(code.error))
                  && (code.Ok? ==>
                        var exchanged := AwsCli.GetSessionToken(env.host, env.json, serial, code.value, Some(profile));
                        && (exchanged.Err? ==> r == Err(exchanged.error))
                        && (exchanged.Ok? ==> r == Ok((exchanged.value, false))))))
  {
    var cached := store.GetSessionCredentials(env.json, profile);
    if cached.Ok? && cached.value.IsValid(now) then Ok((cached.value, true))
    else
      var secret :- store.GetSecret(profile);
      var code :- GenerateTotpCode(env.totp, secret, now);
      var exchanged :- AwsCli.GetSessionToken(env.host, env.json, serial, code, Some(profile));
      Ok((exchanged, false))
  }

  /** The checks `connect` makes before it looks for credentials: the CLI,
      the profile, the settings, the user name and the MFA serial, each
      aborting on failure; the result is the settings and the serial. */
  function Preflight(env: Env, sessions: Ini.IniFile, profile: string, target: Option<string>,
                     port: Option<uint16>, remotePort: Option<uint16>, document: Option<string>)
    : (r: Result<(SessionConfig, string)>)
    ensures !env.host.cliInstalled ==> r == Err(Custom(CliMissing))
    ensures env.host.cliInstalled && !ProfileExists(env.files, profile) ==> r == Err(ProfileNotFound(profile))
    ensures env.host.cliInstalled && ProfileExists(env.files, profile) ==>
      var config := ResolveConfig(sessions, profile, target, port, remotePort, document);
      var username := GetUsername(env.host, env.json, profile);
      && (config.Err? ==> r == Err(config.error))
      && (config.Ok? && username.Err? ==> r == Err(username.error))
      && (config.Ok? && username.Ok? ==>
            var serial := FetchMfaSerial(env.host, env.json, username.value, profile);
            && (serial.Err? ==> r == Err(serial.error))
            && (serial.Ok? ==> r == Ok((config.value, serial.value))))
  {
    if !env.host.cliInstalled then Err(Custom(CliMissing))
    else if !ProfileExists(env.files, profile) then Err(ProfileNotFound(profile))
    else
      var config :- ResolveConfig(sessions, profile, target, port, remotePort, document);
      var username :- GetUsername(env.host, env.json, profile);
      var serial :- FetchMfaSerial(env.host, env.json, username, profile);
      Ok((config, serial))
  }

  /** The first part of `connect`: `Preflight`, then the credentials
      `ChooseCredentials` picks for the serial it found. */
  function Prepare(env: Env, sessions: Ini.IniFile, store: SecretStore, now: Timestamp, profile: string,
                   target: Option<string>, port: Option<uint16>, remotePort: Option<uint16>,
                   document: Option<string>): (r: Result<Plan>)
    reads store
    ensures var checked := Preflight(env, sessions, profile, target, port, remotePort, document);
      && (checked.Err? ==> r == Err(checked.error))
      && (checked.Ok? ==>
            var chosen := ChooseCredentials(env, store, now, profile, checked.value.1);
            && (chosen.Err? ==> r == Err(chosen.error))
            && (chosen.Ok? ==> r == Ok(Plan(checked.value.0, chosen.value.0, chosen.value.1))))
  {
    var checked :- Preflight(env, sessions, profile, target, port, remotePort, document);
    var chosen :- ChooseCredentials(env, store, now, profile, checked.1);
    Ok(Plan(checked.0, chosen.0, chosen.1))
  }

  /** Cached credentials are used exactly when they can be read and are
      still valid, and are then used as read; otherwise the credentials are
      the ones the STS exchange returned. */
  lemma CachedIffValid(env: Env, store: SecretStore, now: Timestamp, profile: string, serial: string)
    requires ChooseCredentials(env, store, now, profile, serial).Ok?
    ensures var chosen := ChooseCredentials(env, store, now, profile, serial).value;
            var cached := store.GetSessionCredentials(env.json, profile);
      && (chosen.1 <==> cached.Ok? && cached.value.IsValid(now))
      && (chosen.1 ==> chosen.0 == cached.value)
      && (!chosen.1 ==>
            var code := GenerateTotpCode(env.totp, store.GetSecret(profile).value, now);
            chosen.0 == AwsCli.GetSessionToken(env.host, env.json, serial, code.value, Some(profile)).value)
  {
  }

  /** Valid cached credentials do not save `connect` from a failing MFA
      serial lookup, which comes first. */
  lemma SerialCheckedBeforeCache(env: Env, sessions: Ini.IniFile, store: SecretStore, now: Timestamp, profile: string,
                                 target: Option<string>, port: Option<uint16>, remotePort: Option<uint16>,
                                 document: Option<string>)
    requires env.host.cliInstalled && ProfileExists(env.files, profile)
    requires ResolveConfig(sessions, profile, target, port, remotePort, document).Ok?
    requires GetUsername(env.host, env.json, profile).Ok?
    requires FetchMfaSerial(env.host, env.json, GetUsername(env.host, env.json, profile).value, profile).Err?
    ensures Prepare(env, sessions, store, now, profile, target, port, remotePort, document).Err?
  {
  }

  /** The credential step of `connect` as it runs: `ChooseCredentials`'s
      choice, with freshly exchanged credentials written to the cache (a
      failure to write is ignored). */
  method AcquireCredentials(env: Env, store: SecretStore, now: Timestamp, profile: string, serial: string)
    returns (r: Result<(SessionCredentials, bool)>)
    modifies store
    ensures store.available == old(store.available)
    ensures r == old(ChooseCredentials(env, store, now, profile, serial))
    ensures r.Err? || r.value.1 || !store.available ==> store.entries == old(store.entries)
    ensures r.Ok? && !r.value.1 && store.available ==>
              store.entries == old(store.entries)[EntryKey(ServiceName, SessionCredentialsKey(profile)) :=
                                                  env.json.writeCredentials(r.value.0)]
  {
    var cached := store.GetSessionCredentials(env.json, profile);
    if cached.Ok? && cached.value.IsValid(now) {
      return Ok((cached.value, true));
    }
    var secret :- store.GetSecret(profile);
    var code :- GenerateTotpCode(env.totp, secret, now);
    var credentials :- AwsCli.GetSessionToken(env.host, env.json, serial, code, Some(profile));
    var _ := store.StoreSessionCredentials(env.json, profile, credentials);
    r := Ok((credentials, false));
  }

  /** The first part of `connect` as it runs: `Prepare`'s plan, with freshly
      exchanged credentials written to the cache. */
  method SettlePlan(env: Env, store: SecretStore, sessions: Ini.IniFile, now: Timestamp, profile: string,
                    target: Option<string>, port: Option<uint16>, remotePort: Option<uint16>, document: Option<string>)
    returns (plan: Result<Plan>)
    modifies store
    ensures store.available == old(store.available)
    ensures plan == old(Prepare(env, sessions, store, now, profile, target, port, remotePort, document))
    ensures plan.Err? || plan.value.usingCached || !store.available ==> store.entries == old(store.entries)
    ensures plan.Ok? && !plan.value.usingCached && store.available ==>
              store.entries == old(store.entries)[EntryKey(ServiceName, SessionCredentialsKey(profile)) :=
                                                  env.json.writeCredentials(plan.value.credentials)]
  {
    var checked :- Preflight(env, sessions, profile, target, port, remotePort, document);
    var chosen :- AcquireCredentials(env, store, now, profile, checked.1);
    plan := Ok(Plan(checked.0, chosen.0, chosen.1));
  }

  /** `connect`: settles on settings and credentials, caches freshly
      obtained credentials (ignoring a failure to do so), opens the tunnel
      and echoes the settings it used. */
  method Connect(env: Env, store: SecretStore, clock: Clock, sessions: SessionsFile, profile: string,
                 target: Option<string>, port: Option<uint16>, remotePort: Option<uint16>, document: Option<string>)
    returns (r: Result<ConnectResponse>, tunnel: Option<Child>)
    modifies store
    ensures store.available == old(store.available)
    ensures var plan := old(Prepare(env, sessions.contents, store, clock.now, profile, target, port, remotePort, document));
      && (plan.Err? ==> r == Err(plan.error) && tunnel.None? && store.entries == old(store.entries))
      && (plan.Ok? && (plan.value.usingCached || !store.available) ==> store.entries == old(store.entries))
      && (plan.Ok? && !plan.value.usingCached && store.available ==>
            store.entries == old(store.entries)[EntryKey(ServiceName, SessionCredentialsKey(profile)) :=
                                                env.json.writeCredentials(plan.value.credentials)])
      && (plan.Ok? ==>
            var c := plan.value.config;
            var cmd := SessionManager.TunnelCommand(c.target, c.localPort, c.remotePort, c.documentName, plan.value.credentials);
            && (env.host.portInUse(c.localPort) ==> r == Err(PortInUse(c.localPort)) && tunnel.None?)
            && (!env.host.portInUse(c.localPort) ==>
                  match env.host.spawn(cmd)
                  case Launched(pid) =>
                    && tunnel == Some(Child(cmd, pid))
                    && r == Ok(ConnectResponse(profile, c.target, c.localPort, c.remotePort, c.documentName,
                                               plan.value.credentials.expiration, plan.value.usingCached))
                  case LaunchFailed(e) => tunnel.None? && r == Err(AwsCli("AWS session '" + profile + "' failed: " + e))))
  {
    tunnel := None;
    var plan := SettlePlan(env, store, sessions.contents, clock.now, profile, target, port, remotePort, document);
    if plan.Err? {
      return Err(plan.error), None;
    }
    var config, credentials := plan.value.config, plan.value.credentials;
    var child :- SessionManager.StartSession(env.host, profile, config.target, config.localPort, config.remotePort,
                                             config.documentName, credentials);
    tunnel := Some(child);
    r := Ok(ConnectResponse(profile, config.target, config.localPort, config.remotePort, config.documentName,
                            credentials.expiration, plan.value.usingCached));
  }

  /** `generate_totp_code`: the current code of the profile's stored secret
      and the seconds it has left. */
  function GenerateTotpCodeCommand(env: Env, store: SecretStore, now: Timestamp, profile: string): (r: Result<CodeResponse>)
    reads store
    ensures !ProfileExists(env.files, profile) ==> r == Err(ProfileNotFound(profile))
    ensures ProfileExists(env.files, profile) && store.GetSecret(profile).Err? ==> r == Err(store.GetSecret(profile).error)
    ensures r.Ok? ==> && ProfileExists(env.files, profile) && store.GetSecret(profile).Ok?
                      && Ok(r.value.code) == GenerateTotpCode(env.totp, store.GetSecret(profile).value, now)
                      && Ok(r.value.ttl) == GetTimeRemaining(env.totp, store.GetSecret(profile).value, now)
    ensures ProfileExists(env.files, profile) && store.GetSecret(profile).Ok? ==>
      var code := GenerateTotpCode(env.totp, store.GetSecret(profile).value, now);
      var ttl := GetTimeRemaining(env.totp, store.GetSecret(profile).value, now);
      && (r.Ok? <==> code.Ok? && ttl.Ok?)
      && (code.Err? ==> r == Err(code.error))
      && (code.Ok? && ttl.Err? ==> r == Err(ttl.error))
  {
    if !ProfileExists(env.files, profile) then Err(ProfileNotFound(profile))
    else
      var secret :- store.GetSecret(profile);
      var code :- GenerateTotpCode(env.totp, secret, now);
      var ttl :- GetTimeRemaining(env.totp, secret, now);
      Ok(CodeResponse(code, ttl))
  }

  /** `remove_aws_profile`: deletes the secret (a failure aborts before
      anything else is touched), then the cached credentials (a failure is
      ignored), then the profile's session settings. */
  method RemoveAwsProfile(env: Env, store: SecretStore, sessions: SessionsFile, profile: string)
    returns (r: Result<RemoveResponse>)
    modifies store, sessions
    ensures store.available == old(store.available)
    ensures !ProfileExists(env.files, profile) ==>
              r == Err(ProfileNotFound(profile)) && store.entries == old(store.entries) && sessions.contents == old(sessions.contents)
    ensures ProfileExists(env.files, profile) && !old(store.available) ==>
              r == Err(Keyring(Unavailable)) && store.entries == old(store.entries) && sessions.contents == old(sessions.contents)
    ensures ProfileExists(env.files, profile) && old(store.available)
            && EntryKey(ServiceName, SecretKey(profile)) !in old(store.entries) ==>
              r == Err(Keyring(NoEntry)) && store.entries == old(store.entries) && sessions.contents == old(sessions.contents)
    ensures ProfileExists(env.files, profile) && old(store.available)
            && EntryKey(ServiceName, SecretKey(profile)) in old(store.entries) ==>
              && store.entries == old(store.entries) - {EntryKey(ServiceName, SecretKey(profile)),
                                                        EntryKey(ServiceName, SessionCredentialsKey(profile))}
              && (old(sessions.contents).Unreadable? ==>
                    r == Err(Custom("Failed to read sessions: " + old(sessions.contents).reason))
                    && sessions.contents == old(sessions.contents))
              && (old(sessions.contents).Absent? ==> r == Ok(RemoveResponse(profile, true)) && sessions.contents == old(sessions.contents))
              && (old(sessions.contents).Present? ==>
                    r == Ok(RemoveResponse(profile, true))
                    && sessions.contents == Ini.Present(Ini.Delete(old(sessions.contents).doc, profile)))
  {
    if !ProfileExists(env.files, profile) {
      return Err(ProfileNotFound(profile));
    }
    var deleted := store.DeleteSecret(profile);
    if deleted.Err? {
      return Err(deleted.error);
    }
    var _ := store.DeleteSessionCredentials(profile);
    var removed := sessions.RemoveConfig(profile);
    if removed.Err? {
      return Err(removed.error);
    }
    r := Ok(RemoveResponse(profile, true));
  }

  /** `remove_mfa_device`: as `remove_aws_profile`, but the session settings
      stay. */
  method RemoveMfaDevice(env: Env, store: SecretStore, profile: string) returns (r: Result<RemoveResponse>)
    modifies store
    ensures store.available == old(store.available)
    ensures !ProfileExists(env.files, profile) ==> r == Err(ProfileNotFound(profile)) && store.entries == old(store.entries)
    ensures ProfileExists(env.files, profile) && !old(store.available) ==>
              r == Err(Keyring(Unavailable)) && store.entries == old(store.entries)
    ensures ProfileExists(env.files, profile) && old(store.available)
            && EntryKey(ServiceName, SecretKey(profile)) !in old(store.entries) ==>
              r == Err(Keyring(NoEntry)) && store.entries == old(store.entries)
    ensures ProfileExists(env.files, profile) && old(store.available)
            && EntryKey(ServiceName, SecretKey(profile)) in old(store.entries) ==>
              r == Ok(RemoveResponse(profile, true))
              && store.entries == old(store.entries) - {EntryKey(ServiceName, SecretKey(profile)),
                                                        EntryKey(ServiceName, SessionCredentialsKey(profile))}
  {
    if !ProfileExists(env.files, profile) {
      return Err(ProfileNotFound(profile));
    }
    var deleted := store.DeleteSecret(profile);
    if deleted.Err? {
      return Err(deleted.error);
    }
    var _ := store.DeleteSessionCredentials(profile);
    r := Ok(RemoveResponse(profile, true));
  }

  /** `get_profile_names`: the listed profiles' names, in order. */
  function GetProfileNames(files: AwsFiles): (r: Result<seq<string>>)
    ensures Profiles(files).Err? ==> r == Err(Profiles(files).error)
    ensures Profiles(files).Ok? ==> r.Ok? && |r.value| == |Profiles(files).value|
                                    && forall i | 0 <= i < |r.value| :: r.value[i] == Profiles(files).value[i].name
  {
    var profiles :- Profiles(files);
    Ok(NamesOf(profiles))
  }
}
