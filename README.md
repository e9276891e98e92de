# AWS MFA back-end of akaw, modelled in Dafny

The model covers the Rust back-end a desktop front-end calls to manage AWS
profiles. That back-end:

- lists the profiles of `~/.aws/config` and `~/.aws/credentials`;
- keeps per-profile port-forwarding settings in `~/.aws/sessions`;
- keeps each profile's TOTP secret and its cached STS session credentials in
  the platform secret store, under service `amf-cli`;
- enrols a virtual MFA device, or imports one from a QR image;
- generates TOTP codes as section 4 of RFC 6238 describes (30-second steps);
- exchanges a code for session credentials with `aws sts get-session-token`;
- opens an `aws ssm start-session` port-forwarding tunnel under those
  credentials.

Modules follow the source files:

| module | source file | what it holds |
|---|---|---|
| `Errors` | `error.rs` | `AppError`, `Result`, `Option` |
| `Text` | helpers | trimming, `u16` decimal text, last `/` segment |
| `Ini` | helpers | the `rust-ini` document operations used |
| `Models` | `models.rs` | the records, `is_valid`, the JSON codec |
| `Platform` | helpers | processes, the clock |
| `AwsCli` | `aws_cli.rs` | the CLI calls |
| `AwsConfig` | `aws_config.rs` | profile listing, user name |
| `SessionConfigManager` | `session_config.rs` | the sessions file |
| `KeyringManager` | `keyring_manager.rs` | the secret store |
| `MfaManager` | `mfa.rs` | TOTP, QR decoding, enrolment |
| `SessionManager` | `session.rs` | the tunnel |
| `Commands` | `commands.rs` | the commands the front-end invokes |

Anything outside the process becomes a parameter or an oracle value:

- **`Platform.Host`** is the machine. It supplies:
  - whether `aws --version` succeeds;
  - the exit of a run command;
  - the outcome of spawning the tunnel;
  - whether a local port is taken.
- **`Models.Serde`** is the JSON codec (`serde_json`).
- **`MfaManager.QrLib`** is image opening, QR detection and URL query parsing.
- **`MfaManager.TotpLib`** is base32 decoding, key acceptance, the HMAC
  code of a time-step counter, and `ttl()`. The counter itself
  (`now / 30`) is part of the model.
- **The three profile files** are `Ini.IniFile` values: `Absent`,
  `Unreadable(reason)` or `Present(document)`.
- **`SessionConfigManager.SessionsFile`** holds the sessions file, which the
  commands rewrite.
- **`KeyringManager.SecretStore`** holds the secret store's entries and
  whether the store can be reached.
- **`Platform.Clock`** holds wall-clock time, which `sleep` advances.

The `Ini` module fixes the `rust-ini` behaviour the source relies on:

- a lookup finds the first section of a name;
- `set_to` updates that first section, or appends a new one;
- `delete` removes every section of the name.

Where the source builds a value by mutation or in a loop, the model is a
`method` proved equal to a specification function. Examples are
`list_profiles`, `run_command`, `create_config_from_profiles`,
`update_config`, `start_session`, the enrolment sequence and `connect`. The
properties the program relies on are proved as lemmas about those functions.

## Model

| member | source | states |
|---|---|---|
| Text.LeadingEnd | src-tauri/src/aws/aws_cli.rs:29-32 | the end of the whitespace run starting at a position: everything before it is whitespace and the character there is not |
| Text.TrailingStart | src-tauri/src/aws/aws_cli.rs:29-32 | the start of the whitespace run ending at a position, never before the lower bound: everything from it is whitespace and the character before it is not |
| Text.Trim | src-tauri/src/aws/aws_cli.rs:29-32 | the result is the piece of the input that starts where the leading whitespace ends; only whitespace precedes and follows it; it neither starts nor ends with whitespace |
| Text.TrimEmptyIffBlank | src-tauri/src/aws/session_config.rs:49 | a string trims to empty exactly when it is all whitespace, which is the `filter` that rejects a blank target |
| Text.TrimIdempotent | src-tauri/src/aws/aws_cli.rs:29-32 | trimming twice is trimming once |
| Text.DecimalString | src-tauri/src/aws/session_config.rs:180-186 | a port's text is a non-empty run of digits with no leading zero unless the port is 0 |
| Text.DecimalValue | src-tauri/src/aws/session_config.rs:180-186 | the digits of a port's text denote that port |
| Text.DecimalInjective | src-tauri/src/aws/session.rs:39-42 | different ports are written differently |
| Text.ParseU16 | src-tauri/src/aws/session_config.rs:57-64 | `str::parse::<u16>` succeeds only on an optional `+` followed by digits whose value fits 16 bits, and gives that value |
| Text.ParseDecimalRoundTrip | src-tauri/src/aws/session_config.rs:57-64 | a port written as decimal text parses back to itself |
| Text.LastSegment | src-tauri/src/aws/aws_config.rs:97-101 | `split('/').last()` is the suffix after the last `/`, and contains no `/` |
| Text.LastSegmentUnique | src-tauri/src/aws/aws_config.rs:97-101 | only one suffix of a string is its last segment |
| Text.SegmentShorterIffSlash | src-tauri/src/aws/aws_config.rs:97-101 | the last segment is shorter than the string exactly when the string holds a `/`; with no `/` it is the whole string |
| Ini.Get | src-tauri/src/aws/session_config.rs:39-45 | a section lookup succeeds exactly when the name is among the document's section names |
| Ini.GetAfterSetTo | src-tauri/src/aws/session_config.rs:149-155 | after a key is set in a section (`with_section(..).set`, `set_to`) the section holds the old keys of its first occurrence plus the new key |
| Ini.SetToOtherSection | src-tauri/src/aws/session_config.rs:149-155 | setting a key in one section leaves every other section's lookup unchanged |
| Ini.NamesAfterSetTo | src-tauri/src/aws/session_config.rs:149-155 | setting a key adds the section name to the end of the names only when it was not there |
| Ini.GetAfterDelete | src-tauri/src/aws/session_config.rs:208 | after `delete` the section can no longer be found |
| Ini.DeleteOtherSection | src-tauri/src/aws/session_config.rs:208 | `delete` leaves every other section's lookup unchanged |
| Ini.DeleteAbsent | src-tauri/src/aws/session_config.rs:208 | deleting a name that does not occur changes nothing |
| Models.ValidIffOutlivesBuffer | src-tauri/src/aws/models.rs:14-18 | credentials are valid exactly when they expire more than 300 seconds from now |
| Models.ExpiringAtBufferIsInvalid | src-tauri/src/aws/models.rs:14-18 | credentials expiring exactly 300 seconds from now are already invalid: the comparison is strict |
| Models.ValidityAntitone | src-tauri/src/aws/models.rs:14-18 | credentials valid at a later instant were valid at every earlier one; once invalid they stay invalid |
| Models.ValidityIgnoresSecrets | src-tauri/src/aws/models.rs:14-18 | validity depends on the expiry alone, not on the keys or token |
| AwsCli.CommandResult | src-tauri/src/aws/aws_cli.rs:26-34 | a run succeeds exactly on a successful exit, with trimmed stdout; a failed exit is an `AwsCli` error with trimmed stderr; a process that could not be run is an `Io` error |
| AwsCli.RunCommand | src-tauri/src/aws/aws_cli.rs:10-35 | the child gets exactly the supplied environment overrides, and the result is what its exit maps to |
| AwsCli.Query | src-tauri/src/aws/aws_cli.rs:56-57 | a command run with no overrides, its output decoded as `AwsCliOutput`, a command failure or malformed JSON being passed on |
| AwsCli.WithProfile | src-tauri/src/aws/aws_cli.rs:52-54 | the arguments are kept as a prefix, and `--profile <p>` follows exactly when a profile is given |
| AwsCli.CreateVirtualMfaDeviceArgs | src-tauri/src/aws/aws_cli.rs:42-54 | the `iam create-virtual-mfa-device` arguments, with the QR code written to the given file |
| AwsCli.EnableMfaDeviceArgs | src-tauri/src/aws/aws_cli.rs:70-84 | the `iam enable-mfa-device` arguments (see `EnableArgsOrder`) |
| AwsCli.GetSessionTokenArgs | src-tauri/src/aws/aws_cli.rs:95-105 | the `sts get-session-token` arguments with serial and code |
| AwsCli.ListMfaDevicesArgs | src-tauri/src/aws/aws_cli.rs:125-128 | the `iam list-mfa-devices` arguments for the user |
| AwsCli.GetCallerIdentityArgs | src-tauri/src/aws/aws_cli.rs:138-141 | the `sts get-caller-identity` arguments |
| AwsCli.EnableArgsOrder | src-tauri/src/aws/aws_cli.rs:70-84 | `enable-mfa-device` passes user, serial, first and second code each after its own flag, in that order |
| AwsCli.CreateVirtualMfaDevice | src-tauri/src/aws/aws_cli.rs:37-61 | the answer's device on success; a command or JSON failure is passed on; an answer without a device is "No virtual MFA device in response" |
| AwsCli.EnableMfaDevice | src-tauri/src/aws/aws_cli.rs:63-88 | succeeds exactly when the command does; its output is ignored |
| AwsCli.GetSessionToken | src-tauri/src/aws/aws_cli.rs:90-119 | the four fields of the answer's `Credentials` copied unchanged; no credentials is "No credentials in response"; other failures are passed on |
| AwsCli.ListMfaDevices | src-tauri/src/aws/aws_cli.rs:121-133 | the answer's devices, and the empty list when it has no `MFADevices`; it fails exactly when the command or the decoding fails |
| AwsCli.GetCallerIdentity | src-tauri/src/aws/aws_cli.rs:135-145 | the decoded answer of `sts get-caller-identity`, a command failure passed on, undecodable output a `Json` error |
| AwsConfig.ProfileName | src-tauri/src/aws/aws_config.rs:33-40 | a `profile X` section names profile `X`; every other section keeps its name |
| AwsConfig.ListProfiles | src-tauri/src/aws/aws_config.rs:17-75 | the two loops build exactly `Profiles`, the profile listing of the files |
| AwsConfig.ConfigProfilesAppend | src-tauri/src/aws/aws_config.rs:31-48 | config sections are listed one by one, in file order |
| AwsConfig.Profiles | src-tauri/src/aws/aws_config.rs:17-75 | the listing `list_profiles` returns, defined section by section; `ListProfiles` is proved equal to it and the lemmas below describe it |
| AwsConfig.ProfilesFailure | src-tauri/src/aws/aws_config.rs:17-75 | a missing config file is `ConfigMissing` and an unreadable one the read error; with a config file, listing fails exactly when neither file names a section, and then with `NoProfiles` |
| AwsConfig.ConfigSectionProfile | src-tauri/src/aws/aws_config.rs:33-46 | a named config section gives one profile, named after it, with its `region` and `output` |
| AwsConfig.CredentialsAppended | src-tauri/src/aws/aws_config.rs:50-66 | credentials profiles only follow the config profiles; each has no region or output and is named after a credentials section |
| AwsConfig.CredentialsNotDuplicated | src-tauri/src/aws/aws_config.rs:55-61 | a credentials profile never repeats a name already listed |
| AwsConfig.CredentialsComplete | src-tauri/src/aws/aws_config.rs:50-66 | every named credentials section ends up listed |
| AwsConfig.CredentialsInFileOrder | src-tauri/src/aws/aws_config.rs:50-66 | the appended credentials profiles come in the order their sections appear in the credentials file |
| AwsConfig.NamesAppend | src-tauri/src/aws/aws_config.rs:50-66 | section names are collected one by one, in file order |
| AwsConfig.CredentialsFileIgnored | src-tauri/src/aws/aws_config.rs:50-52 | a missing or unreadable credentials file behaves like an empty one |
| AwsConfig.Find | src-tauri/src/aws/aws_config.rs:77-84 | finds a profile exactly when one has the name, and then the first such |
| AwsConfig.GetProfile | src-tauri/src/aws/aws_config.rs:77-84 | a listing failure is passed on; the profile is found exactly when listed; otherwise `ProfileNotFound(name)` |
| AwsConfig.ProfileExistsIffListed | src-tauri/src/aws/aws_config.rs:86-88 | a profile exists exactly when listing succeeds and lists that name |
| AwsConfig.ProfileExists | src-tauri/src/aws/aws_config.rs:86-88 | `profile_exists`: `get_profile` succeeds (see `ProfileExistsIffListed`) |
| AwsConfig.GetUsername | src-tauri/src/aws/aws_config.rs:90-104 | the user name is the caller ARN's last `/` segment, or the whole ARN without a `/`; a missing ARN is "No Arn in identity response"; the "Cannot extract username" error never occurs |
| SessionConfigManager.PortOr | src-tauri/src/aws/session_config.rs:57-64 | a port key is used when present and parseable, the default otherwise |
| SessionConfigManager.ConfigFromSection | src-tauri/src/aws/session_config.rs:45-69 | a section fails to load exactly when its target is missing or blank ("No target defined for profile"); otherwise target and document are kept verbatim, with unreadable ports and a missing document defaulted |
| SessionConfigManager.LoadConfig | src-tauri/src/aws/session_config.rs:29-72 | no file or no section is `None`, an unreadable file is a read error, and otherwise the section's settings or its error |
| SessionConfigManager.ListConfiguredProfiles | src-tauri/src/aws/session_config.rs:93-109 | no file lists nothing; an unreadable one is an error; otherwise a name is listed exactly when a section of that name exists |
| SessionConfigManager.ResolveConfig | src-tauri/src/aws/session_config.rs:111-147 | each field comes from the command line, else the file, else the default; a load failure always wins; only a missing target in both places fails, with "No target specified" |
| SessionConfigManager.ResolveWithoutFile | src-tauri/src/aws/session_config.rs:111-147 | without a sessions file only the command line and the defaults matter |
| SessionConfigManager.InitSessionSection | src-tauri/src/aws/session_config.rs:149-155 | `init_session_section`: the four keys set to `""` one after the other (see `InitSessionSectionEffect`) |
| SessionConfigManager.InitSessionSectionEffect | src-tauri/src/aws/session_config.rs:149-155 | the four keys are set to `""` in that section, its other keys are kept, other sections are untouched, and a new name is appended |
| SessionConfigManager.Dedup | src-tauri/src/aws/session_config.rs:74-91 | the deduplicated names are exactly the names given, and none occurs twice |
| SessionConfigManager.InitialisedShape | src-tauri/src/aws/session_config.rs:74-91 | the built file has one blank section per distinct profile name, no name twice, and no other section; every given name finds a blank section |
| SessionConfigManager.InitialisedTargetIsBlank | src-tauri/src/aws/session_config.rs:47-53 | every freshly initialised section fails to load, for its blank target |
| SessionConfigManager.InitialisedBreaksResolve | src-tauri/src/aws/session_config.rs:111-127 | right after initialisation no profile resolves, even with a target given on the command line |
| SessionConfigManager.SetIfEffect | src-tauri/src/aws/session_config.rs:176-190 | a given value is set in the profile's section, a missing one changes nothing, other sections stay |
| SessionConfigManager.UpdatedEffect | src-tauri/src/aws/session_config.rs:157-196 | exactly the given keys are written, ports as decimal text, other keys and other sections untouched; a key that was absent is added only when it is given |
| SessionConfigManager.UpdateThenLoad | src-tauri/src/aws/session_config.rs:157-196 | settings written by `update_config` with a non-blank target load back as written |
| SessionConfigManager.RemoveThenLoad | src-tauri/src/aws/session_config.rs:198-214 | after removal the profile loads nothing, and every other profile loads as before |
| SessionConfigManager.SessionsFile.CreateConfigFromProfiles | src-tauri/src/aws/session_config.rs:74-91 | an existing file is refused with "Configuration file already exists" and left alone; otherwise the file becomes the initialised document of the profile names |
| SessionConfigManager.SessionsFile.UpdateConfig | src-tauri/src/aws/session_config.rs:157-196 | an unreadable file is an error and untouched; otherwise the file, or an empty one, gets the `Updated` document |
| SessionConfigManager.SessionsFile.RemoveConfig | src-tauri/src/aws/session_config.rs:198-214 | no file changes nothing; an unreadable one is an error; otherwise the profile's sections are deleted |
| SessionConfigManager.NamesOf | src-tauri/src/aws/session_config.rs:85-87 | the profile names, in order |
| SessionConfigManager.CreatedThenListed | src-tauri/src/aws/session_config.rs:74-109 | listing a freshly created file gives exactly the profile names, each once |
| SessionConfigManager.DedupDistinct | src-tauri/src/aws/session_config.rs:74-109 | with distinct profile names the listing is exactly those names |
| KeyringManager.SecretKey | src-tauri/src/aws/keyring_manager.rs:32-34 | a secret entry's name is `mfa_secret_` followed by the profile |
| KeyringManager.SessionCredentialsKey | src-tauri/src/aws/keyring_manager.rs:57-59 | a credentials entry's name is `session_credentials_` followed by the profile |
| KeyringManager.KeySpacesDisjoint | src-tauri/src/aws/keyring_manager.rs:32-59 | no secret entry shares its name with a credentials entry |
| KeyringManager.KeysInjective | src-tauri/src/aws/keyring_manager.rs:32-59 | different profiles use different entries |
| KeyringManager.Read | src-tauri/src/aws/keyring_manager.rs:16-20 | a read gives the stored text, `NoEntry` when nothing is stored, `Unavailable` when the store cannot be reached |
| KeyringManager.DecodeCredentials | src-tauri/src/aws/keyring_manager.rs:44-49 | a read failure is passed on, text that does not decode is a `Json` error, else the decoded credentials |
| KeyringManager.SecretStore.GetSecret | src-tauri/src/aws/keyring_manager.rs:16-20 | `get_secret`: the `Read` of the profile's secret entry |
| KeyringManager.SecretStore.HasSecret | src-tauri/src/aws/keyring_manager.rs:28-30 | `has_secret`: `get_secret` succeeds |
| KeyringManager.SecretStore.GetSessionCredentials | src-tauri/src/aws/keyring_manager.rs:44-49 | `get_session_credentials`: the credentials entry read, then decoded by `DecodeCredentials` |
| KeyringManager.SecretStore.StoreSecret | src-tauri/src/aws/keyring_manager.rs:10-14 | the secret entry is overwritten, or `Unavailable` with no change |
| KeyringManager.SecretStore.DeleteSecret | src-tauri/src/aws/keyring_manager.rs:22-26 | the secret entry is removed; no entry is `NoEntry` and no change |
| KeyringManager.SecretStore.StoreSessionCredentials | src-tauri/src/aws/keyring_manager.rs:37-42 | the credentials entry is set to the credentials' JSON |
| KeyringManager.SecretStore.DeleteSessionCredentials | src-tauri/src/aws/keyring_manager.rs:51-55 | the credentials entry is removed; no entry is `NoEntry` and no change |
| KeyringManager.StoreThenGetSecret | src-tauri/src/aws/keyring_manager.rs:10-30 | a stored secret reads back, so `has_secret` holds |
| KeyringManager.WriteKeepsOthers | src-tauri/src/aws/keyring_manager.rs:10-55 | writing or deleting one entry leaves every other entry as it was |
| KeyringManager.DeleteThenGetSecret | src-tauri/src/aws/keyring_manager.rs:16-30 | after deletion `get_secret` fails and `has_secret` is false |
| KeyringManager.SessionCredentialsKeepSecrets | src-tauri/src/aws/keyring_manager.rs:37-55 | caching or dropping credentials never changes any profile's secret |
| KeyringManager.SessionCredentialsRoundTrip | src-tauri/src/aws/keyring_manager.rs:37-49 | cached credentials read back unchanged when the JSON codec round-trips |
| MfaManager.Counter | src-tauri/src/aws/mfa.rs:55-62 | the counter is the number of whole 30-second steps since the epoch |
| MfaManager.CounterAdvances | src-tauri/src/aws/mfa.rs:64-78 | instants at least one step apart have different counters |
| MfaManager.CreateTotp | src-tauri/src/aws/mfa.rs:55-62 | a secret that does not decode is "Invalid secret"; a rejected key is that error; otherwise the decoded key |
| MfaManager.GenerateCurrent | src-tauri/src/aws/mfa.rs:44-48 | the code of the current step, and an error only for a clock before the epoch |
| MfaManager.SameStepSameCode | src-tauri/src/aws/mfa.rs:44-48 | two instants in the same step give the same code |
| MfaManager.GenerateTotpCode | src-tauri/src/aws/mfa.rs:44-48 | a key error is passed on; otherwise the current code of the key |
| MfaManager.GetTimeRemaining | src-tauri/src/aws/mfa.rs:50-53 | fails exactly when the key is bad; a failing `ttl()` reads 0 |
| MfaManager.GenerateConsecutiveCodes | src-tauri/src/aws/mfa.rs:64-78 | the two codes come from the step now and a step at least one later, because the clock has moved on by 30 seconds or more |
| MfaManager.DecodeQrImage | src-tauri/src/aws/mfa.rs:88-102 | no symbol is "No QR code found"; otherwise the first symbol's content, or "Failed to decode QR" |
| MfaManager.DecodeQrFirstGridOnly | src-tauri/src/aws/mfa.rs:97-101 | symbols after the first never matter |
| MfaManager.CollectKeys | src-tauri/src/aws/mfa.rs:108 | a key is in the collected query map exactly when some pair has it |
| MfaManager.CollectLastWins | src-tauri/src/aws/mfa.rs:108 | a key is bound to the value of its last pair |
| MfaManager.ParseSecretFromUri | src-tauri/src/aws/mfa.rs:104-114 | an unparsable URI is "Invalid OTP URI"; succeeds exactly when a `secret` pair exists, with the last such pair's value; otherwise "Secret not found in QR code" |
| MfaManager.LastSecretWins | src-tauri/src/aws/mfa.rs:108-113 | with a `secret` pair present, the map's secret is the value of the last one |
| MfaManager.SecretFromImage | src-tauri/src/aws/mfa.rs:27-33 | an unopenable image is a `QrCode` error with the caller's prefix; otherwise decoding then URI parsing, errors passed on |
| MfaManager.ImportQrCode | src-tauri/src/aws/mfa.rs:27-33 | `import_qr_code`: `SecretFromImage` with "Failed to open image: " |
| MfaManager.ExtractSecretFromQr | src-tauri/src/aws/mfa.rs:80-86 | `extract_secret_from_qr`: `SecretFromImage` with "Failed to open QR: " |
| MfaManager.ImportMatchesExtract | src-tauri/src/aws/mfa.rs:27-86 | `import_qr_code` and `extract_secret_from_qr` agree except for the wording when the image cannot be opened |
| MfaManager.FetchMfaSerial | src-tauri/src/aws/mfa.rs:35-42 | the first listed device's serial; no device is "No MFA device found"; a listing failure is passed on |
| MfaManager.VerifyMfaDevice | src-tauri/src/aws/mfa.rs:121-131 | succeeds exactly when IAM lists a device with that serial, else "MFA device not found in IAM" |
| MfaManager.CreateVirtualMfa | src-tauri/src/aws/mfa.rs:116-119 | the created device's serial, or the creation error |
| MfaManager.Activation | src-tauri/src/aws/mfa.rs:18-20 | steps 3 to 5 as a value over the two clock readings: a key error, then a clock before the epoch, then the enable failure, then the IAM check's answer; success needs all of them |
| MfaManager.Enrollment | src-tauri/src/aws/mfa.rs:13-25 | the whole enrolment as a value: creation error, then QR error, then `Activation`'s error; success gives the created serial and the secret read from the QR code |
| MfaManager.ActivateDevice | src-tauri/src/aws/mfa.rs:18-20 | the result is `Activation` at the clock before and after; a bad secret or a clock before the epoch stops at the codes without waiting; otherwise the second code is from a later 30-second step, and `taken` says which step failed |
| MfaManager.SetupMfaDevice | src-tauri/src/aws/mfa.rs:13-25 | the result is `Enrollment` at the clock before and after; the steps taken are `EnrollmentSteps[..taken]`, ending at the first failure; the temp file is removed exactly when enrolment succeeds |
| SessionManager.TunnelEnvEntries | src-tauri/src/aws/session.rs:23-31 | each credential variable is set exactly when its field is non-empty, to that field, and nothing else is set |
| SessionManager.TunnelArgsShape | src-tauri/src/aws/session.rs:33-42 | `ssm start-session --target t`, then `--document-name d` exactly when a document is named, then `--parameters` and the ports |
| SessionManager.TunnelParametersInjective | src-tauri/src/aws/session.rs:39-42 | the `--parameters` value determines both ports, remote first |
| SessionManager.TunnelEnv | src-tauri/src/aws/session.rs:23-31 | the child's environment overrides (see `TunnelEnvEntries`) |
| SessionManager.TunnelArgs | src-tauri/src/aws/session.rs:33-42 | the child's arguments (see `TunnelArgsShape`) |
| SessionManager.TunnelCommand | src-tauri/src/aws/session.rs:21-42 | the `aws` child `start_session` spawns, with those arguments and overrides |
| SessionManager.StartSession | src-tauri/src/aws/session.rs:9-56 | a local port in use is `PortInUse` before anything starts; otherwise the tunnel child, or "AWS session '<profile>' failed: …" |
| Commands.ProfileInfoFor | src-tauri/src/aws/commands.rs:99-121 | a profile entry has MFA exactly when a secret is stored and config exactly when the sessions file names the profile; the serial is looked up only when it has MFA |
| Commands.ListAwsProfiles | src-tauri/src/aws/commands.rs:93-128 | one entry per listed profile, in order; `has_configurations` exactly when any sessions section exists; listing errors passed on |
| Commands.ShowAwsConfig | src-tauri/src/aws/commands.rs:131-163 | an unknown profile is `ProfileNotFound` with no write; the file is rewritten only when some setting is given and it is readable, and an unreadable one is an error with no change; the response is what then loads, or the load error |
| Commands.InitAwsConfigs | src-tauri/src/aws/commands.rs:166-177 | refuses an existing sessions file; otherwise it writes one blank section per listed profile |
| Commands.IdentityOf | src-tauri/src/aws/commands.rs:189-206 | a missing account or ARN reads "Unknown"; the user name is the ARN's last segment |
| Commands.CheckMfaStatus | src-tauri/src/aws/commands.rs:180-219 | fails exactly on an unknown profile; a failing identity lookup leaves identity and device empty and is not an error |
| Commands.SetupMfaDevice | src-tauri/src/aws/commands.rs:222-253 | CLI, profile and user name are checked in that order; with a QR image, its import error, then the serial lookup error, then the store error; otherwise `Enrollment`'s error, then the store error; success stores the secret and reports the serial |
| Commands.Preflight | src-tauri/src/aws/commands.rs:263-274 | the order of `connect`'s checks (CLI, profile, settings, user name, MFA serial), each failure aborting; success yields the settings and the serial |
| Commands.ChooseCredentials | src-tauri/src/aws/commands.rs:276-287 | cached credentials when readable and still valid, else the STS exchange of the stored secret's current code, a missing secret or failing code or exchange being passed on |
| Commands.Prepare | src-tauri/src/aws/commands.rs:263-287 | a failing check aborts before any credentials are looked at; otherwise the plan carries the checked settings and the chosen credentials |
| Commands.CachedIffValid | src-tauri/src/aws/commands.rs:276-287 | cached credentials are used exactly when readable and still valid, and then as read; otherwise the credentials are the exchange's |
| Commands.AcquireCredentials | src-tauri/src/aws/commands.rs:276-287 | makes the choice `ChooseCredentials` describes and caches exchanged credentials, ignoring a write failure; cached ones cause no write |
| Commands.SettlePlan | src-tauri/src/aws/commands.rs:263-287 | arrives at `Prepare`'s plan, and the cache changes only by storing exchanged credentials |
| Commands.SerialCheckedBeforeCache | src-tauri/src/aws/commands.rs:271-287 | valid cached credentials do not rescue `connect` from a failing MFA serial lookup |
| Commands.Connect | src-tauri/src/aws/commands.rs:256-308 | fresh credentials are cached, and a cache write failure is ignored; the tunnel opens with the resolved settings; the response echoes them, the expiry and whether the cache was used |
| Commands.GenerateTotpCodeCommand | src-tauri/src/aws/commands.rs:311-321 | an unknown profile or missing secret fails; then a code error, then a ttl error, is passed on; success exactly when both succeed, with the current code and its time left |
| Commands.RemoveAwsProfile | src-tauri/src/aws/commands.rs:324-337 | failing to delete the secret aborts with nothing changed; then the cached credentials go (ignoring failure), then the sessions section |
| Commands.RemoveMfaDevice | src-tauri/src/aws/commands.rs:340-352 | as `remove_aws_profile`, but the sessions file stays |
| Commands.GetProfileNames | src-tauri/src/aws/commands.rs:355-358 | the listed profiles' names, in order, or the listing error |

## Left out

- Home-directory lookup (`utils.rs` `get_aws_*_path`): the three files are given as `Ini.IniFile` values, and the sessions path is a string parameter.
- Writing the sessions file (`ini.write_to_file`): writes are assumed to succeed, so a failed write is not modelled.
- INI parsing and printing: a file is modelled by the document it holds. Parse failures are `Unreadable(reason)`.
- UTF-8 decoding of child output (`from_utf8_lossy`): output is modelled as a string.
- Process spawning, `aws --version`, the port probe (`TcpListener::bind`) and tunnel spawning: these are oracle fields of `Platform.Host`.
- The oracles are functions, so the same question always gets the same answer. The model does not capture a host whose state changes between two calls.
- Base32 decoding, HMAC-SHA1, `TOTP::new`'s key checks and `ttl()`: these are `MfaManager.TotpLib` oracle fields. The counter `now / 30` is modelled.
- Image decoding, QR detection and URL parsing: these are `MfaManager.QrLib` oracle fields.
- `serde_json` encoding and decoding: these are `Models.Serde` oracle fields. `Models.Serde.RoundTrips` states the round trip the credential cache relies on.
- `OffsetDateTime`: instants are whole seconds since the epoch.
- Commands.Connect: the response's `expiration` is the expiry instant. Its text rendering and the `unwrap` on formatting are not modelled.
- Secret-store platform errors: only `NoEntry` and `Unavailable` are modelled. `Entry::new` failures count as the store being unavailable.
- KeyringManager.SecretStore.StoreSessionCredentials: a failure of `serde_json::to_string` is not modelled.
- SessionConfigManager.Dedup: that names keep the order of their first occurrence is fixed by its definition (a name is appended only when new); no separate lemma restates it.
- MfaManager.SetupMfaDevice: the temp QR file's contents and removal are not modelled. The step count `taken` records only whether removal was reached, and the QR oracle answers for the file path.
- `async` and concurrent commands: each command runs alone and to completion.
- The Tauri command wrappers, `lib.rs` and the front-end code: these are outside the back-end.
- Logging: it has no effect on results.

## Notes on the source

- Rust's `split('/')` always yields at least one piece. So `get_username`'s "Cannot extract username from ARN" error is unreachable, and `AwsConfig.GetUsername` proves it never occurs.
- Missing targets, missing secrets, a missing MFA device and an existing configuration file are reported as `Custom` messages, or as the secret store's `NoEntry`, not as errors of their own kind. The model uses these errors and messages as written.
- `connect` drops the tunnel's child process and returns only the response. `Commands.Connect` also returns the child, so the contract can name the started command.
- `init_aws_configs` writes a blank `target`. `load_config` rejects a blank target, so `resolve_config` fails for such a profile even when a target is given on the command line (`SessionConfigManager.InitialisedBreaksResolve`).
