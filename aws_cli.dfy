/** `AwsCli`: runs `aws` sub-commands to completion and picks the expected
    field out of their JSON answers. */
module AwsCli {
  import opened Errors
  import opened Text
  import opened Models
  import opened Platform

  const Program := "aws"

  /** What `run_command` reports once the child has ended: its trimmed
      standard output after a successful exit, an `AwsCli` error with its
      trimmed standard error otherwise, and an `Io` error when it could not be
      started or waited for. */
  function CommandResult(exit: Exit): (r: Result<string>)
    ensures r.Ok? <==> exit.Exited? && exit.success
    ensures r.Ok? ==> r.value == Trim(exit.stdout)
    ensures exit.Exited? && !exit.success ==> r == Err(AwsCli(Trim(exit.stderr)))
    ensures exit.SpawnFailed? ==> r == Err(Io(exit.reason))
  {
    match exit
    case SpawnFailed(e) => Err(Io(e))
    case Exited(success, out, err) =>
      if success then Ok(Trim(out)) else Err(AwsCli(Trim(err)))
  }

  function EnvOverrides(env: Option<map<string, string>>): map<string, string> {
    match env
    case Some(m) => m
    case None => map[]
  }

  /** `run_command`: starts `aws` with `args`, sets every supplied environment
      override on the child, waits for it and maps its exit. */
  method RunCommand(host: Host, args: seq<string>, env: Option<map<string, string>>)
    returns (r: Result<string>)
    ensures r == CommandResult(host.run(Command(Program, args, EnvOverrides(env))))
  {
    var vars: map<string, string> := map[];
    if env.Some? {
      var pending := env.value.Keys;
      while pending != {}
        invariant pending <= env.value.Keys
        invariant vars == map k | k in env.value.Keys - pending :: env.value[k]
        decreases pending
      {
        var k :| k in pending;
        vars := vars[k := env.value[k]];
        pending := pending - {k};
      }
      assert env.value.Keys - pending == env.value.Keys;
      assert vars == env.value;
    }
    assert vars == EnvOverrides(env);
    var output := host.run(Command(Program, args, vars));
    r := CommandResult(output);
  }

  /** The answer of `aws <args>` run with no environment overrides (as every
      command below runs it), decoded as `AwsCliOutput`. */
  function Query(host: Host, json: Serde, args: seq<string>): Result<AwsCliOutput> {
    var out :- CommandResult(host.run(Command(Program, args, map[])));
    match json.output(out)
    case Decoded(o) => Ok(o)
    case Malformed(e) => Err(Json(e))
  }

  /** `args.extend_from_slice(&["--profile", p])` when a profile is given. */
  function WithProfile(args: seq<string>, profile: Option<string>): (r: seq<string>)
    ensures |r| == |args| + (if profile.Some? then 2 else 0)
    ensures r[..|args|] == args
    ensures profile.Some? ==> r[|args|] == "--profile" && r[|args| + 1] == profile.value
  {
    match profile
    case None => args
    case Some(p) => args + ["--profile", p]
  }

  function CreateVirtualMfaDeviceArgs(username: string, outfile: string, profile: Option<string>): seq<string> {
    WithProfile(["iam", "create-virtual-mfa-device", "--virtual-mfa-device-name", username,
                 "--outfile", outfile, "--bootstrap-method", "QRCodePNG"], profile)
  }

  function EnableMfaDeviceArgs(username: string, serial: string, code1: string, code2: string,
                               profile: Option<string>): seq<string> {
    WithProfile(["iam", "enable-mfa-device", "--user-name", username, "--serial-number", serial,
                 "--authentication-code1", code1, "--authentication-code2", code2], profile)
  }

  function GetSessionTokenArgs(serial: string, tokenCode: string, profile: Option<string>): seq<string> {
    WithProfile(["sts", "get-session-token", "--serial-number", serial, "--token-code", tokenCode], profile)
  }

  function ListMfaDevicesArgs(username: string, profile: Option<string>): seq<string> {
    WithProfile(["iam", "list-mfa-devices", "--user-name", username], profile)
  }

  function GetCallerIdentityArgs(profile: Option<string>): seq<string> {
    WithProfile(["sts", "get-caller-identity"], profile)
  }

  /** `enable-mfa-device` names the user, the serial and both codes under their
      own flags, in that order, and nothing follows them but the profile. */
  lemma EnableArgsOrder(username: string, serial: string, code1: string, code2: string, profile: Option<string>)
    ensures var a := EnableMfaDeviceArgs(username, serial, code1, code2, profile);
      && |a| == 10 + (if profile.Some? then 2 else 0)
      && a[2] == "--user-name" && a[3] == username
      && a[4] == "--serial-number" && a[5] == serial
      && a[6] == "--authentication-code1" && a[7] == code1
      && a[8] == "--authentication-code2" && a[9] == code2
  {
  }

  /** `create_virtual_mfa_device`: the serial of the new device, or an error
      when the answer carries no device. */
  function CreateVirtualMfaDevice(host: Host, json: Serde, username: string, outfile: string,
                                  profile: Option<string>): (r: Result<VirtualMfaDevice>)
    ensures var q := Query(host, json, CreateVirtualMfaDeviceArgs(username, outfile, profile));
      && (q.Err? ==> r == Err(q.error))
      && (q.Ok? && q.value.virtualMfaDevice.None? ==> r == Err(AwsCli("No virtual MFA device in response")))
      && (r.Ok? <==> q.Ok? && q.value.virtualMfaDevice.Some?)
      && (r.Ok? ==> q.value.virtualMfaDevice == Some(r.value))
  {
    var o :- Query(host, json, CreateVirtualMfaDeviceArgs(username, outfile, profile));
    match o.virtualMfaDevice
    case Some(d) => Ok(d)
    case None => Err(AwsCli("No virtual MFA device in response"))
  }

  /** `enable_mfa_device`: succeeds exactly when the command does; its output
      is not read. */
  function EnableMfaDevice(host: Host, username: string, serial: string, code1: string, code2: string,
                           profile: Option<string>): (r: Result<()>)
    ensures var c := CommandResult(host.run(Command(Program, EnableMfaDeviceArgs(username, serial, code1, code2, profile), map[])));
      && (r.Ok? <==> c.Ok?)
      && (c.Err? ==> r == Err(c.error))
  {
    var _ :- CommandResult(host.run(Command(Program, EnableMfaDeviceArgs(username, serial, code1, code2, profile), map[])));
    Ok(())
  }

  /** `get_session_token`: the four credential fields of the answer copied
      unchanged, or an error when it carries none. */
  function GetSessionToken(host: Host, json: Serde, serial: string, tokenCode: string,
                           profile: Option<string>): (r: Result<SessionCredentials>)
    ensures var q := Query(host, json, GetSessionTokenArgs(serial, tokenCode, profile));
      && (q.Err? ==> r == Err(q.error))
      && (q.Ok? && q.value.credentials.None? ==> r == Err(AwsCli("No credentials in response")))
      && (r.Ok? <==> q.Ok? && q.value.credentials.Some?)
      && (r.Ok? ==> var c := q.value.credentials.value;
                    && r.value.accessKeyId == c.accessKeyId
                    && r.value.secretAccessKey == c.secretAccessKey
                    && r.value.sessionToken == c.sessionToken
                    && r.value.expiration == c.expiration)
  {
    var o :- Query(host, json, GetSessionTokenArgs(serial, tokenCode, profile));
    match o.credentials
    case None => Err(AwsCli("No credentials in response"))
    case Some(c) => Ok(SessionCredentials(c.accessKeyId, c.secretAccessKey, c.sessionToken, c.expiration))
  }

  /** `list_mfa_devices`: the devices of the answer, none when it lists none. */
  function ListMfaDevices(host: Host, json: Serde, username: string, profile: Option<string>): (r: Result<seq<MfaDevice>>)
    ensures var q := Query(host, json, ListMfaDevicesArgs(username, profile));
      && (r.Ok? <==> q.Ok?)
      && (q.Err? ==> r == Err(q.error))
      && (q.Ok? && q.value.mfaDevices.None? ==> r == Ok([]))
      && (q.Ok? && q.value.mfaDevices.Some? ==> r == Ok(q.value.mfaDevices.value))
  {
    var o :- Query(host, json, ListMfaDevicesArgs(username, profile));
    match o.mfaDevices
    case Some(ds) => Ok(ds)
    case None => Ok([])
  }

  /** `get_caller_identity`: the decoded answer of `sts get-caller-identity`. */
  function GetCallerIdentity(host: Host, json: Serde, profile: Option<string>): (r: Result<CallerIdentity>)
    ensures var c := CommandResult(host.run(Command(Program, GetCallerIdentityArgs(profile), map[])));
      && (c.Err? ==> r == Err(c.error))
      && (c.Ok? ==> match json.identity(c.value)
                    case Decoded(id) => r == Ok(id)
                    case Malformed(e) => r == Err(Json(e)))
  {
    var out :- CommandResult(host.run(Command(Program, GetCallerIdentityArgs(profile), map[])));
    match json.identity(out)
    case Decoded(id) => Ok(id)
    case Malformed(e) => Err(Json(e))
  }
}
