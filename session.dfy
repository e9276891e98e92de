/** `SessionManager`: starting `aws ssm start-session` as a port-forwarding
    tunnel under a set of session credentials. */
module SessionManager {
  import opened Errors
  import opened Text
  import opened Models
  import opened Platform
  import AwsCli

  const AccessKeyVar := "AWS_ACCESS_KEY_ID"
  const SecretKeyVar := "AWS_SECRET_ACCESS_KEY"
  const SessionTokenVar := "AWS_SESSION_TOKEN"

  /** The `--parameters` value: remote port first, then local port. */
  function TunnelParameters(localPort: uint16, remotePort: uint16): string {
    "portNumber=" + DecimalString(remotePort) + ",localPortNumber=" + DecimalString(localPort)
  }

  /** Environment entries for the credential fields that are set. */
  function TunnelEnv(credentials: SessionCredentials): map<string, string> {
    var e0: map<string, string> := map[];
    var e1 := if credentials.accessKeyId != "" then e0[AccessKeyVar := credentials.accessKeyId] else e0;
    var e2 := if credentials.secretAccessKey != "" then e1[SecretKeyVar := credentials.secretAccessKey] else e1;
    if credentials.sessionToken != "" then e2[SessionTokenVar := credentials.sessionToken] else e2
  }

  function TunnelArgs(target: string, localPort: uint16, remotePort: uint16, documentName: string): seq<string> {
    ["ssm", "start-session", "--target", target]
    + (if documentName != "" then ["--document-name", documentName] else [])
    + ["--parameters", TunnelParameters(localPort, remotePort)]
  }

  /** The child `start_session` starts. */
  function TunnelCommand(target: string, localPort: uint16, remotePort: uint16, documentName: string,
                         credentials: SessionCredentials): Command {
    Command(AwsCli.Program, TunnelArgs(target, localPort, remotePort, documentName), TunnelEnv(credentials))
  }

  /** Each credential variable is set exactly when its field is non-empty,
      to that field, and nothing else is set. */
  lemma TunnelEnvEntries(credentials: SessionCredentials)
    ensures var env := TunnelEnv(credentials);
      && (AccessKeyVar in env <==> credentials.accessKeyId != "")
      && (SecretKeyVar in env <==> credentials.secretAccessKey != "")
      && (SessionTokenVar in env <==> credentials.sessionToken != "")
      && (AccessKeyVar in env ==> env[AccessKeyVar] == credentials.accessKeyId)
      && (SecretKeyVar in env ==> env[SecretKeyVar] == credentials.secretAccessKey)
      && (SessionTokenVar in env ==> env[SessionTokenVar] == credentials.sessionToken)
      && env.Keys <= {AccessKeyVar, SecretKeyVar, SessionTokenVar}
  {
  }

  /** The arguments open with `ssm start-session --target <target>`, carry
      `--document-name <doc>` right after exactly when the document is
      named, and close with `--parameters` and the two ports. */
  lemma TunnelArgsShape(target: string, localPort: uint16, remotePort: uint16, documentName: string)
    ensures var args := TunnelArgs(target, localPort, remotePort, documentName);
      && |args| == (if documentName != "" then 8 else 6)
      && args[..4] == ["ssm", "start-session", "--target", target]
      && (documentName != "" ==> args[4] == "--document-name" && args[5] == documentName)
      && (documentName == "" ==> args[4] == "--parameters")
      && args[|args| - 2] == "--parameters"
      && args[|args| - 1] == TunnelParameters(localPort, remotePort)
  {
  }

  /** The two ports can be read back from the `--parameters` value: the
      remote one comes first, and different ports give different values. */
  lemma TunnelParametersInjective(l1: uint16, r1: uint16, l2: uint16, r2: uint16)
    ensures TunnelParameters(l1, r1) == TunnelParameters(l2, r2) ==> l1 == l2 && r1 == r2
  {
    if TunnelParameters(l1, r1) == TunnelParameters(l2, r2) {
      var a := DecimalString(r1);
      var b := DecimalString(r2);
      var p := "portNumber=";
      var s1 := p + a + ",localPortNumber=" + DecimalString(l1);
      var s2 := p + b + ",localPortNumber=" + DecimalString(l2);
      // The remote port's digits run up to the first ','.
      assert s1[|p| + |a|] == ',' && s2[|p| + |b|] == ',';
      assert |a| < |b| ==> IsDigit(s2[|p| + |a|]);
      assert |b| < |a| ==> IsDigit(s1[|p| + |b|]);
      assert a == s1[|p|..|p| + |a|] == s2[|p|..|p| + |b|] == b;
      DecimalInjective(r1, r2);
      var q := p + a + ",localPortNumber=";
      assert DecimalString(l1) == s1[|q|..] == s2[|q|..] == DecimalString(l2);
      DecimalInjective(l1, l2);
    }
  }

  /** `start_session`: refuses a local port that is taken before building
      anything; otherwise starts the tunnel command with the credentials in
      its environment, and reports a start failure against the profile. */
  method StartSession(host: Host, profile: string, target: string, localPort: uint16, remotePort: uint16,
                      documentName: string, credentials: SessionCredentials) returns (r: Result<Child>)
    ensures host.portInUse(localPort) ==> r == Err(PortInUse(localPort))
    ensures !host.portInUse(localPort) ==>
      var cmd := TunnelCommand(target, localPort, remotePort, documentName, credentials);
      match host.spawn(cmd)
      case Launched(pid) => r == Ok(Child(cmd, pid))
      case LaunchFailed(e) => r == Err(AwsCli("AWS session '" + profile + "' failed: " + e))
  {
    if host.portInUse(localPort) {
      return Err(PortInUse(localPort));
    }
    var env: map<string, string> := map[];
    if credentials.accessKeyId != "" {
      env := env[AccessKeyVar := credentials.accessKeyId];
    }
    if credentials.secretAccessKey != "" {
      env := env[SecretKeyVar := credentials.secretAccessKey];
    }
    if credentials.sessionToken != "" {
      env := env[SessionTokenVar := credentials.sessionToken];
    }
    var args := ["ssm", "start-session", "--target", target];
    if documentName != "" {
      args := args + ["--document-name", documentName];
    }
    args := args + ["--parameters", TunnelParameters(localPort, remotePort)];
    var cmd := Command(AwsCli.Program, args, env);
    assert cmd == TunnelCommand(target, localPort, remotePort, documentName, credentials);
    match host.spawn(cmd) {
      case Launched(pid) => r := Ok(Child(cmd, pid));
      case LaunchFailed(e) => r := Err(AwsCli("AWS session '" + profile + "' failed: " + e));
    }
  }
}
