/** `MfaManager`: TOTP codes from a base32 secret, reading the secret out of
    an `otpauth://` QR code, and enrolling a new virtual MFA device. */
module MfaManager {
  import opened Errors
  import opened Models
  import opened Platform
  import AwsCli

  /** One QR symbol found in an image, and what decoding it gives. */
  datatype Grid = Grid(content: Decoded<string>)

  /** The image and URL libraries: the QR symbols detected in the image at a
      path (or why it cannot be opened), and the query pairs of a URL in
      order (or why it does not parse). */
  datatype QrLib = QrLib(
    openImage: string -> Decoded<seq<Grid>>,
    queryPairs: string -> Decoded<seq<(string, string)>>)

  type Key = seq<bv8>

  /** The TOTP library: base32 decoding of a secret, the reason
      `TOTP::new(SHA1, 6, 1, 30, key)` rejects a key if it does, the six-digit
      code of a key for a time-step counter, and `ttl()` at an instant. */
  datatype TotpLib = TotpLib(
    decodeSecret: string -> Decoded<Key>,
    rejectKey: Key -> Option<string>,
    code: (Key, nat) -> string,
    ttl: Timestamp -> Option<nat>)

  /** The time step of section 4 of RFC 6238, in seconds. */
  const TimeStep: nat := 30

  /** What the clock error reads when the system time lies before the epoch. */
  const ClockBeforeEpoch := "second time provided was later than self"

  /** The time-step counter T of section 4 of RFC 6238 at a non-negative
      instant: whole steps elapsed since the epoch. */
  function Counter(now: Timestamp): (t: nat)
    requires now >= 0
    ensures t * TimeStep <= now < (t + 1) * TimeStep
  {
    now / TimeStep
  }

  /** Instants at least one step apart have counters at least one apart. */
  lemma CounterAdvances(t1: Timestamp, t2: Timestamp)
    requires 0 <= t1 && t1 + TimeStep <= t2
    ensures Counter(t2) >= Counter(t1) + 1
  {
    var c1 := Counter(t1);
    var c2 := Counter(t2);
    assert (c1 + 1) * TimeStep <= t2 < (c2 + 1) * TimeStep;
  }

  /** `create_totp`: the decoded key, if it decodes and the library takes it. */
  function CreateTotp(lib: TotpLib, secret: string): (r: Result<Key>)
    ensures lib.decodeSecret(secret).Malformed? ==> r == Err(Totp("Invalid secret: " + lib.decodeSecret(secret).reason))
    ensures r.Ok? <==> lib.decodeSecret(secret).Decoded? && lib.rejectKey(lib.decodeSecret(secret).value).None?
    ensures r.Ok? ==> r.value == lib.decodeSecret(secret).value
    ensures lib.decodeSecret(secret).Decoded? && lib.rejectKey(lib.decodeSecret(secret).value).Some? ==>
              r == Err(Totp(lib.rejectKey(lib.decodeSecret(secret).value).value))
  {
    match lib.decodeSecret(secret)
    case Malformed(e) => Err(Totp("Invalid secret: " + e))
    case Decoded(key) =>
      match lib.rejectKey(key)
      case Some(e) => Err(Totp(e))
      case None => Ok(key)
  }

  /** `totp.generate_current()`: the code for the step the clock is in. */
  function GenerateCurrent(lib: TotpLib, key: Key, now: Timestamp): (r: Result<string>)
    ensures r.Ok? <==> now >= 0
    ensures r.Ok? ==> r.value == lib.code(key, Counter(now))
    ensures r.Err? ==> r == Err(Totp(ClockBeforeEpoch))
  {
    if now < 0 then Err(Totp(ClockBeforeEpoch)) else Ok(lib.code(key, now / TimeStep))
  }

  /** Two instants in the same step give the same code. */
  lemma SameStepSameCode(lib: TotpLib, key: Key, t1: Timestamp, t2: Timestamp)
    requires 0 <= t1 <= t2 && t1 / TimeStep == t2 / TimeStep
    ensures GenerateCurrent(lib, key, t1) == GenerateCurrent(lib, key, t2)
  {
  }

  /** `generate_totp_code`. */
  function GenerateTotpCode(lib: TotpLib, secret: string, now: Timestamp): (r: Result<string>)
    ensures CreateTotp(lib, secret).Err? ==> r == Err(CreateTotp(lib, secret).error)
    ensures CreateTotp(lib, secret).Ok? ==> r == GenerateCurrent(lib, CreateTotp(lib, secret).value, now)
  {
    var key :- CreateTotp(lib, secret);
    GenerateCurrent(lib, key, now)
  }

  /** `get_time_remaining`: the library's `ttl()`, zero when it fails. */
  function GetTimeRemaining(lib: TotpLib, secret: string, now: Timestamp): (r: Result<nat>)
    ensures r.Ok? <==> CreateTotp(lib, secret).Ok?
    ensures r.Err? ==> r == Err(CreateTotp(lib, secret).error)
    ensures r.Ok? && lib.ttl(now).None? ==> r.value == 0
    ensures r.Ok? && lib.ttl(now).Some? ==> r.value == lib.ttl(now).value
  {
    var _ :- CreateTotp(lib, secret);
    Ok(match lib.ttl(now) case Some(t) => t case None => 0)
  }

  /** `generate_consecutive_codes`: a code now and another after sleeping 30
      seconds, so the two come from different time steps. */
  method GenerateConsecutiveCodes(lib: TotpLib, secret: string, clock: Clock) returns (r: Result<(string, string)>)
    modifies clock
    ensures CreateTotp(lib, secret).Err? ==> r == Err(CreateTotp(lib, secret).error) && clock.now == old(clock.now)
    ensures CreateTotp(lib, secret).Ok? && old(clock.now) < 0 ==> r == Err(Totp(ClockBeforeEpoch)) && clock.now == old(clock.now)
    ensures r.Ok? ==> CreateTotp(lib, secret).Ok? && 0 <= old(clock.now) && clock.now >= old(clock.now) + TimeStep
    ensures r.Ok? ==> var key := CreateTotp(lib, secret).value;
                      && r.value.0 == lib.code(key, Counter(old(clock.now)))
                      && r.value.1 == lib.code(key, Counter(clock.now))
                      && Counter(clock.now) >= Counter(old(clock.now)) + 1
    ensures CreateTotp(lib, secret).Ok? && old(clock.now) >= 0 ==> r.Ok?
  {
    var totp := CreateTotp(lib, secret);
    if totp.Err? {
      return Err(totp.error);
    }
    var key := totp.value;
    var first := GenerateCurrent(lib, key, clock.now);
    if first.Err? {
      return Err(first.error);
    }
    ghost var start := clock.now;
    clock.Sleep(TimeStep);
    var second := GenerateCurrent(lib, key, clock.now);
    CounterAdvances(start, clock.now);
    r := Ok((first.value, second.value));
  }

  /** `decode_qr_image`: the content of the first QR symbol found. */
  function DecodeQrImage(grids: seq<Grid>): (r: Result<string>)
    ensures grids == [] ==> r == Err(QrCode("No QR code found"))
    ensures grids != [] ==> match grids[0].content
                            case Decoded(c) => r == Ok(c)
                            case Malformed(e) => r == Err(QrCode("Failed to decode QR: " + e))
  {
    if grids == [] then Err(QrCode("No QR code found"))
    else
      match grids[0].content
      case Decoded(c) => Ok(c)
      case Malformed(e) => Err(QrCode("Failed to decode QR: " + e))
  }

  /** Only the first symbol is looked at: what follows it never matters. */
  lemma DecodeQrFirstGridOnly(g: Grid, rest1: seq<Grid>, rest2: seq<Grid>)
    ensures DecodeQrImage([g] + rest1) == DecodeQrImage([g] + rest2)
  {
  }

  /** `query_pairs().collect::<HashMap<_, _>>()`: each key bound to the value
      of its last pair. */
  function Collect(pairs: seq<(string, string)>): map<string, string> {
    if pairs == [] then map[]
    else Collect(pairs[..|pairs| - 1])[pairs[|pairs| - 1].0 := pairs[|pairs| - 1].1]
  }

  /** A key is collected exactly when some pair carries it... */
  lemma {:induction false} CollectKeys(pairs: seq<(string, string)>, k: string)
    ensures k in Collect(pairs) <==> exists i | 0 <= i < |pairs| :: pairs[i].0 == k
  {
    if pairs != [] {
      var init := pairs[..|pairs| - 1];
      CollectKeys(init, k);
      if k in Collect(init) {
        var i :| 0 <= i < |init| && init[i].0 == k;
        assert pairs[i].0 == k;
      }
      if exists i | 0 <= i < |pairs| :: pairs[i].0 == k {
        var i :| 0 <= i < |pairs| && pairs[i].0 == k;
        if i < |init| { assert init[i].0 == k; }
      }
    }
  }

  /** ...and it is bound to the value of the last such pair. */
  lemma {:induction false} CollectLastWins(pairs: seq<(string, string)>, i: nat)
    requires i < |pairs|
    requires forall j | i < j < |pairs| :: pairs[j].0 != pairs[i].0
    ensures pairs[i].0 in Collect(pairs) && Collect(pairs)[pairs[i].0] == pairs[i].1
  {
    var init := pairs[..|pairs| - 1];
    if i < |pairs| - 1 {
      assert forall j | i < j < |init| :: init[j] == pairs[j];
      CollectLastWins(init, i);
      assert init[i] == pairs[i];
    }
  }

  const SecretParam := "secret"

  /** `parse_secret_from_uri`: the value of the last `secret` query pair. */
  function ParseSecretFromUri(qr: QrLib, uri: string): (r: Result<string>)
    ensures qr.queryPairs(uri).Malformed? ==> r == Err(QrCode("Invalid OTP URI: " + qr.queryPairs(uri).reason))
    ensures qr.queryPairs(uri).Decoded? ==>
      var pairs := qr.queryPairs(uri).value;
      && (r.Ok? <==> exists i | 0 <= i < |pairs| :: pairs[i].0 == SecretParam)
      && (r.Err? ==> r == Err(QrCode("Secret not found in QR code")))
      && (r.Ok? ==> exists i | 0 <= i < |pairs| :: pairs[i] == (SecretParam, r.value)
                      && forall j | i < j < |pairs| :: pairs[j].0 != SecretParam)
  {
    match qr.queryPairs(uri)
    case Malformed(e) => Err(QrCode("Invalid OTP URI: " + e))
    case Decoded(pairs) =>
      var params := Collect(pairs);
      CollectKeys(pairs, SecretParam);
      if SecretParam in params then
        LastSecretWins(pairs);
        Ok(params[SecretParam])
      else Err(QrCode("Secret not found in QR code"))
  }

  lemma LastSecretWins(pairs: seq<(string, string)>)
    requires exists i | 0 <= i < |pairs| :: pairs[i].0 == SecretParam
    ensures SecretParam in Collect(pairs)
    ensures exists i | 0 <= i < |pairs| :: pairs[i] == (SecretParam, Collect(pairs)[SecretParam])
                                           && forall j | i < j < |pairs| :: pairs[j].0 != SecretParam
  {
    var i :| 0 <= i < |pairs| && pairs[i].0 == SecretParam;
    while exists j | i < j < |pairs| :: pairs[j].0 == SecretParam
      invariant 0 <= i < |pairs| && pairs[i].0 == SecretParam
      decreases |pairs| - i
    {
      var k :| i < k < |pairs| && pairs[k].0 == SecretParam;
      i := k;
    }
    CollectLastWins(pairs, i);
  }

  /** Reading the secret out of the image at `path`, with the given prefix
      for an image that cannot be opened. */
  function SecretFromImage(qr: QrLib, path: string, openError: string): (r: Result<string>)
    ensures qr.openImage(path).Malformed? ==> r == Err(QrCode(openError + qr.openImage(path).reason))
    ensures qr.openImage(path).Decoded? ==>
      var data := DecodeQrImage(qr.openImage(path).value);
      && (data.Err? ==> r == Err(data.error))
      && (data.Ok? ==> r == ParseSecretFromUri(qr, data.value))
  {
    match qr.openImage(path)
    case Malformed(e) => Err(QrCode(openError + e))
    case Decoded(grids) =>
      var data :- DecodeQrImage(grids);
      ParseSecretFromUri(qr, data)
  }

  /** `import_qr_code`. */
  function ImportQrCode(qr: QrLib, imagePath: string): Result<string> {
    SecretFromImage(qr, imagePath, "Failed to open image: ")
  }

  /** `extract_secret_from_qr`. */
  function ExtractSecretFromQr(qr: QrLib, filePath: string): Result<string> {
    SecretFromImage(qr, filePath, "Failed to open QR: ")
  }

  /** Importing a QR image and extracting from the enrolment QR file give
      the same answer, except for the wording when the image cannot be
      opened. */
  lemma ImportMatchesExtract(qr: QrLib, path: string)
    ensures qr.openImage(path).Decoded? ==> ImportQrCode(qr, path) == ExtractSecretFromQr(qr, path)
    ensures qr.openImage(path).Malformed? ==>
      && ImportQrCode(qr, path) == Err(QrCode("Failed to open image: " + qr.openImage(path).reason))
      && ExtractSecretFromQr(qr, path) == Err(QrCode("Failed to open QR: " + qr.openImage(path).reason))
  {
  }

  /** `fetch_mfa_serial`: the serial of the first device IAM lists. */
  function FetchMfaSerial(host: Host, json: Serde, username: string, profile: string): (r: Result<string>)
    ensures var ds := AwsCli.ListMfaDevices(host, json, username, Some(profile));
      && (ds.Err? ==> r == Err(ds.error))
      && (ds.Ok? && ds.value == [] ==> r == Err(Custom("No MFA device found")))
      && (ds.Ok? && ds.value != [] ==> r == Ok(ds.value[0].serialNumber))
  {
    var devices :- AwsCli.ListMfaDevices(host, json, username, Some(profile));
    if devices == [] then Err(Custom("No MFA device found")) else Ok(devices[0].serialNumber)
  }

  predicate AnySerial(devices: seq<MfaDevice>, serial: string) {
    exists i | 0 <= i < |devices| :: devices[i].serialNumber == serial
  }

  /** `verify_mfa_device`: succeeds exactly when IAM lists a device with
      that serial. */
  function VerifyMfaDevice(host: Host, json: Serde, username: string, profile: string, serial: string): (r: Result<()>)
    ensures var ds := AwsCli.ListMfaDevices(host, json, username, Some(profile));
      && (ds.Err? ==> r == Err(ds.error))
      && (ds.Ok? ==> (r.Ok? <==> exists i | 0 <= i < |ds.value| :: ds.value[i].serialNumber == serial))
      && (ds.Ok? && r.Err? ==> r == Err(Custom("MFA device not found in IAM")))
  {
    var devices :- AwsCli.ListMfaDevices(host, json, username, Some(profile));
    if !AnySerial(devices, serial) then Err(Custom("MFA device not found in IAM")) else Ok(())
  }

  /** `create_virtual_mfa`: the new device's serial. */
  function CreateVirtualMfa(host: Host, json: Serde, username: string, profile: string, outfile: string): (r: Result<string>)
    ensures var d := AwsCli.CreateVirtualMfaDevice(host, json, username, outfile, Some(profile));
      && (d.Err? ==> r == Err(d.error))
      && (d.Ok? ==> r == Ok(d.value.serialNumber))
  {
    var device :- AwsCli.CreateVirtualMfaDevice(host, json, username, outfile, Some(profile));
    Ok(device.serialNumber)
  }

  /** Where the device's QR code is written for the duration of enrolment. */
  function TempFile(profile: string): string {
    "qr_temp_" + profile + ".png"
  }

  /** The steps of enrolment, in the order they are taken. */
  datatype EnrollStep = CreateDevice | ExtractSecret | GenerateCodes | EnableDevice | VerifyDevice | RemoveTempFile

  const EnrollmentSteps := [CreateDevice, ExtractSecret, GenerateCodes, EnableDevice, VerifyDevice, RemoveTempFile]

  /** Removing the temp file is the last step, so a run is the full list
      exactly when it includes that removal. */
  lemma TempFileRemovedLast(n: nat)
    requires n <= |EnrollmentSteps|
    ensures RemoveTempFile in EnrollmentSteps[..n] <==> n == |EnrollmentSteps|
  {
    if n < |EnrollmentSteps| {
      assert forall i | 0 <= i < n :: EnrollmentSteps[..n][i] == EnrollmentSteps[i] != RemoveTempFile;
    } else {
      assert EnrollmentSteps[..n][5] == RemoveTempFile;
    }
  }

  /** Steps 3 to 5 of enrolment as a value, with the clock read at `t0`
      for the first code and at `t1` for the second: the key, both codes,
      enabling the device with them, then checking IAM lists it; the first
      failure is the result. */
  function Activation(host: Host, json: Serde, lib: TotpLib, username: string, profile: string,
                      serial: string, secret: string, t0: Timestamp, t1: Timestamp): (r: Result<()>)
    ensures CreateTotp(lib, secret).Err? ==> r == Err(CreateTotp(lib, secret).error)
    ensures CreateTotp(lib, secret).Ok? && (t0 < 0 || t1 < 0) ==> r == Err(Totp(ClockBeforeEpoch))
    ensures CreateTotp(lib, secret).Ok? && t0 >= 0 && t1 >= 0 ==>
      var key := CreateTotp(lib, secret).value;
      var enabled := AwsCli.EnableMfaDevice(host, username, serial, lib.code(key, Counter(t0)), lib.code(key, Counter(t1)),
                                            Some(profile));
      var verified := VerifyMfaDevice(host, json, username, profile, serial);
      && (enabled.Err? ==> r == Err(enabled.error))
      && (enabled.Ok? ==> r == verified)
    ensures r.Ok? ==> CreateTotp(lib, secret).Ok? && t0 >= 0 && t1 >= 0
  {
    var key :- CreateTotp(lib, secret);
    var code1 :- GenerateCurrent(lib, key, t0);
    var code2 :- GenerateCurrent(lib, key, t1);
    var _ :- AwsCli.EnableMfaDevice(host, username, serial, code1, code2, Some(profile));
    VerifyMfaDevice(host, json, username, profile, serial)
  }

  /** The whole enrolment as a value: create the device, read its secret,
      then `Activation`; the first failure is the result, and success gives
      the new serial and the secret. */
  function Enrollment(host: Host, json: Serde, qr: QrLib, lib: TotpLib, username: string, profile: string,
                      t0: Timestamp, t1: Timestamp): (r: Result<(string, string)>)
    ensures var created := CreateVirtualMfa(host, json, username, profile, TempFile(profile));
            var secret := ExtractSecretFromQr(qr, TempFile(profile));
      && (created.Err? ==> r == Err(created.error))
      && (created.Ok? && secret.Err? ==> r == Err(secret.error))
      && (created.Ok? && secret.Ok? ==>
            var activated := Activation(host, json, lib, username, profile, created.value, secret.value, t0, t1);
            && (activated.Err? ==> r == Err(activated.error))
            && (activated.Ok? ==> r == Ok((created.value, secret.value))))
  {
    var serial :- CreateVirtualMfa(host, json, username, profile, TempFile(profile));
    var secret :- ExtractSecretFromQr(qr, TempFile(profile));
    var _ :- Activation(host, json, lib, username, profile, serial, secret, t0, t1);
    Ok((serial, secret))
  }

  /** Steps 3 to 5 of enrolment, once the device exists and its secret is
      known: two consecutive codes from the secret, enabling the device with
      them, and checking IAM lists it. `taken` counts the enrolment steps
      taken so far, the failing one included. */
  method ActivateDevice(host: Host, json: Serde, lib: TotpLib, clock: Clock, username: string, profile: string,
                        serial: string, secret: string) returns (r: Result<()>, taken: nat)
    modifies clock
    ensures r == Activation(host, json, lib, username, profile, serial, secret, old(clock.now), clock.now)
    ensures 3 <= taken <= 5 && (r.Ok? ==> taken == 5)
    ensures taken == 3 <==> CreateTotp(lib, secret).Err? || old(clock.now) < 0
    ensures taken == 3 ==>
      && clock.now == old(clock.now)
      && r == (if CreateTotp(lib, secret).Err? then Err(CreateTotp(lib, secret).error) else Err(Totp(ClockBeforeEpoch)))
    ensures taken > 3 ==> clock.now >= old(clock.now) + TimeStep
    ensures taken > 3 ==>
      var key := CreateTotp(lib, secret).value;
      var enabled := AwsCli.EnableMfaDevice(host, username, serial, lib.code(key, Counter(old(clock.now))),
                                            lib.code(key, Counter(clock.now)), Some(profile));
      && Counter(clock.now) >= Counter(old(clock.now)) + 1
      && (taken == 4 <==> enabled.Err?)
      && (taken == 4 ==> r == Err(enabled.error))
    ensures taken == 5 ==>
      var verified := VerifyMfaDevice(host, json, username, profile, serial);
      && (r.Ok? <==> verified.Ok?)
      && (r.Err? ==> r == Err(verified.error))
  {
    var codes := GenerateConsecutiveCodes(lib, secret, clock);
    if codes.Err? {
      return Err(codes.error), 3;
    }
    var enabled := AwsCli.EnableMfaDevice(host, username, serial, codes.value.0, codes.value.1, Some(profile));
    if enabled.Err? {
      return Err(enabled.error), 4;
    }
    var verified := VerifyMfaDevice(host, json, username, profile, serial);
    if verified.Err? {
      return Err(verified.error), 5;
    }
    r, taken := Ok(()), 5;
  }

  /** `setup_mfa_device`: create the device with its QR code in a temp file,
      read the secret from it, generate two consecutive codes, enable the
      device with them and check IAM lists it; then remove the temp file.
      `EnrollmentSteps[..taken]` are the steps taken: the first failing step
      is the last one taken, and the temp file is removed only when all
      succeed. */
  method SetupMfaDevice(host: Host, json: Serde, qr: QrLib, lib: TotpLib, clock: Clock, username: string, profile: string)
    returns (r: Result<(string, string)>, taken: nat)
    modifies clock
    ensures 1 <= taken <= |EnrollmentSteps|
    ensures r == Enrollment(host, json, qr, lib, username, profile, old(clock.now), clock.now)
    ensures r.Ok? <==> taken == |EnrollmentSteps|
    ensures RemoveTempFile in EnrollmentSteps[..taken] <==> r.Ok?
    ensures var created := CreateVirtualMfa(host, json, username, profile, TempFile(profile));
      && (taken == 1 <==> created.Err?)
      && (taken == 1 ==> r == Err(created.error))
      && (r.Ok? ==> r.value.0 == created.value)
    ensures var secret := ExtractSecretFromQr(qr, TempFile(profile));
      && (taken == 2 ==> secret.Err? && r == Err(secret.error))
      && (taken > 2 ==> secret.Ok?)
      && (r.Ok? ==> r.value.1 == secret.value)
    ensures taken <= 2 ==> clock.now == old(clock.now)
  {
    var temp := TempFile(profile);
    var created := CreateVirtualMfa(host, json, username, profile, temp);
    if created.Err? {
      TempFileRemovedLast(1);
      return Err(created.error), 1;
    }
    var serial := created.value;
    var extracted := ExtractSecretFromQr(qr, temp);
    if extracted.Err? {
      TempFileRemovedLast(2);
      return Err(extracted.error), 2;
    }
    var secret := extracted.value;
    var activated, activationSteps := ActivateDevice(host, json, lib, clock, username, profile, serial, secret);
    if activated.Err? {
      TempFileRemovedLast(activationSteps);
      return Err(activated.error), activationSteps;
    }
    TempFileRemovedLast(|EnrollmentSteps|);
    r, taken := Ok((serial, secret)), |EnrollmentSteps|;
  }
}
