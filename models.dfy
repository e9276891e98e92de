/** Shared records: cached session credentials and the parts of the `aws` CLI's
    JSON answers that the back-end reads. */
module Models {
  import opened Errors

  /** Seconds since the Unix epoch, UTC. Negative values are instants before it. */
  type Timestamp = int

  /** Credentials must outlive the current instant by more than this many
      seconds to be reused (`Duration::minutes(5)`). */
  const ExpiryBuffer: int := 5 * 60

  /** Temporary credentials returned by `sts get-session-token` and cached in
      the platform secret store. */
  datatype SessionCredentials = SessionCredentials(
    accessKeyId: string,
    secretAccessKey: string,
    sessionToken: string,
    expiration: Timestamp)
  {
    /** `is_valid`, evaluated at instant `now` (the source reads the clock itself). */
    predicate IsValid(now: Timestamp) {
      expiration > now + ExpiryBuffer
    }
  }

  /** Validity means outliving `now` by strictly more than five minutes. */
  lemma ValidIffOutlivesBuffer(c: SessionCredentials, now: Timestamp)
    ensures c.IsValid(now) <==> c.expiration - now > 300
  {
  }

  /** Credentials expiring exactly at `now + 5 min` are no longer reused. */
  lemma ExpiringAtBufferIsInvalid(c: SessionCredentials, now: Timestamp)
    requires c.expiration == now + 300
    ensures !c.IsValid(now)
  {
  }

  /** Validity only gets lost as time passes: valid now means valid at every
      earlier instant, invalid now means invalid at every later one. */
  lemma ValidityAntitone(c: SessionCredentials, earlier: Timestamp, later: Timestamp)
    requires earlier <= later
    ensures c.IsValid(later) ==> c.IsValid(earlier)
    ensures !c.IsValid(earlier) ==> !c.IsValid(later)
  {
  }

  /** Validity looks at the expiration only, never at the key, secret or token. */
  lemma ValidityIgnoresSecrets(c: SessionCredentials, d: SessionCredentials, now: Timestamp)
    requires c.expiration == d.expiration
    ensures c.IsValid(now) == d.IsValid(now)
  {
  }

  datatype VirtualMfaDevice = VirtualMfaDevice(serialNumber: string)

  datatype AwsCredentials = AwsCredentials(
    accessKeyId: string,
    secretAccessKey: string,
    sessionToken: string,
    expiration: Timestamp)

  datatype MfaDevice = MfaDevice(userName: string, serialNumber: string, enableDate: Timestamp)

  /** The JSON answer of an `aws` command: each field independently present or not. */
  datatype AwsCliOutput = AwsCliOutput(
    virtualMfaDevice: Option<VirtualMfaDevice>,
    credentials: Option<AwsCredentials>,
    mfaDevices: Option<seq<MfaDevice>>)

  /** The fields of `sts get-caller-identity`'s answer the back-end reads, each
      absent when missing or not a JSON string (`value["Arn"].as_str()`). */
  datatype CallerIdentity = CallerIdentity(arn: Option<string>, account: Option<string>)

  /** `serde_json` as the back-end uses it: decoders for the CLI's answers and
      the text form under which session credentials are cached. */
  datatype Serde = Serde(
    output: string -> Decoded<AwsCliOutput>,
    identity: string -> Decoded<CallerIdentity>,
    readCredentials: string -> Decoded<SessionCredentials>,
    writeCredentials: SessionCredentials -> string)
  {
    /** Reading back written credentials gives them back. */
    ghost predicate RoundTrips() {
      forall c :: readCredentials(writeCredentials(c)) == Decoded(c)
    }
  }
}
