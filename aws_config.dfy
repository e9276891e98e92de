/** `AwsConfig`: the profiles defined in `~/.aws/config` and
    `~/.aws/credentials`, and the user name behind a profile. */
module AwsConfig {
  import opened Errors
  import opened Text
  import Ini
  import opened Models
  import opened Platform
  import AwsCli

  datatype AwsProfile = AwsProfile(name: string, region: Option<string>, output: Option<string>)

  /** The two profile files as they are found on disk. */
  datatype AwsFiles = AwsFiles(config: Ini.IniFile, credentials: Ini.IniFile)

  const ConfigMissing := "AWS config not found. Run 'aws configure' first."
  const NoProfiles := "No AWS profiles found. Run 'aws configure' first."

  /** Profile name of a config-file section: `default` stays, `profile X`
      becomes `X`, any other name is kept. */
  function ProfileName(section: string): (n: string)
    ensures "profile " <= section ==> n == section[8..]
    ensures !("profile " <= section) ==> n == section
  {
    if section == "default" then "default"
    else if "profile " <= section then section[|"profile "|..]
    else section
  }

  function Lookup(props: Ini.Properties, key: string): Option<string> {
    if key in props then Some(props[key]) else None
  }

  /** The profile a config section describes, if it is named. */
  function ConfigEntry(s: Ini.Section): seq<AwsProfile> {
    match s.name
    case None => []
    case Some(n) => [AwsProfile(ProfileName(n), Lookup(s.props, "region"), Lookup(s.props, "output"))]
  }

  /** One profile per named config section, in file order. */
  function ConfigProfiles(doc: Ini.Document): seq<AwsProfile> {
    if doc == [] then [] else ConfigEntry(doc[0]) + ConfigProfiles(doc[1..])
  }

  predicate HasProfile(profiles: seq<AwsProfile>, name: string) {
    exists i | 0 <= i < |profiles| :: profiles[i].name == name
  }

  /** Credentials sections, in file order, each added as a name-only profile
      unless a profile of that name is already listed. */
  function AddCredentialProfiles(profiles: seq<AwsProfile>, creds: Ini.Document): seq<AwsProfile> {
    if creds == [] then profiles
    else
      var acc := AddCredentialProfiles(profiles, creds[..|creds| - 1]);
      var s := creds[|creds| - 1];
      if s.name.Some? && !HasProfile(acc, s.name.value) then acc + [AwsProfile(s.name.value, None, None)]
      else acc
  }

  /** What `list_profiles` returns for the files as found. */
  function Profiles(files: AwsFiles): Result<seq<AwsProfile>> {
    match files.config
    case Absent => Err(Custom(ConfigMissing))
    case Unreadable(e) => Err(Custom("Failed to read config: " + e))
    case Present(doc) =>
      var fromConfig := ConfigProfiles(doc);
      var all := match files.credentials
                 case Present(creds) => AddCredentialProfiles(fromConfig, creds)
                 case _ => fromConfig;
      if all == [] then Err(Custom(NoProfiles)) else Ok(all)
  }

  lemma {:induction false} ConfigProfilesAppend(a: Ini.Document, b: Ini.Document)
    ensures ConfigProfiles(a + b) == ConfigProfiles(a) + ConfigProfiles(b)
  {
    if a == [] {
      assert a + b == b;
    } else {
      assert (a + b)[1..] == a[1..] + b;
      ConfigProfilesAppend(a[1..], b);
    }
  }

  /** `list_profiles`: one profile per named config section, then the
      credentials sections not listed yet. */
  method ListProfiles(files: AwsFiles) returns (r: Result<seq<AwsProfile>>)
    ensures r == Profiles(files)
  {
    var doc: Ini.Document;
    match files.config {
      case Absent => return Err(Custom(ConfigMissing));
      case Unreadable(e) => return Err(Custom("Failed to read config: " + e));
      case Present(d) => doc := d;
    }
    var profiles: seq<AwsProfile> := [];
    for i := 0 to |doc|
      invariant profiles == ConfigProfiles(doc[..i])
    {
      ConfigProfilesAppend(doc[..i], [doc[i]]);
      assert doc[..i + 1] == doc[..i] + [doc[i]];
      var section := doc[i];
      if section.name.Some? {
        profiles := profiles + [AwsProfile(ProfileName(section.name.value),
                                           Lookup(section.props, "region"), Lookup(section.props, "output"))];
      }
    }
    assert doc[..|doc|] == doc;
    ghost var fromConfig := profiles;
    if files.credentials.Present? {
      var creds := files.credentials.doc;
      for i := 0 to |creds|
        invariant profiles == AddCredentialProfiles(fromConfig, creds[..i])
      {
        assert creds[..i + 1][..i] == creds[..i];
        var section := creds[i];
        if section.name.Some? {
          var listed := false;
          for j := 0 to |profiles|
            invariant listed <==> HasProfile(profiles[..j], section.name.value)
          {
            assert profiles[..j + 1][..j] == profiles[..j];
            if profiles[j].name == section.name.value { listed := true; }
          }
          assert profiles[..|profiles|] == profiles;
          if !listed {
            profiles := profiles + [AwsProfile(section.name.value, None, None)];
          }
        }
      }
      assert creds[..|creds|] == creds;
    }
    if profiles == [] {
      return Err(Custom(NoProfiles));
    }
    r := Ok(profiles);
  }

  /** `list_profiles` fails when the config file is missing or unreadable;
      with a config file it fails exactly when neither file names a single
      section, and then with `NoProfiles`. */
  lemma ProfilesFailure(files: AwsFiles)
    ensures files.config.Absent? ==> Profiles(files) == Err(Custom(ConfigMissing))
    ensures files.config.Unreadable? ==> Profiles(files) == Err(Custom("Failed to read config: " + files.config.reason))
    ensures files.config.Present? ==>
      (Profiles(files).Err? <==> ConfigProfiles(files.config.doc) == []
                                 && (files.credentials.Present? ==> Ini.Names(files.credentials.doc) == []))
    ensures files.config.Present? && Profiles(files).Err? ==> Profiles(files) == Err(Custom(NoProfiles))
  {
    if files.config.Present? && files.credentials.Present? {
      var fromConfig := ConfigProfiles(files.config.doc);
      var creds := files.credentials.doc;
      var all := AddCredentialProfiles(fromConfig, creds);
      CredentialsAppended(fromConfig, creds);
      if Ini.Names(creds) != [] {
        CredentialsComplete(fromConfig, creds, Ini.Names(creds)[0]);
      } else {
        NoCredentialSections(fromConfig, creds);
      }
    }
  }

  /** A named config section yields one profile named after it, with its
      `region` and `output` copied verbatim when present. */
  lemma ConfigSectionProfile(name: string, props: Ini.Properties)
    ensures ConfigProfiles([Ini.Section(Some(name), props)])
         == [AwsProfile(ProfileName(name), Lookup(props, "region"), Lookup(props, "output"))]
    ensures "default" == ProfileName("default")
  {
    assert [Ini.Section(Some(name), props)][1..] == [];
  }

  /** Credentials profiles only ever follow the config profiles, carry no
      region or output, and each is named after a credentials section. */
  lemma {:induction false} CredentialsAppended(profiles: seq<AwsProfile>, creds: Ini.Document)
    ensures var r := AddCredentialProfiles(profiles, creds);
      && |profiles| <= |r| && r[..|profiles|] == profiles
      && forall i | |profiles| <= i < |r| :: r[i].region.None? && r[i].output.None? && r[i].name in Ini.Names(creds)
  {
    if creds != [] {
      var init := creds[..|creds| - 1];
      CredentialsAppended(profiles, init);
      NamesAppend(init, [creds[|creds| - 1]]);
      assert init + [creds[|creds| - 1]] == creds;
    }
  }

  /** No name is added twice, and none that is already listed. */
  lemma {:induction false} CredentialsNotDuplicated(profiles: seq<AwsProfile>, creds: Ini.Document)
    ensures var r := AddCredentialProfiles(profiles, creds);
      && (forall i, k | |profiles| <= i < |r| && 0 <= k < i :: r[i].name != r[k].name)
  {
    if creds != [] {
      var init := creds[..|creds| - 1];
      CredentialsNotDuplicated(profiles, init);
      var acc := AddCredentialProfiles(profiles, init);
      CredentialsAppended(profiles, init);
      var s := creds[|creds| - 1];
      if s.name.Some? && !HasProfile(acc, s.name.value) {
        var r := acc + [AwsProfile(s.name.value, None, None)];
        forall i, k | |profiles| <= i < |r| && 0 <= k < i ensures r[i].name != r[k].name {
          if i == |acc| {
            assert r[k] == acc[k];
          } else {
            assert r[i] == acc[i] && r[k] == acc[k];
          }
        }
      }
    }
  }

  /** A credentials file without named sections adds nothing. */
  lemma {:induction false} NoCredentialSections(profiles: seq<AwsProfile>, creds: Ini.Document)
    requires Ini.Names(creds) == []
    ensures AddCredentialProfiles(profiles, creds) == profiles
  {
    if creds != [] {
      var init := creds[..|creds| - 1];
      var s := creds[|creds| - 1];
      assert init + [s] == creds;
      NamesAppend(init, [s]);
      assert [s][1..] == [];
      NoCredentialSections(profiles, init);
    }
  }

  /** `y` occurs in `names` at a later position than `x`. */
  predicate OccursBefore(names: seq<string>, x: string, y: string) {
    exists a, b | 0 <= a < b < |names| :: names[a] == x && names[b] == y
  }

  /** The appended credentials profiles are in the order of the credentials
      file's sections. */
  lemma {:induction false} CredentialsInFileOrder(profiles: seq<AwsProfile>, creds: Ini.Document)
    ensures var r := AddCredentialProfiles(profiles, creds);
      forall i, j | |profiles| <= i < j < |r| :: OccursBefore(Ini.Names(creds), r[i].name, r[j].name)
  {
    if creds != [] {
      var init := creds[..|creds| - 1];
      var s := creds[|creds| - 1];
      assert init + [s] == creds;
      CredentialsInFileOrder(profiles, init);
      CredentialsAppended(profiles, init);
      NamesAppend(init, [s]);
      var acc := AddCredentialProfiles(profiles, init);
      var r := AddCredentialProfiles(profiles, creds);
      var n := Ini.Names(init);
      var m := Ini.Names(creds);
      forall i, j | |profiles| <= i < j < |r| ensures OccursBefore(m, r[i].name, r[j].name) {
        if j < |acc| {
          assert r[..|acc|] == acc by {
            if r != acc { assert r == acc + [AwsProfile(s.name.value, None, None)]; }
          }
          assert r[i] == acc[i] && r[j] == acc[j];
          var a, b :| 0 <= a < b < |n| && n[a] == acc[i].name && n[b] == acc[j].name;
          assert m[a] == n[a] && m[b] == n[b];
        } else {
          assert r == acc + [AwsProfile(s.name.value, None, None)];
          assert r[i] == acc[i];
          var a :| 0 <= a < |n| && n[a] == acc[i].name;
          assert [s][1..] == [];
          assert Ini.Names([s]) == [s.name.value];
          assert m[a] == n[a] && m[|n|] == s.name.value;
        }
      }
    }
  }

  /** Every named credentials section ends up listed. */
  lemma {:induction false} CredentialsComplete(profiles: seq<AwsProfile>, creds: Ini.Document, name: string)
    requires name in Ini.Names(creds)
    ensures HasProfile(AddCredentialProfiles(profiles, creds), name)
  {
    var init := creds[..|creds| - 1];
    var s := creds[|creds| - 1];
    NamesAppend(init, [s]);
    assert init + [s] == creds;
    var acc := AddCredentialProfiles(profiles, init);
    CredentialsAppended(profiles, init);
    if name in Ini.Names(init) {
      CredentialsComplete(profiles, init, name);
      var i :| 0 <= i < |acc| && acc[i].name == name;
      var r := AddCredentialProfiles(profiles, creds);
      assert r[..|acc|] == acc by {
        if r != acc { assert r == acc + [AwsProfile(s.name.value, None, None)]; }
      }
      assert r[i] == acc[i];
    } else {
      assert Ini.Names([s]) == (if s.name.Some? then [s.name.value] else []) + Ini.Names([]);
      assert s.name == Some(name);
      if !HasProfile(acc, name) {
        var r := AddCredentialProfiles(profiles, creds);
        assert r[|acc|].name == name;
      }
    }
  }

  lemma {:induction false} NamesAppend(a: Ini.Document, b: Ini.Document)
    ensures Ini.Names(a + b) == Ini.Names(a) + Ini.Names(b)
  {
    if a == [] {
      assert a + b == b;
    } else {
      assert (a + b)[1..] == a[1..] + b;
      NamesAppend(a[1..], b);
    }
  }

  /** A missing or unreadable credentials file is ignored: the result is the
      same as with a credentials file that has no sections. */
  lemma CredentialsFileIgnored(config: Ini.IniFile, reason: string)
    ensures Profiles(AwsFiles(config, Ini.Absent)) == Profiles(AwsFiles(config, Ini.Unreadable(reason)))
    ensures Profiles(AwsFiles(config, Ini.Absent)) == Profiles(AwsFiles(config, Ini.Present([])))
  {
  }

  /** The first profile called `name`, if any. */
  function Find(profiles: seq<AwsProfile>, name: string): (r: Option<AwsProfile>)
    ensures r.Some? <==> HasProfile(profiles, name)
    ensures r.Some? ==> exists i | 0 <= i < |profiles| :: profiles[i] == r.value && r.value.name == name
                          && forall k | 0 <= k < i :: profiles[k].name != name
  {
    if profiles == [] then None
    else if profiles[0].name == name then Some(profiles[0])
    else Find(profiles[1..], name)
  }

  /** `get_profile`: the first listed profile called `name`, or
      `ProfileNotFound(name)`; a failure to list is passed on. */
  function GetProfile(files: AwsFiles, name: string): (r: Result<AwsProfile>)
    ensures Profiles(files).Err? ==> r == Err(Profiles(files).error)
    ensures Profiles(files).Ok? ==>
      (r.Ok? <==> HasProfile(Profiles(files).value, name))
      && (r.Err? ==> r == Err(ProfileNotFound(name)))
      && (r.Ok? ==> r.value.name == name && r == Ok(Find(Profiles(files).value, name).value))
  {
    var profiles :- Profiles(files);
    match Find(profiles, name)
    case Some(p) => Ok(p)
    case None => Err(ProfileNotFound(name))
  }

  /** `profile_exists`: `get_profile` succeeds. */
  predicate ProfileExists(files: AwsFiles, name: string) {
    GetProfile(files, name).Ok?
  }

  /** A profile exists exactly when the files can be listed and one of the
      listed profiles carries that name. */
  lemma ProfileExistsIffListed(files: AwsFiles, name: string)
    ensures ProfileExists(files, name) <==> Profiles(files).Ok? && HasProfile(Profiles(files).value, name)
  {
  }

  /** `get_username`: the part of the caller's ARN after its last `/` (the
      whole ARN when it has none), or an error when the answer has no ARN. */
  function GetUsername(host: Host, json: Serde, profile: string): (r: Result<string>)
    ensures var id := AwsCli.GetCallerIdentity(host, json, Some(profile));
      && (id.Err? ==> r == Err(id.error))
      && (id.Ok? && id.value.arn.None? ==> r == Err(Custom("No Arn in identity response")))
      && (r.Ok? <==> id.Ok? && id.value.arn.Some?)
      && (r.Ok? ==> IsLastSegment(id.value.arn.value, r.value))
      && (r.Ok? && '/' !in id.value.arn.value ==> r.value == id.value.arn.value)
      && r != Err(Custom("Cannot extract username from ARN"))
  {
    var identity :- AwsCli.GetCallerIdentity(host, json, Some(profile));
    match identity.arn
    case None => Err(Custom("No Arn in identity response"))
    case Some(arn) =>
      SegmentShorterIffSlash(arn);
      Ok(LastSegment(arn))
  }
}
