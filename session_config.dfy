/** `SessionConfigManager`: the per-profile tunnel settings kept in
    `~/.aws/sessions`, and how a session's settings are resolved from the
    command line, that file and the built-in defaults. */
module SessionConfigManager {
  import opened Errors
  import opened Text
  import Ini
  import AwsConfig

  const SessionConfigFile := "sessions"
  const DefaultLocalPort: uint16 := 13389
  const DefaultRemotePort: uint16 := 3389
  const DefaultDocument := "AWS-StartPortForwardingSession"

  const TargetKey := "target"
  const LocalPortKey := "local_port"
  const RemotePortKey := "remote_port"
  const DocumentKey := "document_name"

  datatype SessionConfig = SessionConfig(target: string, localPort: uint16, remotePort: uint16, documentName: string)

  /** `SessionConfig::default()`: no target, the RDP forwarding ports and document. */
  const DefaultConfig := SessionConfig("", DefaultLocalPort, DefaultRemotePort, DefaultDocument)

  const NoTargetSpecified := "No target specified. Add to " + SessionConfigFile + " or use --target"

  function NoTargetDefined(profile: string): string {
    "No target defined for profile '" + profile + "'"
  }

  /** `section.get(key).and_then(|s| s.parse().ok()).unwrap_or(default)`. */
  function PortOr(props: Ini.Properties, key: string, default: uint16): (p: uint16)
    ensures key !in props ==> p == default
    ensures key in props && ParseU16(props[key]).Some? ==> p == ParseU16(props[key]).value
    ensures key in props && ParseU16(props[key]).None? ==> p == default
  {
    if key in props then
      match ParseU16(props[key])
      case Some(v) => v
      case None => default
    else default
  }

  /** The settings a profile's section describes: its target must be there
      and not blank; unreadable or missing ports and a missing document fall
      back to the defaults, and a present document is kept as written, even
      when empty. */
  function ConfigFromSection(profile: string, props: Ini.Properties): (r: Result<SessionConfig>)
    ensures r.Err? <==> TargetKey !in props || AllWhitespace(props[TargetKey])
    ensures r.Err? ==> r == Err(Custom(NoTargetDefined(profile)))
    ensures r.Ok? ==> r.value.target == props[TargetKey]
                      && r.value.localPort == PortOr(props, LocalPortKey, DefaultLocalPort)
                      && r.value.remotePort == PortOr(props, RemotePortKey, DefaultRemotePort)
                      && (DocumentKey in props ==> r.value.documentName == props[DocumentKey])
                      && (DocumentKey !in props ==> r.value.documentName == DefaultDocument)
  {
    if TargetKey !in props then Err(Custom(NoTargetDefined(profile)))
    else
      TrimEmptyIffBlank(props[TargetKey]);
      if Trim(props[TargetKey]) == [] then Err(Custom(NoTargetDefined(profile)))
      else
        Ok(SessionConfig(
             props[TargetKey],
             PortOr(props, LocalPortKey, DefaultLocalPort),
             PortOr(props, RemotePortKey, DefaultRemotePort),
             if DocumentKey in props then props[DocumentKey] else DefaultDocument))
  }

  /** `load_config`: nothing when the file or the profile's section is
      missing, an error when the file cannot be read or the section has no
      usable target, and the section's settings otherwise. */
  function LoadConfig(file: Ini.IniFile, profile: string): (r: Result<Option<SessionConfig>>)
    ensures file.Absent? ==> r == Ok(None)
    ensures file.Unreadable? ==> r == Err(Custom("Failed to read sessions: " + file.reason))
    ensures file.Present? ==> match Ini.Get(file.doc, profile)
                              case None => r == Ok(None)
                              case Some(props) =>
                                match ConfigFromSection(profile, props)
                                case Ok(c) => r == Ok(Some(c))
                                case Err(e) => r == Err(e)
  {
    match file
    case Absent => Ok(None)
    case Unreadable(e) => Err(Custom("Failed to read sessions: " + e))
    case Present(doc) =>
      match Ini.Get(doc, profile)
      case None => Ok(None)
      case Some(props) =>
        var c :- ConfigFromSection(profile, props);
        Ok(Some(c))
  }

  /** `list_configured_profiles`: the names of the file's sections, in file
      order, or none when there is no file. */
  function ListConfiguredProfiles(file: Ini.IniFile): (r: Result<seq<string>>)
    ensures file.Absent? ==> r == Ok([])
    ensures file.Unreadable? ==> r == Err(Custom("Failed to read configuration file: " + file.reason))
    ensures file.Present? ==> r.Ok? && forall n :: n in r.value <==> Ini.Get(file.doc, n).Some?
  {
    match file
    case Absent => Ok([])
    case Unreadable(e) => Err(Custom("Failed to read configuration file: " + e))
    case Present(doc) => Ok(Ini.Names(doc))
  }

  /** `explicit.or_else(|| persisted).unwrap_or(default)`. */
  function Pick<T>(explicit: Option<T>, persisted: Option<T>, default: T): T {
    match explicit
    case Some(v) => v
    case None =>
      match persisted
      case Some(v) => v
      case None => default
  }

  function MapOption<T, U>(o: Option<T>, f: T -> U): Option<U> {
    match o
    case Some(v) => Some(f(v))
    case None => None
  }

  /** `resolve_config`: the session settings, each field taken from the
      command line if given, else from the sessions file, else the default.
      The file is loaded first, and a failure to load it wins over
      everything, explicit target included. */
  function ResolveConfig(file: Ini.IniFile, profile: string, cliTarget: Option<string>,
                         cliLocalPort: Option<uint16>, cliRemotePort: Option<uint16>,
                         cliDocument: Option<string>): (r: Result<SessionConfig>)
    ensures var loaded := LoadConfig(file, profile);
      && (loaded.Err? ==> r == Err(loaded.error))
      && (loaded.Ok? ==> (r.Err? <==> cliTarget.None? && loaded.value.None?))
      && (loaded.Ok? && r.Err? ==> r == Err(Custom(NoTargetSpecified)))
      && (r.Ok? ==> var persisted := loaded.value;
          && (cliTarget.Some? ==> r.value.target == cliTarget.value)
          && (cliTarget.None? ==> persisted.Some? && r.value.target == persisted.value.target)
          && (cliLocalPort.Some? ==> r.value.localPort == cliLocalPort.value)
          && (cliLocalPort.None? && persisted.Some? ==> r.value.localPort == persisted.value.localPort)
          && (cliLocalPort.None? && persisted.None? ==> r.value.localPort == DefaultLocalPort)
          && (cliRemotePort.Some? ==> r.value.remotePort == cliRemotePort.value)
          && (cliRemotePort.None? && persisted.Some? ==> r.value.remotePort == persisted.value.remotePort)
          && (cliRemotePort.None? && persisted.None? ==> r.value.remotePort == DefaultRemotePort)
          && (cliDocument.Some? ==> r.value.documentName == cliDocument.value)
          && (cliDocument.None? && persisted.Some? ==> r.value.documentName == persisted.value.documentName)
          && (cliDocument.None? && persisted.None? ==> r.value.documentName == DefaultDocument))
  {
    var persisted :- LoadConfig(file, profile);
    var target :- match cliTarget
                  case Some(t) => Ok(t)
                  case None =>
                    match persisted
                    case Some(c) => Ok(c.target)
                    case None => Err(Custom(NoTargetSpecified));
    Ok(SessionConfig(
         target,
         Pick(cliLocalPort, MapOption(persisted, (c: SessionConfig) => c.localPort), DefaultLocalPort),
         Pick(cliRemotePort, MapOption(persisted, (c: SessionConfig) => c.remotePort), DefaultRemotePort),
         Pick(cliDocument, MapOption(persisted, (c: SessionConfig) => c.documentName), DefaultDocument)))
  }

  /** With no sessions file, every field comes from the command line or the
      defaults, and only a missing target fails. */
  lemma ResolveWithoutFile(profile: string, cliTarget: Option<string>, cliLocalPort: Option<uint16>,
                           cliRemotePort: Option<uint16>, cliDocument: Option<string>)
    ensures var r := ResolveConfig(Ini.Absent, profile, cliTarget, cliLocalPort, cliRemotePort, cliDocument);
      && (cliTarget.None? ==> r == Err(Custom(NoTargetSpecified)))
      && (cliTarget.Some? ==> r == Ok(SessionConfig(cliTarget.value, Pick(cliLocalPort, None, DefaultLocalPort),
                                                   Pick(cliRemotePort, None, DefaultRemotePort),
                                                   Pick(cliDocument, None, DefaultDocument))))
  {
  }

  /** Blank settings for a new section (`init_session_section`). */
  const BlankSection: Ini.Properties := map[TargetKey := "", LocalPortKey := "", RemotePortKey := "", DocumentKey := ""]

  /** `init_session_section`: `target`, `local_port`, `remote_port` and
      `document_name` of section `name` set to the empty string. */
  function InitSessionSection(doc: Ini.Document, name: string): Ini.Document {
    var d1 := Ini.SetTo(doc, name, TargetKey, "");
    var d2 := Ini.SetTo(d1, name, LocalPortKey, "");
    var d3 := Ini.SetTo(d2, name, RemotePortKey, "");
    Ini.SetTo(d3, name, DocumentKey, "")
  }

  /** The initialiser leaves the four keys empty in that section, keeps its
      other keys, touches no other section, and adds the name at the end when
      it is new. */
  lemma InitSessionSectionEffect(doc: Ini.Document, name: string)
    ensures Ini.Get(InitSessionSection(doc, name), name)
         == Some(Ini.PropsOrEmpty(doc, name)[TargetKey := ""][LocalPortKey := ""][RemotePortKey := ""][DocumentKey := ""])
    ensures forall other | other != name :: Ini.Get(InitSessionSection(doc, name), other) == Ini.Get(doc, other)
    ensures Ini.Names(InitSessionSection(doc, name))
         == if name in Ini.Names(doc) then Ini.Names(doc) else Ini.Names(doc) + [name]
  {
    var d1 := Ini.SetTo(doc, name, TargetKey, "");
    var d2 := Ini.SetTo(d1, name, LocalPortKey, "");
    var d3 := Ini.SetTo(d2, name, RemotePortKey, "");
    Ini.GetAfterSetTo(doc, name, TargetKey, "");
    Ini.GetAfterSetTo(d1, name, LocalPortKey, "");
    Ini.GetAfterSetTo(d2, name, RemotePortKey, "");
    Ini.GetAfterSetTo(d3, name, DocumentKey, "");
    forall other | other != name
      ensures Ini.Get(InitSessionSection(doc, name), other) == Ini.Get(doc, other)
    {
      Ini.SetToOtherSection(doc, name, TargetKey, "", other);
      Ini.SetToOtherSection(d1, name, LocalPortKey, "", other);
      Ini.SetToOtherSection(d2, name, RemotePortKey, "", other);
      Ini.SetToOtherSection(d3, name, DocumentKey, "", other);
    }
    Ini.NamesAfterSetTo(doc, name, TargetKey, "");
    Ini.NamesAfterSetTo(d1, name, LocalPortKey, "");
    Ini.NamesAfterSetTo(d2, name, RemotePortKey, "");
    Ini.NamesAfterSetTo(d3, name, DocumentKey, "");
  }

  /** The names in the order they first occur. */
  function Dedup(names: seq<string>): (r: seq<string>)
    ensures forall n :: n in r <==> n in names
    ensures forall i, j | 0 <= i < j < |r| :: r[i] != r[j]
  {
    if names == [] then []
    else
      var d := Dedup(names[..|names| - 1]);
      var n := names[|names| - 1];
      assert names == names[..|names| - 1] + [n];
      if n in d then d else d + [n]
  }

  /** The document `create_config_from_profiles` builds: a new document with
      every name initialised in turn. */
  function Initialised(names: seq<string>): Ini.Document {
    if names == [] then []
    else InitSessionSection(Initialised(names[..|names| - 1]), names[|names| - 1])
  }

  /** The built document holds one blank section per distinct profile name,
      in the order the names first occur, and nothing else. */
  lemma {:induction false} InitialisedShape(names: seq<string>)
    ensures Ini.Names(Initialised(names)) == Dedup(names)
    ensures forall i, j | 0 <= i < j < |Ini.Names(Initialised(names))| ::
              Ini.Names(Initialised(names))[i] != Ini.Names(Initialised(names))[j]
    ensures forall n :: Ini.Get(Initialised(names), n) == if n in names then Some(BlankSection) else None
  {
    if names != [] {
      var init := names[..|names| - 1];
      var last := names[|names| - 1];
      assert names == init + [last];
      InitialisedShape(init);
      InitSessionSectionEffect(Initialised(init), last);
      var p := Ini.PropsOrEmpty(Initialised(init), last);
      assert p == BlankSection || p == map[];
      assert p[TargetKey := ""][LocalPortKey := ""][RemotePortKey := ""][DocumentKey := ""] == BlankSection;
      assert last in Ini.Names(Initialised(init)) <==> last in init;
    }
  }

  /** Every section the initialiser writes has a blank target, so loading it
      fails. */
  lemma InitialisedTargetIsBlank(names: seq<string>, n: string)
    requires n in names
    ensures LoadConfig(Ini.Present(Initialised(names)), n) == Err(Custom(NoTargetDefined(n)))
  {
    InitialisedShape(names);
    assert AllWhitespace(BlankSection[TargetKey]);
  }

  /** Hence right after `init_aws_configs` a profile cannot be resolved, not
      even with a target given on the command line. */
  lemma InitialisedBreaksResolve(names: seq<string>, n: string, cliTarget: Option<string>,
                                 cliLocalPort: Option<uint16>, cliRemotePort: Option<uint16>,
                                 cliDocument: Option<string>)
    requires n in names
    ensures ResolveConfig(Ini.Present(Initialised(names)), n, cliTarget, cliLocalPort, cliRemotePort, cliDocument)
         == Err(Custom(NoTargetDefined(n)))
  {
    InitialisedTargetIsBlank(names, n);
  }

  /** `set_to` when the value is given, no change otherwise. */
  function SetIf(doc: Ini.Document, name: string, key: string, value: Option<string>): Ini.Document {
    match value
    case Some(v) => Ini.SetTo(doc, name, key, v)
    case None => doc
  }

  /** The document `update_config` writes back. */
  function Updated(doc: Ini.Document, profile: string, target: Option<string>, localPort: Option<uint16>,
                   remotePort: Option<uint16>, documentName: Option<string>): Ini.Document {
    var d1 := SetIf(doc, profile, TargetKey, target);
    var d2 := SetIf(d1, profile, LocalPortKey, PortText(localPort));
    var d3 := SetIf(d2, profile, RemotePortKey, PortText(remotePort));
    SetIf(d3, profile, DocumentKey, documentName)
  }

  /** A port as `u16::to_string` writes it. */
  function PortText(port: Option<uint16>): Option<string> {
    match port
    case Some(p) => Some(DecimalString(p))
    case None => None
  }

  function Overlay(props: Ini.Properties, key: string, value: Option<string>): Ini.Properties {
    match value
    case Some(v) => props[key := v]
    case None => props
  }

  lemma SetIfEffect(doc: Ini.Document, name: string, key: string, value: Option<string>)
    ensures value.Some? ==> Ini.Get(SetIf(doc, name, key, value), name) == Some(Overlay(Ini.PropsOrEmpty(doc, name), key, value))
    ensures value.None? ==> SetIf(doc, name, key, value) == doc
    ensures forall other | other != name :: Ini.Get(SetIf(doc, name, key, value), other) == Ini.Get(doc, other)
  {
    if value.Some? {
      Ini.GetAfterSetTo(doc, name, key, value.value);
      forall other | other != name
        ensures Ini.Get(SetIf(doc, name, key, value), other) == Ini.Get(doc, other)
      {
        Ini.SetToOtherSection(doc, name, key, value.value, other);
      }
    }
  }

  /** `update_config` writes exactly the keys whose argument is given, ports
      as decimal text, into the profile's section (creating it if need be);
      other keys of that section and every other section stay as they were,
      and with nothing given the document is unchanged. */
  lemma UpdatedEffect(doc: Ini.Document, profile: string, target: Option<string>, localPort: Option<uint16>,
                      remotePort: Option<uint16>, documentName: Option<string>)
    ensures var u := Updated(doc, profile, target, localPort, remotePort, documentName);
      && (target.None? && localPort.None? && remotePort.None? && documentName.None? ==> u == doc)
      && (forall other | other != profile :: Ini.Get(u, other) == Ini.Get(doc, other))
      && (target.Some? || localPort.Some? || remotePort.Some? || documentName.Some? ==>
            Ini.Get(u, profile).Some?
            && var p := Ini.Get(u, profile).value;
            var q := Ini.PropsOrEmpty(doc, profile);
            && (target.Some? ==> TargetKey in p && p[TargetKey] == target.value)
            && (localPort.Some? ==> LocalPortKey in p && p[LocalPortKey] == DecimalString(localPort.value))
            && (remotePort.Some? ==> RemotePortKey in p && p[RemotePortKey] == DecimalString(remotePort.value))
            && (documentName.Some? ==> DocumentKey in p && p[DocumentKey] == documentName.value)
            && (forall k | k in q && !(k == TargetKey && target.Some?) && !(k == LocalPortKey && localPort.Some?)
                           && !(k == RemotePortKey && remotePort.Some?) && !(k == DocumentKey && documentName.Some?)
                  :: k in p && p[k] == q[k])
            && (forall k | k in p && k !in q ::
                  || (k == TargetKey && target.Some?) || (k == LocalPortKey && localPort.Some?)
                  || (k == RemotePortKey && remotePort.Some?) || (k == DocumentKey && documentName.Some?)))
  {
    var l := PortText(localPort);
    var rp := PortText(remotePort);
    var d1 := SetIf(doc, profile, TargetKey, target);
    var d2 := SetIf(d1, profile, LocalPortKey, l);
    var d3 := SetIf(d2, profile, RemotePortKey, rp);
    SetIfEffect(doc, profile, TargetKey, target);
    SetIfEffect(d1, profile, LocalPortKey, l);
    SetIfEffect(d2, profile, RemotePortKey, rp);
    SetIfEffect(d3, profile, DocumentKey, documentName);
    var q := Ini.PropsOrEmpty(doc, profile);
    var q1 := Overlay(q, TargetKey, target);
    var q2 := Overlay(q1, LocalPortKey, l);
    var q3 := Overlay(q2, RemotePortKey, rp);
    if target.Some? || localPort.Some? || remotePort.Some? || documentName.Some? {
      assert target.Some? ==> Ini.PropsOrEmpty(d1, profile) == q1;
      assert target.None? ==> d1 == doc && q1 == q;
      assert Ini.PropsOrEmpty(d1, profile) == q1 || Ini.Get(d1, profile).None?;
      assert Ini.PropsOrEmpty(d2, profile) == q2 || (Ini.Get(d2, profile).None? && q2 == map[]);
      assert Ini.PropsOrEmpty(d3, profile) == q3 || (Ini.Get(d3, profile).None? && q3 == map[]);
    }
  }

  /** What `update_config` wrote reads back through `load_config`, provided
      the profile ends up with a target that is not blank. */
  lemma UpdateThenLoad(doc: Ini.Document, profile: string, target: string, localPort: Option<uint16>,
                       remotePort: Option<uint16>, documentName: Option<string>)
    requires !AllWhitespace(target)
    ensures var r := LoadConfig(Ini.Present(Updated(doc, profile, Some(target), localPort, remotePort, documentName)), profile);
      && r.Ok? && r.value.Some?
      && r.value.value.target == target
      && (localPort.Some? ==> r.value.value.localPort == localPort.value)
      && (remotePort.Some? ==> r.value.value.remotePort == remotePort.value)
      && (documentName.Some? ==> r.value.value.documentName == documentName.value)
  {
    UpdatedEffect(doc, profile, Some(target), localPort, remotePort, documentName);
    if localPort.Some? { ParseDecimalRoundTrip(localPort.value); }
    if remotePort.Some? { ParseDecimalRoundTrip(remotePort.value); }
  }

  /** Removing a profile's settings leaves nothing to load for it and every
      other profile's settings as they were. */
  lemma RemoveThenLoad(doc: Ini.Document, profile: string, other: string)
    ensures LoadConfig(Ini.Present(Ini.Delete(doc, profile)), profile) == Ok(None)
    ensures other != profile ==> LoadConfig(Ini.Present(Ini.Delete(doc, profile)), other) == LoadConfig(Ini.Present(doc), other)
  {
    Ini.GetAfterDelete(doc, profile);
    if other != profile { Ini.DeleteOtherSection(doc, profile, other); }
  }

  /** The sessions file on disk. Writing it back is assumed to succeed. */
  class SessionsFile {
    var contents: Ini.IniFile

    constructor (contents: Ini.IniFile)
      ensures this.contents == contents
    {
      this.contents := contents;
    }

    /** `create_config_from_profiles`: refuses to touch an existing file;
        otherwise writes one blank section per profile. */
    method CreateConfigFromProfiles(profiles: seq<AwsConfig.AwsProfile>) returns (r: Result<()>)
      modifies this
      ensures old(contents).Absent? ==> r == Ok(()) && contents == Ini.Present(Initialised(NamesOf(profiles)))
      ensures !old(contents).Absent? ==> r == Err(Custom("Configuration file already exists")) && contents == old(contents)
    {
      if !contents.Absent? {
        return Err(Custom("Configuration file already exists"));
      }
      var doc: Ini.Document := [];
      for i := 0 to |profiles|
        invariant doc == Initialised(NamesOf(profiles[..i]))
      {
        assert NamesOf(profiles[..i + 1]) == NamesOf(profiles[..i]) + [profiles[i].name];
        assert (NamesOf(profiles[..i]) + [profiles[i].name])[..i] == NamesOf(profiles[..i]);
        doc := InitSessionSection(doc, profiles[i].name);
      }
      assert profiles[..|profiles|] == profiles;
      contents := Ini.Present(doc);
      r := Ok(());
    }

    /** `update_config`: loads the file (an empty document when there is
        none), sets the given keys in the profile's section and writes it
        back; an unreadable file is left alone. */
    method UpdateConfig(profile: string, target: Option<string>, localPort: Option<uint16>,
                        remotePort: Option<uint16>, documentName: Option<string>) returns (r: Result<()>)
      modifies this
      ensures old(contents).Unreadable? ==> r == Err(Custom("Failed to read sessions: " + old(contents).reason))
                                            && contents == old(contents)
      ensures !old(contents).Unreadable? ==>
        var doc := if old(contents).Present? then old(contents).doc else [];
        r == Ok(()) && contents == Ini.Present(Updated(doc, profile, target, localPort, remotePort, documentName))
    {
      var doc: Ini.Document;
      match contents {
        case Unreadable(e) => return Err(Custom("Failed to read sessions: " + e));
        case Absent => doc := [];
        case Present(d) => doc := d;
      }
      ghost var start := doc;
      if target.Some? {
        doc := Ini.SetTo(doc, profile, TargetKey, target.value);
      }
      if localPort.Some? {
        doc := Ini.SetTo(doc, profile, LocalPortKey, DecimalString(localPort.value));
      }
      if remotePort.Some? {
        doc := Ini.SetTo(doc, profile, RemotePortKey, DecimalString(remotePort.value));
      }
      if documentName.Some? {
        doc := Ini.SetTo(doc, profile, DocumentKey, documentName.value);
      }
      assert doc == Updated(start, profile, target, localPort, remotePort, documentName);
      contents := Ini.Present(doc);
      r := Ok(());
    }

    /** `remove_config`: drops the profile's section; no file, no change. */
    method RemoveConfig(profile: string) returns (r: Result<()>)
      modifies this
      ensures old(contents).Absent? ==> r == Ok(()) && contents == old(contents)
      ensures old(contents).Unreadable? ==> r == Err(Custom("Failed to read sessions: " + old(contents).reason))
                                            && contents == old(contents)
      ensures old(contents).Present? ==> r == Ok(()) && contents == Ini.Present(Ini.Delete(old(contents).doc, profile))
    {
      match contents {
        case Absent => return Ok(());
        case Unreadable(e) => return Err(Custom("Failed to read sessions: " + e));
        case Present(doc) =>
          contents := Ini.Present(Ini.Delete(doc, profile));
          r := Ok(());
      }
    }
  }

  function NamesOf(profiles: seq<AwsConfig.AwsProfile>): (r: seq<string>)
    ensures |r| == |profiles| && forall i | 0 <= i < |r| :: r[i] == profiles[i].name
  {
    seq(|profiles|, i requires 0 <= i < |profiles| => profiles[i].name)
  }

  /** After `create_config_from_profiles` on a new file, listing the
      configured profiles gives the profile names in order (each once). */
  lemma CreatedThenListed(profiles: seq<AwsConfig.AwsProfile>)
    ensures ListConfiguredProfiles(Ini.Present(Initialised(NamesOf(profiles)))) == Ok(Dedup(NamesOf(profiles)))
    ensures var listed := ListConfiguredProfiles(Ini.Present(Initialised(NamesOf(profiles)))).value;
      && (forall n :: n in listed <==> n in NamesOf(profiles))
      && (forall i, j | 0 <= i < j < |listed| :: listed[i] != listed[j])
  {
    InitialisedShape(NamesOf(profiles));
  }

  /** Profile names from `list_profiles` never repeat within the credentials
      part, but the config part may hold both `[profile a]` and `[a]`; with
      distinct names the listing is exactly the names given. */
  lemma {:induction false} DedupDistinct(names: seq<string>)
    requires forall i, j | 0 <= i < j < |names| :: names[i] != names[j]
    ensures Dedup(names) == names
  {
    if names != [] {
      var init := names[..|names| - 1];
      DedupDistinct(init);
      assert names[|names| - 1] !in init;
      assert names == init + [names[|names| - 1]];
    }
  }
}
