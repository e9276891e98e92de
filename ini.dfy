/** The INI documents behind `~/.aws/config`, `~/.aws/credentials` and
    `~/.aws/sessions`, as the `rust-ini` crate presents them: sections in file
    order, each with an optional name (the unnamed one holds keys written
    before any header) and a key/value map. Text syntax, comments, key order and
    escaping are not modelled. */
module Ini {
  import opened Errors

  type Properties = map<string, string>

  datatype Section = Section(name: Option<string>, props: Properties)

  type Document = seq<Section>

  /** What loading a file from disk gives: it is missing, it cannot be read or
      parsed (with the reader's error text), or it is a document. */
  datatype IniFile = Absent | Unreadable(reason: string) | Present(doc: Document)

  /** `ini.section(Some(name))`: the properties of the first section with that name. */
  function Get(doc: Document, name: string): (r: Option<Properties>)
    ensures r.Some? <==> name in Names(doc)
  {
    if doc == [] then None
    else if doc[0].name == Some(name) then Some(doc[0].props)
    else Get(doc[1..], name)
  }

  /** Names of the named sections, in file order (`iter().filter_map(...)`). */
  function Names(doc: Document): seq<string> {
    if doc == [] then []
    else (if doc[0].name.Some? then [doc[0].name.value] else []) + Names(doc[1..])
  }

  /** `ini.set_to(Some(name), key, value)` and `with_section(Some(name)).set(key,
      value)`: overwrite `key` in the first section called `name`, or append a
      new section holding only that key. */
  function SetTo(doc: Document, name: string, key: string, value: string): Document {
    if doc == [] then [Section(Some(name), map[key := value])]
    else if doc[0].name == Some(name) then [Section(Some(name), doc[0].props[key := value])] + doc[1..]
    else [doc[0]] + SetTo(doc[1..], name, key, value)
  }

  /** `ini.delete(Some(name))`: drop every section called `name`. */
  function Delete(doc: Document, name: string): Document {
    if doc == [] then []
    else (if doc[0].name == Some(name) then [] else [doc[0]]) + Delete(doc[1..], name)
  }

  /** Properties of section `name`, or none at all when there is no such section. */
  function PropsOrEmpty(doc: Document, name: string): Properties {
    match Get(doc, name)
    case Some(p) => p
    case None => map[]
  }

  /** After a set, the section holds the new value under `key` and its other
      keys unchanged (or only `key`, if the section was created). */
  lemma {:induction false} GetAfterSetTo(doc: Document, name: string, key: string, value: string)
    ensures Get(SetTo(doc, name, key, value), name) == Some(PropsOrEmpty(doc, name)[key := value])
  {
    if doc != [] && doc[0].name != Some(name) {
      GetAfterSetTo(doc[1..], name, key, value);
    }
  }

  /** A set touches no other section. */
  lemma {:induction false} SetToOtherSection(doc: Document, name: string, key: string, value: string, other: string)
    requires other != name
    ensures Get(SetTo(doc, name, key, value), other) == Get(doc, other)
  {
    if doc != [] && doc[0].name != Some(name) {
      SetToOtherSection(doc[1..], name, key, value, other);
    }
  }

  /** A set keeps the order of the sections and appends the name when it is new. */
  lemma {:induction false} NamesAfterSetTo(doc: Document, name: string, key: string, value: string)
    ensures Names(SetTo(doc, name, key, value))
         == if name in Names(doc) then Names(doc) else Names(doc) + [name]
  {
    if doc == [] {
    } else if doc[0].name == Some(name) {
      assert Names(SetTo(doc, name, key, value)) == [name] + Names(doc[1..]);
    } else {
      NamesAfterSetTo(doc[1..], name, key, value);
      var head := if doc[0].name.Some? then [doc[0].name.value] else [];
      assert Names(SetTo(doc, name, key, value)) == head + Names(SetTo(doc[1..], name, key, value));
      assert Names(doc) == head + Names(doc[1..]);
      if name !in Names(doc[1..]) {
        assert name !in head;
        assert head + (Names(doc[1..]) + [name]) == (head + Names(doc[1..])) + [name];
      }
    }
  }

  /** After a delete the section is gone... */
  lemma {:induction false} GetAfterDelete(doc: Document, name: string)
    ensures Get(Delete(doc, name), name) == None
  {
    if doc != [] {
      GetAfterDelete(doc[1..], name);
      if doc[0].name != Some(name) {
        var d := Delete(doc, name);
        assert d == [doc[0]] + Delete(doc[1..], name);
        assert d[0] == doc[0] && d[1..] == Delete(doc[1..], name);
      } else {
        assert Delete(doc, name) == [] + Delete(doc[1..], name) == Delete(doc[1..], name);
      }
    }
  }

  /** ...and every other section reads as before. */
  lemma {:induction false} DeleteOtherSection(doc: Document, name: string, other: string)
    requires other != name
    ensures Get(Delete(doc, name), other) == Get(doc, other)
  {
    if doc != [] {
      DeleteOtherSection(doc[1..], name, other);
      if doc[0].name != Some(name) {
        var d := Delete(doc, name);
        assert d == [doc[0]] + Delete(doc[1..], name);
        assert d[0] == doc[0] && d[1..] == Delete(doc[1..], name);
      } else {
        assert Delete(doc, name) == [] + Delete(doc[1..], name) == Delete(doc[1..], name);
      }
    }
  }

  /** Deleting a section that is not there changes nothing. */
  lemma {:induction false} DeleteAbsent(doc: Document, name: string)
    requires name !in Names(doc)
    ensures Delete(doc, name) == doc
  {
    if doc != [] {
      var head := if doc[0].name.Some? then [doc[0].name.value] else [];
      assert Names(doc) == head + Names(doc[1..]);
      DeleteAbsent(doc[1..], name);
    }
  }
}
