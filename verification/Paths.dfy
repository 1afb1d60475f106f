/** Storage paths as text, and why the engine may treat them as (role, kind) pairs. */
module Paths {
  import opened Engine

  function Suffix(kind: Kind): string {
    match kind case KeyRecord => "/key" case UsageRecord => "/usage" case PkRecord => "/pk"
  }

  function Rendered(uuid: string, path: Path): string {
    uuid + "/role/" + path.role + Suffix(path.kind)
  }

  function ConfigPath(uuid: string): string {
    uuid + "/config"
  }

  /** The texts under which a role's records are kept, beside the configuration. */
  lemma PathsAsWritten(uuid: string, name: string)
    ensures Rendered(uuid, RolePath(name, KeyRecord)) == uuid + "/role/" + name + "/key"
    ensures Rendered(uuid, RolePath(name, UsageRecord)) == uuid + "/role/" + name + "/usage"
    ensures Rendered(uuid, RolePath(name, PkRecord)) == uuid + "/role/" + name + "/pk"
    ensures ConfigPath(uuid) == uuid + "/config"
  {}

  lemma LastChar(uuid: string, path: Path)
    ensures var s := Rendered(uuid, path);
            |s| > 0 && s[|s| - 1] == (match path.kind case KeyRecord => 'y' case UsageRecord => 'e' case PkRecord => 'k')
  {
    var s := Rendered(uuid, path);
    assert s[|s| - 1] == Suffix(path.kind)[|Suffix(path.kind)| - 1];
  }

  /** Different records have different paths, whatever the role names, slashes and all; and none of them is the path of
      the configuration. */
  lemma PathsAreInjective(uuid: string, a: Path, b: Path)
    ensures Rendered(uuid, a) == Rendered(uuid, b) <==> a == b
    ensures Rendered(uuid, a) != ConfigPath(uuid)
  {
    var s, t := Rendered(uuid, a), Rendered(uuid, b);
    assert s[|uuid| + 1] == 'r' && ConfigPath(uuid)[|uuid| + 1] == 'c';
    if s == t {
      LastChar(uuid, a);
      LastChar(uuid, b);
      var n := |uuid + "/role/"|;
      assert s[n..n + |a.role|] == a.role && t[n..n + |b.role|] == b.role;
    }
  }

  /** A storage keyed by text holds exactly the records of `store`, beside a configuration. */
  ghost predicate Represents(uuid: string, physical: map<string, Entry>, store: Store) {
    forall path :: (Rendered(uuid, path) in physical <==> path in store)
      && (path in store ==> physical[Rendered(uuid, path)] == store[path])
  }

  /** So a write or a deletion at one path is a write or a deletion of that one record. */
  lemma WritesAreLocal(uuid: string, physical: map<string, Entry>, store: Store, path: Path, e: Entry)
    requires Represents(uuid, physical, store)
    ensures Represents(uuid, physical[Rendered(uuid, path) := e], store[path := e])
    ensures Represents(uuid, physical - {Rendered(uuid, path)}, store - {path})
  {
    forall other ensures Rendered(uuid, other) == Rendered(uuid, path) <==> other == path {
      PathsAreInjective(uuid, other, path);
    }
    hide Rendered;
  }
}
