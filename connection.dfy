/** The connection registry: named connection profiles kept in one persisted list (the
    `_connection.json` file, here a store object), and a per-connection client cache. */
module Connections {
  import opened Wrappers
  import opened Seqs
  import ArangoClients

  /** A saved profile: the `__dict__` of a connection, as the file holds it. */
  datatype Profile = Profile(name: string, url: string, database: string,
                             username: Option<string>, password: Option<string>)

  datatype ConnectionError = AlreadyExists(name: string) | NotFound(name: string)

  /** The connections file: `None` while it does not exist. */
  class ConnectionFile {
    var contents: Option<seq<Profile>>

    constructor (contents: Option<seq<Profile>>)
      ensures this.contents == contents
    {
      this.contents := contents;
    }
  }

  predicate HasName(list: seq<Profile>, name: string) {
    exists i :: 0 <= i < |list| && list[i].name == name
  }

  predicate UniqueNames(list: seq<Profile>) {
    forall i, j :: 0 <= i < j < |list| ==> list[i].name != list[j].name
  }

  function OtherName(name: string): Profile -> bool {
    (p: Profile) => p.name != name
  }

  /** The list `remove` writes back. */
  function Without(list: seq<Profile>, name: string): seq<Profile> {
    Filter(list, OtherName(name))
  }

  /** The loop of `exist` over a list already read. */
  method ContainsName(list: seq<Profile>, name: string) returns (found: bool)
    ensures found <==> HasName(list, name)
  {
    for i := 0 to |list|
      invariant !HasName(list[..i], name)
    {
      if list[i].name == name {
        assert list[..i + 1][i] == list[i];
        return true;
      }
      assert forall k :: 0 <= k < i ==> list[..i + 1][k] == list[..i][k];
    }
    assert list[..|list|] == list;
    return false;
  }

  /** The loop of `get`: it never breaks, so the last profile with the name wins. */
  method FindLast(list: seq<Profile>, name: string) returns (r: Option<Profile>)
    ensures r.None? <==> !HasName(list, name)
    ensures r.Some? ==> exists i :: (0 <= i < |list| && list[i] == r.value && r.value.name == name
      && forall j :: i < j < |list| ==> list[j].name != name)
  {
    r := None;
    ghost var at := 0;
    for i := 0 to |list|
      invariant r.None? <==> !HasName(list[..i], name)
      invariant r.Some? ==> (0 <= at < i && list[at] == r.value && r.value.name == name
        && forall j :: at < j < i ==> list[j].name != name)
    {
      assert forall k :: 0 <= k < i ==> list[..i + 1][k] == list[..i][k];
      if list[i].name == name {
        r := Some(list[i]);
        at := i;
        assert list[..i + 1][i] == list[i];
      }
    }
    assert list[..|list|] == list;
  }

  /** After repeated saves and removes the names stay unique: saving needs a fresh name,
      and removing only drops profiles. */
  lemma SaveKeepsUnique(list: seq<Profile>, p: Profile)
    requires UniqueNames(list) && !HasName(list, p.name)
    ensures UniqueNames(list + [p])
  {
    assert forall i :: 0 <= i < |list| ==> (list + [p])[i] == list[i];
  }

  lemma {:induction false} RemoveKeepsUnique(list: seq<Profile>, name: string)
    requires UniqueNames(list)
    ensures UniqueNames(Without(list, name))
    decreases |list|
  {
    if list != [] {
      var rest := list[1..];
      assert UniqueNames(rest) by {
        assert forall i :: 0 <= i < |rest| ==> rest[i] == list[i + 1];
      }
      RemoveKeepsUnique(rest, name);
      var tail := Without(rest, name);
      assert (if OtherName(name)(list[0]) then [list[0]] else []) + tail == Without(list, name);
      forall i | 0 <= i < |tail|
        ensures tail[i].name != list[0].name
      {
        FilterMembership(rest, OtherName(name), tail[i]);
      }
    }
  }

  /** `remove` keeps exactly the profiles with another name, in order, and drops nothing
      when no profile has the name. */
  lemma RemoveSpec(list: seq<Profile>, name: string)
    ensures forall p :: p in Without(list, name) <==> p in list && p.name != name
    ensures !HasName(list, name) ==> Without(list, name) == list
  {
    forall p
      ensures p in Without(list, name) <==> p in list && p.name != name
    {
      FilterMembership(list, OtherName(name), p);
    }
    if !HasName(list, name) {
      FilterKeepsAll(list, OtherName(name));
    }
  }

  class Connection {
    const name: string
    const url: string
    const database: string
    const username: Option<string>
    const password: Option<string>
    var client: ArangoClients.ArangoClient?

    constructor (name: string, url: string, database: string, username: Option<string>, password: Option<string>)
      ensures this.name == name && this.url == url && this.database == database
      ensures this.username == username && this.password == password && client == null
    {
      this.name := name;
      this.url := url;
      this.database := database;
      this.username := username;
      this.password := password;
      client := null;
    }

    function AsProfile(): Profile
      reads this
    {
      Profile(name, url, database, username, password)
    }

    /** `__check_file`: a missing file is created holding the empty list. */
    static method CheckFile(file: ConnectionFile)
      modifies file
      ensures file.contents == Some(old(file.contents).GetOr([]))
    {
      if file.contents.None? {
        file.contents := Some([]);
      }
    }

    /** `get_list`. */
    static method GetList(file: ConnectionFile) returns (list: seq<Profile>)
      modifies file
      ensures list == old(file.contents).GetOr([]) && file.contents == Some(list)
    {
      CheckFile(file);
      list := file.contents.value;
    }

    /** `exist`. */
    static method Exist(file: ConnectionFile, name: string) returns (found: bool)
      modifies file
      ensures file.contents == Some(old(file.contents).GetOr([]))
      ensures found <==> HasName(old(file.contents).GetOr([]), name)
    {
      var list := GetList(file);
      found := ContainsName(list, name);
    }

    /** `save`: an existing name is refused and the list is left as it was; otherwise this
        profile is appended. */
    method Save(file: ConnectionFile) returns (r: Result<Connection, ConnectionError>)
      modifies file
      ensures HasName(old(file.contents).GetOr([]), name) ==>
        r == Err(AlreadyExists(name)) && file.contents == Some(old(file.contents).GetOr([]))
      ensures !HasName(old(file.contents).GetOr([]), name) ==>
        r == Ok(this) && file.contents == Some(old(file.contents).GetOr([]) + [AsProfile()])
    {
      var exists_ := Exist(file, name);
      if exists_ {
        return Err(AlreadyExists(name));
      }
      var connections := GetList(file);
      connections := connections + [AsProfile()];
      file.contents := Some(connections);
      r := Ok(this);
    }

    /** `remove`: writes back the profiles with another name. */
    method Remove(file: ConnectionFile)
      modifies file
      ensures file.contents == Some(Without(old(file.contents).GetOr([]), name))
    {
      var connections := GetList(file);
      file.contents := Some(Without(connections, name));
    }

    /** `get`: the last profile with the name, or "not found". */
    static method Get(file: ConnectionFile, name: string) returns (r: Result<Connection, ConnectionError>)
      modifies file
      ensures file.contents == Some(old(file.contents).GetOr([]))
      ensures r.Err? <==> !HasName(old(file.contents).GetOr([]), name)
      ensures r.Err? ==> r.error == NotFound(name)
      ensures r.Ok? ==> fresh(r.value) && r.value.client == null && exists i :: (0 <= i < |old(file.contents).GetOr([])|
        && old(file.contents).GetOr([])[i] == r.value.AsProfile() && r.value.name == name
        && forall j :: i < j < |old(file.contents).GetOr([])| ==> old(file.contents).GetOr([])[j].name != name)
    {
      var list := GetList(file);
      var found := FindLast(list, name);
      if found.None? {
        return Err(NotFound(name));
      }
      var p := found.value;
      var c := new Connection(p.name, p.url, p.database, p.username, p.password);
      r := Ok(c);
    }

    /** `get_client`: builds the client on first use, with authentication exactly when
        both username and password are set, and returns the same client afterwards. */
    method GetClient(server: ArangoClients.Database) returns (c: ArangoClients.ArangoClient)
      modifies this
      ensures client == c
      ensures old(client) != null ==> c == old(client)
      ensures old(client) == null ==> (fresh(c) && c.url == url && c.database == database
        && c.username == username && c.password == password && c.db == server
        && (c.needAuth <==> username.Some? && password.Some?))
    {
      if client == null {
        client := new ArangoClients.ArangoClient(url, database, username, password,
                                                 username.Some? && password.Some?, server);
      }
      c := client;
    }
  }
}
