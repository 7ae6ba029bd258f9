/** The connection configuration: three optional fields, their rendering as a
    SQLite connection string, and loading them from the persisted
    configuration file. */
module Config {
  import opened Core

  /** The three persisted fields of a configuration, as a value. This is also
      what the generic persistence mechanism hands back when it loads a file. */
  datatype Settings = Settings(databasePath: NullableString, databaseVersion: NullableString, pwd: NullableString)

  /** The configuration files known to the persistence mechanism, by path.
      A path that is absent stands for a file that is missing or cannot be
      deserialised. */
  type Store = map<string, Settings>

  /** The generic `Read<T>` of the persistence mechanism: the object stored
      at `path`, or null. */
  function Load(store: Store, path: string): (r: Option<Settings>)
    ensures r.Some? <==> path in store
    ensures r.Some? ==> r.value == store[path]
  {
    if path in store then Some(store[path]) else None
  }

  /** The message of the exception `Read` throws when nothing could be loaded. */
  const LoadFailureMessage: string := "Could not load configuration file"

  const DataSourceKey: string := "Data Source"
  const VersionKey: string := "Version"
  const PasswordKey: string := "Password"

  /** One `Key=Value;` segment of the connection string, or nothing for a null or empty value. */
  function Segment(key: string, v: NullableString): (segment: string) {
    if IsNullOrEmpty(v) then "" else key + "=" + v.value + ";"
  }

  /** The number of characters a segment contributes. */
  function SegmentLength(key: string, v: NullableString): nat {
    if IsNullOrEmpty(v) then 0 else |key| + |v.value| + 2
  }

  /** The connection string: the present segments in the fixed order path, version, password. */
  function Render(c: Settings): (r: string)
    ensures r == [] <==> IsNullOrEmpty(c.databasePath) && IsNullOrEmpty(c.databaseVersion) && IsNullOrEmpty(c.pwd)
    ensures r != [] ==> r[|r| - 1] == ';'
    ensures |r| == SegmentLength(DataSourceKey, c.databasePath) + SegmentLength(VersionKey, c.databaseVersion)
                   + SegmentLength(PasswordKey, c.pwd)
    ensures StartsWith(r, DataSourceKey + "=") <==> !IsNullOrEmpty(c.databasePath)
  {
    var path, version, pwd := Segment(DataSourceKey, c.databasePath), Segment(VersionKey, c.databaseVersion), Segment(PasswordKey, c.pwd);
    var r := path + version + pwd;
    assert StartsWith(r, DataSourceKey + "=") <==> !IsNullOrEmpty(c.databasePath) by {
      if !IsNullOrEmpty(c.databasePath) {
        assert r == (DataSourceKey + "=") + (c.databasePath.value + ";" + version + pwd);
      } else if |r| >= |DataSourceKey + "="| {
        assert r == version + pwd && r[0] in "VP";
        assert r[..|DataSourceKey + "="|][0] == r[0];
      }
    }
    r
  }

  predicate StartsWith(s: string, prefix: string) {
    |prefix| <= |s| && s[..|prefix|] == prefix
  }

  // ---------------------------------------------------------------------
  // A reference reading of the connection string: a list of key/value
  // entries, written out and parsed back.

  type Entry = (string, string)

  /** The entries a configuration contributes, in the order they are written. */
  function Entries(c: Settings): seq<Entry> {
    (if IsNullOrEmpty(c.databasePath) then [] else [(DataSourceKey, c.databasePath.value)])
    + (if IsNullOrEmpty(c.databaseVersion) then [] else [(VersionKey, c.databaseVersion.value)])
    + (if IsNullOrEmpty(c.pwd) then [] else [(PasswordKey, c.pwd.value)])
  }

  /** Writes every entry as `key=value;`. */
  function Join(es: seq<Entry>): (s: string) {
    if es == [] then [] else es[0].0 + "=" + es[0].1 + ";" + Join(es[1..])
  }

  /** The position of the first `c` in `s`, or `|s|` when there is none. */
  function IndexOf(s: string, c: char): (i: nat)
    ensures i <= |s|
    ensures forall j :: 0 <= j < i ==> s[j] != c
    ensures i < |s| ==> s[i] == c
  {
    if s == [] then 0 else if s[0] == c then 0 else 1 + IndexOf(s[1..], c)
  }

  /** Splits a connection string into its entries: segments end at `;`,
      and a segment's key ends at its first `=`. None when a segment lacks
      either delimiter. */
  function Parse(s: string): (es: Option<seq<Entry>>)
    decreases |s|
  {
    if s == [] then Some([])
    else
      var i := IndexOf(s, ';');
      if i == |s| then None
      else
        var segment := s[..i];
        var j := IndexOf(segment, '=');
        if j == |segment| then None
        else
          match Parse(s[i + 1..])
          case None => None
          case Some(rest) => Some([(segment[..j], segment[j + 1..])] + rest)
  }

  /** The value of the first entry with the given key. */
  function Lookup(es: seq<Entry>, key: string): (v: Option<string>) {
    if es == [] then None else if es[0].0 == key then Some(es[0].1) else Lookup(es[1..], key)
  }

  /** Entries that parse back unambiguously: no delimiter in a key, no `;` in a value. */
  predicate Unambiguous(es: seq<Entry>) {
    forall k :: 0 <= k < |es| ==> ';' !in es[k].0 && '=' !in es[k].0 && ';' !in es[k].1
  }

  /** A configuration none of whose values contains `;`. */
  predicate Delimited(c: Settings) {
    (c.databasePath.Some? ==> ';' !in c.databasePath.value)
    && (c.databaseVersion.Some? ==> ';' !in c.databaseVersion.value)
    && (c.pwd.Some? ==> ';' !in c.pwd.value)
  }

  lemma {:induction false} JoinAppend(a: seq<Entry>, b: seq<Entry>)
    ensures Join(a + b) == Join(a) + Join(b)
  {
    if a == [] {
      assert a + b == b;
    } else {
      assert (a + b)[0] == a[0];
      assert (a + b)[1..] == a[1..] + b;
      JoinAppend(a[1..], b);
      var x := a[0].0 + "=" + a[0].1 + ";";
      calc {
        Join(a + b);
        x + Join(a[1..] + b);
        x + (Join(a[1..]) + Join(b));
        (x + Join(a[1..])) + Join(b);
        Join(a) + Join(b);
      }
    }
  }

  /** The first delimiter of a segment `k=v;` with delimiter-free `k` and `v` is where the segment says. */
  lemma IndexAfter(a: string, c: char, b: string)
    requires c !in a
    ensures IndexOf(a + [c] + b, c) == |a|
  {
    var s := a + [c] + b;
    assert s[|a|] == c;
  }

  /** Writing entries and parsing them back gives the entries. */
  lemma {:induction false} ParseJoin(es: seq<Entry>)
    requires Unambiguous(es)
    ensures Parse(Join(es)) == Some(es)
  {
    if es != [] {
      var (k, v) := es[0];
      var rest := Join(es[1..]);
      var a := k + "=" + v;
      assert ';' !in a by {
        assert forall x :: 0 <= x < |a| ==> a[x] == (if x < |k| then k[x] else if x == |k| then '=' else v[x - |k| - 1]);
      }
      var s := Join(es);
      assert s == a + [';'] + rest;
      IndexAfter(a, ';', rest);
      assert s[..|a|] == a;
      IndexAfter(k, '=', v);
      assert a == k + ['='] + v;
      assert a[..|k|] == k && a[|k| + 1..] == v;
      assert s[|a| + 1..] == rest;
      assert Unambiguous(es[1..]) by {
        forall x | 0 <= x < |es[1..]| ensures ';' !in es[1..][x].0 && '=' !in es[1..][x].0 && ';' !in es[1..][x].1 {
          assert es[1..][x] == es[x + 1];
        }
      }
      ParseJoin(es[1..]);
      assert es == [(k, v)] + es[1..];
    }
  }

  /** The connection string is the written form of the configuration's entries. */
  lemma RenderIsJoin(c: Settings)
    ensures Render(c) == Join(Entries(c))
  {
    var p := if IsNullOrEmpty(c.databasePath) then [] else [(DataSourceKey, c.databasePath.value)];
    var v := if IsNullOrEmpty(c.databaseVersion) then [] else [(VersionKey, c.databaseVersion.value)];
    var w := if IsNullOrEmpty(c.pwd) then [] else [(PasswordKey, c.pwd.value)];
    JoinAppend(p + v, w);
    JoinAppend(p, v);
    assert Join(p) == Segment(DataSourceKey, c.databasePath);
    assert Join(v) == Segment(VersionKey, c.databaseVersion);
    assert Join(w) == Segment(PasswordKey, c.pwd);
  }

  /** Parsing the connection string back yields exactly the present fields, in
      the order path, version, password, provided no value contains `;`. */
  lemma ParseRender(c: Settings)
    requires Delimited(c)
    ensures Parse(Render(c)) == Some(Entries(c))
  {
    RenderIsJoin(c);
    EntriesUnambiguous(c);
    ParseJoin(Entries(c));
  }

  lemma EntriesUnambiguous(c: Settings)
    requires Delimited(c)
    ensures Unambiguous(Entries(c))
  {
    var es := Entries(c);
    forall k | 0 <= k < |es| ensures ';' !in es[k].0 && '=' !in es[k].0 && ';' !in es[k].1 {
      assert es[k].0 in {DataSourceKey, VersionKey, PasswordKey};
    }
  }

  /** Each key appears in the connection string exactly when its field is
      non-empty, and then with that field's value. */
  lemma LookupRender(c: Settings)
    requires Delimited(c)
    ensures Parse(Render(c)).Some?
    ensures Lookup(Parse(Render(c)).value, DataSourceKey) == (if IsNullOrEmpty(c.databasePath) then None else c.databasePath)
    ensures Lookup(Parse(Render(c)).value, VersionKey) == (if IsNullOrEmpty(c.databaseVersion) then None else c.databaseVersion)
    ensures Lookup(Parse(Render(c)).value, PasswordKey) == (if IsNullOrEmpty(c.pwd) then None else c.pwd)
  {
    ParseRender(c);
    var p := if IsNullOrEmpty(c.databasePath) then [] else [(DataSourceKey, c.databasePath.value)];
    var v := if IsNullOrEmpty(c.databaseVersion) then [] else [(VersionKey, c.databaseVersion.value)];
    var w := if IsNullOrEmpty(c.pwd) then [] else [(PasswordKey, c.pwd.value)];
    assert Entries(c) == p + (v + w);
    LookupAppend(p, v + w, DataSourceKey);
    LookupAppend(v, w, DataSourceKey);
    LookupAppend(p + v, w, VersionKey);
    LookupAppend(p, v, VersionKey);
    assert Entries(c) == (p + v) + w;
    LookupAppend(p + v, w, PasswordKey);
    LookupAppend(p, v, PasswordKey);
  }

  lemma {:induction false} LookupAppend(a: seq<Entry>, b: seq<Entry>, key: string)
    ensures Lookup(a + b, key) == if Lookup(a, key).Some? then Lookup(a, key) else Lookup(b, key)
  {
    if a == [] {
      assert a + b == b;
    } else {
      assert (a + b)[0] == a[0];
      assert (a + b)[1..] == a[1..] + b;
      LookupAppend(a[1..], b, key);
    }
  }

  /** Without the `;` restriction two different configurations can render the same string. */
  lemma RenderNotInjective()
    ensures Render(Settings(Some("a;Version=3"), None, None)) == Render(Settings(Some("a"), Some("3"), None))
  {
    assert Render(Settings(Some("a;Version=3"), None, None)) == "Data Source=a;Version=3;";
  }

  /** The configuration object. Its path is the file the persistence
      mechanism reads and writes; the three fields are public properties. */
  class SqLiteConfiguration {
    const FilePath: string
    var DatabasePath: NullableString
    var DatabaseVersion: NullableString
    var Pwd: NullableString

    /** Both constructors of the source: the parameterless one passes the
        well-known path, the other the given one. No field is set. */
    constructor (path: string)
      ensures FilePath == path
      ensures DatabasePath == None && DatabaseVersion == None && Pwd == None
    {
      FilePath := path;
      DatabasePath, DatabaseVersion, Pwd := None, None, None;
    }

    function Values(): Settings
      reads this
    {
      Settings(DatabasePath, DatabaseVersion, Pwd)
    }

    /** The connection string; reads the fields and changes nothing. */
    function ToString(): (r: string)
      reads this
      ensures r == Join(Entries(Values()))
      ensures Delimited(Values()) ==> Parse(r) == Some(Entries(Values()))
    {
      RenderIsJoin(Values());
      if Delimited(Values()) then ParseRender(Values()); Render(Values()) else Render(Values())
    }

    /** Copies the three fields from the loaded object, or throws when nothing was loaded. */
    method Read(store: Store) returns (r: Outcome<()>)
      modifies this
      ensures Load(store, FilePath).None? ==>
        r == Threw(General(LoadFailureMessage)) && Values() == old(Values())
      ensures Load(store, FilePath).Some? ==>
        r == Returned(()) && Values() == Load(store, FilePath).value
    {
      var temp := Load(store, FilePath);
      if temp.None? {
        return Threw(General(LoadFailureMessage));
      }
      DatabasePath := temp.value.databasePath;
      DatabaseVersion := temp.value.databaseVersion;
      Pwd := temp.value.pwd;
      r := Returned(());
    }

    /** Persists the fields at this configuration's path. */
    method Write(store: Store) returns (store': Store)
      ensures store' == store[FilePath := Values()]
      ensures Load(store', FilePath) == Some(Values())
      ensures forall p :: p != FilePath ==> Load(store', p) == Load(store, p)
    {
      store' := store[FilePath := Values()];
    }
  }
}
