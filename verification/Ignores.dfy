/** The ignore list of the spec: entries of the form namespace/name, and whole namespaces. */
module Ignores {
  type IgnoreList = seq<map<string, seq<string>>>

  /** The pieces of s between separators; never empty. */
  function Split(s: string, sep: char): (parts: seq<string>)
    ensures |parts| > 0
  {
    if s == "" then [""]
    else if s[0] == sep then [""] + Split(s[1..], sep)
    else
      var rest := Split(s[1..], sep);
      [[s[0]] + rest[0]] + rest[1..]
  }

  function Join(parts: seq<string>, sep: char): string
    requires |parts| > 0
  {
    if |parts| == 1 then parts[0] else parts[0] + [sep] + Join(parts[1..], sep)
  }

  lemma {:induction false} JoinSplit(s: string, sep: char)
    ensures Join(Split(s, sep), sep) == s
  {
    if s != "" {
      var rest := Split(s[1..], sep);
      JoinSplit(s[1..], sep);
      if s[0] == sep {
        assert Split(s, sep)[1..] == rest;
        assert s == [s[0]] + s[1..];
      } else {
        assert Split(s, sep)[1..] == rest[1..];
        assert s == [s[0]] + s[1..];
        if |rest| > 1 {
          assert ([s[0]] + rest[0]) + [sep] + Join(rest[1..], sep) == [s[0]] + (rest[0] + [sep] + Join(rest[1..], sep));
        }
      }
    }
  }

  lemma {:induction false} SplitPlain(s: string, sep: char)
    requires sep !in s
    ensures Split(s, sep) == [s]
  {
    if s != "" {
      SplitPlain(s[1..], sep);
      assert s == [s[0]] + s[1..];
    }
  }

  lemma {:induction false} SplitAfter(a: string, sep: char, b: string)
    requires sep !in a
    ensures Split(a + [sep] + b, sep) == [a] + Split(b, sep)
  {
    var s := a + [sep] + b;
    if a == "" {
      assert s[1..] == b;
    } else {
      SplitAfter(a[1..], sep, b);
      assert s[1..] == a[1..] + [sep] + b;
      assert a == [a[0]] + a[1..];
      assert ([a[1..]] + Split(b, sep))[1..] == Split(b, sep);
    }
  }

  /** The entry, split at slashes, starts with this namespace and this name. */
  predicate Names(entry: string, namespace: string, name: string) {
    var parts := Split(entry, '/');
    |parts| >= 2 && parts[0] == namespace && parts[1] == name
  }

  /** An entry names a resource exactly when it is namespace/name, or that followed by a slash and anything. */
  lemma NamesExactly(entry: string, namespace: string, name: string)
    requires '/' !in namespace && '/' !in name
    ensures Names(entry, namespace, name) <==>
      || entry == namespace + "/" + name
      || exists rest :: entry == namespace + "/" + (name + "/" + rest)
  {
    var parts := Split(entry, '/');
    JoinSplit(entry, '/');
    if Names(entry, namespace, name) {
      assert parts == [namespace] + parts[1..];
      if |parts| == 2 {
        assert Join(parts[1..], '/') == name;
      } else {
        var rest := Join(parts[2..], '/');
        assert parts[1..][1..] == parts[2..];
        assert Join(parts[1..], '/') == name + "/" + rest;
        assert entry == namespace + "/" + (name + "/" + rest);
      }
    }
    if entry == namespace + "/" + name {
      SplitAfter(namespace, '/', name);
      SplitPlain(name, '/');
    }
    if rest :| entry == namespace + "/" + (name + "/" + rest) {
      SplitAfter(namespace, '/', name + "/" + rest);
      SplitAfter(name, '/', rest);
    }
  }

  /** The entry is namespace/name, or that followed by a slash and anything. */
  ghost predicate Denotes(entry: string, namespace: string, name: string) {
    entry == namespace + "/" + name || exists rest :: entry == namespace + "/" + (name + "/" + rest)
  }

  /** The map has an entry for the resource, or lists its namespace. */
  ghost predicate Covers(m: map<string, seq<string>>, kind: string, namespaceKind: string, namespace: string, name: string) {
    || (kind in m && exists j :: 0 <= j < |m[kind]| && Denotes(m[kind][j], namespace, name))
    || (namespaceKind in m && namespace in m[namespaceKind])
  }

  lemma CoversExactly(m: map<string, seq<string>>, kind: string, namespaceKind: string, namespace: string, name: string)
    requires '/' !in namespace && '/' !in name
    ensures MapIgnores(m, kind, namespaceKind, namespace, name) <==> Covers(m, kind, namespaceKind, namespace, name)
  {
    if kind in m {
      forall j | 0 <= j < |m[kind]|
        ensures Names(m[kind][j], namespace, name) <==> Denotes(m[kind][j], namespace, name)
      {
        NamesExactly(m[kind][j], namespace, name);
      }
    }
  }

  /** Exactly what the ignore list ignores. */
  lemma IgnoredExactly(list: IgnoreList, kind: string, namespaceKind: string, namespace: string, name: string)
    requires '/' !in namespace && '/' !in name
    ensures IsIgnored(list, kind, namespaceKind, namespace, name) <==>
            exists m :: m in list && Covers(m, kind, namespaceKind, namespace, name)
  {
    forall m
      ensures MapIgnores(m, kind, namespaceKind, namespace, name) <==> Covers(m, kind, namespaceKind, namespace, name)
    {
      CoversExactly(m, kind, namespaceKind, namespace, name);
    }
  }

  predicate IsIgnored(list: IgnoreList, kind: string, namespaceKind: string, namespace: string, name: string) {
    exists i :: 0 <= i < |list| && MapIgnores(list[i], kind, namespaceKind, namespace, name)
  }

  predicate MapIgnores(m: map<string, seq<string>>, kind: string, namespaceKind: string, namespace: string, name: string) {
    || (kind in m && exists j :: 0 <= j < |m[kind]| && Names(m[kind][j], namespace, name))
    || (namespaceKind in m && namespace in m[namespaceKind])
  }

  /** The operator reads the second part of every entry for the namespace it looks at. */
  ghost predicate EntriesHaveNames(list: IgnoreList, kind: string, namespace: string) {
    forall m, entry :: m in list && kind in m && entry in m[kind] && Split(entry, '/')[0] == namespace ==>
      |Split(entry, '/')| >= 2
  }

  /** The scan that IgnoredPod runs with pod and podnamespace, and IgnoredPolicy with policy and policynamespace. */
  method IgnoredResource(list: IgnoreList, kind: string, namespaceKind: string, namespace: string, name: string)
    returns (r: bool)
    requires kind != namespaceKind && EntriesHaveNames(list, kind, namespace)
    ensures r <==> IsIgnored(list, kind, namespaceKind, namespace, name)
  {
    for i := 0 to |list|
      invariant forall k :: 0 <= k < i ==> !MapIgnores(list[k], kind, namespaceKind, namespace, name)
    {
      var m := list[i];
      assert m in list;
      var todo := m.Keys;
      while todo != {}
        invariant todo <= m.Keys
        invariant kind in m && kind !in todo ==> forall j :: 0 <= j < |m[kind]| ==> !Names(m[kind][j], namespace, name)
        invariant namespaceKind in m && namespaceKind !in todo ==> namespace !in m[namespaceKind]
        decreases todo
      {
        var key :| key in todo;
        todo := todo - {key};
        if key == kind {
          for j := 0 to |m[key]|
            invariant forall k :: 0 <= k < j ==> !Names(m[kind][k], namespace, name)
          {
            assert m[key][j] in m[kind];
            var parts := Split(m[key][j], '/');
            if namespace == parts[0] && name == parts[1] {
              assert Names(m[kind][j], namespace, name);
              return true;
            }
          }
        } else if key == namespaceKind {
          for j := 0 to |m[key]|
            invariant namespace !in m[key][..j]
          {
            if namespace == m[key][j] {
              return true;
            }
          }
          assert m[key][..|m[key]|] == m[key];
        }
      }
    }
    return false;
  }
}
