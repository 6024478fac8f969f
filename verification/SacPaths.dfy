/** Path strings of the SAC file server, and the component lists they stand for
    (dividirRuta, Sac-Server/estructuras.c). */
module SacPaths {

  type Path = seq<string>

  function Stripped(path: string): string
    requires path != ""
  {
    if path[|path| - 1] == '/' then path[..|path| - 1] else path
  }

  /** strrchr(s, '/'): where the last slash is. */
  function LastSlash(s: string): (k: nat)
    requires '/' in s
    ensures k < |s| && s[k] == '/' && '/' !in s[k + 1..]
  {
    if s[|s| - 1] == '/' then |s| - 1
    else
      assert '/' in s[..|s| - 1] by { assert s == s[..|s| - 1] + [s[|s| - 1]]; }
      LastSlash(s[..|s| - 1])
  }

  /** Absolute paths other than the root. A relative path makes dividirRuta follow a null pointer. */
  predicate Splittable(path: string) {
    |path| >= 2 && path[0] == '/'
  }

  /** dividirRuta: the name after the last slash, a trailing slash ignored. */
  function NamePart(path: string): (name: string)
    requires Splittable(path)
    ensures '/' !in name
  {
    var s := Stripped(path);
    assert s[0] == '/';
    s[LastSlash(s) + 1..]
  }

  /** dividirRuta: what comes before the name, its slash included. */
  function SuperPart(path: string): (super: string)
    requires Splittable(path)
    ensures 0 < |super| < |path| && super[0] == '/' && super[|super| - 1] == '/'
  {
    var s := Stripped(path);
    assert s[0] == '/';
    s[..LastSlash(s) + 1]
  }

  /** Super path and name make up the path, but for a trailing slash. */
  lemma PathSplits(path: string)
    requires Splittable(path)
    ensures SuperPart(path) + NamePart(path) + (if path[|path| - 1] == '/' then "/" else "") == path
  {
  }

  predicate Absolute(path: string) {
    path != "" && path[0] == '/'
  }

  /** The components dameNodoDe resolves one after the other. */
  function Components(path: string): Path
    requires Absolute(path)
    decreases |path|
  {
    if path == "/" then [] else Components(SuperPart(path)) + [NamePart(path)]
  }

  /** A name a directory entry may have. */
  predicate CleanName(name: string) {
    0 < |name| < 71 && '/' !in name
  }

  predicate CleanPath(c: Path) {
    forall name :: name in c ==> CleanName(name)
  }

  /** The path as the kernel writes it: each component after a slash. */
  function Joined(c: Path): string {
    if c == [] then "" else Joined(c[..|c| - 1]) + "/" + c[|c| - 1]
  }

  function Printed(c: Path): string {
    if c == [] then "/" else Joined(c)
  }

  lemma {:induction false} LastSlashIs(s: string, i: nat)
    requires i < |s| && s[i] == '/' && '/' !in s[i + 1..]
    ensures LastSlash(s) == i
    decreases |s|
  {
    if i < |s| - 1 {
      assert s[|s| - 1] == s[i + 1..][|s| - 2 - i];
      assert s[..|s| - 1][i + 1..] == s[i + 1..|s| - 1] <= s[i + 1..];
      LastSlashIs(s[..|s| - 1], i);
    }
  }

  lemma SlashAt(a: string, name: string)
    requires '/' !in name
    ensures '/' in a + "/" + name && LastSlash(a + "/" + name) == |a|
  {
    assert (a + "/" + name)[|a| + 1..] == name;
    LastSlashIs(a + "/" + name, |a|);
  }

  lemma SplitJoined(a: string, name: string, path: string)
    requires CleanName(name) && (a == "" || a[0] == '/')
    requires path == a + "/" + name || path == a + "/" + name + "/"
    ensures Splittable(path) && NamePart(path) == name && SuperPart(path) == a + "/"
  {
    var s := a + "/" + name;
    assert s[|s| - 1] == name[|name| - 1];
    assert Stripped(path) == s;
    SlashAt(a, name);
    assert s[|a| + 1..] == name && s[..|a| + 1] == a + "/";
  }

  lemma JoinedStart(c: Path)
    ensures c == [] <==> Joined(c) == ""
    ensures c != [] ==> Joined(c)[0] == '/'
  {
  }

  lemma ComponentsJoined(a: string, name: string, path: string)
    requires CleanName(name) && (a == "" || a[0] == '/')
    requires path == a + "/" + name || path == a + "/" + name + "/"
    ensures Absolute(path) && Absolute(a + "/") && Components(path) == Components(a + "/") + [name]
  {
    SplitJoined(a, name, path);
  }

  lemma RootComponents()
    ensures Absolute(Joined([]) + "/") && Components(Joined([]) + "/") == []
  {
    assert Joined([]) + "/" == "/";
  }

  lemma {:induction false} ComponentsOfJoined(c: Path)
    requires CleanPath(c)
    ensures Absolute(Joined(c) + "/") && Components(Joined(c) + "/") == c
    ensures c != [] ==> Absolute(Joined(c)) && Components(Joined(c)) == c
  {
    if c == [] {
      RootComponents();
    } else {
      hide Components, CleanPath, CleanName;
      var init, name := c[..|c| - 1], c[|c| - 1];
      assert c == init + [name];
      CleanInit(c);
      JoinedStart(init);
      ComponentsOfJoined(init);
      JoinedStep(c, Joined(init), name, init);
    }
  }

  lemma CleanInit(c: Path)
    requires c != [] && CleanPath(c)
    ensures CleanPath(c[..|c| - 1]) && CleanName(c[|c| - 1])
  {
  }

  lemma JoinedStep(c: Path, a: string, name: string, init: Path)
    requires CleanName(name) && (a == "" || a[0] == '/')
    requires Joined(c) == a + "/" + name && c == init + [name]
    requires Absolute(a + "/") && Components(a + "/") == init
    ensures Absolute(Joined(c)) && Absolute(Joined(c) + "/")
    ensures Components(Joined(c)) == c && Components(Joined(c) + "/") == c
  {
    hide Joined;
    ComponentsJoined(a, name, Joined(c));
    ComponentsJoined(a, name, Joined(c) + "/");
  }

  /** Printing a path and reading it back gives its components, with or without a trailing slash. */
  lemma ComponentsOfPrinted(c: Path)
    requires CleanPath(c)
    ensures Absolute(Printed(c)) && Components(Printed(c)) == c
    ensures c != [] ==> Components(Printed(c) + "/") == c
  {
    ComponentsOfJoined(c);
  }
}
