/**
 * The string and path helpers the core calls into (Java's String methods,
 * StringUtil, FileUtil, PathUtil and FlexUtils.removeOptions).  Strings are
 * sequences of characters and letters are folded in the ASCII range only.
 */
module Strings {
  import opened Wrappers

  function ToLowerChar(c: char): char
  {
    if 'A' <= c <= 'Z' then (c as int + 32) as char else c
  }

  /** String.toLowerCase, restricted to ASCII letters. */
  function ToLower(s: string): (r: string)
    ensures |r| == |s|
  {
    if s == [] then [] else [ToLowerChar(s[0])] + ToLower(s[1..])
  }

  predicate StartsWith(s: string, prefix: string)
  {
    |prefix| <= |s| && s[..|prefix|] == prefix
  }

  predicate EndsWith(s: string, suffix: string)
  {
    |suffix| <= |s| && s[|s| - |suffix|..] == suffix
  }

  /** The index of the last occurrence of c in s, if there is one. */
  function LastIndexOf(s: string, c: char): (r: Option<nat>)
    ensures r.Some? ==> r.value < |s| && s[r.value] == c
    ensures r.Some? ==> forall j :: r.value < j < |s| ==> s[j] != c
    ensures r.None? ==> c !in s
  {
    if s == [] then None
    else if s[|s| - 1] == c then Some(|s| - 1)
    else LastIndexOf(s[..|s| - 1], c)
  }

  /** The last c of a + [c] + b is the one after a when b holds none. */
  lemma LastIndexOfJoin(a: string, c: char, b: string)
    requires c !in b
    ensures LastIndexOf(a + [c] + b, c) == Some(|a|)
  {
    var s := a + [c] + b;
    assert s[|a|] == c;
    assert forall j :: |a| < j < |s| ==> s[j] == b[j - |a| - 1];
  }

  /** PathUtil.getFileName: the part of a path after its last '/'. */
  function FileName(path: string): string
  {
    match LastIndexOf(path, '/')
    case None => path
    case Some(k) => path[k + 1..]
  }

  /** PathUtil.getParentPath: the part of a path before its last '/', or "" when it has none. */
  function ParentPath(path: string): string
  {
    match LastIndexOf(path, '/')
    case None => ""
    case Some(k) => path[..k]
  }

  /** FileUtil.getNameWithoutExtension: a file name up to its last '.'. */
  function NameWithoutExtension(name: string): string
  {
    match LastIndexOf(name, '.')
    case None => name
    case Some(k) => name[..k]
  }

  /** VirtualFile.getExtension: the text after the last '.' of a file name, absent when there is no '.'. */
  function Extension(name: string): Option<string>
  {
    match LastIndexOf(name, '.')
    case None => None
    case Some(k) => Some(name[k + 1..])
  }

  /**
   * VfsUtilCore.getRelativePath(dir, root, '/'): the path of dir below root,
   * "" when they are the same, absent when root is not an ancestor of dir.
   */
  function RelativePath(dir: string, root: string): Option<string>
  {
    if dir == root then Some("")
    else if StartsWith(dir, root + "/") then Some(dir[|root| + 1..])
    else None
  }

  /** FileUtil.isAbsoluteFilePath: a Unix root, a UNC or backslash root, or a drive letter. */
  predicate IsAbsoluteFilePath(path: string)
  {
    (|path| > 0 && (path[0] == '/' || path[0] == '\\')) || (|path| >= 2 && path[1] == ':')
  }

  // ---------------------------------------------------------------------
  // Command-line options: a string of space-separated tokens.
  // ---------------------------------------------------------------------

  /** The longest prefix of s that contains no space. */
  function Word(s: string): (w: string)
    ensures |w| <= |s| && w == s[..|w|]
    ensures ' ' !in w
    ensures |w| < |s| ==> s[|w|] == ' '
    ensures s != [] && s[0] != ' ' ==> |w| >= 1
  {
    if s == [] || s[0] == ' ' then [] else [s[0]] + Word(s[1..])
  }

  /** The tokens of an option string: its maximal runs of non-space characters, in order. */
  function Tokens(s: string): (ts: seq<string>)
    ensures forall t :: t in ts ==> t != [] && ' ' !in t
    decreases |s|
  {
    if s == [] then []
    else if s[0] == ' ' then Tokens(s[1..])
    else
      var w := Word(s);
      [w] + Tokens(s[|w|..])
  }

  /** Tokens written back with one space between neighbours. */
  function Join(ts: seq<string>): string
  {
    if |ts| == 0 then ""
    else if |ts| == 1 then ts[0]
    else ts[0] + " " + Join(ts[1..])
  }

  predicate IsToken(t: string)
  {
    t != [] && ' ' !in t
  }

  lemma {:induction false} WordOfToken(a: string, rest: string)
    requires ' ' !in a
    requires rest == [] || rest[0] == ' '
    ensures Word(a + rest) == a
  {
    if a != [] {
      assert (a + rest)[1..] == a[1..] + rest;
      WordOfToken(a[1..], rest);
    }
  }

  /** Tokens(a + " " + rest) splits off a when a is one token. */
  lemma TokensCons(a: string, rest: string)
    requires IsToken(a)
    ensures Tokens(a + " " + rest) == [a] + Tokens(rest)
  {
    var s := a + " " + rest;
    assert s == a + (" " + rest);
    WordOfToken(a, " " + rest);
    assert s[|a|..] == " " + rest;
    assert (" " + rest)[1..] == rest;
  }

  /** Splitting joined tokens gives the tokens back. */
  lemma {:induction false} TokensOfJoin(ts: seq<string>)
    requires forall t :: t in ts ==> IsToken(t)
    ensures Tokens(Join(ts)) == ts
  {
    if |ts| == 1 {
      var t := ts[0];
      assert t in ts;
      WordOfToken(t, []);
      assert t + [] == t;
      assert t[0] != ' ';
      assert t[|t|..] == [];
    } else if |ts| > 1 {
      TokensCons(ts[0], Join(ts[1..]));
      TokensOfJoin(ts[1..]);
      assert ts == [ts[0]] + ts[1..];
    }
  }

  lemma {:induction false} JoinSnoc(ts: seq<string>, t: string)
    requires |ts| > 0
    ensures Join(ts + [t]) == Join(ts) + " " + t
  {
    if |ts| > 1 {
      assert (ts + [t])[1..] == ts[1..] + [t];
      JoinSnoc(ts[1..], t);
    }
  }

  /** Appending " " and one more token to joined tokens adds exactly that token. */
  lemma TokensOfJoinThen(ts: seq<string>, t: string)
    requires forall u :: u in ts ==> IsToken(u)
    requires IsToken(t)
    ensures Tokens(Join(ts) + " " + t) == ts + [t]
  {
    if |ts| == 0 {
      assert Join(ts) + " " + t == " " + t;
      assert (" " + t)[1..] == t;
      TokensOfJoin([t]);
    } else {
      JoinSnoc(ts, t);
      TokensOfJoin(ts + [t]);
    }
  }

  /** The characters of s before its first '=' or '+'. */
  function NamePart(s: string): (r: string)
    ensures |r| <= |s| && r == s[..|r|]
  {
    if s == [] || s[0] == '=' || s[0] == '+' then [] else [s[0]] + NamePart(s[1..])
  }

  lemma {:induction false} NamePartOfName(name: string, rest: string)
    requires '=' !in name && '+' !in name
    requires rest != [] && rest[0] == '='
    ensures NamePart(name + rest) == name
  {
    if name != [] {
      assert (name + rest)[1..] == name[1..] + rest;
      NamePartOfName(name[1..], rest);
    }
  }

  /** The option a token sets ("-debug=true", "+compiler.debug" name "debug" and "compiler.debug"); absent for a value token. */
  function OptionName(t: string): Option<string>
  {
    if |t| > 0 && (t[0] == '-' || t[0] == '+') then Some(NamePart(t[1..])) else None
  }

  predicate SetsOneOf(t: string, names: set<string>)
  {
    OptionName(t).Some? && OptionName(t).value in names
  }

  /** The tokens that set none of the named options, in their original order. */
  function KeepOthers(ts: seq<string>, names: set<string>): (r: seq<string>)
    ensures forall t :: t in r ==> t in ts && !SetsOneOf(t, names)
    ensures forall t :: t in ts && !SetsOneOf(t, names) ==> t in r
  {
    if ts == [] then []
    else if SetsOneOf(ts[0], names) then KeepOthers(ts[1..], names)
    else [ts[0]] + KeepOthers(ts[1..], names)
  }

  /** FlexUtils.removeOptions: the option string without the tokens that set one of the named options. */
  function RemoveOptions(options: string, names: set<string>): (r: string)
    ensures forall t :: t in Tokens(r) ==> t in Tokens(options) && !SetsOneOf(t, names)
    ensures forall t :: t in Tokens(options) && !SetsOneOf(t, names) ==> t in Tokens(r)
  {
    var kept := KeepOthers(Tokens(options), names);
    TokensOfJoin(kept);
    Join(kept)
  }
}
