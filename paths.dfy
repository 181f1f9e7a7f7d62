/**
 * The string computations of the autoloader: slash normalisation of the
 * routes directory and of each scanned name, the `.ts` suffix strip, the
 * HTTP method taken from a parenthesised group, the route string and the
 * module reference handed to the module loader.
 */
module Paths {
  import opened Wrappers

  /** The characters that `.` in a JavaScript regular expression does not match. */
  predicate IsLineTerminator(c: char) {
    c == '\n' || c == '\r' || c == '\U{2028}' || c == '\U{2029}'
  }

  function Slash(c: char): char {
    if c == '\\' then '/' else c
  }

  /** `s.replaceAll('\\', '/')`. */
  function ReplaceBackslashes(s: string): (r: string)
    ensures |r| == |s|
    ensures forall i :: 0 <= i < |s| ==> r[i] == Slash(s[i])
    ensures '\\' !in r
  {
    if s == [] then [] else [Slash(s[0])] + ReplaceBackslashes(s[1..])
  }

  /**
   * Whether the unescaped pattern `/.ts$/` matches `s`: any character other
   * than a line terminator, then "ts", at the very end of the string.
   */
  predicate HasTsSuffix(s: string) {
    |s| >= 3 && !IsLineTerminator(s[|s| - 3]) && s[|s| - 2] == 't' && s[|s| - 1] == 's'
  }

  /** `s.replace(/.ts$/, '')`: the only place the pattern can match is the last three characters. */
  function StripTsSuffix(s: string): (r: string)
    ensures r <= s
    ensures |r| == if HasTsSuffix(s) then |s| - 3 else |s|
  {
    if HasTsSuffix(s) then s[..|s| - 3] else s
  }

  /** A scanned name as the loop sees it: suffix stripped, then backslashes turned into slashes. */
  function NormalizeFile(name: string): (r: string)
    ensures '\\' !in r
    ensures |r| == if HasTsSuffix(name) then |name| - 3 else |name|
    ensures forall i :: 0 <= i < |r| ==> r[i] == Slash(name[i])
  {
    ReplaceBackslashes(StripTsSuffix(name))
  }

  /** Replacing backslashes in a prefix gives the prefix of the replaced string. */
  lemma ReplaceBackslashesPrefix(s: string, k: nat)
    requires k <= |s|
    ensures ReplaceBackslashes(s[..k]) == ReplaceBackslashes(s)[..k]
  {
    var l, r := ReplaceBackslashes(s[..k]), ReplaceBackslashes(s)[..k];
    forall i | 0 <= i < k ensures l[i] == r[i] {
      assert s[..k][i] == s[i];
    }
  }

  /** The two rewrites of a scanned name commute: stripping first or replacing first gives the same name. */
  lemma NormalizeFileCommutes(name: string)
    ensures NormalizeFile(name) == StripTsSuffix(ReplaceBackslashes(name))
  {
    var replaced := ReplaceBackslashes(name);
    var n := |name|;
    if n >= 3 {
      assert replaced[n - 3] == Slash(name[n - 3]);
      assert replaced[n - 2] == Slash(name[n - 2]);
      assert replaced[n - 1] == Slash(name[n - 1]);
    }
    assert HasTsSuffix(name) == HasTsSuffix(replaced);
    if HasTsSuffix(name) {
      ReplaceBackslashesPrefix(name, n - 3);
    }
  }

  /** A character the lazy `(.*?)` may step over on its way to the closing `)`. */
  predicate Plain(c: char) {
    c != ')' && !IsLineTerminator(c)
  }

  /** `s[k]` is a `)` that the lazy scan starting at `j` reaches: only plain characters lie in between. */
  ghost predicate ClosesAt(s: string, j: int, k: int) {
    0 <= j <= k < |s| && s[k] == ')' && forall m :: j <= m < k ==> Plain(s[m])
  }

  /** `/\/?\((.*?)\)/` can match with its `(` at index `a` and its `)` at index `b`. */
  ghost predicate Group(s: string, a: int, b: int) {
    0 <= a < |s| && s[a] == '(' && ClosesAt(s, a + 1, b)
  }

  /** The lazy scan for `)` from index `j`; it gives up at a line terminator or at the end. */
  function CloseFrom(s: string, j: nat): (r: Option<nat>)
    decreases |s| - j
    ensures r.Some? ==> ClosesAt(s, j, r.value)
    ensures r.None? ==> forall k :: !ClosesAt(s, j, k)
  {
    if j >= |s| then None
    else if s[j] == ')' then Some(j)
    else if IsLineTerminator(s[j]) then None
    else
      var r := CloseFrom(s, j + 1);
      assert forall k :: ClosesAt(s, j, k) ==> ClosesAt(s, j + 1, k);
      r
  }

  /** The leftmost match of the group pattern at or after index `i`, as the indices of its `(` and `)`. */
  function GroupFrom(s: string, i: nat): (r: Option<(nat, nat)>)
    decreases |s| - i
    ensures r.Some? ==> i <= r.value.0 && Group(s, r.value.0, r.value.1)
    ensures r.Some? ==> forall a, b :: i <= a < r.value.0 ==> !Group(s, a, b)
    ensures r.None? ==> forall a, b :: i <= a ==> !Group(s, a, b)
  {
    if i >= |s| then None
    else
      var close := CloseFrom(s, i + 1);
      if s[i] == '(' && close.Some? then Some((i, close.value))
      else GroupFrom(s, i + 1)
  }

  /** The HTTP method of a route file: the first group's text if there is one, otherwise the default. */
  function MethodOf(file: string, defaultMethod: string): string
  {
    match GroupFrom(file, 0)
    case Some((a, b)) => file[a + 1..b]
    case None => defaultMethod
  }

  lemma ClosesAtUnique(s: string, j: int, k: int, k': int)
    requires ClosesAt(s, j, k) && ClosesAt(s, j, k')
    ensures k == k'
  {
  }

  /** With no group anywhere in the name, the default method is used. */
  lemma MethodOfDefault(file: string, defaultMethod: string)
    requires forall a, b :: !Group(file, a, b)
    ensures MethodOf(file, defaultMethod) == defaultMethod
  {
  }

  /** With a leftmost group from `a` to `b`, the method is exactly the (possibly empty) text between them. */
  lemma MethodOfGroup(file: string, defaultMethod: string, a: nat, b: nat)
    requires Group(file, a, b)
    requires forall a', b' :: 0 <= a' < a ==> !Group(file, a', b')
    ensures MethodOf(file, defaultMethod) == file[a + 1..b]
  {
    var g := GroupFrom(file, 0);
    assert g.Some?;
    var (a', b') := g.value;
    assert a' == a;
    ClosesAtUnique(file, a + 1, b, b');
  }

  /**
   * For a name without line terminators: the method is the text between the
   * first `(` and the first `)` after it.
   */
  lemma MethodOfFirstParen(file: string, defaultMethod: string, a: nat, b: nat)
    requires forall k :: 0 <= k < |file| ==> !IsLineTerminator(file[k])
    requires a < b < |file| && file[a] == '(' && file[b] == ')'
    requires '(' !in file[..a] && ')' !in file[a + 1..b]
    ensures MethodOf(file, defaultMethod) == file[a + 1..b]
  {
    forall m | a + 1 <= m < b ensures Plain(file[m]) {
      assert file[a + 1..b][m - a - 1] == file[m];
    }
    assert Group(file, a, b);
    forall a', b' | 0 <= a' < a ensures !Group(file, a', b') {
      assert file[..a][a'] == file[a'];
    }
    MethodOfGroup(file, defaultMethod, a, b);
  }

  /** A name in which no `(` is followed, anywhere later, by a `)` gets the default method. */
  lemma MethodOfNoParens(file: string, defaultMethod: string)
    requires forall a, b :: 0 <= a < b < |file| && file[a] == '(' ==> file[b] != ')'
    ensures MethodOf(file, defaultMethod) == defaultMethod
  {
    MethodOfDefault(file, defaultMethod);
  }

  /** The route string: the prefix, a slash, then what the route transformer makes of the file. */
  function RouteOf(prefix: string, file: string, transform: string -> string): (route: string)
    ensures |route| == |prefix| + 1 + |transform(file)|
    ensures route[..|prefix|] == prefix && route[|prefix|] == '/'
    ensures route[|prefix| + 1..] == transform(file)
  {
    prefix + "/" + transform(file)
  }

  /** The path of a route module relative to the autoloader, as named in the diagnostics. */
  function ModulePath(entryDir: string, file: string): string
  {
    "../" + entryDir + "/" + file
  }

  /** What is handed to the module loader: the path itself for the dev server, the path plus `.ts` for `import`. */
  function ModuleRef(entryDir: string, file: string, devServer: bool): string
  {
    if devServer then ModulePath(entryDir, file) else ModulePath(entryDir, file) + ".ts"
  }

  /** Distinct files of one routes directory are loaded through distinct module references. */
  lemma ModuleRefInjective(entryDir: string, file: string, file': string, devServer: bool)
    requires ModuleRef(entryDir, file, devServer) == ModuleRef(entryDir, file', devServer)
    ensures file == file'
  {
    var head := "../" + entryDir + "/";
    var p, p' := ModulePath(entryDir, file), ModulePath(entryDir, file');
    if !devServer {
      assert p == (p + ".ts")[..|p + ".ts"| - 3];
      assert p' == (p' + ".ts")[..|p' + ".ts"| - 3];
    }
    assert p == p';
    assert file == p[|head|..];
    assert file' == p'[|head|..];
  }
}
