/**
 * The string helpers of build_testcases/test_build.c. Each writes into a
 * caller's buffer of dst_size characters: snprintf copies at most
 * dst_size - 1 characters and a NUL, then a NUL stored at strrchr's hit cuts
 * the result. get_array_length counts the entries before a NULL.
 */
module TestBuildHelpers {
  import opened CLib

  /** PATH_MAX: the size of the buffers the tests pass. */
  const PathMax := 4096

  // ---------------------------------------------------------------------
  // What each helper leaves in dst, as a C string

  /** strip_extension: the copied text up to its last '.', or all of it. */
  function StripExtension(src: string, size: nat): (r: string)
    requires size > 0
    ensures |r| < size && r <= src
    ensures var u := Truncate(src, size - 1);
            r <= u && (('.' in u) <==> |r| < |u|)
            && (|r| < |u| ==> u[|r|] == '.' && '.' !in u[|r| + 1..])
  {
    var u := Truncate(src, size - 1);
    var k := LastIndexOf(u, '.');
    if k >= 0 then u[..k] else u
  }

  /** get_filename_without_path: the text after the last '/' of src, or all of src, cut to size - 1 characters. */
  function FilenameWithoutPath(src: string, size: nat): (r: string)
    requires size > 0
    ensures |r| < size && '/' !in r
    ensures var j := LastIndexOf(src, '/') + 1;
            '/' !in src[j..] && (j == 0 || src[j - 1] == '/')
            && r <= src[j..] && |r| == (if |src| - j < size then |src| - j else size - 1)
    ensures |src| < size ==> |r| <= |src| && r == src[|src| - |r|..]
    ensures |src| < size && |r| < |src| ==> src[|src| - |r| - 1] == '/'
    ensures |src| < size && '/' !in src ==> r == src
  {
    var k := LastIndexOf(src, '/');
    var tail := src[k + 1..];
    AfterLastIndex(src, '/');
    var r := Truncate(tail, size - 1);
    assert '/' !in r by {
      forall j | 0 <= j < |r| ensures r[j] != '/' { assert r[j] == tail[j]; }
    }
    r
  }

  /** What follows the last c of s holds no c, and is all of s when s has no c. */
  lemma {:induction false} AfterLastIndex(s: string, c: char)
    ensures c !in s[LastIndexOf(s, c) + 1..]
    ensures c !in s ==> s[LastIndexOf(s, c) + 1..] == s
  {
    var k := LastIndexOf(s, c);
    var tail := s[k + 1..];
    forall j | 0 <= j < |tail| ensures tail[j] != c { assert tail[j] == s[k + 1 + j]; }
    if c !in s {
      assert k == -1;
    }
  }

  /** get_path_without_filename: the copied text before its last '/', or "" when it has none. */
  function PathWithoutFilename(src: string, size: nat): (r: string)
    requires size > 0
    ensures |r| < size && r <= src
    ensures var u := Truncate(src, size - 1);
            r <= u && ('/' in u ==> |r| < |u| && u[|r|] == '/' && '/' !in u[|r| + 1..])
            && ('/' !in u ==> r == [])
  {
    var u := Truncate(src, size - 1);
    var k := LastIndexOf(u, '/');
    if k >= 0 then u[..k] else []
  }

  // ---------------------------------------------------------------------
  // The helpers on the caller's buffer

  /**
   * snprintf(dst, dst.Length, "%s", src): the first dst.Length - 1
   * characters of src and a NUL; the cells after the NUL are untouched.
   */
  method CopyInto(src: string, dst: array<char>) returns (len: nat)
    requires dst.Length > 0 && NoNul(src)
    modifies dst
    ensures len == |Truncate(src, dst.Length - 1)| && len < dst.Length
    ensures dst[..len] == Truncate(src, dst.Length - 1) && dst[len] == '\0'
    ensures forall i :: len < i < dst.Length ==> dst[i] == old(dst[i])
  {
    var u := Truncate(src, dst.Length - 1);
    len := |u|;
    for i := 0 to len
      invariant dst[..i] == u[..i]
      invariant forall j :: i <= j < dst.Length ==> dst[j] == old(dst[j])
    {
      dst[i] := u[i];
    }
    dst[len] := '\0';
  }

  /** strrchr on the C string in dst: the last index of c before the first NUL, or -1. */
  method LastIndexIn(dst: array<char>, len: nat, c: char) returns (k: int)
    requires len < dst.Length && NoNul(dst[..len]) && dst[len] == '\0'
    ensures k == LastIndexOf(dst[..len], c)
  {
    k := len - 1;
    while k >= 0 && dst[k] != c
      invariant -1 <= k < len
      invariant LastIndexOf(dst[..len], c) == LastIndexOf(dst[..k + 1], c)
    {
      assert dst[..k + 1][..k] == dst[..k];
      k := k - 1;
    }
    if k >= 0 {
      assert dst[..k + 1][k] == c;
    }
  }

  /** strip_extension. */
  method StripExtensionInto(src: string, dst: array<char>)
    requires dst.Length > 0 && NoNul(src)
    modifies dst
    ensures CStr(dst[..]) == StripExtension(src, dst.Length)
    ensures forall i :: |Truncate(src, dst.Length - 1)| < i < dst.Length ==> dst[i] == old(dst[i])
  {
    var len := CopyInto(src, dst);
    var k := LastIndexIn(dst, len, '.');
    if k >= 0 {
      dst[k] := '\0';
      assert dst[..k] == Truncate(src, dst.Length - 1)[..k];
      CStrAt(dst[..], k);
    } else {
      CStrAt(dst[..], len);
    }
  }

  /** get_filename_without_path: the copy, then a NUL stored in the last cell of dst. */
  method FilenameWithoutPathInto(src: string, dst: array<char>)
    requires dst.Length > 0 && NoNul(src)
    modifies dst
    ensures CStr(dst[..]) == FilenameWithoutPath(src, dst.Length)
    ensures dst[dst.Length - 1] == '\0'
    ensures forall i :: |FilenameWithoutPath(src, dst.Length)| < i < dst.Length - 1 ==> dst[i] == old(dst[i])
  {
    var tail := src[LastIndexOf(src, '/') + 1..];
    FilenameIsCutTail(src, dst.Length);
    NoNulSuffix(src, LastIndexOf(src, '/') + 1);
    var len := CopyInto(tail, dst);
    ghost var name := Truncate(tail, dst.Length - 1);
    NoNulPrefix(tail, |name|);
    dst[dst.Length - 1] := '\0';
    assert dst[..len] == name;
    CStrAt(dst[..], len);
  }

  /** get_filename_without_path copies the text after the last '/'. */
  lemma {:induction false} FilenameIsCutTail(src: string, size: nat)
    requires size > 0
    ensures FilenameWithoutPath(src, size) == Truncate(src[LastIndexOf(src, '/') + 1..], size - 1)
  {
  }

  /** A suffix of NUL-free text is NUL-free. */
  lemma {:induction false} NoNulSuffix(s: string, k: nat)
    requires k <= |s| && NoNul(s)
    ensures NoNul(s[k..])
  {
    forall j | 0 <= j < |s| - k ensures s[k..][j] != '\0' { assert s[k..][j] == s[k + j]; }
  }

  /** A prefix of NUL-free text is NUL-free. */
  lemma {:induction false} NoNulPrefix(s: string, k: nat)
    requires k <= |s| && NoNul(s)
    ensures NoNul(s[..k])
  {
    forall j | 0 <= j < k ensures s[..k][j] != '\0' { assert s[..k][j] == s[j]; }
  }

  /** get_path_without_filename. */
  method PathWithoutFilenameInto(src: string, dst: array<char>)
    requires dst.Length > 0 && NoNul(src)
    modifies dst
    ensures CStr(dst[..]) == PathWithoutFilename(src, dst.Length)
    ensures forall i :: |Truncate(src, dst.Length - 1)| < i < dst.Length ==> dst[i] == old(dst[i])
  {
    var len := CopyInto(src, dst);
    var k := LastIndexIn(dst, len, '/');
    if k >= 0 {
      dst[k] := '\0';
      assert dst[..k] == Truncate(src, dst.Length - 1)[..k];
      CStrAt(dst[..], k);
    } else {
      dst[0] := '\0';
      CStrAt(dst[..], 0);
    }
  }

  /** get_array_length: the number of entries before the first NULL. */
  method ArrayLength(a: array<Option<string>>) returns (n: nat)
    requires exists i :: 0 <= i < a.Length && a[i].None?
    ensures n < a.Length && a[n].None?
    ensures forall i :: 0 <= i < n ==> a[i].Some?
  {
    n := 0;
    while a[n].Some?
      invariant n < a.Length
      invariant forall i :: 0 <= i < n ==> a[i].Some?
      invariant exists i :: n <= i < a.Length && a[i].None?
      decreases a.Length - n
    {
      n := n + 1;
    }
  }

  // ---------------------------------------------------------------------
  // What the helpers promise together

  /** For a path with a '/' that fits the buffer, directory, "/" and file name join back into the path. */
  lemma {:induction false} SplitJoinsBack(p: string, size: nat)
    requires size > 0 && |p| < size && '/' in p
    ensures PathWithoutFilename(p, size) + "/" + FilenameWithoutPath(p, size) == p
  {
    var k := LastIndexOf(p, '/');
    PathIsCutPrefix(p, size);
    FilenameIsCutTail(p, size);
    JoinAround(p, k);
  }

  /** get_path_without_filename of text that fits keeps what precedes its last '/'. */
  lemma {:induction false} PathIsCutPrefix(p: string, size: nat)
    requires size > 0 && |p| < size && '/' in p
    ensures LastIndexOf(p, '/') >= 0 && PathWithoutFilename(p, size) == p[..LastIndexOf(p, '/')]
  {
  }

  lemma {:induction false} JoinAround(p: string, k: int)
    requires 0 <= k < |p| && p[k] == '/'
    ensures p[..k] + "/" + p[k + 1..] == p
  {
  }

  /** strrchr finds the c that only c-free text follows. */
  lemma {:induction false} LastIndexOfJoin(a: string, c: char, b: string)
    requires c !in b
    ensures LastIndexOf(a + [c] + b, c) == |a|
    decreases |b|
  {
    var s := a + [c] + b;
    if b == [] {
      assert s[|s| - 1] == c;
    } else {
      assert s[|s| - 1] == b[|b| - 1];
      assert s[..|s| - 1] == a + [c] + b[..|b| - 1];
      LastIndexOfJoin(a, c, b[..|b| - 1]);
    }
  }

  /** Text without a '.' keeps all of itself when it fits. */
  lemma {:induction false} StripExtensionOfPlain(n: string, size: nat)
    requires size > 0 && |n| < size && '.' !in n
    ensures StripExtension(n, size) == n
  {
    assert LastIndexOf(n, '.') == -1;
  }

  /** Text without a '/' has an empty directory part when it fits. */
  lemma {:induction false} PathWithoutFilenameOfPlain(n: string, size: nat)
    requires size > 0 && |n| < size && '/' !in n
    ensures PathWithoutFilename(n, size) == []
  {
    assert Truncate(n, size - 1) == n;
  }

  /** A path d/b, b free of '/', splits into directory d and file name b. */
  lemma {:induction false} SplitAtLastSlash(d: string, b: string, size: nat)
    requires size > 0 && |d| + 1 + |b| < size && '/' !in b
    ensures PathWithoutFilename(d + "/" + b, size) == d
    ensures FilenameWithoutPath(d + "/" + b, size) == b
  {
    var p := d + "/" + b;
    LastIndexOfJoin(d, '/', b);
    assert p[..|d|] == d;
    assert p[|d| + 1..] == b;
  }

  /** A name n.e, e free of '.', loses exactly ".e". */
  lemma {:induction false} StripExtensionOfDotted(n: string, e: string, size: nat)
    requires size > 0 && |n| + 1 + |e| < size && '.' !in e
    ensures StripExtension(n + "." + e, size) == n
  {
    LastIndexOfJoin(n, '.', e);
    assert (n + "." + e)[..|n|] == n;
  }

  /** The expectations of test_strip_extension. */
  lemma {:induction false} StripExtensionCases()
    ensures StripExtension("foo/bar.c", PathMax) == "foo/bar"
    ensures StripExtension("baz.txt", PathMax) == "baz"
    ensures StripExtension("noext", PathMax) == "noext"
  {
    StripExtensionCase("foo/bar", "c");
    StripExtensionCase("baz", "txt");
    StripExtensionOfPlain("noext", PathMax);
  }

  /** One expectation of test_strip_extension: n.e becomes n. */
  lemma {:induction false} StripExtensionCase(n: string, e: string)
    requires |n| + 1 + |e| < PathMax && '.' !in e
    ensures StripExtension(n + "." + e, PathMax) == n
  {
    StripExtensionOfDotted(n, e, PathMax);
  }

  /** The expectations of test_get_filename_without_path. */
  lemma {:induction false} FilenameWithoutPathCases()
    ensures FilenameWithoutPath("foo/bar.c", PathMax) == "bar.c"
    ensures FilenameWithoutPath("baz.txt", PathMax) == "baz.txt"
    ensures FilenameWithoutPath("noext", PathMax) == "noext"
  {
    SplitCase("foo", "bar.c");
    assert '/' !in "baz.txt";
    assert '/' !in "noext";
  }

  /** The expectations of test_get_path_without_filename. */
  lemma {:induction false} PathWithoutFilenameCases()
    ensures PathWithoutFilename("foo/bar.c", PathMax) == "foo"
    ensures PathWithoutFilename("baz.txt", PathMax) == ""
    ensures PathWithoutFilename("/usr/local/bin/test", PathMax) == "/usr/local/bin"
  {
    SplitCase("foo", "bar.c");
    PathWithoutFilenameOfPlain("baz.txt", PathMax);
    NestedPathCase();
  }

  /** The nested path of test_get_path_without_filename. */
  lemma {:induction false} NestedPathCase()
    ensures PathWithoutFilename("/usr/local/bin/test", PathMax) == "/usr/local/bin"
  {
    SplitCase("/usr/local/bin", "test");
  }

  /** One expectation of the path tests: d/b splits into d and b. */
  lemma {:induction false} SplitCase(d: string, b: string)
    requires |d| + 1 + |b| < PathMax && '/' !in b
    ensures PathWithoutFilename(d + "/" + b, PathMax) == d
    ensures FilenameWithoutPath(d + "/" + b, PathMax) == b
  {
    SplitAtLastSlash(d, b, PathMax);
  }

  /** The expectations of test_get_array_length. */
  method ArrayLengthCases() {
    var arr1 := new Option<string>[4] [Some("a"), Some("b"), Some("c"), None];
    assert arr1[3].None?;
    var len1 := ArrayLength(arr1);
    assert len1 == 3;
    var arr2 := new Option<string>[1] [None];
    assert arr2[0].None?;
    var len2 := ArrayLength(arr2);
    assert len2 == 0;
  }
}
