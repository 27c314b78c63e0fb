/**
 * Models of the C library routines the build tool leans on: the C string
 * held by a buffer, snprintf's truncation, strrchr, strchr, strstr, strtok
 * and the POSIX basename/dirname of <libgen.h>. All are value functions over
 * `string` (= seq<char>); a C string never holds a NUL character.
 */
module CLib {

  datatype Option<T> = None | Some(value: T)

  /** A C string: no NUL inside. */
  predicate NoNul(s: string) {
    forall i :: 0 <= i < |s| ==> s[i] != '\0'
  }

  /** The C string a buffer holds: the characters before its first NUL. */
  function CStr(s: seq<char>): (r: string)
    ensures |r| <= |s| && r == s[..|r|]
    ensures NoNul(r)
    ensures |r| < |s| ==> s[|r|] == '\0'
  {
    if s == [] || s[0] == '\0' then [] else [s[0]] + CStr(s[1..])
  }

  /** A buffer whose first NUL is at index k holds the C string s[..k]. */
  lemma {:induction false} CStrAt(s: seq<char>, k: nat)
    requires k < |s| && s[k] == '\0' && NoNul(s[..k])
    ensures CStr(s) == s[..k]
  {
  }

  /** A C string is the C string its own buffer holds. */
  lemma {:induction false} CStrOfNoNul(s: string)
    requires NoNul(s)
    ensures CStr(s) == s
  {
  }

  /** The characters snprintf(dst, n + 1, "%s", s) stores: at most n of them. */
  function Truncate(s: string, n: nat): (r: string)
    ensures r <= s && |r| == (if |s| <= n then |s| else n)
  {
    if |s| <= n then s else s[..n]
  }

  /** strrchr: index of the last occurrence of c, or -1 when there is none. */
  function LastIndexOf(s: string, c: char): (r: int)
    ensures -1 <= r < |s|
    ensures r >= 0 ==> s[r] == c
    ensures forall j :: r < j < |s| ==> s[j] != c
  {
    if s == [] then -1
    else if s[|s| - 1] == c then |s| - 1
    else LastIndexOf(s[..|s| - 1], c)
  }

  /** strchr: index of the first occurrence of c, or -1 when there is none. */
  function FirstIndexOf(s: string, c: char): (r: int)
    ensures -1 <= r < |s|
    ensures r >= 0 ==> s[r] == c
    ensures forall j :: 0 <= j < |s| && (r < 0 || j < r) ==> s[j] != c
  {
    if s == [] then -1
    else if s[0] == c then 0
    else var k := FirstIndexOf(s[1..], c); if k < 0 then -1 else k + 1
  }

  /** Length of the leading run of characters other than d. */
  function Span(s: string, d: char): (k: nat)
    ensures k <= |s|
    ensures forall j :: 0 <= j < k ==> s[j] != d
    ensures k < |s| ==> s[k] == d
  {
    var i := FirstIndexOf(s, d);
    if i < 0 then |s| else i
  }

  /**
   * The tokens successive strtok(_, "d") calls return: maximal runs of
   * characters other than d, leading and repeated delimiters skipped.
   */
  function Tokens(s: string, d: char): (r: seq<string>)
    ensures forall k :: 0 <= k < |r| ==> |r[k]| > 0 && d !in r[k]
    decreases |s|
  {
    if s == [] then []
    else if s[0] == d then Tokens(s[1..], d)
    else
      var k := Span(s, d);
      [s[..k]] + Tokens(s[k..], d)
  }

  /** A nonempty string without the delimiter is its own single token. */
  lemma {:induction false} TokensOfPlain(s: string, d: char)
    requires |s| > 0 && d !in s
    ensures Tokens(s, d) == [s]
  {
    assert s[0] != d;
    assert Span(s, d) == |s|;
    assert s[..|s|] == s;
    assert s[|s|..] == [];
    assert Tokens([], d) == [];
  }

  /** A string that starts with a token and a delimiter yields that token first. */
  lemma {:induction false} TokensOfSplit(a: string, d: char, b: string)
    requires |a| > 0 && d !in a
    ensures Tokens(a + [d] + b, d) == [a] + Tokens(b, d)
  {
    var s := a + [d] + b;
    assert s[0] == a[0];
    assert Span(s, d) == |a| by {
      assert s[|a|] == d;
      forall j | 0 <= j < |a| ensures s[j] != d { assert s[j] == a[j]; }
    }
    assert s[..|a|] == a;
    assert s[|a|..] == [d] + b;
    assert ([d] + b)[1..] == b;
  }

  /** A leading delimiter is skipped: it starts no token. */
  lemma {:induction false} TokensSkipDelimiter(d: char, s: string)
    ensures Tokens([d] + s, d) == Tokens(s, d)
  {
    assert ([d] + s)[1..] == s;
  }

  /** strtok finds no token exactly when the string is all delimiters. */
  lemma {:induction false} TokensEmpty(s: string, d: char)
    ensures Tokens(s, d) == [] <==> forall i :: 0 <= i < |s| ==> s[i] == d
    decreases |s|
  {
    if s != [] && s[0] == d {
      TokensEmpty(s[1..], d);
      assert forall i :: 1 <= i < |s| ==> s[i] == s[1..][i - 1];
    }
  }

  /** strstr(s, sub) != NULL. */
  predicate Contains(s: string, sub: string)
    decreases |s|
  {
    |sub| <= |s| && (s[..|sub|] == sub || Contains(s[1..], sub))
  }

  /** s without its trailing '/' characters. */
  function StripTrailingSlashes(s: string): (r: string)
    ensures r <= s
    ensures r == [] || r[|r| - 1] != '/'
    ensures forall j :: |r| <= j < |s| ==> s[j] == '/'
  {
    if s != [] && s[|s| - 1] == '/' then StripTrailingSlashes(s[..|s| - 1]) else s
  }

  /** POSIX basename(3): the last component, trailing '/' ignored. */
  function Basename(p: string): string {
    if p == [] then "."
    else
      var q := StripTrailingSlashes(p);
      if q == [] then "/" else q[LastIndexOf(q, '/') + 1..]
  }

  /** POSIX dirname(3): everything before the last component. */
  function Dirname(p: string): string {
    if p == [] then "."
    else
      var q := StripTrailingSlashes(p);
      if q == [] then "/"
      else
        var k := LastIndexOf(q, '/');
        if k < 0 then "."
        else
          var d := StripTrailingSlashes(q[..k]);
          if d == [] then "/" else d
  }

  /**
   * A path "d/b", b a plain name and d not ending in '/', splits into
   * dirname d and basename b.
   */
  lemma {:induction false} SplitDirBase(d: string, b: string)
    requires |b| > 0 && '/' !in b
    requires |d| > 0 && d[|d| - 1] != '/'
    ensures Dirname(d + "/" + b) == d && Basename(d + "/" + b) == b
  {
    var p := d + "/" + b;
    assert p[|p| - 1] == b[|b| - 1];
    assert StripTrailingSlashes(p) == p;
    var k := LastIndexOf(p, '/');
    assert p[|d|] == '/';
    assert k == |d|;
    assert p[..k] == d;
    assert StripTrailingSlashes(d) == d;
    assert p[k + 1..] == b;
  }

  /** A plain name has dirname "." and is its own basename. */
  lemma {:induction false} SplitPlainName(b: string)
    requires |b| > 0 && '/' !in b
    ensures Dirname(b) == "." && Basename(b) == b
  {
    assert b[|b| - 1] != '/';
    assert StripTrailingSlashes(b) == b;
    assert LastIndexOf(b, '/') == -1;
  }
}
