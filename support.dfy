/** Values shared by both files of the package: Go's error values as used by
    the package, the Option/Result wrappers that stand for Go's `(value, error)`
    pairs, and `strings.TrimSpace` from Go's standard library. */
module Support {

  datatype Option<+T> = None | Some(value: T)

  datatype Result<+T> = Ok(value: T) | Err(error: Error)

  /** The error values the package creates, receives or wraps. */
  datatype Error =
    | NotExist                           // an error for which os.IsNotExist holds
    | AlreadyUpToDate                    // go-git's sentinel git.NoErrAlreadyUpToDate
    | Foreign(code: nat)                 // any other error of go-git, go-billy or the OS
    | Message(text: string)              // errors.New(text)
    | Wrapped(context: string, cause: Error)  // errors.Wrapf(cause, context)

  /** os.IsNotExist: only the not-exist error itself, not one wrapped by the package. */
  predicate IsNotExist(e: Error)
  {
    e.NotExist?
  }

  /** unicode.IsSpace: the Latin-1 spaces and the other White_Space code points. */
  predicate IsSpace(c: char)
  {
    || c == ' ' || c == '\t' || c == '\n' || c == '\U{000B}' || c == '\U{000C}' || c == '\r'
    || c == '\U{0085}' || c == '\U{00A0}' || c == '\U{1680}'
    || ('\U{2000}' <= c <= '\U{200A}')
    || c == '\U{2028}' || c == '\U{2029}' || c == '\U{202F}' || c == '\U{205F}' || c == '\U{3000}'
  }

  /** Nothing but white space (the empty string included). */
  predicate Blank(s: string)
  {
    forall i | 0 <= i < |s| :: IsSpace(s[i])
  }

  /** The number of white-space characters `s` starts with. */
  function Leading(s: string): (n: nat)
    ensures n <= |s| && Blank(s[..n])
    ensures n == |s| || !IsSpace(s[n])
  {
    if s != [] && IsSpace(s[0]) then
      var m := Leading(s[1..]);
      assert s[..m + 1][1..] == s[1..][..m];
      m + 1
    else 0
  }

  /** Drops the leading white space: the result is the suffix of `s` that starts
      at its first non-space character. */
  function TrimLeft(s: string): (r: string)
    ensures |r| <= |s| && r == s[|s| - |r|..]
    ensures forall i | 0 <= i < |s| - |r| :: IsSpace(s[i])
    ensures r == [] || !IsSpace(r[0])
  {
    var n := Leading(s);
    assert forall i | 0 <= i < n :: IsSpace(s[..n][i]);
    s[n..]
  }

  /** Drops the trailing white space: the result is the prefix of `s` that ends
      at its last non-space character. */
  function TrimRight(s: string): (r: string)
    ensures |r| <= |s| && r == s[..|r|]
    ensures forall i | |r| <= i < |s| :: IsSpace(s[i])
    ensures r == [] || !IsSpace(r[|r| - 1])
  {
    if s != [] && IsSpace(s[|s| - 1]) then TrimRight(s[..|s| - 1]) else s
  }

  /** strings.TrimSpace. The result is `s` without its leading white space
      and without the white space that follows the result; it is empty exactly
      when `s` is blank, and otherwise starts and ends with a non-space
      character. */
  function TrimSpace(s: string): (r: string)
    ensures Leading(s) + |r| <= |s|
    ensures r == s[Leading(s)..Leading(s) + |r|]
    ensures Blank(s[Leading(s) + |r|..])
    ensures r == [] <==> Blank(s)
    ensures r != [] ==> !IsSpace(r[0]) && !IsSpace(r[|r| - 1])
  {
    TrimBothEmptyIffBlank(s);
    TrimSpaceInfix(s);
    TrimSpaceTail(s);
    var t := TrimLeft(s);
    var r := TrimRight(t);
    assert r != [] ==> r[0] == t[0];
    r
  }

  /** The trimmed string starts in `s` right after the leading white space. */
  lemma TrimSpaceInfix(s: string)
    ensures var r := TrimRight(TrimLeft(s));
            Leading(s) + |r| <= |s| && r == s[Leading(s)..Leading(s) + |r|]
  {
    var n := Leading(s);
    var t := TrimLeft(s);
    var r := TrimRight(t);
    assert t == s[n..] && |r| <= |t| == |s| - n;
    SliceOfSuffix(s, n, |r|);
    assert r == t[..|r|] == s[n..][..|r|];
  }

  /** Only white space follows the trimmed string in `s`. */
  lemma TrimSpaceTail(s: string)
    ensures var r := TrimRight(TrimLeft(s));
            Leading(s) + |r| <= |s| && Blank(s[Leading(s) + |r|..])
  {
    var n := Leading(s);
    var t := TrimLeft(s);
    var r := TrimRight(t);
    assert t == s[n..];
    SliceOfSuffix(s, n, |r|);
    BlankFrom(t, |r|);
  }

  lemma BlankFrom(t: string, k: nat)
    requires k <= |t|
    requires forall i | k <= i < |t| :: IsSpace(t[i])
    ensures Blank(t[k..])
  {
    assert forall j | 0 <= j < |t| - k :: t[k..][j] == t[k + j];
  }

  lemma SliceOfSuffix(s: string, n: nat, k: nat)
    requires n + k <= |s|
    ensures s[n..][..k] == s[n..n + k] && s[n..][k..] == s[n + k..]
  {
  }

  lemma TrimBothEmptyIffBlank(s: string)
    ensures TrimRight(TrimLeft(s)) == [] <==> Blank(s)
  {
    var t := TrimLeft(s);
    var k := |s| - |t|;
    if TrimRight(t) == [] {
      assert t == [];
    } else {
      assert t[0] == s[k];
    }
  }

  /** Trimming twice is trimming once. */
  lemma TrimSpaceIdempotent(s: string)
    ensures TrimSpace(TrimSpace(s)) == TrimSpace(s)
  {
    var r := TrimSpace(s);
    assert TrimLeft(r) == r;
    assert TrimRight(r) == r;
  }
}
