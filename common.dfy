/**
 * Values shared by every part of the model: optional values (a .NET reference
 * that may be null), results (a call that may throw), and the handful of
 * string and path helpers of the .NET base library that the host relies on.
 */
module Common {

  datatype Option<T> = None | Some(value: T)
  {
    /** `x ?? fallback`. */
    function GetOr(fallback: T): (r: T)
      ensures Some? ==> r == value
      ensures None? ==> r == fallback
    {
      if Some? then value else fallback
    }
  }

  /** The exceptions the modelled code paths can raise. */
  datatype Error =
    | UriFormat                       // `new Uri(text)` rejected the text
    | InvalidUrl                      // Utility.TryCleanUrl refused the URL
    | DownloadFailed(exitCode: int)   // aria2c ended with a non-zero exit code
    | HttpFailure                     // the HTTP download failed after its retries
    | MountFailure                    // the mesh fuse-mount request threw
    | ExtractFailure                  // ZipFile.ExtractToDirectory threw
    | UnknownPackageType(filePath: string)
    | IoFailure(path: string)         // a file operation on `path` threw
    | NullReference
    | ArgumentNull(paramName: string)
    | ArgumentInvalid(paramName: string)   // ArgumentException
    | ArgumentOutOfRange(paramName: string)
    | NotImplemented
    | CollaboratorFailure             // an opaque collaborator (decryption, JSON, storage) threw
    | DuplicateHeader(name: string)   // IHeaderDictionary.Add of a header already present

  datatype Result<T> = Ok(value: T) | Err(error: Error)

  // ---------------------------------------------------------------------
  // Nullable strings

  /** string.IsNullOrEmpty */
  predicate IsNullOrEmpty(s: Option<string>)
  {
    s.None? || s.value == ""
  }

  /**
   * char.IsWhiteSpace: the Unicode space, line and paragraph separators, the
   * control characters U+0009 to U+000D, NEL (U+0085) and NO-BREAK SPACE.
   */
  predicate IsWhiteSpace(c: char)
  {
    ('\t' <= c <= '\r') || c == ' ' || c == '\U{0085}' || c == '\U{00A0}' || c == '\U{1680}'
    || ('\U{2000}' <= c <= '\U{200A}') || c == '\U{2028}' || c == '\U{2029}' || c == '\U{202F}'
    || c == '\U{205F}' || c == '\U{3000}'
  }

  /** string.IsNullOrWhiteSpace */
  predicate IsNullOrWhiteSpace(s: Option<string>)
  {
    s.None? || forall i :: 0 <= i < |s.value| ==> IsWhiteSpace(s.value[i])
  }

  // ---------------------------------------------------------------------
  // Case folding (StringComparison.OrdinalIgnoreCase, ToUpperInvariant,
  // ToLowerInvariant) on the ASCII letters.

  function UpperChar(c: char): char
  {
    if 'a' <= c <= 'z' then (c as int - 32) as char else c
  }

  function LowerChar(c: char): char
  {
    if 'A' <= c <= 'Z' then (c as int + 32) as char else c
  }

  /** string.ToUpperInvariant */
  function ToUpper(s: string): (r: string)
    ensures |r| == |s|
    ensures forall i :: 0 <= i < |s| ==> r[i] == UpperChar(s[i])
  {
    seq(|s|, i requires 0 <= i < |s| => UpperChar(s[i]))
  }

  /** string.ToLowerInvariant */
  function ToLower(s: string): (r: string)
    ensures |r| == |s|
    ensures forall i :: 0 <= i < |s| ==> r[i] == LowerChar(s[i])
  {
    seq(|s|, i requires 0 <= i < |s| => LowerChar(s[i]))
  }

  /** string.Equals(a, b, StringComparison.OrdinalIgnoreCase) */
  predicate EqualsIgnoreCase(a: string, b: string)
  {
    ToUpper(a) == ToUpper(b)
  }

  /** string.Equals(a, b, StringComparison.OrdinalIgnoreCase) on nullable strings: null equals only null. */
  predicate EqualsIgnoreCaseNullable(a: Option<string>, b: Option<string>)
  {
    if a.None? || b.None? then a == b else EqualsIgnoreCase(a.value, b.value)
  }

  /** s.StartsWith(p, StringComparison.OrdinalIgnoreCase) */
  predicate StartsWithIgnoreCase(s: string, p: string)
  {
    |p| <= |s| && EqualsIgnoreCase(s[..|p|], p)
  }

  /** s.EndsWith(p, StringComparison.OrdinalIgnoreCase) */
  predicate EndsWithIgnoreCase(s: string, p: string)
  {
    |p| <= |s| && EqualsIgnoreCase(s[|s| - |p|..], p)
  }

  /** s.Contains(p, StringComparison.OrdinalIgnoreCase) */
  predicate ContainsIgnoreCase(s: string, p: string)
  {
    exists i :: 0 <= i <= |s| - |p| && MatchesAt(s, p, i)
  }

  /** The |p| characters of s at offset i equal p, ignoring case. */
  predicate MatchesAt(s: string, p: string, i: int)
  {
    0 <= i <= |s| - |p| && EqualsIgnoreCase(s[i..i + |p|], p)
  }

  /**
   * string.Compare(a, b, StringComparison.OrdinalIgnoreCase): the difference
   * of the first pair of upper-cased characters that differ, or else the
   * difference of the lengths.
   */
  function CompareIgnoreCase(a: string, b: string): int
    decreases |a|
  {
    if a == [] || b == [] then |a| - |b|
    else if UpperChar(a[0]) != UpperChar(b[0]) then UpperChar(a[0]) as int - UpperChar(b[0]) as int
    else CompareIgnoreCase(a[1..], b[1..])
  }

  // ---------------------------------------------------------------------
  // Replacing a one-character pattern (Environment.NewLine on Linux is "\n",
  // and the other patterns replaced by the loggers are single characters).

  /** s.Replace(c.ToString(), r) */
  function ReplaceChar(s: string, c: char, r: string): string
  {
    if s == [] then []
    else (if s[0] == c then r else [s[0]]) + ReplaceChar(s[1..], c, r)
  }

  /** Replacing a character by a single character keeps the length and changes only that character. */
  lemma {:induction false} ReplaceCharPointwise(s: string, c: char, d: char)
    ensures |ReplaceChar(s, c, [d])| == |s|
    ensures forall i :: 0 <= i < |s| ==> ReplaceChar(s, c, [d])[i] == if s[i] == c then d else s[i]
    decreases |s|
  {
    if s != [] {
      ReplaceCharPointwise(s[1..], c, d);
      assert forall i :: 1 <= i < |s| ==> s[i] == s[1..][i - 1];
    }
  }

  // ---------------------------------------------------------------------
  // System.IO.Path on Linux

  /** Path.Combine(a, b) with '/' as the separator. */
  function Combine(a: string, b: string): string
  {
    if b == "" then a
    else if a == "" then b
    else if b[0] == '/' then b
    else if a[|a| - 1] == '/' then a + b
    else a + "/" + b
  }

  /** Path.GetFileName: the text after the last '/'. */
  function GetFileName(p: string): (r: string)
    ensures '/' !in r
    ensures |r| <= |p| && r == p[|p| - |r|..]
  {
    if p == [] || p[|p| - 1] == '/' then []
    else GetFileName(p[..|p| - 1]) + [p[|p| - 1]]
  }

  /** The file name of a path built by Combine is the name that was combined. */
  lemma {:induction false} GetFileNameAfterSeparator(pre: string, name: string)
    requires '/' !in name
    requires pre == "" || pre[|pre| - 1] == '/'
    ensures GetFileName(pre + name) == name
    decreases |name|
  {
    if name == [] {
      assert pre + name == pre;
    } else {
      var p := pre + name;
      var init := name[..|name| - 1];
      var last := name[|name| - 1];
      assert last in name;
      assert p[|p| - 1] == last;
      assert p[..|p| - 1] == pre + init;
      assert '/' !in init by {
        forall i | 0 <= i < |init| ensures init[i] != '/' { assert init[i] == name[i]; }
      }
      GetFileNameAfterSeparator(pre, init);
      assert GetFileName(p) == GetFileName(pre + init) + [last];
      assert name == init + [last];
    }
  }

  lemma CombineFileName(dir: string, name: string)
    requires name != "" && '/' !in name
    ensures GetFileName(Combine(dir, name)) == name
  {
    if dir == "" {
      GetFileNameAfterSeparator("", name);
      assert "" + name == name;
    } else if dir[|dir| - 1] == '/' {
      GetFileNameAfterSeparator(dir, name);
    } else {
      assert dir + "/" + name == (dir + "/") + name;
      GetFileNameAfterSeparator(dir + "/", name);
    }
  }

  /** string.Join(",", fields) */
  function JoinCommas(fields: seq<string>): string
  {
    if fields == [] then ""
    else if |fields| == 1 then fields[0]
    else fields[0] + "," + JoinCommas(fields[1..])
  }

  /** s.Split(','), the inverse of JoinCommas on comma-free fields. */
  function SplitCommas(s: string): (r: seq<string>)
    ensures |r| >= 1
    decreases |s|
  {
    if ',' !in s then [s]
    else
      var i := FirstComma(s);
      [s[..i]] + SplitCommas(s[i + 1..])
  }

  /** Splitting a join of comma-free fields gives the fields back. */
  lemma {:induction false} SplitJoinCommas(fields: seq<string>)
    requires |fields| >= 1
    requires forall i :: 0 <= i < |fields| ==> ',' !in fields[i]
    ensures SplitCommas(JoinCommas(fields)) == fields
    decreases |fields|
  {
    if |fields| == 1 {
    } else {
      var rest := fields[1..];
      var s := JoinCommas(fields);
      assert s == fields[0] + "," + JoinCommas(rest);
      assert s[|fields[0]|] == ',';
      var i := FirstComma(s);
      assert s[..|fields[0]|] == fields[0];
      assert i == |fields[0]|;
      assert s[..i] == fields[0];
      assert s[i + 1..] == JoinCommas(rest);
      SplitJoinCommas(rest);
      assert fields == [fields[0]] + rest;
    }
  }

  /** A character other than ',' occurs in a join exactly when it occurs in one of the fields. */
  lemma {:induction false} JoinCommasExcludes(fields: seq<string>, c: char)
    requires c != ','
    ensures c !in JoinCommas(fields) <==> forall i :: 0 <= i < |fields| ==> c !in fields[i]
    decreases |fields|
  {
    if |fields| > 1 {
      JoinCommasExcludes(fields[1..], c);
      assert forall i :: 1 <= i < |fields| ==> fields[i] == fields[1..][i - 1];
      assert JoinCommas(fields) == fields[0] + "," + JoinCommas(fields[1..]);
    }
  }

  function FirstComma(s: string): (i: nat)
    requires ',' in s
    ensures i < |s| && s[i] == ',' && ',' !in s[..i]
  {
    if s[0] == ',' then 0
    else
      assert s == [s[0]] + s[1..];
      var j := FirstComma(s[1..]);
      assert s[..j + 1] == [s[0]] + s[1..][..j];
      j + 1
  }

  /** Decimal rendering of an integer (Int32/Int64.ToString() with the invariant culture). */
  function IntToString(n: int): (r: string)
    ensures ',' !in r && '\n' !in r
    ensures |r| > 0
  {
    if n < 0 then "-" + NatToString(-n) else NatToString(n)
  }

  function NatToString(n: nat): (r: string)
    ensures |r| > 0
    ensures forall i :: 0 <= i < |r| ==> '0' <= r[i] <= '9'
  {
    if n < 10 then [DigitChar(n)] else NatToString(n / 10) + [DigitChar(n % 10)]
  }

  function DigitChar(d: nat): (c: char)
    requires d < 10
    ensures '0' <= c <= '9'
  {
    (48 + d) as char
  }
}
