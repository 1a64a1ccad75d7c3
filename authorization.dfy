/**
 * The token-file check of `handle_usb_arrival`: the file's content, trimmed the way
 * Python's `str.strip()` trims, must equal the expected key exactly.
 */
module Authorization {
  import opened Registry

  /** The characters Python's `str.isspace()` accepts, which `str.strip()` removes. */
  predicate IsSpace(c: char) {
    || ('\t' <= c <= '\r')                    // tab, line feed, vertical tab, form feed, carriage return
    || ('\U{1C}' <= c <= '\U{1F}')            // file, group, record and unit separators
    || c == ' ' || c == '\U{85}' || c == '\U{A0}' || c == '\U{1680}'
    || ('\U{2000}' <= c <= '\U{200A}')
    || c == '\U{2028}' || c == '\U{2029}' || c == '\U{202F}' || c == '\U{205F}' || c == '\U{3000}'
  }

  predicate AllSpace(s: string) {
    forall k :: 0 <= k < |s| ==> IsSpace(s[k])
  }

  /** Neither end of `s` is a whitespace character. */
  predicate Stripped(s: string) {
    s == [] || (!IsSpace(s[0]) && !IsSpace(s[|s| - 1]))
  }

  /** `s.lstrip()`: drops the leading whitespace and nothing else. */
  function TrimStart(s: string): (r: string)
    ensures |r| <= |s| && r == s[|s| - |r|..]
    ensures AllSpace(s[..|s| - |r|])
    ensures r == [] || !IsSpace(r[0])
    decreases |s|
  {
    if s != [] && IsSpace(s[0]) then TrimStart(s[1..]) else s
  }

  /** `s.rstrip()`: drops the trailing whitespace and nothing else. */
  function TrimEnd(s: string): (r: string)
    ensures |r| <= |s| && r == s[..|r|]
    ensures AllSpace(s[|r|..])
    ensures r == [] || !IsSpace(r[|r| - 1])
    decreases |s|
  {
    if s != [] && IsSpace(s[|s| - 1]) then TrimEnd(s[..|s| - 1]) else s
  }

  /** `s.strip()`: whitespace removed from both ends. */
  function Strip(s: string): (r: string)
    ensures Stripped(r)
  {
    TrimEnd(TrimStart(s))
  }

  /** What `strip()` keeps is an infix of `s`, and all it removes is whitespace. */
  lemma StripIsInfix(s: string)
    ensures exists i, j :: 0 <= i <= j <= |s| && Strip(s) == s[i..j] && AllSpace(s[..i]) && AllSpace(s[j..])
  {
    var t := TrimStart(s);
    var r := TrimEnd(t);
    var i := |s| - |t|;
    assert r == s[i..i + |r|];
    assert s[i + |r|..] == t[|r|..];
  }

  lemma {:induction false} TrimStartPadded(pad: string, rest: string)
    requires AllSpace(pad)
    requires rest == [] || !IsSpace(rest[0])
    ensures TrimStart(pad + rest) == rest
    decreases |pad|
  {
    if pad != [] {
      assert (pad + rest)[1..] == pad[1..] + rest;
      TrimStartPadded(pad[1..], rest);
    }
  }

  lemma {:induction false} TrimEndPadded(rest: string, pad: string)
    requires AllSpace(pad)
    requires rest == [] || !IsSpace(rest[|rest| - 1])
    ensures TrimEnd(rest + pad) == rest
    decreases |pad|
  {
    if pad != [] {
      assert (rest + pad)[..|rest + pad| - 1] == rest + pad[..|pad| - 1];
      TrimEndPadded(rest, pad[..|pad| - 1]);
    }
  }

  /** Whitespace around a stripped core is exactly what `strip()` removes. */
  lemma StripPadded(pre: string, core: string, post: string)
    requires AllSpace(pre) && AllSpace(post) && Stripped(core)
    ensures Strip(pre + core + post) == core
  {
    if core == [] {
      var s := pre + core + post;
      assert AllSpace(s) by {
        forall k | 0 <= k < |s| ensures IsSpace(s[k]) {
          if k < |pre| { assert s[k] == pre[k]; } else { assert s[k] == post[k - |pre|]; }
        }
      }
    } else {
      assert pre + core + post == pre + (core + post);
      TrimStartPadded(pre, core + post);
      TrimEndPadded(core, post);
    }
  }

  /** `strip()` is idempotent. */
  lemma StripIdempotent(s: string)
    ensures Strip(Strip(s)) == Strip(s)
  {
    var r := Strip(s);
    assert r == [] + r + [];
    StripPadded([], r, []);
  }

  /** What the probe of `<drive>\<REQUIRED_FILE>` found. */
  datatype TokenFile =
    | Absent                          // `os.path.exists` is false
    | ReadFails(errorKind: string)    // opening or decoding the file raised
    | Contents(text: string)          // the text read from the file

  /** The decision: whether the device is authorized, and the `auth_reason` to record. */
  datatype AuthResult = AuthResult(authorized: bool, reason: Reason)

  /** The authorization classification; total, in the priority order of the code. */
  function Classify(f: TokenFile, expected: string): (a: AuthResult)
    ensures a.authorized <==> a.reason == Ok
    ensures a.authorized <==> (f.Contents? && Strip(f.text) == expected)
    ensures f.Absent? ==> a.reason == FileNotFound
    ensures f.ReadFails? ==> a.reason == FileReadError(f.errorKind)
    ensures f.Contents? && !a.authorized ==> a.reason == ContentMismatch
  {
    match f
    case Absent => AuthResult(false, FileNotFound)
    case ReadFails(kind) => AuthResult(false, FileReadError(kind))
    case Contents(text) =>
      if Strip(text) == expected then AuthResult(true, Ok) else AuthResult(false, ContentMismatch)
  }

  /** A token file holding the key with surrounding whitespace (a trailing newline, say) authorizes. */
  lemma PaddedTokenAuthorizes(pre: string, post: string, expected: string)
    requires AllSpace(pre) && AllSpace(post) && Stripped(expected)
    ensures Classify(Contents(pre + expected + post), expected) == AuthResult(true, Ok)
  {
    StripPadded(pre, expected, post);
  }

  /** A key that itself begins or ends with whitespace can never be matched. */
  lemma UnstrippedKeyNeverAuthorizes(f: TokenFile, expected: string)
    requires !Stripped(expected)
    ensures !Classify(f, expected).authorized
  {
  }
}
