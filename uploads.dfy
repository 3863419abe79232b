/** The server's pure text helpers (`src/server.js`): the stored name of an
    uploaded file, the extension filter applied to uploads and to the track
    listing, the display name derived from a stored name, and the category
    check of the delete route. */
module Uploads {
  import opened Playback

  // ---------------------------------------------------------------------
  // Characters.

  predicate IsDigit(c: char) {
    '0' <= c <= '9'
  }

  /** The characters the sanitiser keeps: `[a-zA-Z0-9._-]`. */
  predicate Safe(c: char) {
    ('a' <= c <= 'z') || ('A' <= c <= 'Z') || IsDigit(c) || c == '.' || c == '_' || c == '-'
  }

  /** The last index of `c` in `s`. */
  function LastIndexOf(s: string, c: char): (r: Option<nat>)
    ensures r.Some? ==> r.value < |s| && s[r.value] == c && forall j :: r.value < j < |s| ==> s[j] != c
    ensures r.None? ==> forall j :: 0 <= j < |s| ==> s[j] != c
  {
    if |s| == 0 then None
    else if s[|s| - 1] == c then Some(|s| - 1)
    else LastIndexOf(s[..|s| - 1], c)
  }

  /** Appending text without `c` keeps the last `c` where it was; appending
      text with one moves it there. */
  lemma {:induction false} LastIndexOfAppend(a: string, b: string, c: char)
    ensures LastIndexOf(a + b, c) ==
              match LastIndexOf(b, c)
              case Some(j) => Some(|a| + j)
              case None => LastIndexOf(a, c)
  {
    if |b| > 0 {
      assert (a + b)[..|a + b| - 1] == a + b[..|b| - 1];
      if b[|b| - 1] != c {
        LastIndexOfAppend(a, b[..|b| - 1], c);
      }
    } else {
      assert a + b == a;
    }
  }

  // ---------------------------------------------------------------------
  // The stored name of an upload.

  /** Every character outside `[a-zA-Z0-9._-]` replaced by `_`. */
  function Sanitize(s: string): (r: string)
    ensures |r| == |s|
    ensures forall i :: 0 <= i < |s| ==> Safe(r[i])
    ensures forall i :: 0 <= i < |s| ==> r[i] == (if Safe(s[i]) then s[i] else '_')
  {
    if |s| == 0 then ""
    else Sanitize(s[..|s| - 1]) + [if Safe(s[|s| - 1]) then s[|s| - 1] else '_']
  }

  /** Sanitising twice is sanitising once. */
  lemma SanitizeIdempotent(s: string)
    ensures Sanitize(Sanitize(s)) == Sanitize(s)
  {
  }

  function Digit(d: nat): (c: char)
    requires d < 10
    ensures IsDigit(c) && c as int - '0' as int == d
  {
    ('0' as int + d) as char
  }

  /** The number a string of decimal digits spells. */
  function DigitsValue(s: string): int
    requires forall i :: 0 <= i < |s| ==> IsDigit(s[i])
  {
    if |s| == 0 then 0 else DigitsValue(s[..|s| - 1]) * 10 + (s[|s| - 1] as int - '0' as int)
  }

  /** The decimal text of a `Date.now()` value. */
  function DecimalString(n: nat): (r: string)
    ensures |r| > 0
    ensures forall i :: 0 <= i < |r| ==> IsDigit(r[i])
    ensures DigitsValue(r) == n
  {
    if n < 10 then [Digit(n)]
    else
      var front := DecimalString(n / 10);
      var r := front + [Digit(n % 10)];
      assert r[..|r| - 1] == front;
      r
  }

  /** The name an upload is stored under: `<now>-<sanitised original name>`.
      Its leading digit run spells the timestamp and is followed by `-` and
      the sanitised name. */
  function UploadName(now: nat, original: string): (r: string)
    ensures DigitRun(r) == |DecimalString(now)| < |r|
    ensures DigitsValue(r[..DigitRun(r)]) == now
    ensures r[DigitRun(r)] == '-' && r[DigitRun(r) + 1..] == Sanitize(original)
  {
    var d := DecimalString(now);
    DigitRunOfPrefix(d, "-" + Sanitize(original));
    assert d + "-" + Sanitize(original) == d + ("-" + Sanitize(original));
    assert (d + "-" + Sanitize(original))[..|d|] == d;
    DecimalString(now) + "-" + Sanitize(original)
  }

  /** A stored name is as long as the original plus the prefix and consists
      of safe characters only. */
  lemma UploadNameIsSafe(now: nat, original: string)
    ensures |UploadName(now, original)| == |DecimalString(now)| + 1 + |original|
    ensures forall i :: 0 <= i < |UploadName(now, original)| ==> Safe(UploadName(now, original)[i])
  {
    var d := DecimalString(now);
    var r := UploadName(now, original);
    forall i | 0 <= i < |r|
      ensures Safe(r[i])
    {
      if i < |d| {
        assert r[i] == d[i];
      } else if i > |d| {
        assert r[i] == Sanitize(original)[i - |d| - 1];
      }
    }
  }

  // ---------------------------------------------------------------------
  // Extensions.

  /** Trailing `/` characters removed. */
  function TrimTrailingSlashes(p: string): (r: string)
    ensures |r| <= |p| && r == p[..|r|]
    ensures |r| == 0 || r[|r| - 1] != '/'
    ensures |p| > 0 && p[|p| - 1] != '/' ==> r == p
  {
    if |p| > 0 && p[|p| - 1] == '/' then TrimTrailingSlashes(p[..|p| - 1]) else p
  }

  /** The part after the last `/`. */
  function LastComponent(p: string): (r: string)
    ensures |r| <= |p| && r == p[|p| - |r|..]
    ensures forall i :: 0 <= i < |r| ==> r[i] != '/'
  {
    match LastIndexOf(p, '/')
    case None => p
    case Some(k) => p[k + 1..]
  }

  /** `path.extname` (POSIX): in the last path component, ignoring trailing
      slashes, the text from the last `.` on; empty when the component has
      no `.`, when its last `.` is its first character, or when it is `..`. */
  function Extname(p: string): (r: string)
    ensures r == "" || (r[0] == '.' && forall i :: 1 <= i < |r| ==> r[i] != '.' && r[i] != '/')
    ensures var c := LastComponent(TrimTrailingSlashes(p));
            r == "" || (|r| < |c| && r == c[|c| - |r|..])
    ensures var c := LastComponent(TrimTrailingSlashes(p));
            r == "" <==> c == ".." || forall i :: 0 < i < |c| ==> c[i] != '.'
  {
    var c := LastComponent(TrimTrailingSlashes(p));
    match LastIndexOf(c, '.')
    case None => ""
    case Some(i) => if i == 0 || c == ".." then "" else c[i..]
  }

  function LowerChar(c: char): char {
    if 'A' <= c <= 'Z' then (c as int + 32) as char else c
  }

  /** `toLowerCase` on ASCII letters. */
  function LowerAscii(s: string): (r: string)
    ensures |r| == |s|
    ensures forall i :: 0 <= i < |s| ==> r[i] == LowerChar(s[i])
  {
    if |s| == 0 then "" else LowerAscii(s[..|s| - 1]) + [LowerChar(s[|s| - 1])]
  }

  /** The six accepted extensions. */
  const ALLOWED: seq<string> := [".mp3", ".wav", ".ogg", ".m4a", ".flac", ".webm"]

  /** `fileFilter`, and the listing's filter on stored names. */
  predicate FileFilter(name: string)
    ensures FileFilter(name) ==>
              var c := LastComponent(TrimTrailingSlashes(name));
              var x := Extname(name);
              0 < |c| - |x| && LowerAscii(c[|c| - |x|..]) in ALLOWED
  {
    LowerAscii(Extname(name)) in ALLOWED
  }

  /** The shape of an extension: one leading `.`, no other `.` and no `/`. */
  predicate ExtensionShaped(e: string) {
    |e| >= 2 && e[0] == '.' && forall i :: 1 <= i < |e| ==> e[i] != '.' && e[i] != '/'
  }

  lemma AllowedAreExtensions(e: string)
    requires e in ALLOWED
    ensures ExtensionShaped(e)
  {
    if e == ".mp3" {
    } else if e == ".wav" {
    } else if e == ".ogg" {
    } else if e == ".m4a" {
    } else if e == ".flac" {
    } else {
      assert e == ".webm";
    }
  }

  /** Lower-casing keeps every `.` and `/` in place and makes none. */
  lemma {:induction false} LowerAsciiKeepsShape(e: string)
    requires ExtensionShaped(LowerAscii(e))
    ensures ExtensionShaped(e)
  {
    var lower := LowerAscii(e);
    forall i | 0 <= i < |e|
      ensures (e[i] == '.') == (lower[i] == '.') && (e[i] == '/') == (lower[i] == '/')
    {
      assert lower[i] == LowerChar(e[i]);
    }
  }

  lemma AbsentNotFound(s: string, c: char)
    requires forall i :: 0 <= i < |s| ==> s[i] != c
    ensures LastIndexOf(s, c).None?
  {
  }

  /** The last `/` of a name ending in an extension lies before the
      extension, so the last component is what follows it in the base plus
      the extension. */
  lemma {:induction false} ComponentOfExtended(base: string, ext: string)
    requires ExtensionShaped(ext)
    ensures var k := LastIndexOf(base, '/');
            LastComponent(base + ext) == (if k.Some? then base[k.value + 1..] else base) + ext
  {
    var p := base + ext;
    AbsentNotFound(ext, '/');
    LastIndexOfAppend(base, ext, '/');
    var k := LastIndexOf(base, '/');
    if k.Some? {
      assert p[k.value + 1..] == base[k.value + 1..] + ext;
    }
  }

  /** A name whose last component is a non-empty stem plus an extension
      has exactly that extension. */
  lemma {:induction false} ExtnameOfExtended(base: string, ext: string)
    requires ExtensionShaped(ext)
    requires |base| > 0 && base[|base| - 1] != '/'
    ensures Extname(base + ext) == ext
  {
    var p := base + ext;
    assert p[|p| - 1] == ext[|ext| - 1];
    ComponentOfExtended(base, ext);
    var k := LastIndexOf(base, '/');
    var front := if k.Some? then base[k.value + 1..] else base;
    assert |front| > 0;
    ExtnameOfComponent(p, front, ext);
  }

  /** The only `.` of an extension is its first character. */
  lemma DotFirst(ext: string)
    requires ExtensionShaped(ext)
    ensures LastIndexOf(ext, '.') == Some(0)
  {
  }

  lemma {:induction false} ExtnameOfComponent(p: string, front: string, ext: string)
    requires ExtensionShaped(ext) && |front| > 0
    requires TrimTrailingSlashes(p) == p && LastComponent(p) == front + ext
    ensures Extname(p) == ext
  {
    var c := front + ext;
    DotFirst(ext);
    LastIndexOfAppend(front, ext, '.');
    assert LastIndexOf(c, '.') == Some(|front|);
    assert c[|front|..] == ext;
  }

  /** A name made of a non-empty base that does not end in `/` and one of
      the six extensions, in any letter case, passes the filter with that
      extension. */
  lemma {:induction false} AllowedExtensionAccepted(base: string, ext: string)
    requires LowerAscii(ext) in ALLOWED
    requires |base| > 0 && base[|base| - 1] != '/'
    ensures Extname(base + ext) == ext
    ensures FileFilter(base + ext)
  {
    AllowedAreExtensions(LowerAscii(ext));
    LowerAsciiKeepsShape(ext);
    ExtnameOfExtended(base, ext);
  }

  lemma NoExtensionRejected(name: string)
    requires Extname(name) == ""
    ensures !FileFilter(name)
  {
    assert LowerAscii("") == "";
  }

  /** A bare extension (`.mp3`, `music/.mp3`) is a hidden file without an
      extension, and never passes the filter. */
  lemma {:induction false} BareExtensionRejected(dir: string, ext: string)
    requires ExtensionShaped(ext)
    requires dir == "" || dir[|dir| - 1] == '/'
    ensures Extname(dir + ext) == "" && !FileFilter(dir + ext)
  {
    var p := dir + ext;
    assert p[|p| - 1] == ext[|ext| - 1];
    ComponentOfExtended(dir, ext);
    if dir == "" {
      assert p == ext;
    } else {
      assert LastIndexOf(dir, '/') == Some(|dir| - 1);
      assert dir[|dir|..] + ext == ext;
    }
    BareComponent(p, ext);
    NoExtensionRejected(p);
  }

  lemma BareComponent(p: string, ext: string)
    requires ExtensionShaped(ext) && TrimTrailingSlashes(p) == p && LastComponent(p) == ext
    ensures Extname(p) == ""
  {
    DotFirst(ext);
  }

  /** A name without any `.` never passes the filter. */
  lemma {:induction false} NoDotRejected(name: string)
    requires forall i :: 0 <= i < |name| ==> name[i] != '.'
    ensures Extname(name) == "" && !FileFilter(name)
  {
    var t := TrimTrailingSlashes(name);
    var c := LastComponent(t);
    assert forall i :: 0 <= i < |c| ==> c[i] == t[|t| - |c| + i] == name[|t| - |c| + i];
    assert LastIndexOf(c, '.').None?;
    NoExtensionRejected(name);
  }

  // ---------------------------------------------------------------------
  // Display names.

  /** The length of the leading run of digits. */
  function DigitRun(s: string): (k: nat)
    ensures k <= |s|
    ensures forall i :: 0 <= i < k ==> IsDigit(s[i])
    ensures k < |s| ==> !IsDigit(s[k])
  {
    if |s| > 0 && IsDigit(s[0]) then 1 + DigitRun(s[1..]) else 0
  }

  lemma {:induction false} DigitRunOfPrefix(d: string, rest: string)
    requires forall i :: 0 <= i < |d| ==> IsDigit(d[i])
    requires |rest| > 0 && !IsDigit(rest[0])
    ensures DigitRun(d + rest) == |d|
  {
    if |d| > 0 {
      assert (d + rest)[1..] == d[1..] + rest;
      DigitRunOfPrefix(d[1..], rest);
    } else {
      assert d + rest == rest;
    }
  }

  /** `replace(/^\d+-/, '')`: a leading run of digits followed by `-` is
      removed. */
  function StripTimestamp(s: string): (r: string)
    ensures r == s || (exists k :: 0 < k < |s| && s[k] == '-' && r == s[k + 1..] && forall i :: 0 <= i < k ==> IsDigit(s[i]))
    ensures forall k :: 0 < k < |s| && s[k] == '-' && (forall i :: 0 <= i < k ==> IsDigit(s[i])) ==> r == s[k + 1..]
  {
    var k := DigitRun(s);
    if 0 < k < |s| && s[k] == '-' then s[k + 1..] else s
  }

  /** `replace(/\.[^.]+$/, '')`: a last `.` with at least one character after
      it is removed together with what follows. */
  function StripExt(s: string): (r: string)
    ensures |r| <= |s| && r == s[..|r|]
    ensures r == s || (|s| - |r| >= 2 && s[|r|] == '.' && forall i :: |r| < i < |s| ==> s[i] != '.')
    ensures forall j :: 0 <= j < |s| - 1 && s[j] == '.' && (forall i :: j < i < |s| ==> s[i] != '.') ==> r == s[..j]
    ensures (forall i :: 0 <= i < |s| ==> s[i] != '.') || (|s| > 0 && s[|s| - 1] == '.') ==> r == s
  {
    match LastIndexOf(s, '.')
    case Some(i) => if i < |s| - 1 then s[..i] else s
    case None => s
  }

  /** `replace(/_/g, ' ')`. */
  function Spaces(s: string): (r: string)
    ensures |r| == |s|
    ensures forall i :: 0 <= i < |s| ==> r[i] == (if s[i] == '_' then ' ' else s[i])
  {
    if |s| == 0 then "" else Spaces(s[..|s| - 1]) + [if s[|s| - 1] == '_' then ' ' else s[|s| - 1]]
  }

  /** The display name of a stored file in the track listing. */
  function DisplayName(stored: string): (r: string)
    ensures |r| <= |stored|
  {
    Spaces(StripExt(StripTimestamp(stored)))
  }

  /** Sanitising keeps every `.` where it is, so the extension is stripped
      at the same place before or after. */
  lemma {:induction false} StripExtSanitize(s: string)
    ensures StripExt(Sanitize(s)) == Sanitize(StripExt(s))
  {
    var t := Sanitize(s);
    assert forall i :: 0 <= i < |s| ==> (t[i] == '.' <==> s[i] == '.');
    var ls := LastIndexOf(s, '.');
    var lt := LastIndexOf(t, '.');
    assert ls == lt;
    if ls.Some? && ls.value < |s| - 1 {
      assert Sanitize(s[..ls.value]) == t[..ls.value];
    }
  }

  /** The listing shows an upload under the name the uploader gave it,
      without its extension, with unsafe characters and underscores turned
      into spaces: the timestamp prefix is always removed again. */
  lemma {:induction false} DisplayNameOfUpload(now: nat, original: string)
    ensures DisplayName(UploadName(now, original)) == Spaces(Sanitize(StripExt(original)))
  {
    var d := DecimalString(now);
    var stored := UploadName(now, original);
    assert stored == d + ("-" + Sanitize(original));
    DigitRunOfPrefix(d, "-" + Sanitize(original));
    assert DigitRun(stored) == |d| && stored[|d|] == '-';
    assert stored[|d| + 1..] == Sanitize(original);
    assert StripTimestamp(stored) == Sanitize(original);
    StripExtSanitize(original);
  }

  // ---------------------------------------------------------------------
  // The delete route's category check.

  /** The categories that have an audio directory. */
  predicate ValidCategory(c: string) {
    c == "bgm" || c == "ambience" || c == "sfx"
  }

  /** The properties every plain object inherits, all of them truthy. */
  const PROTOTYPE_NAMES: set<string> := {
    "constructor", "__proto__", "hasOwnProperty", "isPrototypeOf", "propertyIsEnumerable",
    "toString", "toLocaleString", "valueOf",
    "__defineGetter__", "__defineSetter__", "__lookupGetter__", "__lookupSetter__"}

  /** How the delete route answers a category before touching the disk. */
  datatype CategoryVerdict = Rejected | Accepted | Threw

  /** The check as written: `AUDIO_DIRS[category]` is truthy for the three
      categories and for every inherited name; for the latter, joining the
      inherited value with the file name throws, and the request ends in a
      server error instead of the 400 "Invalid category" answer. */
  function CategoryCheckAsWritten(c: string): (r: CategoryVerdict)
    ensures ValidCategory(c) ==> r == Accepted
    ensures r == Rejected <==> !ValidCategory(c) && c !in PROTOTYPE_NAMES
    ensures c in PROTOTYPE_NAMES ==> r == Threw
  {
    if ValidCategory(c) then Accepted
    else if c in PROTOTYPE_NAMES then Threw
    else Rejected
  }

  /** The check as intended: own categories only. */
  function CategoryCheck(c: string): (r: CategoryVerdict)
    ensures r != Threw
    ensures r == Accepted <==> c == "bgm" || c == "ambience" || c == "sfx"
  {
    if ValidCategory(c) then Accepted else Rejected
  }

  /** The written check lets "constructor" past the 400 answer. */
  lemma CategoryCheckAdmitsInheritedNames()
    ensures CategoryCheckAsWritten("constructor") == Threw
    ensures CategoryCheck("constructor") == Rejected
  {
  }

  /** The two checks agree on every name that is not inherited. */
  lemma CategoryChecksAgree(c: string)
    requires c !in PROTOTYPE_NAMES
    ensures CategoryCheckAsWritten(c) == CategoryCheck(c)
  {
  }
}
