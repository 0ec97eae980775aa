/** The pieces of the Java runtime and of commons-lang that the adapters and the
    telemetry builder rely on: null, exceptions, `StringUtils.isBlank`,
    `String.equalsIgnoreCase`, `String.contains`, `String.split` on a one-character
    separator and string concatenation of a possibly-null string. */
module JavaLang {

  /** A Java reference that may be null. */
  datatype Option<+T> = None | Some(value: T)

  /** The result of a step that may raise a Java exception. */
  datatype Result<+R, +E> = Ok(value: R) | Err(error: E) {
    predicate IsFailure() { Err? }
    function PropagateFailure<U>(): Result<U, E> requires Err? { Err(error) }
    function Extract(): R requires Ok? { value }
  }

  /** What the client library, the HTTP utility or Jackson raised. */
  datatype Cause =
    | IOFailure(detail: string)             // java.io.IOException and its subclasses
    | SearchPhaseFailure(rootCause: string) // SearchPhaseExecutionException, with its root cause's message
    | OtherFailure(detail: string)          // any other exception

  /** The error codes of `ResponseCode` that the adapters raise. */
  datatype ErrorCode = InvalidData | InvalidValue(message: string) | UnableToConnectToES | UnableToParseData

  /** The HTTP status a `ProjectCommonException` carries: the code's own, SERVER_ERROR or CLIENT_ERROR. */
  datatype Status = OwnStatus | ServerError | ClientError

  datatype Exception =
    | Thrown(cause: Cause)                           // an exception passed through unchanged
    | ProjectCommon(code: ErrorCode, status: Status) // org.sunbird ProjectCommonException
    | IllegalState                                   // a promise completed twice; a duplicate key in Collectors.toMap
    | NullPointer
    | ClassCast
    | IndexOutOfBounds

  /** `Character.isWhitespace`: the Unicode space, line and paragraph separators other
      than the no-break spaces, and the ASCII controls TAB, LF, VT, FF, CR, FS, GS, RS, US. */
  predicate IsWhitespace(c: char) {
    || ('\t' <= c <= '\r')
    || ('\U{1C}' <= c <= '\U{1F}')
    || c == ' '
    || c == '\U{1680}'
    || ('\U{2000}' <= c <= '\U{2006}')
    || ('\U{2008}' <= c <= '\U{200A}')
    || c == '\U{2028}' || c == '\U{2029}' || c == '\U{205F}' || c == '\U{3000}'
  }

  /** `StringUtils.isBlank`: null, empty, or whitespace only. */
  predicate IsBlank(s: Option<string>) {
    s.None? || forall i :: 0 <= i < |s.value| ==> IsWhitespace(s.value[i])
  }

  /** How `+` renders a possibly-null string operand. */
  function Show(s: Option<string>): (r: string)
    ensures s.Some? ==> r == s.value
  {
    if s.None? then "null" else s.value
  }

  /** The lower-case letter a character matches under `equalsIgnoreCase` when the other
      side is ASCII: ASCII capitals fold to lower case, and dotless i, capital I with dot,
      long s and the Kelvin sign fold to the ASCII letter they match. */
  function Fold(c: char): char {
    if 'A' <= c <= 'Z' then (c as int + 32) as char
    else if c == '\U{0131}' || c == '\U{0130}' then 'i'
    else if c == '\U{017F}' then 's'
    else if c == '\U{212A}' then 'k'
    else c
  }

  /** `s.equalsIgnoreCase(lit)` for an ASCII literal `lit`; a null `s` never matches. */
  predicate EqualsIgnoreCase(s: Option<string>, lit: string) {
    s.Some? && |s.value| == |lit| && forall i :: 0 <= i < |lit| ==> Fold(s.value[i]) == Fold(lit[i])
  }

  /** `s.contains(String.valueOf(c))`. */
  predicate ContainsChar(s: string, c: char) {
    exists i :: 0 <= i < |s| && s[i] == c
  }

  /** The characters of `s` before its first `sep` (all of `s` when there is none). */
  function TakeUntil(s: string, sep: char): (r: string)
    ensures |r| <= |s| && r == s[..|r|]
    ensures forall i :: 0 <= i < |r| ==> r[i] != sep
    ensures |r| < |s| ==> s[|r|] == sep
  {
    if s == [] || s[0] == sep then "" else [s[0]] + TakeUntil(s[1..], sep)
  }

  /** Every piece of `s` between separators, empty pieces included. */
  function Segments(s: string, sep: char): (r: seq<string>)
    ensures |r| >= 1
  {
    if s == [] then [""]
    else
      var rest := Segments(s[1..], sep);
      if s[0] == sep then [""] + rest else [[s[0]] + rest[0]] + rest[1..]
  }

  function DropTrailingEmpty(xs: seq<string>): seq<string> {
    if xs == [] then []
    else if xs[|xs| - 1] == "" then DropTrailingEmpty(xs[..|xs| - 1])
    else xs
  }

  /** `s.split(String.valueOf(sep))` for a separator that is not a regex metacharacter:
      an empty input gives `[""]`, otherwise trailing empty pieces are removed. */
  function Split(s: string, sep: char): seq<string> {
    if s == "" then [""] else DropTrailingEmpty(Segments(s, sep))
  }

  lemma {:induction false} SegmentsHead(s: string, sep: char)
    ensures Segments(s, sep)[0] == TakeUntil(s, sep)
  {
    if s != [] && s[0] != sep {
      SegmentsHead(s[1..], sep);
    }
  }

  lemma {:induction false} SegmentsAllEmpty(s: string, sep: char)
    requires s != []
    ensures (forall i :: 0 <= i < |Segments(s, sep)| ==> Segments(s, sep)[i] == "")
        <==> (forall j :: 0 <= j < |s| ==> s[j] == sep)
  {
    var r := Segments(s, sep);
    if s[0] != sep {
      var rest := Segments(s[1..], sep);
      assert r == [[s[0]] + rest[0]] + rest[1..];
      assert r[0][0] == s[0];
      assert Segments(s, sep)[0] != "";
      assert !(forall i :: 0 <= i < |Segments(s, sep)| ==> Segments(s, sep)[i] == "");
      assert !(forall j :: 0 <= j < |s| ==> s[j] == sep);
    } else if |s| == 1 {
      assert r == ["", ""];
    } else {
      SegmentsAllEmpty(s[1..], sep);
      assert r == [""] + Segments(s[1..], sep);
      if forall j :: 0 <= j < |s| ==> s[j] == sep {
        assert forall j :: 0 <= j < |s[1..]| ==> s[1..][j] == sep by {
          forall j | 0 <= j < |s[1..]| ensures s[1..][j] == sep { assert s[1..][j] == s[j + 1]; }
        }
      }
      if forall i :: 0 <= i < |r| ==> r[i] == "" {
        assert forall i :: 0 <= i < |Segments(s[1..], sep)| ==> Segments(s[1..], sep)[i] == "" by {
          forall i | 0 <= i < |Segments(s[1..], sep)| ensures Segments(s[1..], sep)[i] == "" {
            assert Segments(s[1..], sep)[i] == r[i + 1];
          }
        }
        forall j | 0 <= j < |s| ensures s[j] == sep {
          if j > 0 { assert s[j] == s[1..][j - 1]; }
        }
      }
    }
  }

  lemma {:induction false} DropTrailingEmptyPrefix(xs: seq<string>)
    ensures |DropTrailingEmpty(xs)| <= |xs|
    ensures DropTrailingEmpty(xs) == xs[..|DropTrailingEmpty(xs)|]
    ensures DropTrailingEmpty(xs) == [] <==> forall i :: 0 <= i < |xs| ==> xs[i] == ""
  {
    if xs != [] && xs[|xs| - 1] == "" {
      var init := xs[..|xs| - 1];
      DropTrailingEmptyPrefix(init);
      assert forall i :: 0 <= i < |init| ==> init[i] == xs[i];
    }
  }

  /** `s.split(",")[0]` exists exactly when `s` holds a character other than the separator,
      and then it is the text before the first separator. */
  lemma SplitFirst(s: string, sep: char)
    requires s != ""
    ensures |Split(s, sep)| > 0 <==> exists j :: 0 <= j < |s| && s[j] != sep
    ensures |Split(s, sep)| > 0 ==> Split(s, sep)[0] == TakeUntil(s, sep)
  {
    DropTrailingEmptyPrefix(Segments(s, sep));
    SegmentsAllEmpty(s, sep);
    SegmentsHead(s, sep);
  }
}
