/**
 * The slice of Python's built-in behaviour the research pipelines rely on:
 * the exception classes they catch, and the `str` operations they call
 * (`strip`, `startswith`, `endswith`, `replace(pat, "")`, `sep.join`).
 */
module Python {

  datatype Option<T> = None | Some(value: T)

  datatype Result<T, E> = Ok(value: T) | Err(error: E)

  /** The concrete exception types that reach the pipelines' handlers. */
  datatype ExnKind =
    | ResourceExhausted    // google.api_core.exceptions.ResourceExhausted (HTTP 429)
    | OtherGoogleApiError  // any other google.api_core.exceptions.GoogleAPIError
    | JsonDecodeError      // json.JSONDecodeError
    | OtherValueError      // a ValueError that is not a JSONDecodeError
    | RetryError           // tenacity.RetryError, raised when retrying gives up
    | OtherException       // KeyError, TypeError, network failures, ...

  /** The classes named in the pipelines' `except` and `retry_if_exception_type` clauses. */
  datatype ExnClass =
    | ExceptionClass
    | GoogleApiErrorClass
    | ResourceExhaustedClass
    | ValueErrorClass
    | JsonDecodeErrorClass

  /** An exception value: its type and `str(e)`. A RetryError carries the
      message of the last attempt's exception instead, since the model
      never prints the RetryError itself. */
  datatype Exn = Exn(kind: ExnKind, msg: string)

  /** `isinstance(e, c)` along the library class hierarchy:
      ResourceExhausted <: GoogleAPIError <: Exception and
      JSONDecodeError <: ValueError <: Exception. */
  predicate IsInstance(k: ExnKind, c: ExnClass)
  {
    match c
    case ExceptionClass => true
    case GoogleApiErrorClass => k == ResourceExhausted || k == OtherGoogleApiError
    case ResourceExhaustedClass => k == ResourceExhausted
    case ValueErrorClass => k == JsonDecodeError || k == OtherValueError
    case JsonDecodeErrorClass => k == JsonDecodeError
  }

  // ---------- str.startswith / str.endswith ----------

  predicate StartsWith(s: string, prefix: string)
  {
    |prefix| <= |s| && s[..|prefix|] == prefix
  }

  predicate EndsWith(s: string, suffix: string)
  {
    |suffix| <= |s| && s[|s| - |suffix|..] == suffix
  }

  // ---------- str.strip() ----------

  /** `str.isspace` for one character (Python 3's whitespace set). */
  predicate IsSpace(c: char)
  {
    || c == ' '
    || ('\t' <= c <= '\r')
    || ('\U{1C}' <= c <= '\U{1F}')
    || c == '\U{85}' || c == '\U{A0}' || c == '\U{1680}'
    || ('\U{2000}' <= c <= '\U{200A}')
    || c == '\U{2028}' || c == '\U{2029}' || c == '\U{202F}'
    || c == '\U{205F}' || c == '\U{3000}'
  }

  /** `s.lstrip()`. */
  function StripLeft(s: string): string
  {
    if |s| > 0 && IsSpace(s[0]) then StripLeft(s[1..]) else s
  }

  /** `s.rstrip()`. */
  function StripRight(s: string): string
  {
    if |s| > 0 && IsSpace(s[|s| - 1]) then StripRight(s[..|s| - 1]) else s
  }

  /** `s.strip()`. */
  function Strip(s: string): string
  {
    StripRight(StripLeft(s))
  }

  /** `lstrip` drops exactly the longest all-whitespace prefix. */
  lemma {:induction false} StripLeftDrops(s: string)
    ensures var r := StripLeft(s);
      && |r| <= |s| && r == s[|s| - |r|..]
      && (r == [] || !IsSpace(r[0]))
      && forall i :: 0 <= i < |s| - |r| ==> IsSpace(s[i])
    decreases |s|
  {
    if |s| > 0 && IsSpace(s[0]) {
      StripLeftDrops(s[1..]);
      var r := StripLeft(s[1..]);
      assert s[1..][|s| - 1 - |r|..] == s[|s| - |r|..];
      forall i | 1 <= i < |s| - |r| ensures IsSpace(s[i]) {
        assert s[i] == s[1..][i - 1];
      }
    }
  }

  /** `rstrip` drops exactly the longest all-whitespace suffix. */
  lemma {:induction false} StripRightDrops(s: string)
    ensures var r := StripRight(s);
      && |r| <= |s| && r == s[..|r|]
      && (r == [] || !IsSpace(r[|r| - 1]))
      && forall i :: |r| <= i < |s| ==> IsSpace(s[i])
    decreases |s|
  {
    if |s| > 0 && IsSpace(s[|s| - 1]) {
      StripRightDrops(s[..|s| - 1]);
      var r := StripRight(s[..|s| - 1]);
      assert s[..|s| - 1][..|r|] == s[..|r|];
      forall i | |r| <= i < |s| - 1 ensures IsSpace(s[i]) {
        assert s[i] == s[..|s| - 1][i];
      }
    }
  }

  /** What `strip` promises: no whitespace at either end, and it is empty
      exactly when the input is all whitespace. */
  lemma StripEnds(s: string)
    ensures var r := Strip(s);
      && (r == [] || (!IsSpace(r[0]) && !IsSpace(r[|r| - 1])))
      && (r == [] <==> forall i :: 0 <= i < |s| ==> IsSpace(s[i]))
  {
    var l := StripLeft(s);
    StripLeftDrops(s);
    StripRightDrops(l);
    var r := StripRight(l);
    if r != [] {
      assert r[0] == l[0];
    }
    if l != [] {
      assert !IsSpace(s[|s| - |l|]);
    }
  }

  /** A stripped string never ends with a newline. */
  lemma StrippedNotNewlineTerminated(s: string)
    ensures !EndsWith(Strip(s), "\n")
  {
    StripEnds(s);
  }

  /** `strip` is idempotent. */
  lemma StripIdempotent(s: string)
    ensures Strip(Strip(s)) == Strip(s)
  {
    StripEnds(s);
    var r := Strip(s);
    assert StripLeft(r) == r;
    assert StripRight(r) == r;
  }

  /** `strip` keeps a prefix that begins and ends with non-whitespace. */
  lemma StripKeepsPrefix(s: string, p: string)
    requires StartsWith(s, p) && |p| > 0
    requires !IsSpace(p[0]) && !IsSpace(p[|p| - 1])
    ensures StartsWith(Strip(s), p)
  {
    assert StripLeft(s) == s;
    StripRightDrops(s);
    var r := StripRight(s);
    assert r[..|p|] == s[..|p|];
  }

  // ---------- str.replace(pat, "") ----------

  predicate OccursAt(s: string, pat: string, i: int)
  {
    0 <= i && i + |pat| <= |s| && s[i..i + |pat|] == pat
  }

  predicate Occurs(s: string, pat: string)
  {
    exists i | 0 <= i <= |s| - |pat| :: OccursAt(s, pat, i)
  }

  /** `s.replace(pat, "")`: scans left to right and deletes every
      non-overlapping occurrence of `pat`, not only a leading one. */
  function RemoveAll(s: string, pat: string): (r: string)
    ensures |r| <= |s|
    decreases |s|
  {
    if |pat| == 0 || |s| < |pat| then s
    else if s[..|pat|] == pat then RemoveAll(s[|pat|..], pat)
    else [s[0]] + RemoveAll(s[1..], pat)
  }

  /** Without an occurrence, nothing is removed. */
  lemma {:induction false} RemoveAllAbsent(s: string, pat: string)
    requires !Occurs(s, pat)
    ensures RemoveAll(s, pat) == s
    decreases |s|
  {
    if |pat| == 0 || |s| < |pat| {
    } else {
      assert !OccursAt(s, pat, 0);
      forall i | OccursAt(s[1..], pat, i) ensures false {
        assert s[1..][i..i + |pat|] == s[i + 1..i + 1 + |pat|];
        assert OccursAt(s, pat, i + 1);
      }
      RemoveAllAbsent(s[1..], pat);
    }
  }

  /** With an occurrence anywhere, at least one whole copy of `pat` is removed. */
  lemma {:induction false} RemoveAllPresent(s: string, pat: string, i: int)
    requires |pat| > 0 && OccursAt(s, pat, i)
    ensures |RemoveAll(s, pat)| <= |s| - |pat|
    decreases |s|
  {
    if s[..|pat|] == pat {
    } else {
      assert s[1..][i - 1..i - 1 + |pat|] == s[i..i + |pat|];
      RemoveAllPresent(s[1..], pat, i - 1);
    }
  }

  // ---------- sep.join(xs) ----------

  /** `sep.join(xs)`. */
  function Join(xs: seq<string>, sep: string): string
  {
    if |xs| == 0 then ""
    else if |xs| == 1 then xs[0]
    else Join(xs[..|xs| - 1], sep) + sep + xs[|xs| - 1]
  }

  /** Joining a concatenation puts exactly one separator between the halves. */
  lemma {:induction false} JoinAppend(a: seq<string>, b: seq<string>, sep: string)
    requires |a| > 0 && |b| > 0
    ensures Join(a + b, sep) == Join(a, sep) + sep + Join(b, sep)
    decreases |b|
  {
    if |b| == 1 {
      assert (a + b)[..|a + b| - 1] == a;
    } else {
      var b' := b[..|b| - 1];
      assert (a + b)[..|a + b| - 1] == a + b';
      JoinAppend(a, b', sep);
    }
  }

  // ---------- counting a character (used to count lines) ----------

  /** `s.count(c)` for a single character. */
  function Count(s: string, c: char): nat
  {
    if |s| == 0 then 0
    else Count(s[..|s| - 1], c) + (if s[|s| - 1] == c then 1 else 0)
  }

  lemma {:induction false} CountAppend(a: string, b: string, c: char)
    ensures Count(a + b, c) == Count(a, c) + Count(b, c)
    decreases |b|
  {
    if |b| == 0 {
      assert a + b == a;
    } else {
      assert (a + b)[..|a + b| - 1] == a + b[..|b| - 1];
      CountAppend(a, b[..|b| - 1], c);
    }
  }

  lemma {:induction false} CountAbsent(s: string, c: char)
    requires forall i :: 0 <= i < |s| ==> s[i] != c
    ensures Count(s, c) == 0
    decreases |s|
  {
    if |s| > 0 {
      CountAbsent(s[..|s| - 1], c);
    }
  }

  /** Number of lines of a text: one more than its newlines. */
  function LineCount(s: string): nat
  {
    Count(s, '\n') + 1
  }

  /** Total number of lines over a list of texts. */
  function LineTotal(xs: seq<string>): nat
  {
    if |xs| == 0 then 0 else LineTotal(xs[..|xs| - 1]) + LineCount(xs[|xs| - 1])
  }

  /** `"\n".join(xs)` has as many lines as its parts together. */
  lemma {:induction false} JoinLines(xs: seq<string>)
    requires |xs| > 0
    ensures LineCount(Join(xs, "\n")) == LineTotal(xs)
    decreases |xs|
  {
    if |xs| == 1 {
      assert xs[..0] == [];
    } else {
      var init := xs[..|xs| - 1];
      JoinLines(init);
      CountAppend(Join(init, "\n"), "\n", '\n');
      CountAppend(Join(init, "\n") + "\n", xs[|xs| - 1], '\n');
    }
  }
}
