/**
 * Values and string operations shared by every part of the model: the
 * optional and error-carrying results that stand for Python's `None` and
 * error returns, and the few `str` methods the handlers rely on
 * (`strip`, `lower`, `split`, `startswith`, `in`).
 */
module Common {

  datatype Option<T> = None | Some(value: T)

  datatype Result<T> = Ok(value: T) | Err(msg: string)

  /** Python truthiness of an optional string: present and non-empty. */
  predicate Truthy(o: Option<string>) {
    o.Some? && o.value != ""
  }

  /** The characters Python's `str.isspace()` accepts, which are the ones
      `str.strip()` with no argument removes: the ASCII controls tab to
      carriage return and file to unit separator, the space, and the
      Unicode spaces and line and paragraph separators. */
  predicate IsSpace(c: char) {
    || c == ' ' || c == '\t' || c == '\n' || c == '\U{000B}' || c == '\U{000C}' || c == '\r'
    || '\U{001C}' <= c <= '\U{001F}'
    || c == '\U{0085}' || c == '\U{00A0}' || c == '\U{1680}'
    || '\U{2000}' <= c <= '\U{200A}'
    || c == '\U{2028}' || c == '\U{2029}' || c == '\U{202F}' || c == '\U{205F}' || c == '\U{3000}'
  }

  /** All characters are whitespace, i.e. `not s.strip()`. */
  predicate AllSpace(s: string) {
    forall i :: 0 <= i < |s| ==> IsSpace(s[i])
  }

  /** `s.lstrip()` */
  function TrimLeft(s: string): string
    decreases |s|
  {
    if s != [] && IsSpace(s[0]) then TrimLeft(s[1..]) else s
  }

  /** `s.rstrip()` */
  function TrimRight(s: string): string
    decreases |s|
  {
    if s != [] && IsSpace(s[|s| - 1]) then TrimRight(s[..|s| - 1]) else s
  }

  /** `lstrip` removes a run of whitespace from the front and stops at the
      first other character. */
  lemma {:induction false} TrimLeftSpec(s: string)
    ensures |TrimLeft(s)| <= |s| && TrimLeft(s) == s[|s| - |TrimLeft(s)|..]
    ensures AllSpace(s[..|s| - |TrimLeft(s)|])
    ensures TrimLeft(s) == [] || !IsSpace(TrimLeft(s)[0])
    decreases |s|
  {
    if s != [] && IsSpace(s[0]) {
      var r := TrimLeft(s[1..]);
      TrimLeftSpec(s[1..]);
      assert s[1..][..|s[1..]| - |r|] == s[1..|s| - |r|];
    }
  }

  /** `rstrip` removes a run of whitespace from the end and stops at the
      last other character. */
  lemma {:induction false} TrimRightSpec(s: string)
    ensures |TrimRight(s)| <= |s| && TrimRight(s) == s[..|TrimRight(s)|]
    ensures AllSpace(s[|TrimRight(s)|..])
    ensures TrimRight(s) == [] || !IsSpace(TrimRight(s)[|TrimRight(s)| - 1])
    decreases |s|
  {
    if s != [] && IsSpace(s[|s| - 1]) {
      var r := TrimRight(s[..|s| - 1]);
      TrimRightSpec(s[..|s| - 1]);
      assert s[..|s| - 1][|r|..] + [s[|s| - 1]] == s[|r|..];
    }
  }

  /** Python's `s.strip()`: the slice left after removing whitespace at both ends. */
  function Strip(s: string): string {
    TrimRight(TrimLeft(s))
  }

  /** What `Strip(s)` is: the slice of `s` that starts after the leading
      whitespace and stops before the trailing whitespace. */
  lemma StripIsSlice(s: string)
    ensures |TrimLeft(s)| <= |s|
    ensures var i := |s| - |TrimLeft(s)|;
            i + |Strip(s)| <= |s| && Strip(s) == s[i..i + |Strip(s)|]
            && AllSpace(s[..i]) && AllSpace(s[i + |Strip(s)|..])
    ensures Strip(s) == [] || (!IsSpace(Strip(s)[0]) && !IsSpace(Strip(s)[|Strip(s)| - 1]))
  {
    var l := TrimLeft(s);
    TrimLeftSpec(s);
    var i := |s| - |l|;
    var r := TrimRight(l);
    TrimRightSpec(l);
    assert r == Strip(s);
    var j := i + |r|;
    assert l == s[i..];
    assert s[i..j] == l[..|r|];
    assert s[j..] == l[|r|..];
    if r != [] {
      assert r[0] == l[0];
    }
  }

  /** Stripping twice is stripping once. */
  lemma StripIdempotent(s: string)
    ensures Strip(Strip(s)) == Strip(s)
  {
    StripIsSlice(s);
    var t := Strip(s);
    assert TrimLeft(t) == t;
    assert TrimRight(t) == t;
  }

  /** `not s.strip()`: a value the handlers reject as blank. */
  lemma BlankIffAllSpace(s: string)
    ensures Strip(s) == [] <==> AllSpace(s)
  {
    var l := TrimLeft(s);
    TrimLeftSpec(s);
    TrimRightSpec(l);
    assert l != [] ==> l[0] == s[|s| - |l|];
    assert s[..|s|] == s;
    assert l[0..] == l;
  }

  function LowerChar(c: char): char {
    if 'A' <= c <= 'Z' then (c as int + 32) as char else c
  }

  /** Python's `s.lower()`, on the ASCII letters. */
  function Lower(s: string): string {
    seq(|s|, i requires 0 <= i < |s| => LowerChar(s[i]))
  }

  lemma LowerSlice(s: string, i: int, j: int)
    requires 0 <= i <= j <= |s|
    ensures Lower(s[i..j]) == Lower(s)[i..j]
  {
  }

  lemma LowerKeepsSpace(s: string)
    ensures forall k :: 0 <= k < |s| ==> (IsSpace(Lower(s)[k]) <==> IsSpace(s[k]))
  {
  }

  /** Lower-casing and stripping commute, so `platform.lower().strip()` and
      `p.strip().lower()` normalise a platform name to the same value. */
  lemma {:induction false} StripLowerCommute(s: string)
    ensures Strip(Lower(s)) == Lower(Strip(s))
    decreases |s|
  {
    LowerKeepsSpace(s);
    if s == [] {
    } else if IsSpace(s[0]) {
      assert Lower(s)[1..] == Lower(s[1..]);
      assert TrimLeft(Lower(s)) == TrimLeft(Lower(s[1..]));
      StripLowerCommute(s[1..]);
    } else if IsSpace(s[|s| - 1]) {
      var t := s[..|s| - 1];
      assert Lower(s)[..|s| - 1] == Lower(t);
      assert TrimLeft(s) == s;
      assert TrimLeft(Lower(s)) == Lower(s);
      assert TrimLeft(t) == t;
      LowerKeepsSpace(t);
      assert TrimLeft(Lower(t)) == Lower(t) by {
        if t != [] { assert Lower(t)[0] == Lower(s)[0]; }
      }
      StripLowerCommute(t);
    } else {
      assert TrimLeft(s) == s && TrimRight(s) == s;
      assert TrimLeft(Lower(s)) == Lower(s);
      assert TrimRight(Lower(s)) == Lower(s);
    }
  }

  /** `s[:n] + "..." if len(s) > n else s`: a display abbreviation. */
  function Abbreviate(s: string, n: nat): (r: string)
    ensures |s| <= n ==> r == s
    ensures |s| > n ==> |r| == n + 3 && r[..n] == s[..n] && r[n..] == "..."
  {
    if |s| > n then s[..n] + "..." else s
  }

  predicate StartsWith(s: string, prefix: string) {
    |prefix| <= |s| && s[..|prefix|] == prefix
  }

  /** Python's `sub in s` for strings. */
  predicate Contains(s: string, sub: string)
    decreases |s|
  {
    StartsWith(s, sub) || (s != [] && Contains(s[1..], sub))
  }

  predicate OccursAt(s: string, sub: string, i: int) {
    0 <= i <= |s| - |sub| && s[i..i + |sub|] == sub
  }

  /** `Contains` is substring search: some position holds `sub`. */
  lemma {:induction false} ContainsAt(s: string, sub: string)
    ensures Contains(s, sub) <==> exists i :: OccursAt(s, sub, i)
    decreases |s|
  {
    if StartsWith(s, sub) {
      assert OccursAt(s, sub, 0);
    }
    if s != [] {
      ContainsAt(s[1..], sub);
      if Contains(s[1..], sub) {
        var i :| OccursAt(s[1..], sub, i);
        assert s[1..][i..i + |sub|] == s[i + 1..i + 1 + |sub|];
        assert OccursAt(s, sub, i + 1);
      }
      if exists i :: OccursAt(s, sub, i) {
        var i :| OccursAt(s, sub, i);
        if i > 0 {
          assert s[1..][i - 1..i - 1 + |sub|] == s[i..i + |sub|];
          assert OccursAt(s[1..], sub, i - 1);
        }
      }
    } else {
      if exists i :: OccursAt(s, sub, i) {
        var i :| OccursAt(s, sub, i);
        assert sub == [];
      }
    }
  }

  /** Python's `s.split(sep)` for a one-character separator: the pieces
      between separators, always at least one. */
  function Split(s: string, sep: char): (parts: seq<string>)
    ensures |parts| >= 1
    ensures |parts| == 1 <==> sep !in s
    ensures forall k :: 0 <= k < |parts| ==> sep !in parts[k]
    decreases |s|
  {
    if s == [] then [""]
    else if s[0] == sep then [""] + Split(s[1..], sep)
    else
      var rest := Split(s[1..], sep);
      [[s[0]] + rest[0]] + rest[1..]
  }

  /** Python's `sep.join(parts)`. */
  function Join(parts: seq<string>, sep: char): string
    requires |parts| >= 1
    decreases |parts|
  {
    if |parts| == 1 then parts[0] else parts[0] + [sep] + Join(parts[1..], sep)
  }

  /** Splitting loses nothing: joining the pieces gives the string back. */
  lemma {:induction false} JoinSplit(s: string, sep: char)
    ensures Join(Split(s, sep), sep) == s
    decreases |s|
  {
    if s == [] {
    } else if s[0] == sep {
      JoinSplit(s[1..], sep);
      assert Split(s, sep)[1..] == Split(s[1..], sep);
    } else {
      JoinSplit(s[1..], sep);
      var rest := Split(s[1..], sep);
      var parts := Split(s, sep);
      assert parts == [[s[0]] + rest[0]] + rest[1..];
      assert parts[0] == [s[0]] + rest[0];
      assert parts[1..] == rest[1..];
      if |rest| == 1 {
        assert Join(rest, sep) == rest[0];
        assert Join(parts, sep) == [s[0]] + rest[0];
      } else {
        assert Join(rest, sep) == rest[0] + [sep] + Join(rest[1..], sep);
        assert Join(parts, sep) == parts[0] + [sep] + Join(parts[1..], sep);
      }
      assert [s[0]] + s[1..] == s;
    }
  }

  /** Python's `s.split(sep)[-1]`: the text after the last separator. */
  function LastPiece(s: string, sep: char): (r: string)
    ensures sep !in r
  {
    var parts := Split(s, sep);
    parts[|parts| - 1]
  }

  lemma {:induction false} LastPieceIsSuffix(s: string, sep: char)
    ensures |LastPiece(s, sep)| <= |s| && s[|s| - |LastPiece(s, sep)|..] == LastPiece(s, sep)
    ensures |LastPiece(s, sep)| < |s| ==> s[|s| - |LastPiece(s, sep)| - 1] == sep
    ensures sep !in s ==> LastPiece(s, sep) == s
    decreases |s|
  {
    if s != [] {
      LastPieceIsSuffix(s[1..], sep);
      var rest := Split(s[1..], sep);
      var parts := Split(s, sep);
      var l := LastPiece(s[1..], sep);
      if s[0] == sep {
        assert parts[|parts| - 1] == rest[|rest| - 1];
        assert LastPiece(s, sep) == l;
        assert s[|s| - |l|..] == s[1..][|s[1..]| - |l|..];
      } else if |rest| > 1 {
        assert parts[|parts| - 1] == rest[|rest| - 1];
        assert LastPiece(s, sep) == l;
        assert sep in s[1..];
        assert |l| < |s[1..]|;
        assert s[|s| - |l|..] == s[1..][|s[1..]| - |l|..];
        assert s[|s| - |l| - 1] == s[1..][|s[1..]| - |l| - 1];
      } else {
        assert sep !in s[1..];
        assert l == s[1..];
        assert LastPiece(s, sep) == [s[0]] + l;
        assert [s[0]] + s[1..] == s;
      }
    }
  }

  /** The payload of a data URL, `s.split(',')[1]` after a `data:` prefix;
      a missing comma is an error (Python raises IndexError). */
  function StripDataUrl(payload: string): (r: Result<string>)
    ensures !StartsWith(payload, "data:") ==> r == Ok(payload)
    ensures StartsWith(payload, "data:") ==> (r.Ok? <==> ',' in payload)
    ensures StartsWith(payload, "data:") && r.Ok? ==> ',' !in r.value
  {
    if StartsWith(payload, "data:") then
      var parts := Split(payload, ',');
      if |parts| >= 2 then Ok(parts[1]) else Err("list index out of range")
    else Ok(payload)
  }

  /** Splitting `head + "," + tail` where `head` has no comma gives `head`
      followed by the pieces of `tail`. */
  lemma {:induction false} SplitAtFirst(head: string, tail: string, sep: char)
    requires sep !in head
    ensures Split(head + [sep] + tail, sep) == [head] + Split(tail, sep)
    decreases |head|
  {
    if head == [] {
      assert head + [sep] + tail == [sep] + tail;
      assert ([sep] + tail)[1..] == tail;
    } else {
      var s := head + [sep] + tail;
      assert s[0] == head[0];
      assert s[1..] == head[1..] + [sep] + tail;
      SplitAtFirst(head[1..], tail, sep);
      assert [head[0]] + head[1..] == head;
    }
  }

  /** A data URL `"data:<type>;base64,<payload>"` gives back its payload. */
  lemma DataUrlRoundTrip(header: string, payload: string)
    requires StartsWith(header, "data:") && ',' !in header && ',' !in payload
    ensures StripDataUrl(header + [','] + payload) == Ok(payload)
  {
    var s := header + [','] + payload;
    assert s[..5] == header[..5];
    SplitAtFirst(header, payload, ',');
    JoinSplit(payload, ',');
    assert Split(payload, ',') == [payload];
  }

  /** Joining pieces that hold no separator and splitting again gives the
      pieces back. */
  lemma {:induction false} SplitJoin(parts: seq<string>, sep: char)
    requires |parts| >= 1
    requires forall k :: 0 <= k < |parts| ==> sep !in parts[k]
    ensures Split(Join(parts, sep), sep) == parts
    decreases |parts|
  {
    if |parts| == 1 {
      JoinSplit(parts[0], sep);
    } else {
      SplitJoin(parts[1..], sep);
      SplitAtFirst(parts[0], Join(parts[1..], sep), sep);
      assert [parts[0]] + parts[1..] == parts;
    }
  }

  /** The last piece of `a + sep + b` is the last piece of `b`. */
  lemma {:induction false} LastPieceAfter(a: string, b: string, sep: char)
    ensures LastPiece(a + [sep] + b, sep) == LastPiece(b, sep)
    decreases |a|
  {
    var s := a + [sep] + b;
    if a == [] {
      assert s == [sep] + b && s[1..] == b;
    } else {
      assert s[0] == a[0];
      assert s[1..] == a[1..] + [sep] + b;
      LastPieceAfter(a[1..], b, sep);
      if a[0] != sep {
        assert s[1..][|a| - 1] == sep;
      }
    }
  }

  /** A name whose last separator is followed by `ext` ends in the piece `ext`. */
  lemma LastPieceOf(a: string, ext: string, sep: char)
    requires sep !in ext
    ensures LastPiece(a + [sep] + ext, sep) == ext
  {
    LastPieceAfter(a, ext, sep);
    JoinSplit(ext, sep);
  }

  /** Lower-casing text without capitals changes nothing. */
  lemma LowerNoCapitals(s: string)
    requires forall i :: 0 <= i < |s| ==> !('A' <= s[i] <= 'Z')
    ensures Lower(s) == s
  {
  }
}
