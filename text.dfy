/** The few Python string operations the trading core relies on, over ASCII:
    negative-index slicing of a symbol, `str.upper`, `str.title`,
    `str.split(sep)` and `sep.join`. */
module Text {

  /** `s[-k:]`: the last k characters, or all of s when it is shorter. */
  function TakeLast(s: string, k: nat): string {
    if |s| >= k then s[|s| - k..] else s
  }

  /** `s[:-k]`: everything but the last k characters, or "" when s is shorter. */
  function DropLast(s: string, k: nat): string {
    if |s| >= k then s[..|s| - k] else ""
  }

  /** Slicing a symbol at the same offset gives back the whole symbol. */
  lemma DropLastTakeLast(s: string, k: nat)
    ensures DropLast(s, k) + TakeLast(s, k) == s
    ensures |TakeLast(s, k)| == if |s| >= k then k else |s|
  {
  }

  predicate IsLower(c: char) { 'a' <= c <= 'z' }
  predicate IsUpper(c: char) { 'A' <= c <= 'Z' }
  /** A character that has case (Python's "cased"), restricted to ASCII letters. */
  predicate IsCased(c: char) { IsLower(c) || IsUpper(c) }

  function ToUpper(c: char): (r: char)
    ensures IsCased(r) == IsCased(c)
  {
    if IsLower(c) then (c as int - 32) as char else c
  }

  function ToLower(c: char): (r: char)
    ensures IsCased(r) == IsCased(c)
  {
    if IsUpper(c) then (c as int + 32) as char else c
  }

  /** `str.upper()` */
  function Upper(s: string): (r: string)
    ensures |r| == |s|
    ensures forall i :: 0 <= i < |s| ==> r[i] == ToUpper(s[i])
  {
    if s == [] then [] else [ToUpper(s[0])] + Upper(s[1..])
  }

  /** `str.title()` continued after a character whose casedness is `prevCased`:
      a cased character is upper-cased when it follows an uncased one and
      lower-cased otherwise; every other character is kept. */
  function TitleFrom(s: string, prevCased: bool): (r: string)
    ensures |r| == |s|
    decreases |s|
  {
    if s == [] then []
    else
      var c := s[0];
      [if !IsCased(c) then c else if prevCased then ToLower(c) else ToUpper(c)]
        + TitleFrom(s[1..], IsCased(c))
  }

  /** `str.title()` */
  function Title(s: string): string {
    TitleFrom(s, false)
  }

  /** `s.split(sep)`: always at least one part; consecutive or trailing
      separators give empty parts. */
  function Split(s: string, sep: char): (parts: seq<string>)
    ensures |parts| >= 1
    decreases |s|
  {
    if s == [] then [""]
    else
      var rest := Split(s[1..], sep);
      if s[0] == sep then [""] + rest
      else [[s[0]] + rest[0]] + rest[1..]
  }

  /** `sep.join(parts)` */
  function Join(parts: seq<string>, sep: char): string
    requires |parts| >= 1
    decreases |parts|
  {
    if |parts| == 1 then parts[0] else parts[0] + [sep] + Join(parts[1..], sep)
  }

  /** `''.join(parts)` */
  function Concat(parts: seq<string>): string
    decreases |parts|
  {
    if parts == [] then "" else parts[0] + Concat(parts[1..])
  }

  /** Splitting and joining with the same separator gives the string back. */
  lemma {:induction false} JoinSplit(s: string, sep: char)
    ensures Join(Split(s, sep), sep) == s
    decreases |s|
  {
    if s != [] {
      JoinSplit(s[1..], sep);
      var rest := Split(s[1..], sep);
      if s[0] != sep {
        if |rest| == 1 {
          assert Join(Split(s, sep), sep) == [s[0]] + rest[0];
        } else {
          assert Split(s, sep)[1..] == rest[1..];
          assert Join(Split(s, sep), sep) == [s[0]] + rest[0] + [sep] + Join(rest[1..], sep);
        }
      } else {
        assert Split(s, sep)[1..] == rest;
      }
    }
  }

  /** No part of a split contains the separator. */
  lemma {:induction false} SplitPartsFree(s: string, sep: char)
    ensures forall i, j :: 0 <= i < |Split(s, sep)| && 0 <= j < |Split(s, sep)[i]| ==> Split(s, sep)[i][j] != sep
    decreases |s|
  {
    if s != [] {
      SplitPartsFree(s[1..], sep);
      var rest := Split(s[1..], sep);
      var parts := Split(s, sep);
      if s[0] != sep {
        forall i, j | 0 <= i < |parts| && 0 <= j < |parts[i]| ensures parts[i][j] != sep {
          if i == 0 {
            if j > 0 { assert parts[0][j] == rest[0][j - 1]; }
          } else {
            assert parts[i] == rest[i];
          }
        }
      } else {
        forall i, j | 0 <= i < |parts| && 0 <= j < |parts[i]| ensures parts[i][j] != sep {
          assert i > 0 && parts[i] == rest[i - 1];
        }
      }
    }
  }

  predicate Free(w: string, sep: char) {
    forall j :: 0 <= j < |w| ==> w[j] != sep
  }

  /** Joining parts that do not contain the separator and splitting again gives
      the parts back. */
  lemma {:induction false} SplitJoin(parts: seq<string>, sep: char)
    requires |parts| >= 1
    requires forall i :: 0 <= i < |parts| ==> Free(parts[i], sep)
    ensures Split(Join(parts, sep), sep) == parts
    decreases |parts|, |parts[0]|
  {
    var w := parts[0];
    if w == [] {
      if |parts| > 1 {
        SplitJoin(parts[1..], sep);
        assert Join(parts, sep) == [sep] + Join(parts[1..], sep);
        assert ([sep] + Join(parts[1..], sep))[1..] == Join(parts[1..], sep);
      }
    } else {
      var tail := [w[1..]] + parts[1..];
      assert Free(w[1..], sep) by { assert forall j :: 0 <= j < |w[1..]| ==> w[1..][j] == w[j + 1]; }
      assert forall i :: 0 <= i < |tail| ==> Free(tail[i], sep) by {
        forall i | 0 <= i < |tail| ensures Free(tail[i], sep) {
          if i > 0 { assert tail[i] == parts[i]; }
        }
      }
      SplitJoin(tail, sep);
      var j := Join(parts, sep);
      if |parts| == 1 {
        assert j == w && j[1..] == Join(tail, sep);
      } else {
        assert tail[1..] == parts[1..];
        assert j == [w[0]] + (w[1..] + [sep] + Join(parts[1..], sep));
        assert j[1..] == Join(tail, sep);
      }
      assert j[0] == w[0] && w[0] != sep;
      assert Split(j, sep) == [[w[0]] + tail[0]] + tail[1..];
      assert [w[0]] + w[1..] == w;
      assert [w] + parts[1..] == parts;
    }
  }
}
